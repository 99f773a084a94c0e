/** What the holder's clock measures: a port is called a stranger's only when
    everything said about it for the whole grace said so. */
module HolderClock {
  import opened Common
  import opened Controller
  import opened Grounds
  import opened StatusDocument
  import opened Sampler
  import opened Runs
  import RunWalks

  /** Tick `t` classified the holder as `who` at `at`, before it decided: by the
      "Take port" button, a document it read first, or a healthy answer. */
  predicate SaysEarly(t: Moment, who: Holder, at: real) {
    || (t.world.takePort && who == OursStale && at == t.world.clock.began)
    || (t.ReadsEarly() && who == HolderFrom(t.world.boot.document) && at == t.world.clock.bootRead)
    || (t.Answers() && t.world.probe.health.Healthy? && who == OursHealthy && at == t.world.clock.probeRead)
  }

  /** Or afterwards, by the document it asked for. */
  predicate Says(t: Moment, who: Holder, at: real) {
    SaysEarly(t, who, at) || (t.ReadsLate() && who == HolderFrom(t.world.reread.document) && at == t.world.clock.reread)
  }

  ghost predicate TracksHolder(r: seq<Moment>) {
    && (|r| > 0 ==> r[0].before.holder == HolderNote(Holder.Unknown, r[0].before.started)
                    && r[0].before.started <= r[0].world.clock.began)
    && (forall i :: 0 < i < |r| ==> r[i].before.holder == HolderAfter(r[i - 1]))
    && (forall i :: 0 <= i < |r| ==>
          && r[i].look.holder == HolderSeen(r[i]).who
          && r[i].look.holderAge == r[i].world.clock.observed - HolderSeen(r[i]).since)
    && InOrder(r)
  }

  lemma RunTracksHolder(r: seq<Moment>)
    requires Tracked(r)
    ensures TracksHolder(r)
  {
    hide HolderSeen, HolderAfter, InOrder, Lawful, ShowsPaper, Samples;
    forall i | 0 < i < |r|
      ensures r[i].before.holder == HolderAfter(r[i - 1])
    {
      assert Leaves(r[i - 1], r[i].before);
    }
    forall i | 0 <= i < |r|
      ensures r[i].look.holder == HolderSeen(r[i]).who
      ensures r[i].look.holderAge == r[i].world.clock.observed - HolderSeen(r[i]).since
    {
      assert Shows(r[i]);
    }
  }

  /** Whatever the first `n` ticks said later than the note was made agrees with
      it, and the note was made by one of them -- or is the first of all. */
  ghost predicate NoteIsHistory(r: seq<Moment>, n: nat, note: HolderNote)
    requires n <= |r|
  {
    && (forall k, who, at :: 0 <= k < n && Says(r[k], who, at) && at > note.since ==> who == note.who)
    && (note.who.Unknown? || exists k :: 0 <= k < n && Says(r[k], note.who, note.since))
  }

  lemma SaysInTime(t: Moment, who: Holder, at: real)
    requires t.world.clock.Ordered() && Says(t, who, at)
    ensures t.world.clock.began <= at <= t.world.clock.reread
    ensures SaysEarly(t, who, at) ==> at <= t.world.clock.observed
  {
  }

  /** Said on tick `t` before it decided, or on an earlier tick in agreement with
      what the window remembers. */
  predicate Heard(t: Moment, who: Holder, at: real) {
    || SaysEarly(t, who, at)
    || (at <= t.world.clock.began && (at > t.before.holder.since ==> who == t.before.holder.who))
  }

  lemma SeenNote(t: Moment, who: Holder, at: real)
    requires t.world.clock.Ordered() && Heard(t, who, at) && t.before.holder.since <= t.world.clock.began
    ensures at > HolderSeen(t).since ==> who == HolderSeen(t).who
  {
    hide HolderFrom;
  }

  lemma SeenIsMade(t: Moment)
    requires t.world.clock.Ordered() && t.before.holder.since <= t.world.clock.began
    ensures HolderSeen(t) == t.before.holder || SaysEarly(t, HolderSeen(t).who, HolderSeen(t).since)
    ensures HolderSeen(t).since <= t.world.clock.observed
  {
    hide HolderFrom;
  }

  lemma AfterNote(t: Moment, who: Holder, at: real)
    requires t.world.clock.Ordered() && t.before.holder.since <= t.world.clock.began
    requires Heard(t, who, at) || Says(t, who, at)
    ensures at > HolderAfter(t).since ==> who == HolderAfter(t).who
  {
    hide HolderFrom, HolderSeen;
    SeenIsMade(t);
    if Heard(t, who, at) {
      SeenNote(t, who, at);
      assert at <= t.world.clock.observed;
    }
  }

  lemma AfterIsMade(t: Moment)
    requires t.world.clock.Ordered() && t.before.holder.since <= t.world.clock.began
    ensures HolderAfter(t) == t.before.holder || Says(t, HolderAfter(t).who, HolderAfter(t).since)
    ensures HolderAfter(t).since <= t.world.clock.reread
  {
    hide HolderFrom, HolderSeen, SaysEarly;
    SeenIsMade(t);
  }

  /** What tick `n` starts from is the history of the ticks before it. */
  lemma {:induction false} NoteHistory(r: seq<Moment>, n: nat)
    requires TracksHolder(r) && n < |r|
    ensures NoteIsHistory(r, n, r[n].before.holder) && r[n].before.holder.since <= r[n].world.clock.began
  {
    hide HolderAfter, Says, SaysEarly;
    if n > 0 {
      var m := n - 1;
      var t, note := r[m], r[n].before.holder;
      NoteHistory(r, m);
      assert note == HolderAfter(t) && t.world.clock.Ordered();
      AfterIsMade(t);
      forall k, who, at | 0 <= k < n && Says(r[k], who, at) && at > note.since
        ensures who == note.who
      {
        if k < m {
          SaysInTime(r[k], who, at);
        }
        AfterNote(t, who, at);
      }
      NoteIsMade(r, n);
    }
  }

  lemma NoteIsMade(r: seq<Moment>, n: nat)
    requires 0 < n < |r|
    requires NoteIsHistory(r, n - 1, r[n - 1].before.holder)
    requires var note := r[n].before.holder; note == r[n - 1].before.holder || Says(r[n - 1], note.who, note.since)
    ensures var note := r[n].before.holder;
            note.who.Unknown? || exists k :: 0 <= k < n && Says(r[k], note.who, note.since)
  {
    hide Says;
    var m, note := n - 1, r[n].before.holder;
    if Says(r[m], note.who, note.since) {
    } else if !note.who.Unknown? {
      var k :| 0 <= k < m && Says(r[k], note.who, note.since);
    }
  }

  /** By the time tick `i` decides, `who` has been said at `at`. */
  ghost predicate SaidBy(r: seq<Moment>, i: nat, who: Holder, at: real)
    requires i < |r|
  {
    SaysEarly(r[i], who, at) || exists k :: 0 <= k < i && Says(r[k], who, at)
  }

  /** The port was called a stranger's at some moment at least the grace ago, and
      everything said since then agrees. */
  ghost predicate ForeignThroughout(r: seq<Moment>, i: nat, since: real)
    requires i < |r|
  {
    && SaidBy(r, i, Holder.Foreign, since)
    && r[i].world.clock.observed - since >= Max(r[i].look.facts.foreignGraceSeconds, 0.0)
    && (forall who, at :: SaidBy(r, i, who, at) && at > since ==> who.Foreign?)
  }

  lemma ConfirmedIsForeignThroughout(r: seq<Moment>, i: nat)
    requires TracksHolder(r) && i < |r| && StrangerConfirmed(r[i].look)
    ensures ForeignThroughout(r, i, HolderSeen(r[i]).since)
  {
    hide HolderSeen, HolderAfter, Says, SaysEarly;
    var t := r[i];
    var note := HolderSeen(t);
    NoteHistory(r, i);
    assert t.world.clock.Ordered() && t.look.holder == note.who;
    SeenIsMade(t);
    forall who, at | SaidBy(r, i, who, at) && at > note.since
      ensures who.Foreign?
    {
      if !SaysEarly(t, who, at) {
        var k :| 0 <= k < i && Says(r[k], who, at);
        SaysInTime(r[k], who, at);
      }
      SeenNote(t, who, at);
    }
  }

  /** In every run, the window enters "the port is a stranger's" only when every
      classification over the whole foreign grace said so. */
  lemma StrangersAreConfirmed(r: seq<Moment>, i: nat)
    requires IsRun(r) && i < |r|
    requires r[i].next == State.Blocked(ForeignPort) && r[i].before.state != r[i].next
    ensures exists since :: ForeignThroughout(r, i, since)
  {
    hide IsRun, TracksHolder, ForeignThroughout, Tracked;
    RunIsTracked(r);
    RunTracksHolder(r);
    RunWalks.RunStatesStandOnEvidence(r, i);
    ConfirmedIsForeignThroughout(r, i);
  }
}
