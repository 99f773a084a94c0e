/** What every start and every rescue of a run rests on: an OS answer about the
    port, its order among the probes, and its age. */
module Evidence {
  import opened Common
  import opened Controller
  import opened Grounds
  import opened ControllerLaws
  import opened StatusDocument
  import opened Sampler
  import opened Runs

  /** How the port facts of a run move, and what each tick sees of them. */
  ghost predicate TracksPort(r: seq<Moment>) {
    && (|r| > 0 ==> r[0].before.port.readAt.None?)
    && (forall i :: 0 < i < |r| ==> r[i].before.port == PortAfter(r[i - 1]))
    && (forall i :: 0 <= i < |r| ==>
          && r[i].look.listener == PortSeen(r[i]).listener
          && r[i].look.listenerFresh
             == ListenerFresh(PortSeen(r[i]), r[i].look.facts.tickSeconds, r[i].world.clock.observed))
    && InOrder(r)
  }

  lemma RunTracksPort(r: seq<Moment>)
    requires Tracked(r)
    ensures TracksPort(r)
  {
    forall i | 0 < i < |r|
      ensures r[i].before.port == PortAfter(r[i - 1])
    {
      assert Leaves(r[i - 1], r[i].before);
    }
  }

  /** A document read during this tick, at `at`, reported this listener. */
  predicate ReadSaid(t: Moment, listener: Listener, at: real) {
    || (t.ReadsEarly() && listener == ListenerFrom(t.world.boot.document) && at == t.world.clock.bootRead)
    || (t.ReadsLate() && listener == ListenerFrom(t.world.reread.document) && at == t.world.clock.reread)
  }

  predicate ReadNoLater(t: Moment, at: real) {
    && (t.ReadsEarly() ==> t.world.clock.bootRead <= at)
    && (t.ReadsLate() ==> t.world.clock.reread <= at)
  }

  ghost predicate NoSpawns(r: seq<Moment>, from: int, to: int) {
    forall k :: 0 <= from <= k < to <= |r| ==> !r[k].Spawns()
  }

  /** `port` is what the first `n` ticks of the run said about the port: no
      answer is newer than the last one remembered, and the listener comes from
      the newest document of all, with no server started since. */
  ghost predicate PortIsHistory(r: seq<Moment>, n: nat, port: Port)
    requires n <= |r|
  {
    && (forall k :: 0 <= k < n && r[k].Answers() ==>
          port.lastAnswer.Some? && port.lastAnswer.value >= r[k].world.clock.probeRead)
    && (port.readAt.Some? ==>
          && (exists j :: 0 <= j < n && ReadSaid(r[j], port.listener, port.readAt.value) && NoSpawns(r, j, n))
          && (forall k :: 0 <= k < n ==> ReadNoLater(r[k], port.readAt.value)))
  }

  lemma AnswersAreRemembered(r: seq<Moment>, n: nat)
    requires TracksPort(r) && 0 < n < |r|
    requires PortIsHistory(r, n - 1, r[n - 1].before.port)
    ensures forall k :: 0 <= k < n && r[k].Answers() ==>
              r[n].before.port.lastAnswer.Some?
              && r[n].before.port.lastAnswer.value >= r[k].world.clock.probeRead
  {
    hide ListenerFrom, ListenerFresh;
    assert r[n].before.port == PortAfter(r[n - 1]);
  }

  lemma ReadsAreRemembered(r: seq<Moment>, n: nat)
    requires TracksPort(r) && 0 < n < |r|
    requires PortIsHistory(r, n - 1, r[n - 1].before.port)
    requires r[n].before.port.readAt.Some?
    ensures forall k :: 0 <= k < n ==> ReadNoLater(r[k], r[n].before.port.readAt.value)
  {
    hide ListenerFrom, ListenerFresh;
    assert r[n].before.port == PortAfter(r[n - 1]);
  }

  lemma PortHistoryGrows(r: seq<Moment>, n: nat)
    requires TracksPort(r) && 0 < n < |r|
    requires PortIsHistory(r, n - 1, r[n - 1].before.port)
    ensures PortIsHistory(r, n, r[n].before.port)
  {
    hide ListenerFrom, ListenerFresh, InOrder, ReadNoLater;
    var t := r[n - 1];
    var was, port := t.before.port, r[n].before.port;
    assert port == PortAfter(t);
    AnswersAreRemembered(r, n);
    if port.readAt.Some? {
      ReadsAreRemembered(r, n);
      var at := port.readAt.value;
      if t.ReadsLate() || t.ReadsEarly() {
        assert ReadSaid(t, port.listener, at) && NoSpawns(r, n - 1, n);
      } else {
        var j :| 0 <= j < n - 1 && ReadSaid(r[j], was.listener, was.readAt.value) && NoSpawns(r, j, n - 1);
        assert ReadSaid(r[j], port.listener, at) && NoSpawns(r, j, n);
      }
    }
  }

  lemma {:induction false} PortHistory(r: seq<Moment>, n: nat)
    requires TracksPort(r) && n < |r|
    ensures PortIsHistory(r, n, r[n].before.port)
  {
    if n > 0 {
      PortHistory(r, n - 1);
      PortHistoryGrows(r, n);
    }
  }

  /** The evidence tick `i` acts on: a document that said nothing listens, the
      newest one read, read after everything that ever answered and after the
      last start, and no older than two ticks. */
  ghost predicate ProvenBy(r: seq<Moment>, i: nat, j: int, at: real)
    requires i < |r|
  {
    && 0 <= j <= i
    && ReadSaid(r[j], Listener.Free, at)
    && NoSpawns(r, j, i)
    && (forall k :: 0 <= k <= i && r[k].Answers() ==> r[k].world.clock.probeRead < at)
    && (forall k :: 0 <= k < i ==> ReadNoLater(r[k], at))
    && 0.0 <= r[i].world.clock.observed - at <= 2.0 * Max(r[i].look.facts.tickSeconds, 1.0)
  }

  /** A listener that reads as fresh is newer than everything that answered. */
  lemma NewerThanAnswers(r: seq<Moment>, i: nat)
    requires TracksPort(r) && i < |r| && r[i].look.listenerFresh
    requires PortIsHistory(r, i, r[i].before.port)
    ensures forall k :: 0 <= k <= i && r[k].Answers() ==>
              r[k].world.clock.probeRead < PortSeen(r[i]).readAt.value
  {
    hide ListenerFrom;
    var seen := PortSeen(r[i]);
    assert forall k :: 0 <= k < i && r[k].Answers() ==> r[k].world.clock.probeRead <= r[i].before.port.lastAnswer.value;
    assert InOrder(r) && r[i].world.clock.Ordered();
  }

  lemma FreeIsProven(r: seq<Moment>, i: nat)
    requires TracksPort(r) && i < |r|
    requires r[i].look.listener.Free? && r[i].look.listenerFresh
    ensures exists j, at :: ProvenBy(r, i, j, at)
  {
    var t := r[i];
    PortHistory(r, i);
    NewerThanAnswers(r, i);
    var at := PortSeen(t).readAt.value;
    if t.ReadsEarly() {
      assert ReadSaid(t, Listener.Free, at) && NoSpawns(r, i, i);
      assert forall k :: 0 <= k < i ==> ReadNoLater(r[k], at);
      assert ProvenBy(r, i, i, at);
    } else {
      var j :| 0 <= j < i && ReadSaid(r[j], Listener.Free, at) && NoSpawns(r, j, i);
      assert at <= t.world.clock.observed;
      assert ProvenBy(r, i, j, at);
    }
  }

  /** In every run, each rescue and each start outside `Rescuing` happens on a
      fresh tick whose probe completed no handshake, on proof that nothing
      listens. */
  lemma ActsOnFreshEvidence(r: seq<Moment>, i: nat, e: Effect)
    requires IsRun(r) && i < |r|
    requires e in r[i].effects && (e.Rescue? || (e.Spawn? && !r[i].before.state.Rescuing?))
    ensures exists j, at :: ProvenBy(r, i, j, at)
    ensures r[i].look.isFresh && !r[i].Handshake()
  {
    hide IsRun, ProvenBy, TracksPort, Enough, Moves;
    RunIsTracked(r);
    RunTracksPort(r);
    assert DoesWhatItLists(r[i]) && Lawful(r[i]) && Shows(r[i]);
    FreeIsProven(r, i);
  }
}
