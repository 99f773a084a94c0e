/** How far apart the starts of a run are. */
module Spacing {
  import opened Common
  import opened Controller
  import opened ControllerLaws
  import opened Grounds
  import opened Sampler
  import opened Runs
  import opened Licence

  ghost predicate TracksStarts(r: seq<Moment>) {
    && (forall i :: 0 < i < |r| ==> r[i].before.starts == StartsAfter(r[i - 1]))
    && (forall i :: 0 <= i < |r| ==> StartLaw(r[i]))
    && InOrder(r)
  }

  /** The least wait the settings of tick `t` ask for between two starts. */
  function LeastWait(t: Moment): real {
    Max(Max(t.look.facts.startBackoffSeconds, 1.0), t.look.facts.busyGraceSeconds)
  }

  predicate StartLaw(t: Moment) {
    t.Rescues() || (t.Spawns() && !t.before.state.Rescuing?) ==>
      Waited(Age(StartsSeen(t).last, t.world.clock.observed), LeastWait(t))
  }

  lemma LawfulStart(t: Moment)
    requires Lawful(t) && Shows(t)
    ensures StartLaw(t)
  {
    hide StartsSeen, DeskSeen, ContactSeen, PortSeen, ChildSeen, HolderSeen, Moves, ShowsPaper, Samples, Enough, IsDead;
    hide NothingAnswers, ProvenFree, StrangerConfirmed;
  }

  lemma RunTracksStarts(r: seq<Moment>)
    requires Tracked(r)
    ensures TracksStarts(r)
  {
    hide StartsAfter, Lawful, Shows, StartLaw, InOrder;
    forall i | 0 < i < |r|
      ensures r[i].before.starts == StartsAfter(r[i - 1])
    {
      assert Leaves(r[i - 1], r[i].before);
    }
    forall i | 0 <= i < |r|
      ensures StartLaw(r[i])
    {
      LawfulStart(r[i]);
    }
  }

  /** Nobody pressed "Take port", which forgets the last start. */
  ghost predicate Unpressed(r: seq<Moment>, from: int, to: int) {
    forall k :: 0 <= from <= k < to <= |r| ==> !r[k].world.takePort
  }

  lemma {:induction false} StartIsRemembered(r: seq<Moment>, s: nat, n: nat)
    requires TracksStarts(r) && s < n < |r| && r[s].Spawns() && Unpressed(r, s + 1, n)
    ensures var last := r[n].before.starts.last;
            last.Some? && last.value >= r[s].world.clock.applied
    decreases n
  {
    var t := r[n - 1];
    assert r[n].before.starts == StartsAfter(t);
    if s < n - 1 {
      StartIsRemembered(r, s, n - 1);
      assert !t.world.takePort;
      assert InOrder(r) && t.world.clock.Ordered() && r[s].world.clock.Ordered();
      assert r[s].world.clock.reread <= t.world.clock.began;
    }
  }

  /** A tick that decides to start or to rescue waited out the start before. */
  lemma DecisionWaits(r: seq<Moment>, s: nat, d: nat)
    requires TracksStarts(r) && s < d < |r| && r[s].Spawns() && Unpressed(r, s + 1, d + 1)
    requires r[d].Rescues() || (r[d].Spawns() && !r[d].before.state.Rescuing?)
    ensures r[d].world.clock.observed - r[s].world.clock.applied >= LeastWait(r[d])
  {
    StartIsRemembered(r, s, d);
    assert StartLaw(r[d]) && !r[d].world.takePort;
  }

  /** Tick `d` is where the start of tick `i` was decided: that tick itself, or
      the rescue it follows. */
  ghost predicate DecidedAt(r: seq<Moment>, d: int, i: nat)
    requires i < |r|
  {
    0 <= d <= i && (d == i || (r[d].Rescues() && r[i].before.state.Rescuing? && Quiet(r, d + 1, i)))
  }

  /** In every run, with no "Take port" press between them, any two starts are
      at least the backoff (never under a second) and the grace apart, by the
      settings of the tick that decided the later one -- although the start
      that follows a rescue does not look at the backoff itself. */
  lemma StartsAreSpaced(r: seq<Moment>, s: nat, i: nat)
    requires IsRun(r) && s < i < |r|
    requires Spawn in r[s].effects && Spawn in r[i].effects && Unpressed(r, s + 1, i + 1)
    ensures exists d :: s < d && DecidedAt(r, d, i)
                        && r[i].world.clock.applied - r[s].world.clock.applied >= LeastWait(r[d])
  {
    hide IsRun, TracksStarts, Unpressed, DecidedAt;
    RunIsTracked(r);
    assert DoesWhatItLists(r[s]) && DoesWhatItLists(r[i]);
    RunTracksStarts(r);
    RunTracksDesk(r);
    SpacedWithin(r, s, i);
  }

  lemma SpacedWithin(r: seq<Moment>, s: nat, i: nat)
    requires TracksStarts(r) && TracksDesk(r) && s < i < |r|
    requires r[s].Spawns() && r[i].Spawns() && Unpressed(r, s + 1, i + 1)
    ensures exists d :: s < d && DecidedAt(r, d, i)
                        && r[i].world.clock.applied - r[s].world.clock.applied >= LeastWait(r[d])
  {
    var d := i;
    if r[i].before.state.Rescuing? {
      ReportLicenses(r, i);
      var j, k :| LicensedBy(r, i, j, k);
      d := j;
    }
    assert DecidedAt(r, d, i) && s < d;
    DecisionWaits(r, s, d);
    assert r[d].world.clock.Ordered() && r[i].world.clock.Ordered();
    assert d < i ==> r[d].world.clock.reread <= r[i].world.clock.began;
  }

  /** With settings that never change this is one number. */
  lemma StartsAreSpacedUnderFixedSettings(r: seq<Moment>, s: nat, i: nat, f: Facts)
    requires IsRun(r) && s < i < |r|
    requires forall k :: 0 <= k < |r| ==> r[k].look.facts == f
    requires Spawn in r[s].effects && Spawn in r[i].effects && Unpressed(r, s + 1, i + 1)
    ensures r[i].world.clock.applied - r[s].world.clock.applied
            >= Max(Max(f.startBackoffSeconds, 1.0), f.busyGraceSeconds)
  {
    StartsAreSpaced(r, s, i);
    var d :| s < d && DecidedAt(r, d, i)
             && r[i].world.clock.applied - r[s].world.clock.applied >= LeastWait(r[d]);
    assert r[d].look.facts == f;
  }

  // ---- rescues ------------------------------------------------------------------

  ghost predicate TracksRescues(r: seq<Moment>) {
    && (forall i :: 0 < i < |r| ==> r[i].before.desk == DeskAfter(r[i - 1]))
    && (forall i :: 0 <= i < |r| ==> RescueLaw(r[i]))
    && InOrder(r)
  }

  predicate RescueLaw(t: Moment) {
    t.Rescues() ==>
      Waited(Age(DeskSeen(t).asked, t.world.clock.observed), Max(t.look.facts.startBackoffSeconds, 1.0))
  }

  lemma LawfulRescue(t: Moment)
    requires Lawful(t) && Shows(t)
    ensures RescueLaw(t)
  {
    hide StartsSeen, DeskSeen, ContactSeen, PortSeen, ChildSeen, HolderSeen, Moves, ShowsPaper, Samples, Enough, IsDead;
    hide NothingAnswers, ProvenFree, StrangerConfirmed, Rested;
  }

  lemma RunTracksRescues(r: seq<Moment>)
    requires Tracked(r)
    ensures TracksRescues(r)
  {
    hide DeskAfter, Lawful, Shows, RescueLaw, InOrder;
    forall i | 0 < i < |r|
      ensures r[i].before.desk == DeskAfter(r[i - 1])
    {
      assert Leaves(r[i - 1], r[i].before);
    }
    forall i | 0 <= i < |r|
      ensures RescueLaw(r[i])
    {
      LawfulRescue(r[i]);
    }
  }

  lemma {:induction false} RescueIsRemembered(r: seq<Moment>, s: nat, n: nat)
    requires TracksRescues(r) && s < n < |r| && r[s].Rescues()
    ensures var asked := r[n].before.desk.asked;
            asked.Some? && asked.value >= r[s].world.clock.applied
    decreases n
  {
    hide RescueLaw, RequestOf;
    var t := r[n - 1];
    assert r[n].before.desk == DeskAfter(t);
    if s < n - 1 {
      RescueIsRemembered(r, s, n - 1);
      assert t.world.clock.Ordered() && r[s].world.clock.Ordered();
      assert r[s].world.clock.reread <= t.world.clock.began;
    }
  }

  /** In every run any two rescues are at least the backoff apart, and never less
      than a second -- whatever was pressed or started between them. */
  lemma RescuesAreSpaced(r: seq<Moment>, s: nat, i: nat)
    requires IsRun(r) && s < i < |r| && r[s].Rescues() && r[i].Rescues()
    ensures r[i].world.clock.observed - r[s].world.clock.applied >= Max(r[i].look.facts.startBackoffSeconds, 1.0)
  {
    hide IsRun, Tracked;
    RunIsTracked(r);
    RunTracksRescues(r);
    RescueIsRemembered(r, s, i);
    assert RescueLaw(r[i]);
  }
}
