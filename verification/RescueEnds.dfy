/** Waiting for a rescue always ends: something is always on its way, its report
    is read on a tick that leaves, and a licence starts a server on that tick. */
module RescueEnds {
  import opened Common
  import opened Controller
  import opened Grounds
  import opened ControllerLaws
  import opened Table
  import opened Sampler
  import opened Runs
  import opened RunWalks
  import Licence

  /** In every run, in `Rescuing` a rescue is in flight or its report is there. */
  lemma RescuingAwaits(r: seq<Moment>, n: nat)
    requires IsRun(r) && n < |r| && r[n].before.state.Rescuing?
    ensures r[n].before.desk.inFlight.Some? || r[n].before.desk.report.Some?
  {
    hide IsRun, Tracked, Licence.TracksDesk;
    RunIsTracked(r);
    Licence.RunTracksDesk(r);
    Licence.DeskHistory(r, n);
  }

  lemma ReportIsLeft(state: State, o: Observation, now: real)
    requires state.Rescuing? && o.rescue.Done? && o.isFresh && !o.shellStale
    ensures !Step(state, o, now).state.Rescuing?
  {
    hide Step, InstallerNear, Shown;
    StepIsTheTables(state, o, now);
  }

  lemma ReportIsHeard(t: Moment)
    requires Shows(t)
    ensures t.Reports() ==> t.look.isFresh && DeskSeen(t).report.Some?
    ensures DeskSeen(t).report.Some? ==> t.look.rescue.Done?
  {
    hide ShowsPaper, ProbeInterval, PaperRead, ContactSeen, PortSeen, StartsSeen, ChildSeen, HolderSeen;
  }

  /** In every run, the tick on which a rescue reports is a fresh one; and any
      fresh tick with a report at hand leaves `Rescuing`, unless it is spent on
      fetching the pinned window. */
  lemma ReportsAreRead(r: seq<Moment>, i: nat)
    requires IsRun(r) && i < |r|
    ensures r[i].Reports() ==> r[i].look.isFresh && DeskSeen(r[i]).report.Some?
    ensures r[i].before.state.Rescuing? && DeskSeen(r[i]).report.Some? && r[i].look.isFresh && !r[i].look.shellStale ==>
              !r[i].next.Rescuing?
  {
    hide IsRun, Step, Shows, Lawful, DoesWhatItLists, DeskSeen, Leaves;
    RunIsTracked(r);
    RunSteps(r, i);
    ReportIsHeard(r[i]);
    if r[i].before.state.Rescuing? && DeskSeen(r[i]).report.Some? && r[i].look.isFresh && !r[i].look.shellStale {
      ReportIsLeft(r[i].before.state, r[i].look, r[i].At());
    }
  }

  ghost predicate TracksPin(r: seq<Moment>) {
    && (forall i :: 0 < i < |r| ==> r[i].before.paper == PaperAfter(r[i - 1]))
    && (forall i :: 0 <= i < |r| ==>
          && r[i].look.shellStale == StaleBy(PaperSeen(r[i]))
          && (r[i].look.shellStale ==> r[i].act == Some(EnsureShell)))
  }

  /** The document pins another release, and that was not seen to yet. */
  predicate StaleBy(p: Paper) {
    p.document.Some? && p.document.value.pinDiffers && !p.pinChecked
  }

  lemma StaleFetches(state: State, o: Observation, now: real)
    ensures o.shellStale ==> ActOf(state, o, now) == Some(EnsureShell)
  {
  }

  lemma RunTracksPin(r: seq<Moment>)
    requires IsRun(r)
    ensures TracksPin(r)
  {
    hide IsRun, Step, ActOf, PaperSeen, PaperAfter, Lawful, DoesWhatItLists, Samples;
    RunIsTracked(r);
    forall i | 0 < i < |r| ensures r[i].before.paper == PaperAfter(r[i - 1]) {
      assert Leaves(r[i - 1], r[i].before);
    }
    forall i | 0 <= i < |r|
      ensures r[i].look.shellStale == StaleBy(PaperSeen(r[i]))
      ensures r[i].look.shellStale ==> r[i].act == Some(EnsureShell)
    {
      RunActs(r, i);
      StaleFetches(r[i].before.state, r[i].look, r[i].At());
      assert Shows(r[i]);
    }
  }

  lemma {:induction false} PinStaysChecked(r: seq<Moment>, i: nat, j: nat)
    requires TracksPin(r) && i < j < |r| && r[i].look.shellStale
    ensures r[j].before.paper.pinChecked
    decreases j
  {
    assert r[j].before.paper == PaperAfter(r[j - 1]);
    if i < j - 1 {
      PinStaysChecked(r, i, j - 1);
    }
  }

  /** In every run, at most one tick is spent on fetching the pinned window: a
      rescue's report is read on its own tick, or on the next fresh one. */
  lemma OneTickFetches(r: seq<Moment>, i: nat, j: nat)
    requires IsRun(r) && i < j < |r| && r[i].look.shellStale
    ensures !r[j].look.shellStale
  {
    hide IsRun;
    RunTracksPin(r);
    PinStaysChecked(r, i, j);
  }

  lemma LicensedIsStarted(state: State, o: Observation, now: real)
    requires state.Rescuing?
    ensures ActOf(state, o, now) == Some(Spawn)
            <==> NothingAnswers(o) && o.isFresh && Licensed(o.rescue) && !o.childAlive && o.facts.serverMode == "spawn"
  {
    hide InstallerNear;
  }

  /** In every run, a tick in `Rescuing` starts a server exactly when it is a
      fresh one on which nothing answers, a report licenses a start, no child
      runs, and servers are started here. */
  lemma StartsExactlyWhenLicensed(r: seq<Moment>, i: nat)
    requires IsRun(r) && i < |r| && r[i].before.state.Rescuing?
    ensures Spawn in r[i].effects
            <==> && NothingAnswers(r[i].look) && r[i].look.isFresh
                 && Licensed(ProgressOf(DeskSeen(r[i])))
                 && !r[i].look.childAlive && r[i].look.facts.serverMode == "spawn"
  {
    hide IsRun, Step, ActOf, DeskSeen, Lawful, ShowsPaper, Samples, Licensed, NothingAnswers;
    RunIsTracked(r);
    RunActs(r, i);
    assert Shows(r[i]) && DoesWhatItLists(r[i]);
    LicensedIsStarted(r[i].before.state, r[i].look, r[i].At());
  }
}
