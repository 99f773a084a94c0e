/** A run of the whole window is a walk of its controller, so what holds of
    every walk holds of every run. */
module RunWalks {
  import opened Controller
  import opened ControllerLaws
  import opened Grounds
  import opened Table
  import opened Sampler
  import opened Runs
  import W = Walks
  import Confirmation
  import States

  function StrideOf(t: Moment): W.Stride {
    W.Stride(t.before.state, t.look, t.At(), t.next, t.effects)
  }

  function WalkOf(r: seq<Moment>): (w: seq<W.Stride>)
    ensures |w| == |r| && forall i :: 0 <= i < |r| ==> w[i] == StrideOf(r[i])
  {
    seq(|r|, i requires 0 <= i < |r| => StrideOf(r[i]))
  }

  lemma WrittenIsTaken(m: Memory, w: World)
    ensures W.Taken(StrideOf(Written(m, w)))
  {
    hide Step, Look, ActOf, Boots, Booted;
  }

  lemma {:induction false} ChainIsTaken(r: seq<Moment>)
    requires Chained(r)
    ensures forall i :: 0 <= i < |r| ==> W.Taken(StrideOf(r[i]))
  {
    if r != [] {
      ChainIsTaken(r[..|r| - 1]);
      LastIsTaken(r);
      TakenGrows(r, r[..|r| - 1]);
    }
  }

  lemma LastIsTaken(r: seq<Moment>)
    requires Chained(r) && r != []
    ensures W.Taken(StrideOf(r[|r| - 1]))
  {
    WrittenIsTaken(r[|r| - 1].before, r[|r| - 1].world);
  }

  lemma TakenGrows(r: seq<Moment>, prefix: seq<Moment>)
    requires r != [] && prefix == r[..|r| - 1] && W.Taken(StrideOf(r[|r| - 1]))
    requires forall i :: 0 <= i < |prefix| ==> W.Taken(StrideOf(prefix[i]))
    ensures forall i :: 0 <= i < |r| ==> W.Taken(StrideOf(r[i]))
  {
    forall i | 0 <= i < |r|
      ensures W.Taken(StrideOf(r[i]))
    {
      assert i < |prefix| ==> prefix[i] == r[i];
    }
  }

  lemma RunWalks(r: seq<Moment>)
    requires IsRun(r)
    ensures W.IsWalk(WalkOf(r)) && (|r| > 0 ==> WalkOf(r)[0].state.Booting?)
  {
    hide Shows, Lawful, DoesWhatItLists, W.Taken, Chained;
    RunIsTracked(r);
    ChainIsTaken(r);
    forall i | 0 < i < |r|
      ensures r[i].before.state == r[i - 1].next
    {
      assert Leaves(r[i - 1], r[i].before);
    }
  }

  /** Every rescue of every run was confirmed by an unbroken series of checks. */
  lemma RunRescuesAreConfirmed(r: seq<Moment>, i: nat, e: Effect)
    requires IsRun(r) && i < |r| && e in r[i].effects && e.Rescue?
    ensures exists k :: Confirmation.WellConfirmed(WalkOf(r), k, i, e.reason)
  {
    RunWalks(r);
    Confirmation.RescueIsWellConfirmed(WalkOf(r), i, e);
  }

  /** Every state of every run is entered only on its own evidence. */
  lemma RunStatesStandOnEvidence(r: seq<Moment>, i: nat)
    requires IsRun(r) && i < |r|
    ensures r[i].next == r[i].before.state || States.StandsOn(r[i].next, r[i].before.state, r[i].look)
  {
    hide IsRun, States.StandsOn, Step;
    RunWalks(r);
    assert W.Taken(WalkOf(r)[i]);
    States.StatesStandOnEvidence(r[i].before.state, r[i].look, r[i].At());
  }

  lemma ActIsTheTables(t: Moment)
    requires W.Taken(StrideOf(t)) && Lawful(t) && DoesWhatItLists(t)
    ensures t.act == ActOf(t.before.state, t.look, t.At())
  {
    hide ActOf, Step;
    var act := ActOf(t.before.state, t.look, t.At());
    ReachIsJustified(t.before.state, t.look, t.At());
    if act.Some? {
      StepDoes(t.before.state, t.look, t.At(), act.value);
    }
    if t.act.Some? {
      StepDoes(t.before.state, t.look, t.At(), t.act.value);
    }
  }

  /** Every tick of a run is a step of the controller, and acts by its table. */
  lemma RunActs(r: seq<Moment>, i: nat)
    requires IsRun(r) && i < |r|
    ensures W.Taken(StrideOf(r[i])) && r[i].act == ActOf(r[i].before.state, r[i].look, r[i].At())
    ensures i > 0 ==> Leaves(r[i - 1], r[i].before)
  {
    hide IsRun, Shows, W.Taken, Lawful, DoesWhatItLists, Leaves;
    RunIsTracked(r);
    RunWalks(r);
    assert W.Taken(WalkOf(r)[i]) && Lawful(r[i]) && DoesWhatItLists(r[i]);
    ActIsTheTables(r[i]);
  }

  lemma RunSteps(r: seq<Moment>, i: nat)
    requires IsRun(r) && i < |r|
    ensures Step(r[i].before.state, r[i].look, r[i].At()) == Next(r[i].next, r[i].effects)
  {
    hide IsRun, Step;
    RunWalks(r);
    assert W.Taken(WalkOf(r)[i]);
  }

  /** In every run a tick outside `Rescuing` starts a server exactly when one may
      be started on what it observed. */
  lemma RunStartsExactlyWhen(r: seq<Moment>, i: nat)
    requires IsRun(r) && i < |r| && !r[i].before.state.Rescuing?
    ensures Spawn in r[i].effects <==> MayBeStarted(r[i].before.state, r[i].look)
  {
    hide IsRun, Step, MayBeStarted;
    RunSteps(r, i);
    StartsExactlyWhen(r[i].before.state, r[i].look, r[i].At());
  }

  /** And any tick rescues exactly when a dead server may be rescued. */
  lemma RunRescuesExactlyWhen(r: seq<Moment>, i: nat, e: Effect)
    requires IsRun(r) && i < |r| && e.Rescue?
    ensures var t := r[i];
            e in t.effects
            <==> && !t.before.state.Rescuing? && MayBeRescued(t.before.state, t.look, e.reason, t.At())
                 && e.knownPid == t.look.knownPid && e.childPid == t.look.childPid
  {
    hide IsRun, Step, MayBeRescued;
    RunSteps(r, i);
    RescuesExactlyWhen(r[i].before.state, r[i].look, r[i].At(), e);
  }

  /** Every tick of a run leads where the one table says and shows what the other
      says. */
  lemma RunFollowsTheTables(r: seq<Moment>, i: nat)
    requires IsRun(r) && i < |r|
    ensures r[i].next == Where(r[i].before.state, r[i].look, r[i].At())
    ensures WithoutActing(r[i].effects) == Shown(r[i].before.state, r[i].look, r[i].At())
  {
    hide IsRun, Step, Where, Shown, WithoutActing;
    RunSteps(r, i);
    StepIsTheTables(r[i].before.state, r[i].look, r[i].At());
  }
}
