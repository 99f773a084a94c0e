/** What the states mean: what each is entered on, how each is left, and that a
    wait is timed from where it began. */
module States {
  import opened Common
  import opened Controller
  import opened ControllerLaws
  import opened Grounds
  import opened Table
  import opened Walks

  /** Neither free beyond doubt nor a stranger's: somebody of ours, or nobody
      knows who, may hold the port. */
  predicate MayBeBusy(o: Observation) {
    || HeldByOurs(o) || HeldByWhom(o) || GoneButStale(o)
    || (o.listener.Free? && (!o.listenerFresh || o.probeConnected))
  }

  /** The evidence a state stands on, on the tick that enters it. */
  predicate StandsOn(next: State, state: State, o: Observation) {
    match next
    case Booting => false
    case Attached => o.health.Healthy?
    case Draining(_) => o.health.Draining?
    case Updating(_) => InstallerNear(o)
    case Starting(_, _) =>
      o.health.Starting? || (o.health.Absent? && (InTheGrace(o) || ProvenFree(o) || state.Rescuing?))
    case Reconnecting(_) =>
      o.health.Absent? && ((HeldByStranger(o) && !GoneButStale(o)) || ProvenFree(o) || state.Rescuing?)
    case RestartPending(_) => o.health.Absent? && ProvenFree(o) && !NeverOpened(o) && PostUpdate(state, o)
    case Busy(_) => o.health.Absent? && !InTheGrace(o) && !StrangerConfirmed(o) && MayBeBusy(o)
    case Confirming(reason, _, _, _) => o.health.Absent? && !InTheGrace(o) && IsDead(o, reason)
    case Rescuing(_) => exists reason :: IsDead(o, reason) && o.isFresh && o.facts.serverMode == "spawn"
    case Installing(attempts) => o.status.NotInstalled? && o.isFresh && attempts <= 3
    case Verifying(attempts) => o.status.NotInstalled? && o.isFresh && state == Installing(attempts)
    case Blocked(reason) =>
      match reason
      case Status => o.status.Unreadable?
      case Install(attempts) => o.status.NotInstalled? && o.isFresh && attempts >= 3
      case ForeignPort => StrangerConfirmed(o)
      case NotOurServer(mode) => o.facts.serverMode == mode != "spawn"
  }

  lemma SilentStandsOn(state: State, o: Observation, now: real)
    requires NothingAnswers(o)
    ensures var next := WhereWhenSilent(state, o, now); next == state || StandsOn(next, state, o)
  {
    hide Began, Spent, InTheGrace, StrangerConfirmed, IsDead, SettledNow, ChecksAfter, PostUpdate, RescueWaited;
    hide Licensed, Rested;
    if !state.Rescuing? && ProvenFree(o) && !NobodyToRescue(state, o) {
      WayOfDyingIsDead(state, o);
    }
    RescueWaitedIs(o);
    HeldBySomebody(o);
  }

  lemma HeldBySomebody(o: Observation)
    ensures o.listener.Held? ==> HeldByOurs(o) || HeldByStranger(o) || HeldByWhom(o)
  {
    if o.listener.Held? && o.listener.mcc.Some? {
      var b := o.listener.mcc.value;
      assert o.listener.mcc == Some(b) && (b == true || b == false);
    }
  }

  lemma RescueWaitedIs(o: Observation)
    ensures RescueWaited(o) ==> o.isFresh && o.facts.serverMode == "spawn"
  {
  }

  /** A state is entered only on its own evidence. */
  lemma StatesStandOnEvidence(state: State, o: Observation, now: real)
    ensures var next := Step(state, o, now).state; next == state || StandsOn(next, state, o)
  {
    hide Step, WhereWhenSilent, StrangerConfirmed, InTheGrace, IsDead, MayBeBusy, Shown;
    StepIsTheTables(state, o, now);
    if NothingAnswers(o) {
      SilentStandsOn(state, o, now);
    }
  }

  /** In every run or walk, whatever state the window is in was entered by a tick
      that had its evidence -- or is the one it began with. */
  lemma {:induction false} StateWasEntered(w: seq<Stride>, n: nat)
    requires IsWalk(w) && 0 < n <= |w|
    ensures || (forall i :: 0 <= i < n ==> w[i].next == w[0].state)
            || exists k :: EnteredAt(w, k, n)
  {
    hide StandsOn, Step;
    var s, m := w[n - 1], n - 1;
    StatesStandOnEvidence(s.state, s.look, s.now);
    if s.next != s.state {
      assert EnteredAt(w, m, n);
    } else if m > 0 {
      StateWasEntered(w, m);
      assert s.state == w[m - 1].next;
      if exists k :: EnteredAt(w, k, m) {
        var k :| EnteredAt(w, k, m);
        assert EnteredAt(w, k, n);
      }
    }
  }

  /** The state after `n` ticks was entered on tick `k`, and kept since. */
  ghost predicate EnteredAt(w: seq<Stride>, k: int, n: int) {
    && 0 <= k < n <= |w|
    && w[k].next != w[k].state && StandsOn(w[k].next, w[k].state, w[k].look)
    && (forall i :: k <= i < n ==> w[i].next == w[k].next)
  }

  /** No state is a dead end: a healthy server is attached to in one tick, from
      anywhere, unless My Claude Code is missing, an installer runs or the window
      itself must be fetched -- even when the status document cannot be read.
      Coming from another state the page is reloaded exactly when the dashboard
      is not up or another server drew it, and attention is asked for exactly
      after an interruption. */
  lemma HealthyIsAttached(state: State, o: Observation, now: real)
    requires o.health.Healthy? && !o.status.NotInstalled? && !o.helper.Alive? && !o.shellStale
    ensures Step(state, o, now).state == Attached
    ensures var effects := Step(state, o, now).effects;
            && (!state.Attached? <==> exists navigate :: Attach(navigate) in effects)
            && (forall navigate :: Attach(navigate) in effects ==> (navigate <==> !o.onDashboard || AnotherServer(o)))
            && (RaiseOnce in effects <==> Interrupted(state))
            && (forall e :: e in effects ==> e.Attach? || e.RaiseOnce?)
  {
    var attach := Attach(!o.onDashboard || AnotherServer(o));
    assert Step(state, o, now).effects
           == if state.Attached? then [] else [attach] + (if Interrupted(state) then [RaiseOnce] else []);
    assert !state.Attached? ==> Step(state, o, now).effects[0] == attach;
  }

  /** States that say how long the window has been waiting. */
  predicate Waits(state: State) {
    || state.Starting? || state.Reconnecting? || state.Draining? || state.Updating? || state.RestartPending?
    || state.Busy? || state.Confirming?
  }

  lemma SilentKeepsSince(state: State, o: Observation, now: real)
    requires NothingAnswers(o) && Waits(state) && !MayBeStarted(state, o)
    ensures var next := WhereWhenSilent(state, o, now); Waits(next) ==> next.since == state.since
  {
    hide Spent, InTheGrace, StrangerConfirmed, Enough, RescueWaited, PostUpdate, Licensed, Rested, GoneButStale;
    RestedIsPastGrace(o);
  }

  lemma StepKeepsSince(state: State, o: Observation, now: real)
    requires Waits(state) && Spawn !in Step(state, o, now).effects
    ensures var next := Step(state, o, now).state; Waits(next) ==> next.since == state.since
  {
    hide Step, WhereWhenSilent, MayBeStarted, Shown;
    StepIsTheTables(state, o, now);
    StartsExactlyWhen(state, o, now);
    if NothingAnswers(o) {
      SilentKeepsSince(state, o, now);
    }
  }

  /** A wait is timed from where it began: as long as the window only waits, and
      starts nothing, the states it passes through all carry that time. */
  lemma {:induction false} WaitIsTimedFromItsStart(w: seq<Stride>, i: nat, j: nat)
    requires IsWalk(w) && i <= j < |w| && Waits(w[i].state) && Waits(w[j].next)
    requires forall k :: i <= k <= j ==> Waits(w[k].next) && Spawn !in w[k].effects
    ensures w[j].next.since == w[i].state.since
    decreases j
  {
    hide Step;
    if i < j {
      WaitIsTimedFromItsStart(w, i, j - 1);
      assert w[j].state == w[j - 1].next;
    }
    assert Taken(w[j]);
    StepKeepsSince(w[j].state, w[j].look, w[j].now);
  }
}
