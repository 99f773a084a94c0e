/** The start budget a never-bound rescue waits out, and the one setting at which
    its 32-bit arithmetic makes it nothing. */
module StartBudget {
  import opened Common
  import opened Controller
  import opened Grounds
  import opened ControllerLaws
  import opened Runs
  import Children

  /** The budget as the settings mean it: a timeout for every attempt. */
  function WholeBudget(f: Facts): real {
    Max(f.startTimeoutSeconds, 1.0) * (f.serverStartRetries as real + 1.0)
  }

  /** The code's budget is the whole one except at the largest number of
      retries, where it is nothing. */
  lemma BudgetIsWhole(f: Facts)
    ensures StartBudgetSeconds(f) == WholeBudget(f) <==> f.serverStartRetries != U32_MAX
    ensures f.serverStartRetries == U32_MAX ==> StartBudgetSeconds(f) == 0.0
    ensures WholeBudget(f) >= 1.0
  {
    var timeout, attempts := Max(f.startTimeoutSeconds, 1.0), f.serverStartRetries as real + 1.0;
    assert timeout * attempts >= 1.0 by {
      LargerProduct(timeout, attempts);
    }
  }

  lemma LargerProduct(x: real, y: real)
    requires x >= 1.0 && y >= 1.0
    ensures x * y >= 1.0
  {
    assert (x - 1.0) * y >= 0.0;
  }

  // ---- what a rescue waits out ---------------------------------------------------------

  /** With these settings no step rescues a server that never opened its port
      before the whole start budget, whatever the state and the observation. */
  ghost predicate KeepsWholeBudget(f: Facts) {
    forall state, o: Observation, now, e ::
      o.facts == f && e in Step(state, o, now).effects && e.Rescue? && e.reason.NeverBound? ==>
        o.sinceLastStart.Some? && o.sinceLastStart.value >= WholeBudget(f)
  }

  /** What a rescue waits out in any case: the backoff and the grace. */
  function LeastAge(f: Facts): real {
    Max(Max(f.startBackoffSeconds, 1.0), f.busyGraceSeconds)
  }

  /** A child of this window, `age` seconds old, that never opened its port. */
  function UnboundLook(f: Facts, age: real): Observation {
    Observation(
      true, Health.Absent, Holder.Absent, 0.0, None, false, Listener.Free, true, None, None, Some(1), false, None,
      false, None, Idle, None, None, NoHelper, StatusHealth.Ok, true, Some(age), false, 1, Some(age), f)
  }

  lemma EarlyRescue(f: Facts, age: real)
    requires f.serverStartRetries == U32_MAX && f.serverMode == "spawn" && age >= LeastAge(f)
    ensures Rescue(None, Some(1), NeverBound)
            in Step(Confirming(NeverBound, 0.0, U32_MAX, 0.0), UnboundLook(f, age), 0.0).effects
  {
    BudgetIsWhole(f);
    StepDoes(Confirming(NeverBound, 0.0, U32_MAX, 0.0), UnboundLook(f, age), 0.0, Rescue(None, Some(1), NeverBound));
  }

  lemma WaitsWholeBudget(state: State, o: Observation, now: real, e: Effect)
    requires e in Step(state, o, now).effects && e.Rescue? && e.reason.NeverBound?
    ensures o.facts.serverMode == "spawn"
    ensures o.sinceLastStart.Some? && o.sinceLastStart.value >= StartBudgetSeconds(o.facts)
    ensures o.sinceLastStart.value >= LeastAge(o.facts)
  {
    hide Step, StartBudgetSeconds, Budget;
    BudgetExactly(o.facts);
    ActingNeedsProof(state, o, now, e);
  }

  /** The whole start budget is waited out exactly when the number of retries is
      not the largest there is -- or no server is started here at all, or the
      backoff or the grace is as long anyway. */
  lemma WholeBudgetIsKeptExactly(f: Facts)
    ensures KeepsWholeBudget(f)
            <==> f.serverStartRetries != U32_MAX || f.serverMode != "spawn" || LeastAge(f) >= WholeBudget(f)
  {
    hide Step, StartBudgetSeconds, WholeBudget, LeastAge;
    BudgetIsWhole(f);
    if f.serverStartRetries == U32_MAX && f.serverMode == "spawn" && LeastAge(f) < WholeBudget(f) {
      EarlyRescue(f, LeastAge(f));
      assert UnboundLook(f, LeastAge(f)).facts == f;
    } else {
      forall state, o: Observation, now, e |
        o.facts == f && e in Step(state, o, now).effects && e.Rescue? && e.reason.NeverBound?
        ensures o.sinceLastStart.Some? && o.sinceLastStart.value >= WholeBudget(f)
      {
        WaitsWholeBudget(state, o, now, e);
      }
    }
  }

  /** Settings that ask for a minute an attempt, and the largest number of them. */
  const LARGEST: Facts := Facts("spawn", 1.0, 1.0, 45.0, 60.0, U32_MAX, 1, 0.0, 30.0, 24.0)

  /** Such an input: a child started one second ago is rescued on the first
      check, straight from `Booting`. */
  lemma RescuedAfterASecond()
    ensures Rescue(None, Some(1), NeverBound) in Step(Booting, UnboundLook(LARGEST, 1.0), 0.0).effects
    ensures UnboundLook(LARGEST, 1.0).sinceLastStart == Some(1.0) && WholeBudget(LARGEST) > 1.0
  {
    StepDoes(Booting, UnboundLook(LARGEST, 1.0), 0.0, Rescue(None, Some(1), NeverBound));
  }

  /** In every run, with fewer retries than that, the child a never-bound rescue
      names is older than the whole start budget. */
  lemma NeverBoundWaitsTheWholeBudget(r: seq<Moment>, i: nat, e: Effect)
    requires IsRun(r) && i < |r| && e in r[i].effects && e.Rescue? && e.reason.NeverBound?
    requires r[i].look.facts.serverStartRetries != U32_MAX
    ensures e.childPid.Some?
    ensures exists s ::
              && Children.NeverOpened(r, s, i, e.childPid.value)
              && r[i].world.clock.observed - r[s].world.clock.applied >= WholeBudget(r[i].look.facts)
  {
    hide IsRun, StartBudgetSeconds, Budget, WholeBudget;
    BudgetExactly(r[i].look.facts);
    BudgetIsWhole(r[i].look.facts);
    Children.NeverBoundNamesTheLastStart(r, i, e);
    var s :| Children.NeverOpened(r, s, i, e.childPid.value);
  }
}
