/** The grounds a verdict, a start or a rescue can stand on, each read off the
    observation and the settings alone; and that the controller's own tests are
    exactly these. */
module Grounds {
  import opened Common
  import opened Controller

  /** The window got past every pre-emption and nothing answered. */
  predicate NothingAnswers(o: Observation) {
    !o.shellStale && o.status.Ok? && !o.helper.Alive? && o.health.Absent?
  }

  predicate PostUpdate(state: State, o: Observation) {
    state.Updating? || state.RestartPending? || o.helper.Finished?
  }

  /** An installer runs, or stopped less than half a minute ago. */
  predicate InstallerNear(o: Observation) {
    o.helper.Alive? || (o.helper.Finished? && o.helper.secondsAgo.Some? && o.helper.secondsAgo.value < 30.0)
  }

  predicate StrangerConfirmed(o: Observation) {
    o.holder == Holder.Foreign && o.holderAge >= o.facts.foreignGraceSeconds && o.holderAge >= 0.0
  }

  predicate Licensed(progress: RescueProgress) {
    progress.Done? && (progress.outcome.result.PortFree? || progress.outcome.result.Unsupported?)
  }

  // ---- time ---------------------------------------------------------------

  /** It never happened, or at least `least` seconds ago. */
  predicate Waited(since: Option<real>, least: real) {
    since.None? || since.value >= least
  }

  /** A server was started less than the grace ago. */
  predicate InTheGrace(o: Observation) {
    && o.sinceLastStart.Some?
    && (o.sinceLastStart.value < o.facts.busyGraceSeconds || o.sinceLastStart.value < 0.0)
  }

  /** Nothing was started for the backoff, a second and the grace. */
  predicate Rested(o: Observation) {
    && Waited(o.sinceLastStart, o.facts.startBackoffSeconds)
    && Waited(o.sinceLastStart, 1.0)
    && Waited(o.sinceLastStart, o.facts.busyGraceSeconds)
  }

  /** Nothing was rescued for the backoff and a second. */
  predicate RestedFromRescue(o: Observation) {
    Waited(o.sinceRescue, o.facts.startBackoffSeconds) && Waited(o.sinceRescue, 1.0)
  }

  /** A timeout for every attempt, by 32-bit arithmetic: nothing at the largest
      number of retries. */
  function Budget(f: Facts): real {
    if f.serverStartRetries == U32_MAX then 0.0
    else Max(f.startTimeoutSeconds, 1.0) * (f.serverStartRetries as real + 1.0)
  }

  /** Three starts, or the whole budget, without a healthy server. */
  predicate Spent(o: Observation) {
    o.startAttempts >= 3 || (o.sinceFirstStart.Some? && o.sinceFirstStart.value >= Budget(o.facts))
  }

  // ---- the port -----------------------------------------------------------

  /** The OS answer a start or a rescue needs: the port is free, by a reading that
      is recent and newer than every answer, and this tick's probe found nobody. */
  predicate ProvenFree(o: Observation) {
    o.listener.Free? && o.listenerFresh && !o.probeConnected
  }

  /** The known process is gone, but the port was read before that. */
  predicate GoneButStale(o: Observation) {
    o.knownAlive == Some(false) && !o.listenerFresh
  }

  predicate HeldByKnownPid(o: Observation) {
    o.listener.Held? && o.listener.pid.Some? && o.listener.pid == o.knownPid
  }

  /** Held by the server this window knows, or by another of our own. */
  predicate HeldByOurs(o: Observation) {
    HeldByKnownPid(o) || (o.listener.Held? && o.listener.mcc == Some(true))
  }

  predicate HeldByStranger(o: Observation) {
    o.listener.Held? && o.listener.mcc == Some(false) && !HeldByKnownPid(o)
  }

  /** Nobody could say whose the port is, or whether it is held at all. */
  predicate HeldByWhom(o: Observation) {
    o.listener.Unknown? || (o.listener.Held? && o.listener.mcc.None? && !HeldByKnownPid(o))
  }

  // ---- the server ---------------------------------------------------------

  predicate ServerKnown(o: Observation) {
    o.knownPid.Some? || o.secondsSinceHealthy.Some? || o.childEverBound
  }

  predicate NeverOpened(o: Observation) {
    o.childPid.Some? && !o.childEverBound
  }

  /** Nothing listens, by a fresh OS answer without a handshake, and: the process
      this window knows of is gone; or it is not known to be, and lost its
      listener; or the child this window started never opened its port. */
  predicate IsDead(o: Observation, reason: DeadReason) {
    && ProvenFree(o)
    && match reason
       case ProcessGone =>
         && ServerKnown(o) && !NeverOpened(o)
         && (o.knownAlive == Some(false) || (o.knownPid.None? && o.childPid.None?))
       case ListenerLost =>
         && !NeverOpened(o)
         && o.knownAlive != Some(false)
         && (o.knownPid.Some? || o.childPid.Some?)
       case NeverBound => NeverOpened(o)
  }

  /** `checks` agreeing checks over `span` seconds settle that a server is dead:
      at once when its process is gone; as many as the threshold, and one, over
      as many ticks when its listener is lost; as many over the budget beyond the
      grace, the child being as old as the budget, when it never opened its
      port. */
  predicate Enough(o: Observation, reason: DeadReason, checks: nat, span: real) {
    var f := o.facts;
    match reason
    case ProcessGone => true
    case ListenerLost =>
      && checks >= f.healthFailureThreshold && checks >= 1
      && span >= Max(f.healthFailureThreshold as real, 1.0) * Max(f.tickSeconds, 1.0)
    case NeverBound =>
      && checks >= f.healthFailureThreshold && checks >= 1
      && span >= Budget(f) - Max(f.busyGraceSeconds, 0.0) && span >= 0.0
      && o.sinceLastStart.Some? && o.sinceLastStart.value >= Budget(f)
  }

  /** The first and the count of agreeing checks, this fresh tick's included. */
  function FirstCheck(state: State, reason: DeadReason, now: real): real {
    if state.Confirming? && state.dead == reason then state.first else now
  }

  function ChecksSoFar(state: State, reason: DeadReason): U32 {
    if state.Confirming? && state.dead == reason then SaturatingIncrement(state.checks) else 1
  }

  // ---- what may be done about it ------------------------------------------

  /** A server may be started outside `Rescuing`: nothing answers, the port is
      proven free and no stranger's, no child runs, the last start is long enough
      ago, and there is no server to be rescued -- none is known, or an update
      ended it. */
  predicate MayBeStarted(state: State, o: Observation) {
    && NothingAnswers(o) && o.isFresh && o.facts.serverMode == "spawn"
    && ProvenFree(o) && !StrangerConfirmed(o)
    && !o.childAlive && !NeverOpened(o)
    && Rested(o)
    && (ServerKnown(o) ==> PostUpdate(state, o))
  }

  /** A server dead for `reason` may be rescued: the same silence, its death
      settled by this check, no update that ended it, no rescue running and the
      last start and rescue long enough ago. */
  predicate MayBeRescued(state: State, o: Observation, reason: DeadReason, now: real) {
    && NothingAnswers(o) && o.isFresh && o.facts.serverMode == "spawn"
    && IsDead(o, reason) && !StrangerConfirmed(o)
    && (PostUpdate(state, o) ==> reason.NeverBound?)
    && Rested(o) && RestedFromRescue(o) && !o.rescue.Running?
    && Enough(o, reason, ChecksSoFar(state, reason), now - FirstCheck(state, reason, now))
  }

  /** An installer may be run: My Claude Code is missing, none runs or has just
      stopped, the last one's outcome is known, and fewer than three were run. */
  predicate MayBeInstalled(state: State, o: Observation) {
    && !o.shellStale && o.isFresh && o.status.NotInstalled? && !InstallerNear(o)
    && !state.Installing? && !(state.Blocked? && state.reason.Install?)
    && (state.Verifying? ==> state.attempts < 3)
  }

  /** Whether the OS was asked a moment ago about a server of ours that it said
      holds the port and whose handshake completed. */
  predicate AskedRecently(o: Observation) {
    && NothingAnswers(o) && !StrangerConfirmed(o)
    && !InTheGrace(o) && !GoneButStale(o)
    && HeldByOurs(o) && o.probeConnected
    && o.sinceRestatus.Some?
    && (o.sinceRestatus.value < o.facts.reconnectRestatusSeconds || o.sinceRestatus.value < 1.0)
  }

  // ---- the controller's own words for them --------------------------------

  /** Each verdict is given on exactly its own grounds. */
  lemma DecideExactly(o: Observation)
    ensures Decide(o).InGrace? <==> InTheGrace(o)
    ensures Decide(o).Foreign? <==> !InTheGrace(o) && !GoneButStale(o) && HeldByStranger(o)
    ensures Decide(o).Slow? && Decide(o).why.Holds?
            <==> !InTheGrace(o) && !GoneButStale(o) && HeldByOurs(o)
    ensures Decide(o).Slow? && Decide(o).why.Holds? ==> Decide(o) == Slow(Holds(o.listener.pid))
    ensures Decide(o) == Slow(CouldNotTell) <==> !InTheGrace(o) && !GoneButStale(o) && HeldByWhom(o)
    ensures Decide(o) == Slow(NotRecent)
            <==> !InTheGrace(o) && (GoneButStale(o) || (o.listener.Free? && !o.listenerFresh))
    ensures Decide(o) == Slow(Contradiction)
            <==> !InTheGrace(o) && o.listener.Free? && o.listenerFresh && o.probeConnected
    ensures Decide(o).Free? <==> !InTheGrace(o) && ProvenFree(o) && !NeverOpened(o) && !ServerKnown(o)
    ensures forall reason :: Decide(o) == Dead(reason) <==> !InTheGrace(o) && IsDead(o, reason)
  {
  }

  /** The installer's half minute and the stranger's grace are as said here. */
  lemma PreemptionsExactly(o: Observation)
    ensures EnvironmentMayBeReplaced(o) <==> InstallerNear(o)
    ensures ForeignConfirmed(o) <==> StrangerConfirmed(o)
  {
  }

  lemma BudgetExactly(f: Facts)
    ensures StartBudgetSeconds(f) == Budget(f)
  {
    var attempts := (f.serverStartRetries + 1) % 0x1_0000_0000;
    assert attempts == if f.serverStartRetries == U32_MAX then 0 else f.serverStartRetries + 1;
    assert attempts as real == if f.serverStartRetries == U32_MAX then 0.0 else f.serverStartRetries as real + 1.0;
  }

  lemma SpentExactly(o: Observation)
    ensures StartBudgetSpent(o) <==> Spent(o)
  {
    hide StartBudgetSeconds, Budget;
    BudgetExactly(o.facts);
  }

  lemma ConfirmedExactly(o: Observation, reason: DeadReason, first: real, checks: U32, now: real)
    ensures DeadIsConfirmed(o, reason, first, checks, now) <==> Enough(o, reason, checks, now - first)
  {
    hide StartBudgetSeconds, Budget;
    BudgetExactly(o.facts);
    assert Threshold(o.facts) as real == Max(o.facts.healthFailureThreshold as real, 1.0);
  }

  /** Past the grace, the governors let a start or a rescue through exactly when
      the waits are over. */
  lemma GovernorsExactly(o: Observation)
    requires NothingAnswers(o) && !InTheGrace(o)
    ensures MayStart(o) <==> o.isFresh && o.facts.serverMode == "spawn" && !o.childAlive && Rested(o)
    ensures MayRescue(o)
            <==> o.isFresh && o.facts.serverMode == "spawn" && !o.rescue.Running? && Rested(o) && RestedFromRescue(o)
  {
  }

  lemma RestedIsPastGrace(o: Observation)
    ensures Rested(o) ==> !InTheGrace(o)
  {
  }

  lemma SlowRestatusExactly(o: Observation, why: SlowReason)
    ensures SlowRestatusDue(o, why)
            <==> !(why.Holds? && o.probeConnected && o.sinceRestatus.Some?
                   && (o.sinceRestatus.value < o.facts.reconnectRestatusSeconds || o.sinceRestatus.value < 1.0))
  {
  }
}
