/** The desktop window's lifecycle controller: what one tick's facts add up to,
    and what the window does about it. Wording is dropped; of a page only its
    kind is kept. Seconds are `real`. */
module Controller {
  import opened Common

  const HELPER_SETTLE_SECONDS := 30.0
  const INSTALL_ATTEMPTS: U32 := 3
  const START_ATTEMPTS_BEFORE_THE_TRUTH: U32 := 3

  datatype Health = Healthy | Starting | Draining | Absent

  /** Who holds the port, by process identity. */
  datatype Holder =
    | Absent
    | OursHealthy
    | OursStarting
    | OursDraining
    | OursStale
    | Foreign
    | Unknown

  /** What the operating system said about the listening socket. */
  datatype Listener = Free | Held(pid: Option<int>, mcc: Option<bool>) | Unknown

  datatype DeadReason = ProcessGone | ListenerLost | NeverBound

  datatype SlowReason = Holds(pid: Option<int>) | CouldNotTell | Contradiction | NotRecent

  datatype Verdict = InGrace | Slow(why: SlowReason) | Foreign | Free | Dead(reason: DeadReason)

  datatype RescueResult = PortFree | Refused | Unsupported | Failed

  datatype StoppedServer = StoppedServer(pids: seq<int>, exitedByItself: bool)

  datatype RescueOutcome = RescueOutcome(
    result: RescueResult,
    reason: DeadReason,
    knownPid: Option<int>,
    childPid: Option<int>,
    servers: seq<StoppedServer>,
    leftAlone: seq<int>,
    stopWaitSeconds: real)

  datatype RescueProgress = Idle | Running | Done(outcome: RescueOutcome)

  datatype Helper = NoHelper | Alive | Finished(secondsAgo: Option<real>)

  datatype StatusHealth = Ok | NotInstalled | Unreadable

  datatype Blocked =
    | ForeignPort
    | NotOurServer(serverMode: string)
    | Status
    | Install(attempts: U32)

  datatype State =
    | Booting
    | Attached
    | Starting(since: real, attempts: U32)
    | Reconnecting(since: real)
    | Draining(since: real)
    | Updating(since: real)
    | RestartPending(since: real)
    | Installing(attempts: U32)
    | Verifying(attempts: U32)
    | Blocked(reason: Blocked)
    | Busy(since: real)
    | Confirming(dead: DeadReason, first: real, checks: U32, since: real)
    | Rescuing(since: real)

  datatype Facts = Facts(
    serverMode: string,
    tickSeconds: real,
    startBackoffSeconds: real,
    foreignGraceSeconds: real,
    startTimeoutSeconds: real,
    serverStartRetries: U32,
    healthFailureThreshold: U32,
    busyGraceSeconds: real,
    reconnectRestatusSeconds: real,
    serverStopWaitSeconds: real)

  /** Everything the controller is told on a tick. */
  datatype Observation = Observation(
    isFresh: bool,
    health: Health,
    holder: Holder,
    holderAge: real,
    secondsSinceHealthy: Option<real>,
    probeConnected: bool,
    listener: Listener,
    listenerFresh: bool,
    knownPid: Option<int>,
    knownAlive: Option<bool>,
    childPid: Option<int>,
    childEverBound: bool,
    answerPid: Option<int>,
    onDashboard: bool,
    dashboardPid: Option<int>,
    rescue: RescueProgress,
    sinceRescue: Option<real>,
    sinceRestatus: Option<real>,
    helper: Helper,
    status: StatusHealth,
    childAlive: bool,
    sinceLastStart: Option<real>,
    shellStale: bool,
    startAttempts: U32,
    sinceFirstStart: Option<real>,
    facts: Facts)
  {
    predicate KnowsAServer() {
      knownPid.Some? || secondsSinceHealthy.Some? || childEverBound
    }
  }

  datatype Page =
    | StartingPage
    | ReconnectingPage
    | UpdatingPage
    | InstallingPage
    | ErrorPage
    | ServerFailedPage
    | NotOurServerPage
    | PortConflictPage
    | RescuingPage

  datatype Effect =
    | Show(page: Page)
    | Attach(navigate: bool)
    | Overlay
    | Spawn
    | Rescue(knownPid: Option<int>, childPid: Option<int>, reason: DeadReason)
    | Notify
    | AnnounceDead
    | Log
    | Restatus
    | Install
    | RaiseOnce
    | EnsureShell
  {
    /** The effects that start, fetch or ask for something elsewhere. */
    predicate Acts() {
      Spawn? || Restatus? || Install? || EnsureShell? || Rescue?
    }
  }

  datatype Next = Next(state: State, effects: seq<Effect>)

  // ---- the decision table ----------------------------------------------

  function Decide(o: Observation): Verdict {
    var grace := Max(o.facts.busyGraceSeconds, 0.0);
    if o.sinceLastStart.Some? && o.sinceLastStart.value < grace then InGrace
    else if !o.listenerFresh && o.knownAlive == Some(false) then Slow(NotRecent)
    else match o.listener
      case Held(pid, mcc) =>
        if pid.Some? && pid == o.knownPid then Slow(Holds(pid))
        else (match mcc
          case Some(true) => Slow(Holds(pid))
          case Some(false) => Verdict.Foreign
          case None => Slow(CouldNotTell))
      case Unknown => Slow(CouldNotTell)
      case Free =>
        if !o.listenerFresh then Slow(NotRecent)
        else if o.probeConnected then Slow(Contradiction)
        else if o.childPid.Some? && !o.childEverBound then Dead(NeverBound)
        else if !o.KnowsAServer() then Verdict.Free
        else if o.knownAlive == Some(false) || (o.knownPid.None? && o.childPid.None?) then Dead(ProcessGone)
        else Dead(ListenerLost)
  }

  /** `server_start_retries + 1` is 32-bit arithmetic: in the shipped release
      build it wraps. */
  function StartBudgetSeconds(f: Facts): real {
    Max(f.startTimeoutSeconds, 1.0) * (((f.serverStartRetries + 1) % 0x1_0000_0000) as real)
  }

  function Threshold(f: Facts): U32 {
    if f.healthFailureThreshold < 1 then 1 else f.healthFailureThreshold
  }

  predicate DeadIsConfirmed(o: Observation, reason: DeadReason, first: real, checks: U32, now: real) {
    var span := now - first;
    match reason
    case ProcessGone => true
    case ListenerLost =>
      checks >= Threshold(o.facts) && span >= (Threshold(o.facts) as real) * Max(o.facts.tickSeconds, 1.0)
    case NeverBound =>
      var budget := StartBudgetSeconds(o.facts);
      var watched := Max(budget - Max(o.facts.busyGraceSeconds, 0.0), 0.0);
      && checks >= Threshold(o.facts)
      && span >= watched
      && o.sinceLastStart.Some?
      && o.sinceLastStart.value >= budget
  }

  function Backoff(f: Facts): real {
    Max(f.startBackoffSeconds, 1.0)
  }

  predicate ElapsedOrNever(waited: Option<real>, least: real) {
    waited.Some? ==> waited.value >= least
  }

  predicate MayStart(o: Observation) {
    && o.isFresh
    && o.health == Health.Absent
    && !o.childAlive
    && !o.helper.Alive?
    && o.facts.serverMode == "spawn"
    && ElapsedOrNever(o.sinceLastStart, Backoff(o.facts))
  }

  predicate MayRescue(o: Observation) {
    && o.isFresh
    && o.health == Health.Absent
    && !o.helper.Alive?
    && o.facts.serverMode == "spawn"
    && !o.rescue.Running?
    && ElapsedOrNever(o.sinceRescue, Backoff(o.facts))
    && ElapsedOrNever(o.sinceLastStart, Backoff(o.facts))
  }

  predicate EnvironmentMayBeReplaced(o: Observation) {
    match o.helper
    case Alive => true
    case Finished(secondsAgo) => secondsAgo.Some? && secondsAgo.value < HELPER_SETTLE_SECONDS
    case NoHelper => false
  }

  predicate ForeignConfirmed(o: Observation) {
    o.holder == Holder.Foreign && o.holderAge >= Max(o.facts.foreignGraceSeconds, 0.0)
  }

  predicate NeedsRestatus(state: State, o: Observation) {
    o.isFresh &&
    match state
    case Booting => true
    case Attached => o.health == Health.Absent
    case Rescuing(_) => false
    case _ => o.health != Health.Healthy
  }

  predicate SlowRestatusDue(o: Observation, why: SlowReason) {
    !why.Holds? || !o.probeConnected
    || ElapsedOrNever(o.sinceRestatus, Max(o.facts.reconnectRestatusSeconds, 1.0))
  }

  predicate StartBudgetSpent(o: Observation) {
    || o.startAttempts >= START_ATTEMPTS_BEFORE_THE_TRUTH
    || (o.sinceFirstStart.Some? && o.sinceFirstStart.value >= StartBudgetSeconds(o.facts))
  }

  // ---- the state machine -----------------------------------------------

  function Since(state: State, now: real): real {
    match state
    case Starting(since, _) => since
    case Reconnecting(since) => since
    case Draining(since) => since
    case Updating(since) => since
    case RestartPending(since) => since
    case Busy(since) => since
    case Confirming(_, _, _, since) => since
    case Rescuing(since) => since
    case _ => now
  }

  function AttemptsOf(state: State): U32 {
    if state.Starting? then state.attempts else 0
  }

  function InstallAttemptsOf(state: State): U32 {
    match state
    case Installing(attempts) => attempts
    case Verifying(attempts) => attempts
    case Blocked(Install(attempts)) => attempts
    case _ => 0
  }

  function KeepAsking(o: Observation, page: Page): seq<Effect> {
    if o.isFresh then [Restatus, Show(page)] else [Show(page)]
  }

  /** The same effects in order, without any question about the status. */
  function WithoutRestatus(effects: seq<Effect>): seq<Effect>
  {
    if effects == [] then []
    else (if effects[0].Restatus? then [] else [effects[0]]) + WithoutRestatus(effects[1..])
  }

  /** The same effects in order, without those that reach outside the window. */
  function WithoutActing(effects: seq<Effect>): seq<Effect>
  {
    if effects == [] then []
    else (if effects[0].Acts() then [] else [effects[0]]) + WithoutActing(effects[1..])
  }

  function Step(state: State, o: Observation, now: real): Next {
    if o.shellStale then Next(state, [EnsureShell])
    else if o.status.NotInstalled? then StepMissing(state, o, now)
    else if o.helper.Alive? then Next(Updating(Since(state, now)), KeepAsking(o, UpdatingPage))
    else if o.health.Healthy? then StepHealthy(state, o)
    else if o.status.Unreadable? then
      if EnvironmentMayBeReplaced(o) then Next(Updating(Since(state, now)), KeepAsking(o, UpdatingPage))
      else Next(State.Blocked(Blocked.Status), KeepAsking(o, ErrorPage))
    else StepUnhealthy(state, o, now)
  }

  /** My Claude Code itself is missing. */
  function StepMissing(state: State, o: Observation, now: real): Next {
    var attempts := InstallAttemptsOf(state);
    if EnvironmentMayBeReplaced(o) then Next(Updating(Since(state, now)), KeepAsking(o, UpdatingPage))
    else if !o.isFresh then Next(state, [])
    else if state.Blocked? && state.reason.Install? then Next(state, [Restatus, Show(ErrorPage)])
    else if state.Installing? then Next(Verifying(state.attempts), [Restatus, Show(InstallingPage)])
    else if attempts >= INSTALL_ATTEMPTS then
      Next(State.Blocked(Blocked.Install(attempts)), KeepAsking(o, ErrorPage))
    else Next(Installing(attempts + 1), [Effect.Install])
  }

  function StepHealthy(state: State, o: Observation): Next {
    if state.Attached? then Next(Attached, [])
    else
      var newProcess := o.answerPid.Some? && o.dashboardPid.Some? && o.answerPid != o.dashboardPid;
      var attach := [Attach(!o.onDashboard || newProcess)];
      var restarted := state.Reconnecting? || state.RestartPending? || state.Updating?
                       || state.Draining? || state.Rescuing?;
      Next(Attached, attach + (if restarted then [RaiseOnce] else []))
  }

  /** Not healthy, nothing installing. */
  function StepUnhealthy(state: State, o: Observation, now: real): Next
    requires !o.health.Healthy?
  {
    var effects := if NeedsRestatus(state, o) then [Restatus] else [];
    match o.health
    case Draining =>
      Next(State.Draining(Since(state, now)),
           effects + [if o.onDashboard then Overlay else Show(ReconnectingPage)])
    case Starting =>
      Next(State.Starting(Since(state, now), AttemptsOf(state)),
           effects + [if o.onDashboard then Overlay else Show(StartingPage)])
    case Absent => StepAbsent(state, o, now, effects)
  }

  function StepAbsent(state: State, o: Observation, now: real, effects: seq<Effect>): Next {
    if state.Rescuing? then StepRescuing(state.since, o, now, effects)
    else if ForeignConfirmed(o) then
      Next(State.Blocked(ForeignPort),
           effects + [Show(PortConflictPage)] + (if o.isFresh then [AnnounceDead] else []))
    else
      var postUpdate := state.Updating? || state.RestartPending? || o.helper.Finished?;
      match Decide(o)
      case Slow(why) =>
        Next(Busy(Since(state, now)),
             (if SlowRestatusDue(o, why) then effects else WithoutRestatus(effects)) + [Overlay])
      case Foreign => Next(Reconnecting(Since(state, now)), effects + [Show(ReconnectingPage)])
      case InGrace =>
        Next(State.Starting(Since(state, now), AttemptsOf(state)),
             effects + [Show(if StartBudgetSpent(o) then ServerFailedPage else StartingPage)])
      case Free => StepFree(state, o, now, effects, postUpdate)
      case Dead(reason) =>
        if postUpdate && !reason.NeverBound? then StepFree(state, o, now, effects, true)
        else StepDead(state, o, now, effects, reason)
  }

  /** A port reported free and no server there to be replaced. */
  function StepFree(state: State, o: Observation, now: real, effects: seq<Effect>, postUpdate: bool): Next {
    if o.facts.serverMode != "spawn" then
      Next(State.Blocked(NotOurServer(o.facts.serverMode)), effects + [Show(NotOurServerPage)])
    else if MayStart(o) then
      Next(State.Starting(now, SaturatingIncrement(AttemptsOf(state))),
           WithoutActing(effects) + [Spawn, Show(if StartBudgetSpent(o) then ServerFailedPage else StartingPage)])
    else if postUpdate && o.sinceLastStart.None? then
      Next(RestartPending(Since(state, now)), effects + [Show(StartingPage)])
    else if (state.Attached? || state.Reconnecting? || state.Busy?) && !StartBudgetSpent(o) then
      Next(Reconnecting(Since(state, now)), effects + [Show(ReconnectingPage)])
    else
      Next(State.Starting(Since(state, now), AttemptsOf(state)),
           effects + [Show(if StartBudgetSpent(o) then ServerFailedPage else StartingPage)])
  }

  function ConfirmingEffect(o: Observation, reason: DeadReason): Effect {
    match reason
    case ListenerLost => if o.onDashboard then Overlay else Show(ReconnectingPage)
    case NeverBound => Show(if StartBudgetSpent(o) then ServerFailedPage else StartingPage)
    case ProcessGone => Show(ReconnectingPage)
  }

  /** Nothing listens, and a server this window knows of is dead. */
  function StepDead(state: State, o: Observation, now: real, effects: seq<Effect>, reason: DeadReason): Next {
    var same := state.Confirming? && state.dead == reason;
    var first := if same then state.first else now;
    var checks: U32 := if same then (if o.isFresh then SaturatingIncrement(state.checks) else state.checks)
                       else if o.isFresh then 1 else 0;
    if checks == 0 then Next(state, effects + [ConfirmingEffect(o, reason)])
    else
      var confirming := Confirming(reason, first, checks, Since(state, now));
      if !DeadIsConfirmed(o, reason, first, checks, now) then
        Next(confirming, effects + [ConfirmingEffect(o, reason)])
      else if o.facts.serverMode != "spawn" then
        Next(State.Blocked(NotOurServer(o.facts.serverMode)),
             effects + [Show(NotOurServerPage)] + (if o.isFresh then [AnnounceDead] else []))
      else if MayRescue(o) then
        Next(Rescuing(now),
             WithoutActing(effects) + [Rescue(o.knownPid, o.childPid, reason), Log, Show(RescuingPage)])
      else Next(confirming, effects + [Show(ReconnectingPage)])
  }

  /** The rescue is running, or this is the tick that hears it has finished. */
  function StepRescuing(started: real, o: Observation, now: real, given: seq<Effect>): Next {
    var effects := WithoutRestatus(given);
    var asked: seq<Effect> := if o.isFresh then [Restatus] else [];
    match o.rescue
    case Running => Next(Rescuing(started), effects + [Show(RescuingPage)])
    case Idle => Next(Reconnecting(now), effects + asked + [Show(ReconnectingPage)])
    case Done(outcome) =>
      if outcome.result.PortFree? || outcome.result.Unsupported? then
        if !o.isFresh then Next(Rescuing(started), effects + [Show(RescuingPage)])
        else if o.childAlive then Next(State.Starting(now, 0), effects + [Log, Show(StartingPage)])
        else if o.facts.serverMode != "spawn" then
          Next(State.Blocked(NotOurServer(o.facts.serverMode)), effects + [Show(NotOurServerPage)])
        else Next(State.Starting(now, 1), effects + [Spawn, Notify, Show(StartingPage)])
      else Next(Reconnecting(now), effects + [Log] + asked + [Show(ReconnectingPage)])
  }
}
