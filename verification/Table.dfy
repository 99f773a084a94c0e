/** Where every tick leads and what it shows, as two tables over what it
    observed; the step function, with its list of effects built and filtered
    along eight functions, is exactly them. */
module Table {
  import opened Common
  import opened Controller
  import opened Grounds
  import opened ControllerLaws

  // ---- where a tick leads -------------------------------------------------

  /** When the wait the state is in began; a state that is no wait begins one. */
  function Began(state: State, now: real): real {
    if state.Booting? || state.Attached? || state.Installing? || state.Verifying? || state.Blocked? then now
    else state.since
  }

  function Tries(state: State): U32 {
    if state.Starting? then state.attempts else 0
  }

  predicate GivenUp(state: State) {
    state.Blocked? && state.reason.Install?
  }

  /** The window waits for an installer: while one runs, and for half a minute
      after one for whatever is missing or unreadable. */
  predicate WaitsForInstaller(o: Observation) {
    && InstallerNear(o)
    && (o.helper.Alive? || o.status.NotInstalled? || (o.status.Unreadable? && !o.health.Healthy?))
  }

  /** Nothing is concluded: the window itself is fetched, or My Claude Code is
      missing and this is a paint tick, or that was given up. */
  predicate Unmoved(state: State, o: Observation) {
    || o.shellStale
    || (o.status.NotInstalled? && !InstallerNear(o) && (!o.isFresh || GivenUp(state)))
  }

  function Where(state: State, o: Observation, now: real): State {
    if Unmoved(state, o) then state
    else if WaitsForInstaller(o) then Updating(Began(state, now))
    else if o.status.NotInstalled? then
      if state.Installing? then Verifying(state.attempts)
      else if !state.Verifying? then Installing(1)
      else if state.attempts < 3 then Installing(state.attempts + 1)
      else State.Blocked(Blocked.Install(state.attempts))
    else if o.health.Healthy? then Attached
    else if o.status.Unreadable? then State.Blocked(Blocked.Status)
    else if o.health.Draining? then State.Draining(Began(state, now))
    else if o.health.Starting? then State.Starting(Began(state, now), Tries(state))
    else WhereWhenSilent(state, o, now)
  }

  function WhereWhenSilent(state: State, o: Observation, now: real): State {
    if state.Rescuing? then WhereAfterRescue(state, o, now)
    else if StrangerConfirmed(o) then State.Blocked(ForeignPort)
    else if InTheGrace(o) then State.Starting(Began(state, now), Tries(state))
    else if HeldByStranger(o) && !GoneButStale(o) then Reconnecting(Began(state, now))
    else if !ProvenFree(o) then Busy(Began(state, now))
    else if NobodyToRescue(state, o) then WhereWhenFree(state, o, now)
    else WhereWhenDead(state, o, now, WayOfDying(o))
  }

  function WhereAfterRescue(state: State, o: Observation, now: real): State {
    if o.rescue.Running? || (Licensed(o.rescue) && !o.isFresh) then state
    else if !Licensed(o.rescue) then Reconnecting(now)
    else if o.childAlive then State.Starting(now, 0)
    else if o.facts.serverMode == "spawn" then State.Starting(now, 1)
    else State.Blocked(NotOurServer(o.facts.serverMode))
  }

  /** On a free port: no server is known, or an update ended the one that was. */
  predicate NobodyToRescue(state: State, o: Observation) {
    !NeverOpened(o) && (ServerKnown(o) ==> PostUpdate(state, o))
  }

  function WayOfDying(o: Observation): DeadReason {
    if NeverOpened(o) then NeverBound
    else if o.knownAlive == Some(false) || (o.knownPid.None? && o.childPid.None?) then ProcessGone
    else ListenerLost
  }

  function WhereWhenFree(state: State, o: Observation, now: real): State {
    if o.facts.serverMode != "spawn" then State.Blocked(NotOurServer(o.facts.serverMode))
    else if o.isFresh && !o.childAlive && Rested(o) then
      State.Starting(now, if Tries(state) == U32_MAX then U32_MAX else Tries(state) + 1)
    else if PostUpdate(state, o) && o.sinceLastStart.None? then RestartPending(Began(state, now))
    else if (state.Attached? || state.Reconnecting? || state.Busy?) && !Spent(o) then Reconnecting(Began(state, now))
    else State.Starting(Began(state, now), Tries(state))
  }

  /** The agreeing checks counted once this tick is over. */
  function ChecksAfter(state: State, o: Observation, reason: DeadReason): U32 {
    if o.isFresh then ChecksSoFar(state, reason)
    else if state.Confirming? && state.dead == reason then state.checks
    else 0
  }

  predicate SettledNow(state: State, o: Observation, now: real, reason: DeadReason) {
    Enough(o, reason, ChecksAfter(state, o, reason), now - FirstCheck(state, reason, now))
  }

  function WhereWhenDead(state: State, o: Observation, now: real, reason: DeadReason): State {
    if ChecksAfter(state, o, reason) == 0 then state
    else if SettledNow(state, o, now, reason) && o.facts.serverMode != "spawn" then
      State.Blocked(NotOurServer(o.facts.serverMode))
    else if SettledNow(state, o, now, reason) && RescueWaited(o) then Rescuing(now)
    else Confirming(reason, FirstCheck(state, reason, now), ChecksAfter(state, o, reason), Began(state, now))
  }

  lemma WayOfDyingIsDead(state: State, o: Observation)
    requires ProvenFree(o) && !NobodyToRescue(state, o)
    ensures IsDead(o, WayOfDying(o))
  {
    hide PostUpdate;
  }

  lemma OneWayOfDying(o: Observation)
    ensures forall reason :: IsDead(o, reason) ==> reason == WayOfDying(o)
  {
  }

  // ---- what it shows ------------------------------------------------------

  function Shown(state: State, o: Observation, now: real): seq<Effect> {
    if o.shellStale || MayBeInstalled(state, o) then []
    else if o.status.NotInstalled? && !InstallerNear(o) then
      if !o.isFresh then [] else [Show(if state.Installing? then InstallingPage else ErrorPage)]
    else if WaitsForInstaller(o) then [Show(UpdatingPage)]
    else if o.health.Healthy? then ShownOnAttaching(state, o)
    else if o.status.Unreadable? then [Show(ErrorPage)]
    else if o.health.Draining? then OnTop(o, ReconnectingPage)
    else if o.health.Starting? then OnTop(o, StartingPage)
    else ShownWhenSilent(state, o, now)
  }

  function ShownWhenSilent(state: State, o: Observation, now: real): seq<Effect> {
    if state.Rescuing? then ShownAfterRescue(o)
    else if StrangerConfirmed(o) then [Show(PortConflictPage)] + Announced(o)
    else if InTheGrace(o) then StartingOrTheTruth(o)
    else if HeldByStranger(o) && !GoneButStale(o) then [Show(ReconnectingPage)]
    else if !ProvenFree(o) then [Overlay]
    else if NobodyToRescue(state, o) then ShownWhenFree(o, WhereWhenFree(state, o, now))
    else ShownWhenDead(state, o, now, WayOfDying(o))
  }

  /** A dashboard on screen stays there, under a banner. */
  function OnTop(o: Observation, page: Page): seq<Effect> {
    [if o.onDashboard then Overlay else Show(page)]
  }

  function Announced(o: Observation): seq<Effect> {
    if o.isFresh then [AnnounceDead] else []
  }

  function StartingOrTheTruth(o: Observation): seq<Effect> {
    [Show(if Spent(o) then ServerFailedPage else StartingPage)]
  }

  /** Another process answers than the one that drew the dashboard. */
  predicate AnotherServer(o: Observation) {
    o.answerPid.Some? && o.dashboardPid.Some? && o.answerPid != o.dashboardPid
  }

  predicate Interrupted(state: State) {
    state.Reconnecting? || state.RestartPending? || state.Updating? || state.Draining? || state.Rescuing?
  }

  function ShownOnAttaching(state: State, o: Observation): seq<Effect> {
    if state.Attached? then []
    else if Interrupted(state) then [Attach(!o.onDashboard || AnotherServer(o)), RaiseOnce]
    else [Attach(!o.onDashboard || AnotherServer(o))]
  }

  function ShownAfterRescue(o: Observation): seq<Effect> {
    if o.rescue.Running? || (Licensed(o.rescue) && !o.isFresh) then [Show(RescuingPage)]
    else if o.rescue.Idle? then [Show(ReconnectingPage)]
    else if !Licensed(o.rescue) then [Log, Show(ReconnectingPage)]
    else if o.childAlive then [Log, Show(StartingPage)]
    else if o.facts.serverMode == "spawn" then [Notify, Show(StartingPage)]
    else [Show(NotOurServerPage)]
  }

  function ShownWhenFree(o: Observation, next: State): seq<Effect> {
    match next
    case Blocked(_) => [Show(NotOurServerPage)]
    case RestartPending(_) => [Show(StartingPage)]
    case Reconnecting(_) => [Show(ReconnectingPage)]
    case _ => StartingOrTheTruth(o)
  }

  function ShownWhenDead(state: State, o: Observation, now: real, reason: DeadReason): seq<Effect> {
    if ChecksAfter(state, o, reason) == 0 || !SettledNow(state, o, now, reason) then
      match reason
      case ListenerLost => OnTop(o, ReconnectingPage)
      case NeverBound => StartingOrTheTruth(o)
      case ProcessGone => [Show(ReconnectingPage)]
    else if o.facts.serverMode != "spawn" then [Show(NotOurServerPage)] + Announced(o)
    else if RescueWaited(o) then [Log, Show(RescuingPage)]
    else [Show(ReconnectingPage)]
  }

  // ---- the step function is these tables ------------------------------------

  predicate IsRow(next: Next, state: State, shown: seq<Effect>) {
    next.state == state && WithoutActing(next.effects) == shown
  }

  lemma QuietUnfolds(e: Effect, rest: seq<Effect>)
    ensures WithoutActing([e] + rest) == (if e.Acts() then [] else [e]) + WithoutActing(rest)
  {
    assert ([e] + rest)[1..] == rest;
  }

  lemma {:induction false} QuietConcat(a: seq<Effect>, b: seq<Effect>)
    ensures WithoutActing(a + b) == WithoutActing(a) + WithoutActing(b)
  {
    hide WithoutActing, Effect.Acts;
    if a == [] {
      QuietOfNone();
      assert a + b == b;
    } else {
      QuietConcat(a[1..], b);
      QuietUnfolds(a[0], a[1..]);
      QuietUnfolds(a[0], a[1..] + b);
      assert [a[0]] + a[1..] == a && [a[0]] + (a[1..] + b) == a + b;
    }
  }

  lemma QuietOfNone()
    ensures WithoutActing([]) == []
  {
  }

  lemma {:induction false} QuietOfQuiet(effects: seq<Effect>)
    requires forall e :: e in effects ==> !e.Acts()
    ensures WithoutActing(effects) == effects
  {
    if effects != [] {
      QuietOfQuiet(effects[1..]);
    }
  }

  lemma {:induction false} QuietTwice(effects: seq<Effect>)
    ensures forall e :: e in WithoutActing(effects) ==> !e.Acts()
  {
    if effects != [] {
      QuietTwice(effects[1..]);
    }
  }

  /** Before its own page, a tick has at most asked. */
  predicate Asked(effects: seq<Effect>) {
    effects == [] || effects == [Restatus]
  }

  lemma QuietAfterAsking(asked: seq<Effect>, shown: seq<Effect>)
    requires Asked(asked) && forall e :: e in shown ==> !e.Acts()
    ensures WithoutActing(asked + shown) == shown
    ensures WithoutActing(asked) == [] && WithoutRestatus(asked) == []
  {
    QuietConcat(asked, shown);
    QuietOfQuiet(shown);
    assert WithoutActing(asked) == [] && WithoutRestatus(asked) == [] by { assert [Restatus][1..] == []; }
  }

  lemma QuietPair(page: Page)
    ensures WithoutActing([Restatus, Show(page)]) == [Show(page)]
  {
    QuietAfterAsking([Restatus], [Show(page)]);
    assert [Restatus] + [Show(page)] == [Restatus, Show(page)];
  }

  lemma QuietInstall()
    ensures WithoutActing([Effect.Install]) == []
  {
    QuietUnfolds(Effect.Install, []);
    QuietOfNone();
    assert [Effect.Install] + [] == [Effect.Install];
  }

  lemma QuietKeepAsking(o: Observation, page: Page)
    ensures WithoutActing(KeepAsking(o, page)) == [Show(page)]
  {
    QuietAfterAsking([Restatus], [Show(page)]);
    QuietAfterAsking([], [Show(page)]);
    assert [Restatus] + [Show(page)] == [Restatus, Show(page)] && [] + [Show(page)] == [Show(page)];
  }

  /** The one effect that acts, between what was asked and what is shown. */
  lemma QuietAround(asked: seq<Effect>, act: Effect, shown: seq<Effect>)
    requires Asked(asked) && act.Acts() && forall e :: e in shown ==> !e.Acts()
    ensures WithoutActing(WithoutActing(asked) + [act] + shown) == shown
  {
    QuietAfterAsking(asked, []);
    QuietUnfolds(act, shown);
    QuietOfQuiet(shown);
    assert WithoutActing(asked) + [act] + shown == [act] + shown;
  }

  lemma BeganIsSince(state: State, now: real)
    ensures Since(state, now) == Began(state, now)
  {
  }

  lemma MissingLeads(state: State, o: Observation, now: real)
    requires !o.shellStale && o.status.NotInstalled?
    ensures StepMissing(state, o, now).state == Where(state, o, now)
  {
    hide KeepAsking, EnvironmentMayBeReplaced, InstallerNear, Since, Began, WhereWhenSilent;
    PreemptionsExactly(o);
    BeganIsSince(state, now);
  }

  lemma MissingShows(state: State, o: Observation, now: real)
    requires !o.shellStale && o.status.NotInstalled?
    ensures WithoutActing(StepMissing(state, o, now).effects) == Shown(state, o, now)
  {
    hide KeepAsking, EnvironmentMayBeReplaced, InstallerNear, WithoutActing, ShownWhenSilent, ShownOnAttaching, OnTop;
    PreemptionsExactly(o);
    QuietKeepAsking(o, UpdatingPage);
    QuietKeepAsking(o, ErrorPage);
    QuietOfNone();
    QuietInstall();
    QuietPair(ErrorPage);
    QuietPair(InstallingPage);
  }

  lemma RescuingIsTable(state: State, o: Observation, now: real, asked: seq<Effect>)
    requires state.Rescuing? && Asked(asked)
    ensures IsRow(StepRescuing(state.since, o, now, asked), WhereAfterRescue(state, o, now), ShownAfterRescue(o))
  {
    hide WithoutActing;
    QuietAfterAsking(asked, []);
    var next := StepRescuing(state.since, o, now, asked).effects;
    if o.rescue.Idle? {
      assert next == KeepAsking(o, ReconnectingPage);
      QuietKeepAsking(o, ReconnectingPage);
    } else if o.rescue.Done? && !Licensed(o.rescue) {
      assert next == [Log] + KeepAsking(o, ReconnectingPage);
      QuietUnfolds(Log, KeepAsking(o, ReconnectingPage));
      QuietKeepAsking(o, ReconnectingPage);
    } else if ShownAfterRescue(o) == [Notify, Show(StartingPage)] {
      assert next == [Spawn] + [Notify, Show(StartingPage)];
      QuietUnfolds(Spawn, [Notify, Show(StartingPage)]);
      QuietOfQuiet([Notify, Show(StartingPage)]);
    } else {
      assert next == ShownAfterRescue(o);
      QuietOfQuiet(next);
    }
  }

  lemma FreeIsTable(state: State, o: Observation, now: real, asked: seq<Effect>)
    requires NothingAnswers(o) && !InTheGrace(o) && Asked(asked)
    ensures var where := WhereWhenFree(state, o, now);
            IsRow(StepFree(state, o, now, asked, PostUpdate(state, o)), where, ShownWhenFree(o, where))
  {
    hide WithoutActing, MayStart, Rested, Since, Began, StartBudgetSpent, Spent, InTheGrace;
    GovernorsExactly(o);
    SpentExactly(o);
    BeganIsSince(state, now);
    var where := WhereWhenFree(state, o, now);
    var page := ShownWhenFree(o, where);
    QuietAfterAsking(asked, page);
    QuietAround(asked, Spawn, page);
    if MayStart(o) {
      assert StepFree(state, o, now, asked, PostUpdate(state, o)).effects == WithoutActing(asked) + [Spawn] + page;
    } else {
      assert StepFree(state, o, now, asked, PostUpdate(state, o)).effects == asked + page;
    }
  }

  lemma ConfirmingIsShown(o: Observation, reason: DeadReason)
    ensures [ConfirmingEffect(o, reason)]
            == match reason
               case ListenerLost => OnTop(o, ReconnectingPage)
               case NeverBound => StartingOrTheTruth(o)
               case ProcessGone => [Show(ReconnectingPage)]
  {
    hide StartBudgetSpent, Spent;
    SpentExactly(o);
  }

  lemma DeadLeads(state: State, o: Observation, now: real, asked: seq<Effect>, reason: DeadReason)
    requires NothingAnswers(o) && !InTheGrace(o)
    ensures StepDead(state, o, now, asked, reason).state == WhereWhenDead(state, o, now, reason)
  {
    hide WithoutActing, MayRescue, Rested, RestedFromRescue, Since, Began, InTheGrace, DeadIsConfirmed, Enough;
    hide ConfirmingEffect, NothingAnswers;
    GovernorsExactly(o);
    BeganIsSince(state, now);
    ConfirmedExactly(o, reason, FirstCheck(state, reason, now), ChecksAfter(state, o, reason), now);
  }

  /** The effects of a step for a dead server: what was asked, or the rescue, and
      then what is shown. */
  lemma DeadLists(state: State, o: Observation, now: real, asked: seq<Effect>, reason: DeadReason)
    requires NothingAnswers(o) && !InTheGrace(o)
    ensures var shown := ShownWhenDead(state, o, now, reason);
            StepDead(state, o, now, asked, reason).effects
            == if ChecksAfter(state, o, reason) > 0 && SettledNow(state, o, now, reason) && RescueWaited(o)
               then WithoutActing(asked) + [Rescue(o.knownPid, o.childPid, reason)] + shown
               else asked + shown
  {
    hide WithoutActing, MayRescue, Rested, RestedFromRescue, InTheGrace, DeadIsConfirmed, Enough;
    hide ConfirmingEffect, NothingAnswers, StartingOrTheTruth;
    GovernorsExactly(o);
    ConfirmingIsShown(o, reason);
    ConfirmedExactly(o, reason, FirstCheck(state, reason, now), ChecksAfter(state, o, reason), now);
  }

  lemma DeadIsTable(state: State, o: Observation, now: real, asked: seq<Effect>, reason: DeadReason)
    requires NothingAnswers(o) && !InTheGrace(o) && Asked(asked)
    ensures IsRow(StepDead(state, o, now, asked, reason),
                  WhereWhenDead(state, o, now, reason), ShownWhenDead(state, o, now, reason))
  {
    hide WithoutActing, StepDead, WhereWhenDead, ShownWhenDead, SettledNow, ChecksAfter, RescueWaited, NothingAnswers;
    DeadLeads(state, o, now, asked, reason);
    DeadLists(state, o, now, asked, reason);
    DeadShowsQuietly(state, o, now, reason);
    var shown := ShownWhenDead(state, o, now, reason);
    QuietAfterAsking(asked, shown);
    QuietAround(asked, Rescue(o.knownPid, o.childPid, reason), shown);
  }

  lemma DeadShowsQuietly(state: State, o: Observation, now: real, reason: DeadReason)
    ensures forall e :: e in ShownWhenDead(state, o, now, reason) ==> !e.Acts()
  {
    hide SettledNow, ChecksAfter, RescueWaited, Spent;
  }

  /** The verdict, read off the table's own conditions. */
  lemma VerdictOfTable(state: State, o: Observation)
    ensures Decide(o).InGrace? <==> InTheGrace(o)
    ensures Decide(o).Foreign? <==> !InTheGrace(o) && HeldByStranger(o) && !GoneButStale(o)
    ensures Decide(o).Slow? <==> !InTheGrace(o) && !(HeldByStranger(o) && !GoneButStale(o)) && !ProvenFree(o)
    ensures Decide(o).Free? || Decide(o).Dead? ==> ProvenFree(o)
    ensures Decide(o).Dead? ==> Decide(o).reason == WayOfDying(o)
    ensures StartsOver(state, o) <==> !InTheGrace(o) && ProvenFree(o) && NobodyToRescue(state, o)
  {
    hide PostUpdate;
  }

  lemma AbsentIsTable(state: State, o: Observation, now: real, asked: seq<Effect>)
    requires NothingAnswers(o) && Asked(asked)
    ensures IsRow(StepAbsent(state, o, now, asked), WhereWhenSilent(state, o, now), ShownWhenSilent(state, o, now))
  {
    hide WithoutActing, WithoutRestatus, ForeignConfirmed, Decide, StepRescuing, StepFree, StepDead, Since, Began;
    hide StartBudgetSpent, Spent, InTheGrace, StrangerConfirmed, GoneButStale, HeldByStranger, ProvenFree;
    hide WhereWhenFree;
    hide WhereWhenDead, WhereAfterRescue, ShownWhenFree, ShownWhenDead, ShownAfterRescue, WayOfDying, NobodyToRescue;
    hide SlowRestatusDue, NothingAnswers;
    PreemptionsExactly(o);
    BeganIsSince(state, now);
    VerdictOfTable(state, o);
    SpentExactly(o);
    if state.Rescuing? {
      RescuingIsTable(state, o, now, asked);
    } else if ForeignConfirmed(o) {
      var shown := [Show(PortConflictPage)] + Announced(o);
      QuietAfterAsking(asked, shown);
      assert StepAbsent(state, o, now, asked).effects == asked + shown;
    } else if Decide(o).Slow? {
      QuietAfterAsking(asked, [Overlay]);
      QuietAfterAsking([], [Overlay]);
    } else if Decide(o).Foreign? {
      QuietAfterAsking(asked, [Show(ReconnectingPage)]);
    } else if Decide(o).InGrace? {
      QuietAfterAsking(asked, StartingOrTheTruth(o));
    } else if StartsOver(state, o) {
      FreeIsTable(state, o, now, asked);
    } else {
      DeadIsTable(state, o, now, asked, WayOfDying(o));
    }
  }

  lemma UnhealthyIsTable(state: State, o: Observation, now: real)
    requires !o.health.Healthy? && !o.shellStale && o.status.Ok? && !o.helper.Alive?
    ensures IsRow(StepUnhealthy(state, o, now), Where(state, o, now), Shown(state, o, now))
  {
    hide WithoutActing, Since, Began, StepAbsent, InstallerNear, WhereWhenSilent, ShownWhenSilent;
    var asked := if NeedsRestatus(state, o) then [Restatus] else [];
    if o.health.Absent? {
      AbsentIsTable(state, o, now, asked);
    } else {
      BeganIsSince(state, now);
      QuietAfterAsking(asked, OnTop(o, ReconnectingPage));
      QuietAfterAsking(asked, OnTop(o, StartingPage));
    }
  }

  lemma HealthyIsTable(state: State, o: Observation)
    ensures IsRow(StepHealthy(state, o), Attached, ShownOnAttaching(state, o))
  {
    hide WithoutActing;
    assert StepHealthy(state, o).effects == ShownOnAttaching(state, o);
    QuietOfQuiet(ShownOnAttaching(state, o));
  }

  /** For every state and every observation the step leads where the one table
      says and shows what the other says. */
  lemma StepIsTheTables(state: State, o: Observation, now: real)
    ensures Step(state, o, now).state == Where(state, o, now)
    ensures WithoutActing(Step(state, o, now).effects) == Shown(state, o, now)
  {
    hide WithoutActing, Since, Began, StepMissing, StepUnhealthy, StepHealthy, EnvironmentMayBeReplaced, KeepAsking;
    hide WhereWhenSilent, ShownWhenSilent;
    PreemptionsExactly(o);
    BeganIsSince(state, now);
    QuietKeepAsking(o, UpdatingPage);
    QuietKeepAsking(o, ErrorPage);
    if o.shellStale {
      QuietUnfolds(EnsureShell, []);
      QuietOfNone();
      assert [EnsureShell] + [] == [EnsureShell];
    } else if o.status.NotInstalled? {
      MissingLeads(state, o, now);
      MissingShows(state, o, now);
    } else if o.helper.Alive? {
    } else if o.health.Healthy? {
      HealthyIsTable(state, o);
    } else if o.status.Ok? {
      UnhealthyIsTable(state, o, now);
    }
  }
}
