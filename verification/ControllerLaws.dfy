/** What one step of the controller promises, for every state and every
    observation. */
module ControllerLaws {
  import opened Common
  import opened Controller
  import opened Grounds

  /** The effects that reach outside the window, in order. */
  function Acting(effects: seq<Effect>): seq<Effect>
  {
    if effects == [] then []
    else (if effects[0].Acts() then [effects[0]] else []) + Acting(effects[1..])
  }

  lemma ActingUnfolds(e: Effect, rest: seq<Effect>)
    ensures Acting([e] + rest) == (if e.Acts() then [e] else []) + Acting(rest)
  {
    assert ([e] + rest)[1..] == rest;
  }

  lemma NothingActs()
    ensures Acting([]) == []
  {
  }

  lemma {:induction false} ActingConcat(a: seq<Effect>, b: seq<Effect>)
    ensures Acting(a + b) == Acting(a) + Acting(b)
  {
    hide Acting, Effect.Acts;
    if a == [] {
      NothingActs();
      assert a + b == b;
    } else {
      ActingConcat(a[1..], b);
      ActingUnfolds(a[0], a[1..]);
      ActingUnfolds(a[0], a[1..] + b);
      assert [a[0]] + a[1..] == a && [a[0]] + (a[1..] + b) == a + b;
    }
  }

  lemma {:induction false} InActing(effects: seq<Effect>, e: Effect)
    ensures e in Acting(effects) <==> e in effects && e.Acts()
  {
    if effects != [] {
      InActing(effects[1..], e);
    }
  }

  lemma {:induction false} ActingNone(effects: seq<Effect>)
    requires forall e :: e in effects ==> !e.Acts()
    ensures Acting(effects) == []
  {
    if effects != [] {
      ActingNone(effects[1..]);
    }
  }

  lemma {:induction false} ActingOfWithoutActing(effects: seq<Effect>)
    ensures Acting(WithoutActing(effects)) == []
  {
    if effects != [] {
      ActingOfWithoutActing(effects[1..]);
      ActingConcat(if effects[0].Acts() then [] else [effects[0]], WithoutActing(effects[1..]));
    }
  }

  lemma ActingFirst(e: Effect, quiet: seq<Effect>)
    requires forall q :: q in quiet ==> !q.Acts()
    ensures Acting([e] + quiet) == if e.Acts() then [e] else []
  {
    assert ([e] + quiet)[1..] == quiet;
    ActingNone(quiet);
  }

  function Listed(act: Option<Effect>): seq<Effect> {
    if act.Some? then [act.value] else []
  }

  /** Adding effects that stay inside the window changes nothing outside it. */
  lemma ActingThen(effects: seq<Effect>, quiet: seq<Effect>)
    requires forall q :: q in quiet ==> !q.Acts()
    ensures Acting(effects + quiet) == Acting(effects)
  {
    ActingNone(quiet);
    ActingConcat(effects, quiet);
  }

  // ---- the one effect of a tick that reaches outside the window ---------

  function Ask(o: Observation): Option<Effect> {
    if o.isFresh then Some(Restatus) else None
  }

  function ActOfRescuing(o: Observation): Option<Effect> {
    if o.rescue.Running? then None
    else if Licensed(o.rescue) then
      if o.isFresh && !o.childAlive && o.facts.serverMode == "spawn" then Some(Spawn) else None
    else Ask(o)
  }

  /** Past every pre-emption, with nothing answering. */
  function ActOfAbsent(state: State, o: Observation, now: real): Option<Effect> {
    if state.Rescuing? then ActOfRescuing(o)
    else if !o.isFresh || AskedRecently(o) then None
    else if MayBeStarted(state, o) then Some(Spawn)
    else
      match ReasonToRescue(state, o, now)
      case Some(reason) => Some(Rescue(o.knownPid, o.childPid, reason))
      case None => Some(Restatus)
  }

  function ReasonToRescue(state: State, o: Observation, now: real): Option<DeadReason> {
    if MayBeRescued(state, o, NeverBound, now) then Some(NeverBound)
    else if MayBeRescued(state, o, ProcessGone, now) then Some(ProcessGone)
    else if MayBeRescued(state, o, ListenerLost, now) then Some(ListenerLost)
    else None
  }

  /** The whole of a tick's reach, as one table over what it observed. */
  function ActOf(state: State, o: Observation, now: real): Option<Effect> {
    if o.shellStale then Some(EnsureShell)
    else if MayBeInstalled(state, o) then Some(Effect.Install)
    else if o.status.NotInstalled? || o.helper.Alive? then Ask(o)
    else if o.health.Healthy? then None
    else if o.status.Unreadable? then Ask(o)
    else if o.health.Absent? then ActOfAbsent(state, o, now)
    else if state.Attached? || state.Rescuing? then None
    else Ask(o)
  }

  lemma ActOfKeepAsking(o: Observation, page: Page)
    ensures Acting(KeepAsking(o, page)) == Listed(Ask(o))
  {
    ActingFirst(Restatus, [Show(page)]);
    ActingNone([Show(page)]);
    assert [Restatus, Show(page)] == [Restatus] + [Show(page)];
  }

  lemma StepMissingActs(state: State, o: Observation, now: real)
    requires !o.shellStale && o.status.NotInstalled?
    ensures Acting(StepMissing(state, o, now).effects)
            == Listed(if MayBeInstalled(state, o) then Some(Effect.Install) else Ask(o))
  {
    hide Acting, KeepAsking, EnvironmentMayBeReplaced, InstallerNear;
    PreemptionsExactly(o);
    ActingNone([]);
    ActOfKeepAsking(o, UpdatingPage);
    ActOfKeepAsking(o, ErrorPage);
    ActingFirst(Restatus, [Show(ErrorPage)]);
    ActingFirst(Restatus, [Show(InstallingPage)]);
    ActingFirst(Effect.Install, []);
    assert [Restatus, Show(ErrorPage)] == [Restatus] + [Show(ErrorPage)];
    assert [Restatus, Show(InstallingPage)] == [Restatus] + [Show(InstallingPage)];
    assert [Effect.Install] == [Effect.Install] + [];
  }

  predicate StartWaited(o: Observation) {
    o.isFresh && o.facts.serverMode == "spawn" && !o.childAlive && Rested(o)
  }

  predicate RescueWaited(o: Observation) {
    o.isFresh && o.facts.serverMode == "spawn" && !o.rescue.Running? && Rested(o) && RestedFromRescue(o)
  }

  predicate Settled(state: State, o: Observation, reason: DeadReason, now: real) {
    Enough(o, reason, ChecksSoFar(state, reason), now - FirstCheck(state, reason, now))
  }

  lemma StepFreeActs(state: State, o: Observation, now: real, effects: seq<Effect>, postUpdate: bool)
    requires NothingAnswers(o) && !InTheGrace(o)
    ensures Acting(StepFree(state, o, now, effects, postUpdate).effects)
            == if StartWaited(o) then [Spawn] else Acting(effects)
  {
    hide NothingAnswers, InTheGrace, Rested, StartBudgetSpent;
    GovernorsExactly(o);
    var page := Show(if StartBudgetSpent(o) then ServerFailedPage else StartingPage);
    var next := StepFree(state, o, now, effects, postUpdate).effects;
    if MayStart(o) {
      assert next == WithoutActing(effects) + ([Spawn] + [page]);
      ActingOfWithoutActing(effects);
      ActingFirst(Spawn, [page]);
      ActingConcat(WithoutActing(effects), [Spawn] + [page]);
    } else {
      ActingThen(effects, [Show(NotOurServerPage)]);
      ActingThen(effects, [Show(StartingPage)]);
      ActingThen(effects, [Show(ReconnectingPage)]);
      ActingThen(effects, [page]);
    }
  }

  /** A dead server is rescued when the waits are over and its death is settled,
      this check included; otherwise the tick asks what it asked before. */
  lemma StepDeadActs(state: State, o: Observation, now: real, effects: seq<Effect>, reason: DeadReason)
    requires NothingAnswers(o) && !InTheGrace(o)
    ensures Acting(StepDead(state, o, now, effects, reason).effects)
            == if RescueWaited(o) && Settled(state, o, reason, now)
               then [Rescue(o.knownPid, o.childPid, reason)] else Acting(effects)
  {
    hide Acting, WithoutActing, DeadIsConfirmed, Enough, MayRescue, NothingAnswers, Rested, RestedFromRescue;
    GovernorsExactly(o);
    ConfirmedExactly(o, reason, FirstCheck(state, reason, now), ChecksSoFar(state, reason), now);
    var rescue := Rescue(o.knownPid, o.childPid, reason);
    var next := StepDead(state, o, now, effects, reason).effects;
    if RescueWaited(o) && Settled(state, o, reason, now) {
      var quiet := [Log, Show(RescuingPage)];
      assert next == WithoutActing(effects) + ([rescue] + quiet);
      ActingOfWithoutActing(effects);
      ActingFirst(rescue, quiet);
      ActingConcat(WithoutActing(effects), [rescue] + quiet);
    } else {
      ActingThen(effects, [ConfirmingEffect(o, reason)]);
      ActingThen(effects, [Show(ReconnectingPage)]);
      ActingThen(effects, [Show(NotOurServerPage)] + (if o.isFresh then [AnnounceDead] else []));
      assert effects + [Show(NotOurServerPage)] + (if o.isFresh then [AnnounceDead] else [])
             == effects + ([Show(NotOurServerPage)] + (if o.isFresh then [AnnounceDead] else []));
    }
  }

  lemma StepRescuingActs(started: real, o: Observation, now: real, given: seq<Effect>)
    requires given == [] || given == [Restatus]
    ensures Acting(StepRescuing(started, o, now, given).effects) == Listed(ActOfRescuing(o))
  {
    hide Acting;
    var effects := WithoutRestatus(given);
    assert effects == [] by { assert [Restatus][1..] == []; }
    var next := StepRescuing(started, o, now, given).effects;
    match o.rescue
    case Running =>
      assert next == [Show(RescuingPage)];
      ActingNone([Show(RescuingPage)]);
    case Idle =>
      assert next == KeepAsking(o, ReconnectingPage);
      ActOfKeepAsking(o, ReconnectingPage);
    case Done(outcome) =>
      if !Licensed(o.rescue) {
        assert next == [Log] + KeepAsking(o, ReconnectingPage);
        ActOfKeepAsking(o, ReconnectingPage);
        ActingConcat([Log], KeepAsking(o, ReconnectingPage));
        ActingNone([Log]);
      } else if ActOfRescuing(o).Some? {
        assert next == [Spawn] + [Notify, Show(StartingPage)];
        ActingFirst(Spawn, [Notify, Show(StartingPage)]);
      } else if !o.isFresh {
        assert next == [Show(RescuingPage)];
        ActingNone([Show(RescuingPage)]);
      } else if o.childAlive {
        assert next == [Log, Show(StartingPage)];
        ActingNone([Log, Show(StartingPage)]);
      } else {
        assert next == [Show(NotOurServerPage)];
        ActingNone([Show(NotOurServerPage)]);
      }
  }

  /** What a fresh tick asks for before it decides. */
  lemma AskFirst(state: State, o: Observation)
    ensures Acting(if NeedsRestatus(state, o) then [Restatus] else [])
            == if NeedsRestatus(state, o) then [Restatus] else []
  {
    ActingFirst(Restatus, []);
    assert [Restatus] == [Restatus] + [];
  }

  lemma StepSlowActs(o: Observation, why: SlowReason, effects: seq<Effect>)
    requires effects == [] || effects == [Restatus]
    ensures Acting((if SlowRestatusDue(o, why) then effects else WithoutRestatus(effects)) + [Overlay])
            == if SlowRestatusDue(o, why) then Acting(effects) else []
  {
    assert WithoutRestatus(effects) == [] by { assert [Restatus][1..] == []; }
    ActingThen(effects, [Overlay]);
    ActingThen([], [Overlay]);
  }

  lemma StrangerIsAskedAbout(state: State, o: Observation, now: real)
    requires NothingAnswers(o) && !state.Rescuing? && StrangerConfirmed(o)
    ensures ActOfAbsent(state, o, now) == Ask(o)
  {
    hide NothingAnswers, StrangerConfirmed, Enough, Rested, InTheGrace, RestedFromRescue, GoneButStale;
  }

  /** A slow verdict asks, unless it asked about the same server a moment ago. */
  lemma ReachWhenSlow(state: State, o: Observation, now: real)
    requires NothingAnswers(o) && !state.Rescuing? && !StrangerConfirmed(o) && Decide(o).Slow?
    ensures ActOfAbsent(state, o, now) == if SlowRestatusDue(o, Decide(o).why) then Ask(o) else None
  {
    hide Decide, StrangerConfirmed, NothingAnswers, Enough, Rested, RestedFromRescue, SlowRestatusDue, InTheGrace;
    DecideExactly(o);
    SlowRestatusExactly(o, Decide(o).why);
  }

  lemma ReachWhenForeignOrInGrace(state: State, o: Observation, now: real)
    requires NothingAnswers(o) && !state.Rescuing? && !StrangerConfirmed(o)
    requires Decide(o).Foreign? || Decide(o).InGrace?
    ensures ActOfAbsent(state, o, now) == Ask(o)
  {
    hide Decide, StrangerConfirmed, NothingAnswers, Enough, Rested, InTheGrace, RestedFromRescue, GoneButStale;
    DecideExactly(o);
    RestedIsPastGrace(o);
  }

  /** Nobody there to be rescued: start, when the waits are over. */
  predicate StartsOver(state: State, o: Observation) {
    Decide(o).Free? || (Decide(o).Dead? && PostUpdate(state, o) && !Decide(o).reason.NeverBound?)
  }

  lemma ReachWhenFree(state: State, o: Observation, now: real)
    requires NothingAnswers(o) && !state.Rescuing? && !StrangerConfirmed(o) && StartsOver(state, o)
    ensures ActOfAbsent(state, o, now) == if StartWaited(o) then Some(Spawn) else Ask(o)
    ensures !InTheGrace(o)
  {
    hide Decide, StrangerConfirmed, NothingAnswers, Enough, Rested, InTheGrace, RestedFromRescue, GoneButStale;
    hide PostUpdate;
    DecideExactly(o);
    if Decide(o).Dead? {
      assert Decide(o) == Dead(Decide(o).reason);
    }
  }

  lemma ReachWhenDead(state: State, o: Observation, now: real)
    requires NothingAnswers(o) && !state.Rescuing? && !StrangerConfirmed(o) && Decide(o).Dead? && !StartsOver(state, o)
    ensures ActOfAbsent(state, o, now)
            == if RescueWaited(o) && Settled(state, o, Decide(o).reason, now)
               then Some(Rescue(o.knownPid, o.childPid, Decide(o).reason)) else Ask(o)
    ensures !InTheGrace(o)
  {
    hide Decide, StrangerConfirmed, NothingAnswers, Enough, Rested, InTheGrace, RestedFromRescue, GoneButStale;
    hide PostUpdate;
    DecideExactly(o);
    assert Decide(o) == Dead(Decide(o).reason);
  }

  lemma StepAbsentActs(state: State, o: Observation, now: real, effects: seq<Effect>)
    requires NothingAnswers(o)
    requires effects == if NeedsRestatus(state, o) then [Restatus] else []
    ensures Acting(StepAbsent(state, o, now, effects).effects) == Listed(ActOfAbsent(state, o, now))
  {
    hide Acting, WithoutActing, WithoutRestatus, MayStart, DeadIsConfirmed, ForeignConfirmed, Decide, StepRescuing;
    hide StepFree, StepDead, ActOfRescuing, Settled, MayRescue, SlowRestatusDue, StartBudgetSpent;
    hide InTheGrace, StrangerConfirmed, MayBeStarted, ReasonToRescue, StartWaited, RescueWaited;
    AskFirst(state, o);
    PreemptionsExactly(o);
    if state.Rescuing? {
      StepRescuingActs(state.since, o, now, effects);
    } else if ForeignConfirmed(o) {
      StrangerIsAskedAbout(state, o, now);
      var quiet := [Show(PortConflictPage)] + (if o.isFresh then [AnnounceDead] else []);
      assert StepAbsent(state, o, now, effects).effects == effects + quiet;
      ActingThen(effects, quiet);
    } else {
      var verdict := Decide(o);
      match verdict
      case Slow(why) =>
        ReachWhenSlow(state, o, now);
        StepSlowActs(o, why, effects);
      case Foreign =>
        ReachWhenForeignOrInGrace(state, o, now);
        ActingThen(effects, [Show(ReconnectingPage)]);
      case InGrace =>
        ReachWhenForeignOrInGrace(state, o, now);
        ActingThen(effects, [Show(if StartBudgetSpent(o) then ServerFailedPage else StartingPage)]);
      case Free =>
        ReachWhenFree(state, o, now);
        StepFreeActs(state, o, now, effects, PostUpdate(state, o));
      case Dead(reason) =>
        if PostUpdate(state, o) && !reason.NeverBound? {
          ReachWhenFree(state, o, now);
          StepFreeActs(state, o, now, effects, true);
        } else {
          ReachWhenDead(state, o, now);
          StepDeadActs(state, o, now, effects, reason);
        }
    }
  }

  lemma StepUnhealthyActs(state: State, o: Observation, now: real)
    requires !o.health.Healthy? && !o.shellStale && o.status.Ok? && !o.helper.Alive?
    ensures Acting(StepUnhealthy(state, o, now).effects)
            == Listed(if o.health.Absent? then ActOfAbsent(state, o, now)
                      else if state.Attached? || state.Rescuing? then None
                      else Ask(o))
  {
    var effects := if NeedsRestatus(state, o) then [Restatus] else [];
    if o.health.Absent? {
      StepAbsentActs(state, o, now, effects);
    } else {
      AskFirst(state, o);
      ActingThen(effects, [Overlay]);
      ActingThen(effects, [Show(ReconnectingPage)]);
      ActingThen(effects, [Show(StartingPage)]);
    }
  }

  lemma StepHealthyActs(state: State, o: Observation)
    ensures Acting(StepHealthy(state, o).effects) == []
  {
    ActingNone(StepHealthy(state, o).effects);
  }

  /** Whatever the state and the facts, the table names everything a tick does
      outside the window -- so no tick does two such things. */
  lemma StepActs(state: State, o: Observation, now: real)
    ensures Acting(Step(state, o, now).effects) == Listed(ActOf(state, o, now))
  {
    if o.shellStale {
      ActingFirst(EnsureShell, []);
      assert [EnsureShell] == [EnsureShell] + [];
    } else if o.status.NotInstalled? {
      StepMissingActs(state, o, now);
    } else if o.helper.Alive? {
      ActOfKeepAsking(o, UpdatingPage);
    } else if o.health.Healthy? {
      StepHealthyActs(state, o);
    } else if o.status.Unreadable? {
      ActOfKeepAsking(o, UpdatingPage);
      ActOfKeepAsking(o, ErrorPage);
    } else {
      StepUnhealthyActs(state, o, now);
    }
  }

  lemma StepDoes(state: State, o: Observation, now: real, e: Effect)
    requires e.Acts()
    ensures e in Step(state, o, now).effects <==> ActOf(state, o, now) == Some(e)
  {
    StepActs(state, o, now);
    InActing(Step(state, o, now).effects, e);
  }

  /** A tick that starts a server ends in `Starting`; one that asks for a rescue
      ends in `Rescuing`, stamped now; and `Rescuing` is entered in no other
      way. */
  predicate Moves(state: State, next: State, act: Option<Effect>, now: real) {
    && (act == Some(Spawn) ==> next.Starting?)
    && (act.Some? && act.value.Rescue? ==> next == Rescuing(now))
    && (next.Rescuing? ==> (act.Some? && act.value.Rescue?) || (state.Rescuing? && next == state))
  }

  lemma StepRescuingMoves(started: real, o: Observation, now: real, given: seq<Effect>)
    ensures Moves(Rescuing(started), StepRescuing(started, o, now, given).state, ActOfRescuing(o), now)
  {
  }

  lemma StepFreeMoves(state: State, o: Observation, now: real, effects: seq<Effect>, postUpdate: bool)
    requires NothingAnswers(o) && !InTheGrace(o)
    ensures var next := StepFree(state, o, now, effects, postUpdate).state;
            !next.Rescuing? && (StartWaited(o) ==> next.Starting?)
  {
    hide MayStart, NothingAnswers, InTheGrace, Rested, StartBudgetSpent;
    GovernorsExactly(o);
  }

  lemma StepDeadMoves(state: State, o: Observation, now: real, effects: seq<Effect>, reason: DeadReason)
    requires !state.Rescuing? && NothingAnswers(o) && !InTheGrace(o)
    ensures var next := StepDead(state, o, now, effects, reason).state;
            if RescueWaited(o) && Settled(state, o, reason, now) then next == Rescuing(now) else !next.Rescuing?
  {
    hide DeadIsConfirmed, Enough, MayRescue, NothingAnswers, InTheGrace, Rested, RestedFromRescue;
    GovernorsExactly(o);
    ConfirmedExactly(o, reason, FirstCheck(state, reason, now), ChecksSoFar(state, reason), now);
  }

  lemma StepAbsentMoves(state: State, o: Observation, now: real, effects: seq<Effect>)
    requires NothingAnswers(o)
    ensures Moves(state, StepAbsent(state, o, now, effects).state, ActOfAbsent(state, o, now), now)
  {
    hide Decide, ForeignConfirmed, StepRescuing, StepFree, StepDead, ActOfRescuing, Settled, WithoutRestatus;
    hide StartBudgetSpent, SlowRestatusDue, InTheGrace, StrangerConfirmed, ActOfAbsent, StartWaited, RescueWaited;
    PreemptionsExactly(o);
    if state.Rescuing? {
      RescuingReach(state, o, now);
      StepRescuingMoves(state.since, o, now, effects);
    } else if ForeignConfirmed(o) {
      StrangerIsAskedAbout(state, o, now);
    } else if Decide(o).Slow? {
      ReachWhenSlow(state, o, now);
    } else if Decide(o).Foreign? || Decide(o).InGrace? {
      ReachWhenForeignOrInGrace(state, o, now);
    } else if StartsOver(state, o) {
      ReachWhenFree(state, o, now);
      StepFreeMoves(state, o, now, effects, PostUpdate(state, o));
    } else {
      ReachWhenDead(state, o, now);
      StepDeadMoves(state, o, now, effects, Decide(o).reason);
    }
  }

  lemma RescuingReach(state: State, o: Observation, now: real)
    requires state.Rescuing?
    ensures ActOfAbsent(state, o, now) == ActOfRescuing(o)
  {
  }

  lemma StepUnhealthyMoves(state: State, o: Observation, now: real)
    requires !o.health.Healthy? && !o.shellStale && o.status.Ok? && !o.helper.Alive?
    ensures Moves(state, StepUnhealthy(state, o, now).state,
                  if o.health.Absent? then ActOfAbsent(state, o, now) else Ask(o), now)
  {
    if o.health.Absent? {
      StepAbsentMoves(state, o, now, if NeedsRestatus(state, o) then [Restatus] else []);
    }
  }

  lemma StepMissingMoves(state: State, o: Observation, now: real)
    requires o.status.NotInstalled? && !o.shellStale
    ensures Moves(state, StepMissing(state, o, now).state, ActOf(state, o, now), now)
  {
  }

  lemma StepMoves(state: State, o: Observation, now: real)
    ensures Moves(state, Step(state, o, now).state, ActOf(state, o, now), now)
  {
    if o.shellStale {
    } else if o.status.NotInstalled? {
      StepMissingMoves(state, o, now);
    } else if o.helper.Alive? {
    } else if o.health.Healthy? {
    } else if o.status.Unreadable? {
    } else {
      StepUnhealthyMoves(state, o, now);
    }
  }

  // ---- what one step promises -------------------------------------------

  /** What a tick may reach for at all. */
  predicate Disciplined(o: Observation, e: Effect) {
    && (!o.isFresh ==> e.EnsureShell?)
    && (o.helper.Alive? ==> !e.Spawn? && !e.Install? && !e.Rescue?)
    && (o.facts.serverMode != "spawn" ==> !e.Spawn? && !e.Rescue?)
  }

  lemma ReachIsDisciplined(state: State, o: Observation, now: real)
    ensures ActOf(state, o, now).Some? ==> Disciplined(o, ActOf(state, o, now).value)
  {
  }

  /** At most one effect of a tick reaches outside the window; a paint tick
      reaches out only to fetch the pinned shell; nothing is spawned, installed
      or rescued beside a live installer; and outside spawn mode nothing is
      spawned or rescued. */
  lemma EffectDiscipline(state: State, o: Observation, now: real)
    ensures |Acting(Step(state, o, now).effects)| <= 1
    ensures forall e :: e in Step(state, o, now).effects && e.Acts() ==> Disciplined(o, e)
  {
    StepActs(state, o, now);
    ReachIsDisciplined(state, o, now);
    forall e | e in Step(state, o, now).effects && e.Acts()
      ensures ActOf(state, o, now) == Some(e)
    {
      StepDoes(state, o, now, e);
    }
  }

  /** What a start or a rescue needs. In `Rescuing` only a start is possible: on
      a silent fresh tick, beside no live child, on the rescue's own report. */
  predicate Justified(state: State, o: Observation, now: real, e: Effect) {
    if state.Rescuing? then
      && e.Spawn? && NothingAnswers(o) && o.isFresh && o.facts.serverMode == "spawn"
      && Licensed(o.rescue) && !o.childAlive
    else if e.Spawn? then MayBeStarted(state, o)
    else e.Rescue? && e == Rescue(o.knownPid, o.childPid, e.reason) && MayBeRescued(state, o, e.reason, now)
  }

  lemma ReachIsJustified(state: State, o: Observation, now: real)
    ensures var act := ActOf(state, o, now);
            act.Some? && (act.value.Spawn? || act.value.Rescue?) ==> Justified(state, o, now, act.value)
    ensures ActOf(state, o, now).Some? ==> ActOf(state, o, now).value.Acts()
  {
    hide MayBeStarted, MayBeRescued, MayBeInstalled, AskedRecently;
  }

  /** Every start and every rescue is justified, whatever the state. */
  lemma ActingNeedsProof(state: State, o: Observation, now: real, e: Effect)
    requires e in Step(state, o, now).effects && (e.Spawn? || e.Rescue?)
    ensures Justified(state, o, now, e)
  {
    StepDoes(state, o, now, e);
    ReachIsJustified(state, o, now);
  }

  /** No page is the last word: on a fresh tick with nothing answering, in any
      state but `Rescuing`, some effect reaches outside the window, unless the
      status was asked for a moment ago about a server of ours that holds the
      port. Short of a proven-free port it is always that question. */
  lemma Progress(state: State, o: Observation, now: real)
    requires o.isFresh && o.health.Absent? && !state.Rescuing?
    ensures Acting(Step(state, o, now).effects) != [] <==> !AskedRecently(o)
    ensures NothingAnswers(o) && !ProvenFree(o) && !AskedRecently(o) ==> Restatus in Step(state, o, now).effects
  {
    hide Acting, Step, InTheGrace, Rested, Enough, AskedRecently, InstallerNear, StrangerConfirmed;
    AskedIsSilent(o);
    StepActs(state, o, now);
    InActing(Step(state, o, now).effects, Restatus);
  }

  lemma AskedIsSilent(o: Observation)
    ensures AskedRecently(o) ==> NothingAnswers(o) && !ProvenFree(o)
  {
  }

  /** Outside `Rescuing` a tick starts a server exactly when one may be started
      on what it observed. */
  lemma StartsExactlyWhen(state: State, o: Observation, now: real)
    requires !state.Rescuing?
    ensures Spawn in Step(state, o, now).effects <==> MayBeStarted(state, o)
  {
    hide Step, AskedRecently, MayBeRescued, InstallerNear;
    StepDoes(state, o, now, Spawn);
    FreeIsNotHeld(o);
  }

  lemma FreeIsNotHeld(o: Observation)
    ensures ProvenFree(o) ==> !AskedRecently(o) && o.listener.Free?
  {
  }

  /** Any tick rescues a server exactly when one may be rescued on what it
      observed and counted, and names just the pids it knows. */
  lemma RescuesExactlyWhen(state: State, o: Observation, now: real, e: Effect)
    requires e.Rescue?
    ensures e in Step(state, o, now).effects
            <==> && !state.Rescuing? && MayBeRescued(state, o, e.reason, now)
                 && e.knownPid == o.knownPid && e.childPid == o.childPid
  {
    hide Step, AskedRecently, InstallerNear, Enough, Rested, RestedFromRescue, StrangerConfirmed;
    StepDoes(state, o, now, e);
    FreeIsNotHeld(o);
  }

  /** Any tick runs the installer exactly when it may. */
  lemma InstallsExactlyWhen(state: State, o: Observation, now: real)
    ensures Effect.Install in Step(state, o, now).effects <==> MayBeInstalled(state, o)
  {
    hide Step, AskedRecently, MayBeStarted, MayBeRescued;
    StepDoes(state, o, now, Effect.Install);
  }
}
