/** The exact tick on which a dead server is rescued, for each way of being
    dead. */
module ExactMoment {
  import opened Common
  import opened Controller
  import opened ControllerLaws
  import opened Grounds
  import opened Table
  import opened Walks

  /** Nothing else is in the way of a rescue: no helper, finished or live, no
      foreign holder, the grace and both backoffs over, no rescue running. */
  predicate InTheClear(o: Observation) {
    && NothingAnswers(o)
    && o.helper.NoHelper?
    && !StrangerConfirmed(o)
    && o.facts.serverMode == "spawn"
    && !o.rescue.Running?
    && RestedFromRescue(o)
    && Rested(o)
  }

  ghost predicate DeadThroughout(w: seq<Stride>, reason: DeadReason) {
    && IsWalk(w)
    && (forall i :: 0 <= i < |w| ==> IsDead(w[i].look, reason) && InTheClear(w[i].look))
    && (|w| > 0 ==>
          var s := w[0].state;
          !s.Rescuing? && !s.Updating? && !s.RestartPending? && !(s.Confirming? && s.dead == reason))
  }

  /** Fresh ticks among the first `n`. */
  function Checks(w: seq<Stride>, n: nat): nat
    requires n <= |w|
  {
    if n == 0 then 0 else Checks(w, n - 1) + (if w[n - 1].look.isFresh then 1 else 0)
  }

  /** When the first of them was taken. */
  function FirstAt(w: seq<Stride>, n: nat): real
    requires n <= |w| && Checks(w, n) > 0
  {
    if Checks(w, n - 1) > 0 then FirstAt(w, n - 1) else w[n - 1].now
  }

  /** Tick `i` is fresh, and -- unless the process is gone, which needs no second
      look -- at least the threshold-th check; a lost listener has been lost for
      the threshold times the tick since the first check, and a child that never
      opened its port was watched from the end of the grace to the end of the
      start budget and is as old as that budget. */
  predicate Due(w: seq<Stride>, i: nat, reason: DeadReason)
    requires i < |w|
  {
    w[i].look.isFresh && Enough(w[i].look, reason, Checks(w, i + 1), w[i].now - FirstAt(w, i + 1))
  }

  lemma DeadIsDecided(o: Observation, reason: DeadReason)
    requires InTheClear(o)
    ensures Decide(o) == Dead(reason) <==> IsDead(o, reason)
    ensures MayRescue(o) <==> o.isFresh
  {
    hide Decide, IsDead, MayRescue;
    RestedIsPastGrace(o);
    DecideExactly(o);
    GovernorsExactly(o);
  }

  /** One step of such a walk: rescued when confirmed, and otherwise counted on
      a fresh tick and left as it is on a paint tick. */
  ghost predicate DeadMoves(s: Stride, reason: DeadReason) {
    var first, checks := FirstCheck(s.state, reason, s.now), ChecksSoFar(s.state, reason);
    var due := s.look.isFresh && Enough(s.look, reason, checks, s.now - first);
    && Rescues(s) == due
    && (s.look.isFresh && !due ==>
          s.next.Confirming? && s.next.dead == reason && s.next.first == first && s.next.checks == checks)
    && (!s.look.isFresh && !(s.state.Confirming? && s.state.dead == reason) ==> s.next == s.state)
    && (!s.look.isFresh && s.state.Confirming? && s.state.dead == reason ==>
          && s.next.Confirming? && s.next.dead == reason
          && s.next.first == s.state.first && s.next.checks == s.state.checks)
  }

  lemma DeadStep(s: Stride, reason: DeadReason)
    requires Taken(s) && IsDead(s.look, reason) && InTheClear(s.look)
    requires !s.state.Rescuing? && !s.state.Updating? && !s.state.RestartPending?
    ensures DeadMoves(s, reason)
  {
    hide Step, IsDead, Enough, Where, Rescues, Shown, MayBeRescued, Rested, RestedFromRescue, StrangerConfirmed;
    hide NothingAnswers, Began;
    var rescue := Rescue(s.look.knownPid, s.look.childPid, reason);
    RescuesExactlyWhen(s.state, s.look, s.now, rescue);
    ClearMayBeRescued(s.state, s.look, reason, s.now);
    forall e | e in s.effects && e.Rescue?
      ensures e == rescue
    {
      RescuesExactlyWhen(s.state, s.look, s.now, e);
      MayBeRescuedIsDead(s.state, s.look, e.reason, s.now);
      OneWayOfDying(s.look);
    }
    RescuesIs(s, rescue);
    StepIsTheTables(s.state, s.look, s.now);
    ClearLeads(s.state, s.look, reason, s.now);
  }

  lemma MayBeRescuedIsDead(state: State, o: Observation, reason: DeadReason, now: real)
    requires MayBeRescued(state, o, reason, now)
    ensures IsDead(o, reason)
  {
  }

  lemma RescuesIs(s: Stride, rescue: Effect)
    requires rescue.Rescue? && forall e :: e in s.effects && e.Rescue? ==> e == rescue
    ensures Rescues(s) <==> rescue in s.effects
  {
  }

  lemma ClearMayBeRescued(state: State, o: Observation, reason: DeadReason, now: real)
    requires IsDead(o, reason) && InTheClear(o) && !state.Updating? && !state.RestartPending?
    ensures MayBeRescued(state, o, reason, now)
            <==> o.isFresh && Enough(o, reason, ChecksSoFar(state, reason), now - FirstCheck(state, reason, now))
  {
    hide IsDead, Enough, Rested, RestedFromRescue;
  }

  /** Where such a tick leads. */
  lemma ClearLeads(state: State, o: Observation, reason: DeadReason, now: real)
    requires IsDead(o, reason) && InTheClear(o)
    requires !state.Rescuing? && !state.Updating? && !state.RestartPending?
    ensures Where(state, o, now) == WhereWhenDead(state, o, now, reason)
  {
    hide WhereWhenDead, Rested, RestedFromRescue, StrangerConfirmed, InTheGrace, GoneButStale;
    RestedIsPastGrace(o);
  }

  /** Until a rescue is due, the state counts: nothing but paint ticks leaves it
      alone, and from the first fresh tick it is `Confirming` since then. */
  ghost predicate Counting(w: seq<Stride>, n: nat, state: State, reason: DeadReason)
    requires n <= |w| && |w| > 0
  {
    if Checks(w, n) == 0 then state == w[0].state
    else
      && state.Confirming? && state.dead == reason
      && state.first == FirstAt(w, n)
      && state.checks == Saturate(Checks(w, n))
  }

  lemma CountingMoves(w: seq<Stride>, n: nat, reason: DeadReason)
    requires n < |w| && Counting(w, n, w[n].state, reason) && DeadMoves(w[n], reason)
    requires !(w[0].state.Confirming? && w[0].state.dead == reason)
    ensures Rescues(w[n]) == Due(w, n, reason)
    ensures !Due(w, n, reason) ==> Counting(w, n + 1, w[n].next, reason)
  {
    hide Budget, Rescues;
    assert Checks(w, n + 1) == Checks(w, n) + (if w[n].look.isFresh then 1 else 0);
  }

  lemma CountingGoesOn(w: seq<Stride>, n: nat, reason: DeadReason)
    requires DeadThroughout(w, reason) && n < |w| && Counting(w, n, w[n].state, reason)
    ensures Rescues(w[n]) == Due(w, n, reason)
    ensures !Due(w, n, reason) ==> Counting(w, n + 1, w[n].next, reason)
  {
    hide IsDead, InTheClear, Due, Rescues, DeadMoves, Taken;
    DeadStep(w[n], reason);
    CountingMoves(w, n, reason);
  }

  lemma {:induction false} CountsUntilDue(w: seq<Stride>, n: nat, reason: DeadReason)
    requires DeadThroughout(w, reason) && n < |w|
    requires forall i :: 0 <= i < n ==> !Due(w, i, reason)
    ensures Counting(w, n, w[n].state, reason)
  {
    hide IsDead, InTheClear, Due, Taken;
    if n > 0 {
      CountsUntilDue(w, n - 1, reason);
      CountingGoesOn(w, n - 1, reason);
    }
  }

  lemma DueIsRescued(w: seq<Stride>, i: nat, reason: DeadReason)
    requires DeadThroughout(w, reason) && i < |w|
    requires forall j :: 0 <= j < i ==> !Due(w, j, reason)
    ensures Rescues(w[i]) == Due(w, i, reason)
  {
    hide DeadThroughout, Due, Rescues, Counting;
    CountsUntilDue(w, i, reason);
    CountingGoesOn(w, i, reason);
  }

  lemma {:induction false} ChecksOfStart(w: seq<Stride>, m: nat, n: nat)
    requires n <= m <= |w|
    ensures Checks(w[..m], n) == Checks(w, n)
    ensures Checks(w, n) > 0 ==> FirstAt(w[..m], n) == FirstAt(w, n)
    decreases n
  {
    if n > 0 {
      ChecksOfStart(w, m, n - 1);
      assert w[..m][n - 1] == w[n - 1];
    }
  }

  /** Whether a tick is due rests on the ticks up to it alone. */
  lemma DueOfStart(w: seq<Stride>, m: nat, i: nat, reason: DeadReason)
    requires i < m <= |w|
    ensures Due(w[..m], i, reason) == Due(w, i, reason)
  {
    hide FirstAt, Enough;
    ChecksOfStart(w, m, i + 1);
    assert w[..m][i] == w[i];
  }

  /** Two series that agree up to the first `true` of one have it in common. */
  lemma {:induction false} SameFirst(due: seq<bool>, done: seq<bool>, n: nat)
    requires |due| == |done| && n <= |due|
    requires forall i :: 0 <= i < |due| && (forall j :: 0 <= j < i ==> !due[j]) ==> done[i] == due[i]
    ensures (forall j :: 0 <= j < n ==> !done[j]) <==> (forall j :: 0 <= j < n ==> !due[j])
  {
    if n > 0 {
      SameFirst(due, done, n - 1);
    }
  }

  /** The rescue comes on exactly the first due tick, for every reason, for all
      settings and all spacings of fresh and paint ticks: never before it, and on
      it. */
  lemma RescuedExactlyWhenDue(w: seq<Stride>, i: nat, reason: DeadReason)
    requires DeadThroughout(w, reason) && i < |w|
    ensures Rescues(w[i]) && (forall j :: 0 <= j < i ==> !Rescues(w[j]))
            <==> Due(w, i, reason) && (forall j :: 0 <= j < i ==> !Due(w, j, reason))
  {
    hide Due, Rescues, DeadThroughout;
    var due := seq(|w|, k requires 0 <= k < |w| => Due(w, k, reason));
    var done := seq(|w|, k requires 0 <= k < |w| => Rescues(w[k]));
    forall k | 0 <= k < |w| && forall j :: 0 <= j < k ==> !due[j]
      ensures done[k] == due[k]
    {
      forall j | 0 <= j < k ensures !Due(w, j, reason) { assert !due[j]; }
      DueIsRescued(w, k, reason);
    }
    SameFirst(due, done, i);
    SameFirst(due, done, i + 1);
    assert forall j :: 0 <= j < |w| ==> due[j] == Due(w, j, reason);
    assert forall j :: 0 <= j < |w| ==> done[j] == Rescues(w[j]);
  }
}
