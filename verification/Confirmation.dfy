/** What `Confirming` remembers: an unbroken series of agreeing checks. */
module Confirmation {
  import opened Common
  import opened Controller
  import opened ControllerLaws
  import opened Grounds
  import opened Table
  import opened Walks

  /** A fresh tick that is not spent on fetching the pinned shell. */
  predicate Checks(o: Observation) {
    o.isFresh && !o.shellStale
  }

  predicate Agrees(o: Observation, reason: DeadReason) {
    o.health.Absent? && !InTheGrace(o) && IsDead(o, reason)
  }

  /** How a step comes to be `Confirming`: a check agreed and was counted, or
      nothing was checked and the count was left alone. */
  predicate ConfirmMoves(state: State, o: Observation, now: real, next: State) {
    next.Confirming? ==>
      if Checks(o) then
        && Agrees(o, next.dead)
        && next.first == FirstCheck(state, next.dead, now)
        && next.checks == ChecksSoFar(state, next.dead)
      else
        state.Confirming? && state.dead == next.dead && state.first == next.first && state.checks == next.checks
  }

  lemma SilentConfirms(state: State, o: Observation, now: real)
    requires NothingAnswers(o)
    ensures ConfirmMoves(state, o, now, WhereWhenSilent(state, o, now))
  {
    hide Began, Spent, InTheGrace, StrangerConfirmed, PostUpdate, RescueWaited, Licensed, Rested, Enough;
    hide GoneButStale, HeldByStranger;
    if ProvenFree(o) && !NobodyToRescue(state, o) {
      WayOfDyingIsDead(state, o);
      OneWayOfDying(o);
    }
  }

  lemma StepConfirms(state: State, o: Observation, now: real)
    ensures ConfirmMoves(state, o, now, Step(state, o, now).state)
  {
    hide Step, WhereWhenSilent, IsDead, InTheGrace, Shown;
    StepIsTheTables(state, o, now);
    if NothingAnswers(o) {
      SilentConfirms(state, o, now);
    }
  }

  /** Checks from tick `from` up to tick `to`. */
  function CheckCount(w: seq<Stride>, from: nat, to: nat): nat
    requires from <= to <= |w|
  {
    if from == to then 0 else CheckCount(w, from, to - 1) + (if Checks(w[to - 1].look) then 1 else 0)
  }

  /** Every check from tick `k`, itself one, up to tick `n` agreed on `reason`. */
  ghost predicate AgreedSince(w: seq<Stride>, k: int, n: int, reason: DeadReason) {
    && 0 <= k < n <= |w|
    && Checks(w[k].look)
    && (forall i :: k <= i < n && Checks(w[i].look) ==> Agrees(w[i].look, reason))
  }

  /** `first` and `checks` are the time and the number of the checks since. */
  ghost predicate CountsSince(w: seq<Stride>, k: int, n: int, reason: DeadReason, first: real, checks: U32) {
    && AgreedSince(w, k, n, reason)
    && first == w[k].now
    && checks == Saturate(CheckCount(w, k, n))
  }

  lemma CountGoesOn(w: seq<Stride>, k: int, m: nat, reason: DeadReason, first: real, checks: U32)
    requires m < |w| && CountsSince(w, k, m, reason, first, checks)
    requires Checks(w[m].look) ==> Agrees(w[m].look, reason)
    ensures CountsSince(w, k, m + 1, reason, first,
                        if Checks(w[m].look) then SaturatingIncrement(checks) else checks)
  {
    assert CheckCount(w, k, m + 1) == CheckCount(w, k, m) + (if Checks(w[m].look) then 1 else 0);
  }

  lemma CountStarts(w: seq<Stride>, m: nat, reason: DeadReason)
    requires m < |w| && Checks(w[m].look) && Agrees(w[m].look, reason)
    ensures CountsSince(w, m, m + 1, reason, w[m].now, 1)
  {
    assert CheckCount(w, m, m + 1) == CheckCount(w, m, m) + 1;
  }

  /** Whenever a walk is in `Confirming{reason, first, checks}`, a check at
      `first` agreed on the reason, so has every check since, and `checks`
      counts them all. */
  lemma {:induction false} ConfirmingIsHistory(w: seq<Stride>, n: nat)
    requires IsWalk(w) && 0 < n <= |w| && !w[0].state.Confirming?
    requires w[n - 1].next.Confirming?
    ensures var c := w[n - 1].next;
            exists k :: CountsSince(w, k, n, c.dead, c.first, c.checks)
  {
    var s, m := w[n - 1], n - 1;
    var c := s.next;
    StepConfirms(s.state, s.look, s.now);
    if s.state.Confirming? && s.state.dead == c.dead {
      ConfirmingIsHistory(w, m);
      var k :| CountsSince(w, k, m, c.dead, s.state.first, s.state.checks);
      CountGoesOn(w, k, m, c.dead, s.state.first, s.state.checks);
    } else {
      CountStarts(w, m, c.dead);
    }
  }

  /** What stands behind a rescue on tick `i`: the checks since tick `k`. */
  ghost predicate WellConfirmed(w: seq<Stride>, k: int, i: nat, reason: DeadReason)
    requires i < |w|
  {
    && AgreedSince(w, k, i + 1, reason)
    && Enough(w[i].look, reason, CheckCount(w, k, i + 1), w[i].now - w[k].now)
  }

  lemma CountConfirms(w: seq<Stride>, k: int, i: nat, reason: DeadReason)
    requires i < |w|
    requires CountsSince(w, k, i + 1, reason, FirstCheck(w[i].state, reason, w[i].now), ChecksSoFar(w[i].state, reason))
    requires Settled(w[i].state, w[i].look, reason, w[i].now)
    ensures WellConfirmed(w, k, i, reason)
  {
  }

  /** Every rescue was confirmed: for a lost listener by at least the threshold
      of agreeing checks over the threshold of ticks, for a server that never
      opened its port by as many over its whole start budget -- with no
      disagreeing check in between. */
  lemma RescueIsWellConfirmed(w: seq<Stride>, i: nat, e: Effect)
    requires IsWalk(w) && i < |w| && !w[0].state.Confirming?
    requires e in w[i].effects && e.Rescue?
    ensures exists k :: WellConfirmed(w, k, i, e.reason)
  {
    var s := w[i];
    RescueWasConfirmed(s, e);
    if s.state.Confirming? && s.state.dead == e.reason {
      ConfirmingIsHistory(w, i);
      var k :| CountsSince(w, k, i, e.reason, s.state.first, s.state.checks);
      CountGoesOn(w, k, i, e.reason, s.state.first, s.state.checks);
      CountConfirms(w, k, i, e.reason);
    } else {
      CountStarts(w, i, e.reason);
      CountConfirms(w, i, i, e.reason);
    }
  }

  lemma RescueWasConfirmed(s: Stride, e: Effect)
    requires Taken(s) && e in s.effects && e.Rescue?
    ensures Checks(s.look) && Agrees(s.look, e.reason)
    ensures Settled(s.state, s.look, e.reason, s.now)
  {
    RescuesExactlyWhen(s.state, s.look, s.now, e);
    RestedIsPastGrace(s.look);
  }
}
