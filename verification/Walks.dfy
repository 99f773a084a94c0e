/** Walks of the controller alone: any sequence of observations, from any state,
    each step starting where the last one ended. */
module Walks {
  import opened Common
  import opened Controller
  import opened ControllerLaws
  import opened Grounds

  datatype Stride = Stride(state: State, look: Observation, now: real, next: State, effects: seq<Effect>)

  predicate Taken(s: Stride) {
    Step(s.state, s.look, s.now) == Next(s.next, s.effects)
  }

  ghost predicate IsWalk(w: seq<Stride>) {
    && (forall i :: 0 <= i < |w| ==> Taken(w[i]))
    && (forall i :: 0 < i < |w| ==> w[i].state == w[i - 1].next)
  }

  predicate Rescues(s: Stride) {
    exists e :: e in s.effects && e.Rescue?
  }

  // ---- patience -----------------------------------------------------------------

  lemma NotProvenNotActed(s: Stride)
    requires Taken(s) && !s.state.Rescuing? && !ProvenFree(s.look)
    ensures Spawn !in s.effects && !Rescues(s) && !s.next.Rescuing?
  {
    StepMoves(s.state, s.look, s.now);
    ReachIsJustified(s.state, s.look, s.now);
    forall e | e in s.effects && (e.Spawn? || e.Rescue?)
      ensures ActOf(s.state, s.look, s.now) == Some(e)
    {
      StepDoes(s.state, s.look, s.now, e);
    }
  }

  /** However long it lasts and wherever it starts -- `Rescuing` apart -- a walk
      on which the OS never says "nothing listens", freshly read and without a
      handshake, starts nothing, rescues nothing and never enters `Rescuing`. */
  lemma {:induction false} Patience(w: seq<Stride>, n: nat)
    requires IsWalk(w) && n <= |w|
    requires |w| > 0 ==> !w[0].state.Rescuing?
    requires forall i :: 0 <= i < n ==> !ProvenFree(w[i].look)
    ensures forall i :: 0 <= i < n ==> Spawn !in w[i].effects && !Rescues(w[i]) && !w[i].next.Rescuing?
  {
    hide Taken, Rescues, ProvenFree;
    if n > 0 {
      Patience(w, n - 1);
      assert n > 1 ==> w[n - 1].state == w[n - 2].next;
      NotProvenNotActed(w[n - 1]);
    }
  }

  // ---- installing ------------------------------------------------------------------

  /** My Claude Code is missing and no installer runs or has just stopped. */
  predicate Absent(o: Observation) {
    o.status.NotInstalled? && !InstallerNear(o)
  }

  /** One step without My Claude Code: an install is counted, and leads to
      `Installing`, which only a re-read status leaves. */
  lemma MissingStep(s: Stride)
    requires Taken(s) && Absent(s.look)
    ensures var before, after := InstallAttemptsOf(s.state), InstallAttemptsOf(s.next);
            if Effect.Install in s.effects then
              after == before + 1 <= INSTALL_ATTEMPTS && !s.state.Installing? && s.next.Installing?
              && !(s.state.Blocked? && s.state.reason.Install?)
            else after == before && (s.next.Installing? ==> s.next == s.state)
    ensures s.state.Installing? && Restatus !in s.effects ==> s.next == s.state
    ensures s.state.Blocked? && s.state.reason.Install? ==> s.next == s.state
  {
    StepDoes(s.state, s.look, s.now, Effect.Install);
    StepDoes(s.state, s.look, s.now, Restatus);
  }

  function Installs(w: seq<Stride>, n: nat): nat
    requires n <= |w|
  {
    if n == 0 then 0 else Installs(w, n - 1) + (if Effect.Install in w[n - 1].effects then 1 else 0)
  }

  lemma {:induction false} InstallsAreCounted(w: seq<Stride>, n: nat)
    requires IsWalk(w) && 0 < n <= |w|
    requires forall i :: 0 <= i < n ==> Absent(w[i].look)
    ensures InstallAttemptsOf(w[n - 1].next) == InstallAttemptsOf(w[0].state) + Installs(w, n)
    ensures Installs(w, n) > 0 ==> InstallAttemptsOf(w[n - 1].next) <= INSTALL_ATTEMPTS
  {
    MissingStep(w[n - 1]);
    if n > 1 {
      InstallsAreCounted(w, n - 1);
    }
  }

  lemma {:induction false} StaysInstalling(w: seq<Stride>, i: nat, j: nat)
    requires IsWalk(w) && i < j < |w|
    requires forall k :: 0 <= k < |w| ==> Absent(w[k].look)
    requires Effect.Install in w[i].effects
    requires forall k :: i < k < j ==> Restatus !in w[k].effects
    ensures w[j].state.Installing?
    decreases j
  {
    if i + 1 < j {
      StaysInstalling(w, i, j - 1);
    }
    MissingStep(w[j - 1]);
  }

  lemma {:induction false} StaysBlocked(w: seq<Stride>, i: nat, j: nat)
    requires IsWalk(w) && i <= j < |w|
    requires forall k :: 0 <= k < |w| ==> Absent(w[k].look)
    requires w[i].state.Blocked? && w[i].state.reason.Install?
    ensures w[j].state == w[i].state
    decreases j
  {
    if i < j {
      StaysBlocked(w, i, j - 1);
      MissingStep(w[j - 1]);
    }
  }

  /** While My Claude Code stays missing, any mix of fresh and paint ticks from
      `Booting` runs the installer at most three times. */
  lemma AtMostThreeInstalls(w: seq<Stride>)
    requires IsWalk(w) && |w| > 0 && w[0].state.Booting?
    requires forall i :: 0 <= i < |w| ==> Absent(w[i].look)
    ensures Installs(w, |w|) <= 3
  {
    InstallsAreCounted(w, |w|);
  }

  /** Between two installs the status is re-read. */
  lemma InstallsAreVerified(w: seq<Stride>, i: nat, j: nat)
    requires IsWalk(w) && i < j < |w|
    requires forall k :: 0 <= k < |w| ==> Absent(w[k].look)
    requires Effect.Install in w[i].effects && Effect.Install in w[j].effects
    ensures exists k :: i < k < j && Restatus in w[k].effects
  {
    MissingStep(w[j]);
    if forall k :: i < k < j ==> Restatus !in w[k].effects {
      StaysInstalling(w, i, j);
    }
  }

  /** Once it has given up, the window never installs again. */
  lemma GivenUpInstallsNothing(w: seq<Stride>, i: nat, j: nat)
    requires IsWalk(w) && i <= j < |w|
    requires forall k :: 0 <= k < |w| ==> Absent(w[k].look)
    requires w[i].state.Blocked? && w[i].state.reason.Install?
    ensures Effect.Install !in w[j].effects && w[j].next == w[i].state
  {
    StaysBlocked(w, i, j);
    MissingStep(w[j]);
  }
}
