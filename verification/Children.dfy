/** The servers this window started: which one a rescue may name, and how many
    run at once. */
module Children {
  import opened Common
  import opened Controller
  import opened Grounds
  import opened Sampler
  import opened Runs

  ghost predicate TracksChild(r: seq<Moment>) {
    && (|r| > 0 ==> r[0].before.child == Child(None, false) && r[0].before.starts.last.None?)
    && (forall i :: 0 < i < |r| ==>
          r[i].before.child == ChildAfter(r[i - 1]) && r[i].before.starts.last == StartsAfter(r[i - 1]).last)
    && (forall i :: 0 <= i < |r| ==> ChildLaw(r[i]))
  }

  predicate ChildLaw(t: Moment) {
    && (t.Spawns() ==> ChildSeen(t).pid.None?)
    && (t.Rescues() && t.act.value.reason.NeverBound? ==>
          && ChildSeen(t).pid.Some? && !ChildSeen(t).everBound
          && t.act.value.childPid == ChildSeen(t).pid
          && StartsSeen(t).last.Some?
          && t.world.clock.observed - StartsSeen(t).last.value >= Budget(t.look.facts))
  }

  lemma LawfulChild(t: Moment)
    requires Lawful(t) && Shows(t)
    ensures ChildLaw(t)
  {
  }

  lemma RunTracksChild(r: seq<Moment>)
    requires Tracked(r)
    ensures TracksChild(r)
  {
    forall i | 0 < i < |r|
      ensures r[i].before.child == ChildAfter(r[i - 1]) && r[i].before.starts.last == StartsAfter(r[i - 1]).last
    {
      assert Leaves(r[i - 1], r[i].before);
    }
    forall i | 0 <= i < |r|
      ensures ChildLaw(r[i])
    {
      LawfulChild(r[i]);
    }
  }

  // ---- the child a rescue may name -------------------------------------------

  /** From the start of tick `s` up to tick `n` no server was started, the one
      started then kept running, and -- unless it is `bound` -- nothing answered and no
      document saw the port held. */
  ghost predicate RunsSince(r: seq<Moment>, s: int, n: int, pid: int, bound: bool) {
    && 0 <= s < n <= |r|
    && r[s].Spawns() && r[s].world.spawned == Some(pid)
    && (forall k :: s < k < n ==>
          && !r[k].Spawns()
          && r[k].world.child.StillRunning?
          && (!bound ==> !SeesBoundEarly(r[k]) && !SeesBoundLate(r[k])))
  }

  ghost predicate ChildIsHistory(r: seq<Moment>, n: nat, child: Child, last: Option<real>)
    requires n <= |r|
  {
    child.pid.Some? ==>
      exists s :: RunsSince(r, s, n, child.pid.value, child.everBound)
                  && (last.Some? ==> last.value == r[s].world.clock.applied)
  }

  lemma ChildHistoryGrows(r: seq<Moment>, n: nat)
    requires TracksChild(r) && 0 < n < |r|
    requires ChildIsHistory(r, n - 1, r[n - 1].before.child, r[n - 1].before.starts.last)
    ensures ChildIsHistory(r, n, r[n].before.child, r[n].before.starts.last)
  {
    var t, child := r[n - 1], r[n].before.child;
    assert ChildLaw(t) && child == ChildAfter(t);
    if child.pid.Some? {
      if t.Spawns() {
        assert RunsSince(r, n - 1, n, child.pid.value, child.everBound);
      } else {
        var m := n - 1;
        var s :| RunsSince(r, s, m, t.before.child.pid.value, t.before.child.everBound)
                 && (t.before.starts.last.Some? ==> t.before.starts.last.value == r[s].world.clock.applied);
        assert RunsSince(r, s, n, child.pid.value, child.everBound);
      }
    }
  }

  lemma {:induction false} ChildHistory(r: seq<Moment>, n: nat)
    requires TracksChild(r) && n < |r|
    ensures ChildIsHistory(r, n, r[n].before.child, r[n].before.starts.last)
  {
    if n > 0 {
      ChildHistory(r, n - 1);
      ChildHistoryGrows(r, n);
    }
  }

  /** The server tick `i` names is the one started on tick `s`, the last start of
      all; it still ran on every tick since; and since then nothing answered and
      no document saw its port held, for the whole start budget. */
  ghost predicate NeverOpened(r: seq<Moment>, s: int, i: nat, pid: int)
    requires i < |r|
  {
    && RunsSince(r, s, i, pid, false)
    && r[i].world.child.StillRunning?
    && !SeesBoundEarly(r[i])
    && r[i].world.clock.observed - r[s].world.clock.applied >= Budget(r[i].look.facts)
  }

  /** In every run, a rescue for a server that never opened its port names
      exactly the child of the last start, alive and silent since then for the
      whole start budget. */
  lemma NeverBoundNamesTheLastStart(r: seq<Moment>, i: nat, e: Effect)
    requires IsRun(r) && i < |r| && e in r[i].effects && e.Rescue? && e.reason.NeverBound?
    ensures e.childPid.Some? && exists s :: NeverOpened(r, s, i, e.childPid.value)
  {
    hide IsRun, TracksChild, NeverOpened;
    RunIsTracked(r);
    RunTracksChild(r);
    assert DoesWhatItLists(r[i]);
    NamesTheLastStart(r, i, e.childPid);
  }

  lemma NamesTheLastStart(r: seq<Moment>, i: nat, named: Option<int>)
    requires TracksChild(r) && i < |r| && r[i].Rescues() && r[i].act.value.reason.NeverBound?
    requires named == r[i].act.value.childPid
    ensures named.Some? && exists s :: NeverOpened(r, s, i, named.value)
  {
    var t := r[i];
    assert ChildLaw(t);
    ChildHistory(r, i);
    var pid := t.before.child.pid.value;
    var s :| RunsSince(r, s, i, pid, t.before.child.everBound)
             && (t.before.starts.last.Some? ==> t.before.starts.last.value == r[s].world.clock.applied);
    assert NeverOpened(r, s, i, pid);
  }

  // ---- how many of its servers run --------------------------------------------

  /** `alive[k]` is the set of servers this window started that run when tick
      `k` looks: none at first, each start adds at most its own, a child read
      as running is in and an exited one is out, and no new server shares a
      running one's pid. */
  ghost predicate Processes(r: seq<Moment>, alive: seq<set<int>>) {
    && |alive| == |r|
    && (|r| > 0 ==> alive[0] == {})
    && (forall k :: 0 < k < |r| ==> alive[k] <= alive[k - 1] + Started(r[k - 1]))
    && (forall k :: 0 <= k < |r| ==> Started(r[k]) !! alive[k])
    && (forall k :: 0 <= k < |r| && r[k].world.child.Exited? && r[k].before.child.pid.Some? ==>
          r[k].before.child.pid.value !in alive[k])
    && (forall k :: 0 <= k < |r| && r[k].world.child.StillRunning? && r[k].before.child.pid.Some? ==>
          r[k].before.child.pid.value in alive[k])
  }

  function Started(t: Moment): set<int> {
    if t.Spawns() && t.world.spawned.Some? then {t.world.spawned.value} else {}
  }

  function PidSet(pid: Option<int>): set<int> {
    if pid.Some? then {pid.value} else {}
  }

  /** The children let go before tick `n` because waiting on them failed. */
  function Forgotten(r: seq<Moment>, n: nat): set<int>
    requires n <= |r|
  {
    if n == 0 then {}
    else
      Forgotten(r, n - 1)
      + (if r[n - 1].world.child.CouldNotWait? then PidSet(r[n - 1].before.child.pid) else {})
  }

  /** Every running server of the window is its child, or one it let go because
      waiting on it failed. */
  lemma {:induction false} AliveIsChildOrForgotten(r: seq<Moment>, alive: seq<set<int>>, n: nat)
    requires TracksChild(r) && Processes(r, alive) && n < |r|
    ensures alive[n] <= PidSet(r[n].before.child.pid) + Forgotten(r, n)
  {
    if n > 0 {
      var t := r[n - 1];
      AliveIsChildOrForgotten(r, alive, n - 1);
      assert r[n].before.child == ChildAfter(t) && ChildLaw(t);
      assert alive[n] <= alive[n - 1] + Started(t);
    }
  }

  lemma {:induction false} NothingForgotten(r: seq<Moment>, n: nat)
    requires n <= |r|
    requires forall k :: 0 <= k < n && r[k].before.child.pid.Some? ==> !r[k].world.child.CouldNotWait?
    ensures Forgotten(r, n) == {}
  {
    if n > 0 {
      NothingForgotten(r, n - 1);
    }
  }

  /** In every run in which waiting on the child never fails, at most one of the
      servers the window started runs at a time -- its child -- and none runs on
      a tick that starts another, whether the start is a cold one or follows a
      rescue. */
  lemma OneServerAtATime(r: seq<Moment>, alive: seq<set<int>>, n: nat)
    requires IsRun(r) && Processes(r, alive) && n < |r|
    requires forall k :: 0 <= k <= n && r[k].before.child.pid.Some? ==> !r[k].world.child.CouldNotWait?
    ensures alive[n] <= PidSet(r[n].before.child.pid) && |alive[n]| <= 1
    ensures Spawn in r[n].effects ==> alive[n] == {}
  {
    hide IsRun, TracksChild, Processes;
    RunIsTracked(r);
    RunTracksChild(r);
    assert DoesWhatItLists(r[n]);
    OneServer(r, alive, n);
  }

  lemma OneServer(r: seq<Moment>, alive: seq<set<int>>, n: nat)
    requires TracksChild(r) && Processes(r, alive) && n < |r|
    requires forall k :: 0 <= k <= n && r[k].before.child.pid.Some? ==> !r[k].world.child.CouldNotWait?
    ensures alive[n] <= PidSet(r[n].before.child.pid) && |alive[n]| <= 1
    ensures r[n].Spawns() ==> alive[n] == {}
  {
    AliveIsChildOrForgotten(r, alive, n);
    NothingForgotten(r, n);
    var child := PidSet(r[n].before.child.pid);
    assert child == alive[n] + (child - alive[n]);
    assert |child| == |alive[n]| + |child - alive[n]|;
    assert ChildLaw(r[n]);
  }
}
