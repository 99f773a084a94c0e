/** Exactly when two servers of the window can run at once: a wait on the child
    failed while it ran, and another server was started afterwards. */
module TwoServers {
  import opened Common
  import opened Runs
  import opened Children

  /** On tick `k` waiting on the child `p` failed; on tick `n`, not before `k`,
      server `q` was started, and no server took the pid `p` meanwhile; and the
      tick after sees neither `q` exit nor their pids used again. */
  predicate LeftBehind(r: seq<Moment>, k: int, n: int, p: int, q: int) {
    && 0 <= k <= n < |r| - 1
    && r[k].world.child.CouldNotWait? && r[k].before.child.pid == Some(p)
    && Started(r[n]) == {q} && p != q
    && (forall j :: k <= j <= n ==> p !in Started(r[j]))
    && !r[n + 1].world.child.Exited? && p !in Started(r[n + 1]) && q !in Started(r[n + 1])
  }

  ghost predicate SomeLeftBehind(r: seq<Moment>) {
    exists k, n, p, q :: LeftBehind(r, k, n, p, q)
  }

  /** Some way its servers may have lived lets two of them run on one tick. */
  ghost predicate TwoMayRun(r: seq<Moment>) {
    exists alive, m: nat :: Processes(r, alive) && m < |r| && |alive[m]| >= 2
  }

  // ---- two servers come from a failed wait ------------------------------------------

  /** Let go on tick `k` because waiting on it failed, and its pid not used
      from then up to tick `n`. */
  predicate LetGo(r: seq<Moment>, k: int, n: int, p: int) {
    && 0 <= k < n <= |r|
    && r[k].world.child.CouldNotWait? && r[k].before.child.pid == Some(p)
    && (forall j :: k <= j < n ==> p !in Started(r[j]))
  }

  ghost predicate Accounted(r: seq<Moment>, n: nat, p: int)
    requires n < |r|
  {
    r[n].before.child.pid == Some(p) || exists k :: LetGo(r, k, n, p)
  }

  lemma {:induction false} AliveIsAccounted(r: seq<Moment>, alive: seq<set<int>>, n: nat, p: int)
    requires TracksChild(r) && Processes(r, alive) && n < |r| && p in alive[n]
    ensures Accounted(r, n, p)
  {
    if n > 0 {
      var t, m := r[n - 1], n - 1;
      assert r[n].before.child == ChildAfter(t) && ChildLaw(t);
      assert alive[n] <= alive[m] + Started(t);
      if p !in Started(t) {
        AliveIsAccounted(r, alive, m, p);
        AccountedGoesOn(r, alive, m, p);
      }
    }
  }

  lemma AccountedGoesOn(r: seq<Moment>, alive: seq<set<int>>, m: nat, p: int)
    requires TracksChild(r) && Processes(r, alive) && m + 1 < |r|
    requires p in alive[m] && p !in Started(r[m]) && Accounted(r, m, p)
    ensures Accounted(r, m + 1, p)
  {
    var n := m + 1;
    assert r[n].before.child == ChildAfter(r[m]) && ChildLaw(r[m]);
    if r[m].before.child.pid == Some(p) {
      if r[m].world.child.CouldNotWait? {
        assert LetGo(r, m, n, p);
      }
    } else {
      var k :| LetGo(r, k, m, p);
      assert LetGo(r, k, n, p);
    }
  }

  lemma {:induction false} FirstPair(alive: seq<set<int>>, m: nat) returns (n: nat)
    requires m < |alive| && |alive[m]| >= 2 && alive[0] == {}
    ensures n < m && |alive[n]| <= 1 && |alive[n + 1]| >= 2
  {
    n := m - 1;
    if |alive[n]| >= 2 {
      n := FirstPair(alive, n);
    }
  }

  lemma PairHasTwo(before: set<int>, started: set<int>, after: set<int>) returns (p: int, q: int)
    requires |before| <= 1 && |started| <= 1 && |after| >= 2 && after <= before + started
    ensures p in before && p in after && started == {q} && q in after && p != q
  {
    p := Member(after);
    Fewer(after, p);
    q := Member(after - {p});
    if p in started {
      OneAtMost(started, p);
      p, q := q, p;
    } else {
      OneAtMost(before, p);
      OneAtMost(started, q);
    }
  }

  lemma Member<T>(s: set<T>) returns (x: T)
    requires |s| > 0
    ensures x in s
  {
    assert s != {};
    x :| x in s;
  }

  lemma Fewer(s: set<int>, x: int)
    requires x in s
    ensures |s - {x}| == |s| - 1
  {
  }

  lemma OneAtMost(s: set<int>, x: int)
    requires |s| <= 1 && x in s
    ensures s == {x}
  {
    assert |s - {x}| == 0;
  }

  lemma PairIsLeftBehind(r: seq<Moment>, alive: seq<set<int>>, n: nat)
    requires TracksChild(r) && Processes(r, alive) && n + 1 < |r|
    requires |alive[n]| <= 1 && |alive[n + 1]| >= 2
    ensures SomeLeftBehind(r)
  {
    var m := n + 1;
    assert alive[m] <= alive[m - 1] + Started(r[m - 1]);
    var p, q := PairHasTwo(alive[n], Started(r[n]), alive[m]);
    AliveIsAccounted(r, alive, n, p);
    assert r[m].before.child == ChildAfter(r[n]) && ChildLaw(r[n]);
    assert p !in Started(r[n]);
    var k := LetGoBy(r, alive, n, p);
    assert LeftBehind(r, k, n, p, q);
  }

  lemma LetGoBy(r: seq<Moment>, alive: seq<set<int>>, n: nat, p: int) returns (k: int)
    requires TracksChild(r) && Processes(r, alive) && n < |r|
    requires Accounted(r, n, p) && p in alive[n] && r[n].Spawns() && p !in Started(r[n])
    ensures 0 <= k <= n && r[k].world.child.CouldNotWait? && r[k].before.child.pid == Some(p)
    ensures forall j :: k <= j <= n ==> p !in Started(r[j])
  {
    assert ChildLaw(r[n]);
    if r[n].before.child.pid == Some(p) {
      k := n;
    } else {
      k :| LetGo(r, k, n, p);
    }
  }

  lemma TwoNeedALeftBehind(r: seq<Moment>)
    requires TracksChild(r) && TwoMayRun(r)
    ensures SomeLeftBehind(r)
  {
    var alive, m: nat :| Processes(r, alive) && m < |r| && |alive[m]| >= 2;
    var n := FirstPair(alive, m);
    PairIsLeftBehind(r, alive, n);
  }

  // ---- a failed wait is enough ----------------------------------------------------------

  /** The child a tick read as running. */
  function RunningChild(t: Moment): set<int> {
    if t.world.child.StillRunning? then PidSet(t.before.child.pid) else {}
  }

  /** The servers to keep alive on tick `j` besides its child: `p` from its start
      on tick `s` until another is started on tick `n`, and that one. */
  function Others(s: int, n: int, j: int, p: int, q: int): set<int> {
    (if s < j <= n + 1 then {p} else {}) + (if j == n + 1 then {q} else {})
  }

  /** One way its servers may have lived: every child as long as it was read as
      running, and the one left behind runs on until another is started. */
  function Lives(r: seq<Moment>, s: int, n: int, p: int, q: int): (alive: seq<set<int>>)
    ensures |alive| == |r|
    ensures forall j :: 0 <= j < |r| ==> alive[j] == RunningChild(r[j]) + Others(s, n, j, p, q)
  {
    seq(|r|, j requires 0 <= j < |r| => RunningChild(r[j]) + Others(s, n, j, p, q))
  }

  lemma {:induction false} NotTheChildAgain(r: seq<Moment>, k: int, j: int, p: int)
    requires TracksChild(r) && 0 <= k < j < |r|
    requires r[k].world.child.CouldNotWait? && (forall i :: k <= i < j ==> p !in Started(r[i]))
    ensures r[j].before.child.pid != Some(p)
    decreases j
  {
    assert r[j].before.child == ChildAfter(r[j - 1]) && ChildLaw(r[j - 1]);
    if j - 1 > k {
      NotTheChildAgain(r, k, j - 1, p);
    }
  }

  /** Nothing that happens on tick `j` contradicts those lives. */
  predicate Agrees(t: Moment, alive: set<int>) {
    && Started(t) !! alive
    && (t.world.child.Exited? && t.before.child.pid.Some? ==> t.before.child.pid.value !in alive)
    && RunningChild(t) <= alive
  }

  lemma LawAt(r: seq<Moment>, j: int)
    requires TracksChild(r) && 0 <= j < |r|
    ensures ChildLaw(r[j])
  {
  }

  lemma StartsWithoutAChild(t: Moment)
    requires ChildLaw(t)
    ensures Started(t) != {} ==> RunningChild(t) == {}
  {
  }

  /** Besides its child, a tick can have any servers run that it neither starts
      nor sees exit. */
  lemma AgreesBeside(t: Moment, others: set<int>)
    requires ChildLaw(t) && Started(t) !! others
    requires t.world.child.Exited? && t.before.child.pid.Some? ==> t.before.child.pid.value !in others
    ensures Agrees(t, RunningChild(t) + others)
  {
    hide ChildLaw;
    StartsWithoutAChild(t);
  }

  lemma AgreesWhileChild(r: seq<Moment>, s: int, k: int, n: int, j: int, p: int, q: int, bound: bool)
    requires TracksChild(r) && LeftBehind(r, k, n, p, q) && RunsSince(r, s, k, p, bound) && 0 <= j <= k
    ensures Agrees(r[j], Lives(r, s, n, p, q)[j])
  {
    hide TracksChild, ChildLaw, Agrees, RunningChild;
    LawAt(r, j);
    if s < j < k {
      assert !r[j].Spawns() && r[j].world.child.StillRunning?;
    }
    AgreesBeside(r[j], Others(s, n, j, p, q));
  }

  lemma AgreesAfter(r: seq<Moment>, s: int, k: int, n: int, j: int, p: int, q: int)
    requires TracksChild(r) && LeftBehind(r, k, n, p, q) && s < k < j < |r|
    ensures Agrees(r[j], Lives(r, s, n, p, q)[j])
  {
    hide TracksChild, ChildLaw, Agrees, RunningChild, Started;
    LawAt(r, j);
    if j <= n + 1 {
      NotTheChildAgain(r, k, j, p);
    }
    AgreesBeside(r[j], Others(s, n, j, p, q));
  }

  lemma LivesMayBe(r: seq<Moment>, s: int, k: int, n: int, p: int, q: int, bound: bool)
    requires TracksChild(r) && LeftBehind(r, k, n, p, q) && RunsSince(r, s, k, p, bound)
    ensures Processes(r, Lives(r, s, n, p, q))
  {
    hide TracksChild, Agrees, Processes;
    var alive := Lives(r, s, n, p, q);
    forall j | 0 <= j < |r|
      ensures Agrees(r[j], alive[j])
    {
      if j <= k {
        AgreesWhileChild(r, s, k, n, j, p, q, bound);
      } else {
        AgreesAfter(r, s, k, n, j, p, q);
      }
    }
    if |r| > 0 {
      NoneAtFirst(r);
    }
    LivesGrow(r, s, k, n, p, q, bound);
    AgreeingIsPossible(r, alive);
  }

  lemma NoneAtFirst(r: seq<Moment>)
    requires TracksChild(r) && |r| > 0
    ensures RunningChild(r[0]) == {}
  {
  }

  lemma RunningGrows(r: seq<Moment>, j: int)
    requires TracksChild(r) && 0 < j < |r|
    ensures RunningChild(r[j]) <= RunningChild(r[j - 1]) + Started(r[j - 1])
  {
    assert r[j].before.child == ChildAfter(r[j - 1]) && ChildLaw(r[j - 1]);
  }

  lemma LivesGrow(r: seq<Moment>, s: int, k: int, n: int, p: int, q: int, bound: bool)
    requires TracksChild(r) && LeftBehind(r, k, n, p, q) && RunsSince(r, s, k, p, bound)
    ensures var alive := Lives(r, s, n, p, q);
            forall j :: 0 < j < |r| ==> alive[j] <= alive[j - 1] + Started(r[j - 1])
  {
    hide TracksChild, RunningChild, ChildAfter;
    StartedIs(r[s], p);
    assert q in Started(r[n]);
    forall j | 0 < j < |r|
      ensures RunningChild(r[j]) <= RunningChild(r[j - 1]) + Started(r[j - 1])
    {
      RunningGrows(r, j);
    }
  }

  lemma StartedIs(t: Moment, p: int)
    requires t.Spawns() && t.world.spawned == Some(p)
    ensures p in Started(t)
  {
  }

  lemma AgreeingIsPossible(r: seq<Moment>, alive: seq<set<int>>)
    requires |alive| == |r| && (|r| > 0 ==> alive[0] == {})
    requires forall j :: 0 < j < |r| ==> alive[j] <= alive[j - 1] + Started(r[j - 1])
    requires forall j :: 0 <= j < |r| ==> Agrees(r[j], alive[j])
    ensures Processes(r, alive)
  {
    forall j | 0 <= j < |r|
      ensures Started(r[j]) !! alive[j]
      ensures r[j].world.child.Exited? && r[j].before.child.pid.Some? ==> r[j].before.child.pid.value !in alive[j]
      ensures r[j].world.child.StillRunning? && r[j].before.child.pid.Some? ==> r[j].before.child.pid.value in alive[j]
    {
      assert Agrees(r[j], alive[j]);
    }
  }

  lemma ChildOfStart(r: seq<Moment>, n: nat, q: int)
    requires TracksChild(r) && n + 1 < |r| && Started(r[n]) == {q}
    ensures RunningChild(r[n + 1]) <= {q}
  {
    var m := n + 1;
    assert r[m].before.child == ChildAfter(r[m - 1]);
    assert q in Started(r[n]);
  }

  lemma StartOfChild(r: seq<Moment>, k: nat, p: int) returns (s: int, bound: bool)
    requires TracksChild(r) && k < |r| && r[k].before.child.pid == Some(p)
    ensures RunsSince(r, s, k, p, bound)
  {
    hide TracksChild;
    ChildHistory(r, k);
    bound := r[k].before.child.everBound;
    s :| RunsSince(r, s, k, p, bound)
         && (r[k].before.starts.last.Some? ==> r[k].before.starts.last.value == r[s].world.clock.applied);
  }

  lemma LeftBehindMayRun(r: seq<Moment>, k: int, n: int, p: int, q: int)
    requires TracksChild(r) && LeftBehind(r, k, n, p, q)
    ensures TwoMayRun(r)
  {
    hide TracksChild, RunsSince, Processes, RunningChild, Started;
    var s, bound := StartOfChild(r, k, p);
    LivesMayBe(r, s, k, n, p, q, bound);
    var alive, m: nat := Lives(r, s, n, p, q), n + 1;
    ChildOfStart(r, n, q);
    StartsBefore(r, s, k, p, bound);
    assert alive[m] == {p, q};
  }

  lemma StartsBefore(r: seq<Moment>, s: int, k: int, p: int, bound: bool)
    requires RunsSince(r, s, k, p, bound)
    ensures 0 <= s < k
  {
  }

  /** In every run, two of the window's servers may run at once exactly when one
      was left behind by a failed wait and another started after it. */
  lemma TwoRunExactlyWhenOneIsLeftBehind(r: seq<Moment>)
    requires IsRun(r)
    ensures TwoMayRun(r) <==> SomeLeftBehind(r)
  {
    hide IsRun, TracksChild, LeftBehind, TwoMayRun;
    RunIsTracked(r);
    RunTracksChild(r);
    if TwoMayRun(r) {
      TwoNeedALeftBehind(r);
    }
    if SomeLeftBehind(r) {
      var k, n, p, q :| LeftBehind(r, k, n, p, q);
      LeftBehindMayRun(r, k, n, p, q);
    }
  }
}
