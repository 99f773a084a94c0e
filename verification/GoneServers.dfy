/** What a rescue for a server that is gone rests on: the one process lookup a
    tick makes, and when that lookup was about another process. */
module GoneServers {
  import opened Common
  import opened Controller
  import opened Grounds
  import opened ControllerLaws
  import opened StatusDocument
  import opened Sampler
  import opened Runs

  /** This tick probed a health URL. */
  predicate Probes(t: Moment) {
    t.look.isFresh && t.hasUrl
  }

  /** The silent probe of this tick found the process `pid` not running. */
  predicate FoundDead(t: Moment, pid: int) {
    t.Silent() && Known(ContactSeen(t)) == Some(pid) && t.world.pidAlive == Some(false)
  }

  ghost predicate TracksContact(r: seq<Moment>) {
    && (|r| > 0 ==> r[0].before.contact.knownAlive.None?)
    && (forall i :: 0 < i < |r| ==> r[i].before.contact == ContactAfter(r[i - 1]))
    && (forall i :: 0 <= i < |r| ==> GoneLaw(r[i]))
  }

  predicate GoneLaw(t: Moment) {
    t.Rescues() && t.act.value.reason.ProcessGone? ==>
      && t.look.isFresh && ContactSeen(t).health.Absent?
      && t.act.value.knownPid == Known(ContactSeen(t))
      && (ContactSeen(t).knownAlive == Some(false) || (t.act.value.knownPid.None? && t.act.value.childPid.None?))
  }

  lemma LawfulGone(t: Moment)
    requires Lawful(t) && Shows(t)
    ensures GoneLaw(t)
  {
    hide ContactSeen, ShowsPaper, Samples, Moves, Enough;
  }

  lemma RunTracksContact(r: seq<Moment>)
    requires Tracked(r)
    ensures TracksContact(r)
  {
    hide ContactAfter, GoneLaw, Lawful, Shows, InOrder;
    forall i | 0 < i < |r|
      ensures r[i].before.contact == ContactAfter(r[i - 1])
    {
      assert Leaves(r[i - 1], r[i].before);
    }
    forall i | 0 <= i < |r|
      ensures GoneLaw(r[i])
    {
      LawfulGone(r[i]);
    }
  }

  /** Tick `j` found a known process dead, it was the last tick before `n` to
      probe a health URL, and no server was started since. */
  ghost predicate LastFound(r: seq<Moment>, j: int, n: int, pid: int) {
    && 0 <= j < n <= |r|
    && FoundDead(r[j], pid)
    && (forall k :: j < k < n ==> !Probes(r[k]))
    && (forall k :: j <= k < n ==> !r[k].Spawns())
  }

  lemma SeenDead(t: Moment)
    requires ContactSeen(t).knownAlive == Some(false)
    ensures if Probes(t) then exists pid :: FoundDead(t, pid) else t.before.contact.knownAlive == Some(false)
  {
    hide StatusServerPid;
    if Probes(t) {
      assert FoundDead(t, Known(ContactSeen(t)).value);
    }
  }

  lemma {:induction false} DeadHistory(r: seq<Moment>, n: nat)
    requires TracksContact(r) && n < |r| && r[n].before.contact.knownAlive == Some(false)
    ensures exists j, pid :: LastFound(r, j, n, pid)
  {
    hide ContactSeen, FoundDead, Probes, GoneLaw, StatusServerPid;
    var m := n - 1;
    var t := r[m];
    assert r[n].before.contact == ContactAfter(t);
    SeenDead(t);
    if Probes(t) {
      var pid :| FoundDead(t, pid);
      assert LastFound(r, m, n, pid);
    } else {
      DeadHistory(r, m);
      var j, pid :| LastFound(r, j, m, pid);
      assert LastFound(r, j, n, pid);
    }
  }

  /** In every run a rescue for a server that is gone names no process at all
      and there is no child; or the last tick to probe a health URL, with no
      start since, found a known process dead -- the one named, when that tick
      is this one. */
  ghost predicate RestsOnALookup(r: seq<Moment>, i: nat, e: Effect)
    requires i < |r| && e.Rescue?
  {
    || (e.knownPid.None? && e.childPid.None?)
    || (exists pid :: e.knownPid == Some(pid) && FoundDead(r[i], pid))
    || (!r[i].hasUrl && exists j, pid :: LastFound(r, j, i, pid))
  }

  lemma GoneRestsOnALookup(r: seq<Moment>, i: nat, e: Effect)
    requires IsRun(r) && i < |r| && e in r[i].effects && e.Rescue? && e.reason.ProcessGone?
    ensures RestsOnALookup(r, i, e)
  {
    hide IsRun, TracksContact, RestsOnALookup;
    RunIsTracked(r);
    RunTracksContact(r);
    assert DoesWhatItLists(r[i]);
    RestsOnIt(r, i, e);
  }

  lemma RestsOnIt(r: seq<Moment>, i: nat, e: Effect)
    requires TracksContact(r) && i < |r| && r[i].act == Some(e) && e.Rescue? && e.reason.ProcessGone?
    ensures RestsOnALookup(r, i, e)
    ensures (exists pid :: e.knownPid == Some(pid) && FoundDead(r[i], pid)) || (e.knownPid.None? && e.childPid.None?)
            <==> r[i].hasUrl || (e.knownPid.None? && e.childPid.None?)
  {
    hide ContactSeen, ContactAfter, LastFound;
    var t := r[i];
    assert GoneLaw(t);
    if e.knownPid.Some? || e.childPid.Some? {
      SeenDead(t);
      if !t.hasUrl {
        DeadHistory(r, i);
      }
    }
  }

  /** This tick's own lookup found the named process dead exactly when it had a
      health URL to probe (or there is nothing to name). */
  lemma NamesWhatItFoundExactly(r: seq<Moment>, i: nat, e: Effect)
    requires IsRun(r) && i < |r| && e in r[i].effects && e.Rescue? && e.reason.ProcessGone?
    ensures (exists pid :: e.knownPid == Some(pid) && FoundDead(r[i], pid)) || (e.knownPid.None? && e.childPid.None?)
            <==> r[i].hasUrl || (e.knownPid.None? && e.childPid.None?)
  {
    hide IsRun, TracksContact, RestsOnALookup, FoundDead;
    RunIsTracked(r);
    RunTracksContact(r);
    assert DoesWhatItLists(r[i]);
    RestsOnIt(r, i, e);
  }

  // ---- whether the named process is the one last found dead ---------------------------------

  /** The newest document read after tick `j` decided and before tick `n`. */
  function NewestRead(r: seq<Moment>, j: nat, n: nat): Option<Document>
    requires j < n <= |r|
    decreases n
  {
    var t := r[n - 1];
    if t.ReadsLate() then Some(t.world.reread.document)
    else if n == j + 1 then None
    else if t.ReadsEarly() then Some(t.world.boot.document)
    else NewestRead(r, j, n - 1)
  }

  /** The same by the time tick `i` decides. */
  function NewestSeen(r: seq<Moment>, j: nat, i: nat): Option<Document>
    requires j < i < |r|
  {
    if r[i].ReadsEarly() then Some(r[i].world.boot.document) else NewestRead(r, j, i)
  }

  /** What a tick without a probe, or the part of one after its probe, does to
      the remembered pids. */
  lemma PidsAfter(t: Moment)
    requires !t.Spawns()
    ensures ContactAfter(t).headerPid == ContactSeen(t).headerPid
    ensures ContactAfter(t).statusPid
            == if t.ReadsLate() then StatusServerPid(t.world.reread.document) else ContactSeen(t).statusPid
  {
    hide ContactSeen, StatusServerPid;
  }

  lemma PidsSeen(t: Moment)
    requires !Probes(t)
    ensures ContactSeen(t).headerPid == t.before.contact.headerPid
    ensures ContactSeen(t).statusPid
            == if t.ReadsEarly() then StatusServerPid(t.world.boot.document) else t.before.contact.statusPid
  {
    hide StatusServerPid;
  }

  lemma {:induction false} PidsSince(r: seq<Moment>, j: nat, n: nat, pid: int)
    requires TracksContact(r) && n < |r| && LastFound(r, j, n, pid)
    ensures r[n].before.contact.headerPid == ContactSeen(r[j]).headerPid
    ensures r[n].before.contact.statusPid
            == if NewestRead(r, j, n).Some? then StatusServerPid(NewestRead(r, j, n).value)
               else ContactSeen(r[j]).statusPid
    decreases n
  {
    hide ContactSeen, ContactAfter, FoundDead, Probes, GoneLaw, StatusServerPid;
    var m: nat := n - 1;
    assert r[n].before.contact == ContactAfter(r[m]);
    PidsAfter(r[m]);
    if j < m {
      assert LastFound(r, j, m, pid);
      PidsSince(r, j, m, pid);
      PidsSeen(r[m]);
    }
  }

  /** The process found dead on tick `j` is still the known one when tick `i`
      decides: it named itself in an answer, or no document was read since, or
      the newest one names it too. */
  predicate StillKnown(r: seq<Moment>, j: nat, i: nat, pid: int)
    requires j < i < |r|
  {
    || ContactSeen(r[j]).headerPid.Some?
    || NewestSeen(r, j, i).None?
    || StatusServerPid(NewestSeen(r, j, i).value) == Some(pid)
  }

  lemma KnownSince(r: seq<Moment>, j: nat, i: nat, pid: int)
    requires TracksContact(r) && i < |r| && LastFound(r, j, i, pid) && !Probes(r[i])
    ensures Known(ContactSeen(r[i])) == Some(pid) <==> StillKnown(r, j, i, pid)
  {
    hide ContactSeen, ContactAfter, GoneLaw, StatusServerPid, NewestRead;
    PidsSince(r, j, i, pid);
    PidsSeen(r[i]);
  }

  /** Without a health URL a process-gone rescue names the process that was last
      found dead exactly when that one is still the known one. */
  lemma NamesTheLastFoundExactly(r: seq<Moment>, i: nat, e: Effect, j: nat, pid: int)
    requires IsRun(r) && i < |r| && e in r[i].effects && e.Rescue? && e.reason.ProcessGone?
    requires !r[i].hasUrl && LastFound(r, j, i, pid)
    ensures e.knownPid == Some(pid) <==> StillKnown(r, j, i, pid)
  {
    hide IsRun, TracksContact, StillKnown, LastFound, FoundDead, Known, ContactSeen;
    RunIsTracked(r);
    RunTracksContact(r);
    assert DoesWhatItLists(r[i]);
    GoneNames(r, i, e);
    KnownSince(r, j, i, pid);
  }

  lemma GoneNames(r: seq<Moment>, i: nat, e: Effect)
    requires TracksContact(r) && i < |r| && r[i].act == Some(e) && e.Rescue? && e.reason.ProcessGone?
    ensures e.knownPid == Known(ContactSeen(r[i]))
  {
    hide ContactSeen;
    assert GoneLaw(r[i]);
  }

  /** The rescue names the process the last lookup found dead -- this tick's, or
      without a health URL the last one before it. */
  ghost predicate NamesTheDead(r: seq<Moment>, i: nat, e: Effect)
    requires i < |r| && e.Rescue?
  {
    exists pid :: e.knownPid == Some(pid) && (FoundDead(r[i], pid) || exists j: nat :: LastFound(r, j, i, pid))
  }

  ghost predicate SomeStillKnown(r: seq<Moment>, i: nat)
    requires i < |r|
  {
    exists j: nat, pid :: LastFound(r, j, i, pid) && StillKnown(r, j, i, pid)
  }

  /** In every run a process-gone rescue that names something names the process
      the last lookup found dead exactly when there was a health URL to probe, or
      the process last found dead is still the known one. */
  lemma NamesTheDeadExactly(r: seq<Moment>, i: nat, e: Effect)
    requires IsRun(r) && i < |r| && e in r[i].effects && e.Rescue? && e.reason.ProcessGone?
    requires e.knownPid.Some? || e.childPid.Some?
    ensures NamesTheDead(r, i, e) <==> r[i].hasUrl || SomeStillKnown(r, i)
  {
    hide IsRun, StillKnown, Probes;
    NamesWhatItFoundExactly(r, i, e);
    if !r[i].hasUrl {
      forall j: nat, pid | LastFound(r, j, i, pid)
        ensures e.knownPid == Some(pid) <==> StillKnown(r, j, i, pid)
      {
        NamesTheLastFoundExactly(r, i, e, j, pid);
      }
    }
  }

  // ---- a rescue that names another process than the one found dead -----------------------

  function Free(url: string, pid: int): Document {
    Document(url, "free", Some(pid), None, "spawn", 1.0, Some(1.0), Some(1.0), None, Some(0.0), 15.0, 2, 3, 30.0, None,
             false)
  }

  const FIRST: Document := Free("http://127.0.0.1:8080/health", 7)
  const SECOND: Document := Free("", 8)

  /** A tick at `at` whose silent probe finds the known process dead. */
  function DeadTick(at: real, connected: bool): World {
    World(Clock(at, at, at, at, at, at, at, at), false, false, Empty, Parsed(FIRST, NoHelper), None,
          ProbeAnswer(Health.Absent, connected, None), Some(false), StillRunning, false, None, None,
          Parsed(SECOND, NoHelper))
  }

  lemma DocumentsSay(url: string, pid: int)
    ensures ListenerFrom(Free(url, pid)).Free? && HolderFrom(Free(url, pid)).Absent?
    ensures StatusServerPid(Free(url, pid)) == Some(pid)
    ensures FactsOf(Some(Free(url, pid))) == Facts("spawn", 1.0, 1.0, 45.0, 15.0, 2, 3, 0.0, 30.0, 24.0)
  {
  }

  /** The first tick reads a document with a URL and pid 7, finds 7 dead, but
      completes a handshake: it asks again. */
  lemma FirstTickAsks(m: Memory)
    requires m == NewMemory(0.0)
    ensures var t := Written(m, DeadTick(0.0, true)); t.before == m && t.world == DeadTick(0.0, true)
    ensures Written(m, DeadTick(0.0, true)).act == Some(Restatus) && Written(m, DeadTick(0.0, true)).next.Busy?
    ensures FoundDead(Written(m, DeadTick(0.0, true)), 7)
  {
    hide Written, ActOf, Step, FactsOf, ListenerFrom, HolderFrom, StatusServerPid;
    DocumentsSay("http://127.0.0.1:8080/health", 7);
    FirstIsFresh();
    TickShows(m, DeadTick(0.0, true));
    WrittenIs(m, DeadTick(0.0, true));
    var t := Written(m, DeadTick(0.0, true));
    HandshakeAsks(Booting, t.look, t.At());
  }

  lemma FirstIsFresh()
    ensures FreshTick(NewMemory(0.0), DeadTick(0.0, true))
  {
  }

  lemma WrittenIs(m: Memory, w: World)
    ensures var t := Written(m, w);
            && t.before == m && t.world == w
            && t.act == ActOf(m.state, t.look, t.At()) && t.next == Step(m.state, t.look, t.At()).state
  {
    hide ActOf, Look, Step, Booted, Boots;
  }

  lemma HandshakeAsks(state: State, o: Observation, now: real)
    requires NothingAnswers(o) && o.isFresh && !state.Rescuing? && !o.holder.Foreign?
    requires o.listener.Free? && o.listenerFresh && o.probeConnected && o.sinceLastStart.None?
    ensures ActOf(state, o, now) == Some(Restatus) && Step(state, o, now).state.Busy?
  {
  }

  const AT_0: World := DeadTick(0.0, true)
  const AT_1: World := DeadTick(1.0, false)

  /** What the first tick leaves: the second document, and a process remembered
      as dead. */
  lemma FirstTickLeaves(m: Memory)
    requires m == Tick(NewMemory(0.0), AT_0)
    ensures m.state.Busy? && m.port == Port(Listener.Free, Some(0.0), None)
    ensures m.contact.headerPid.None? && m.contact.statusPid == Some(8) && m.contact.knownAlive == Some(false)
    ensures m.contact.lastProbe == 0.0 && m.contact.lastHealthy.None? && m.starts == Starts(0, None, None)
    ensures m.child == Child(None, false) && m.desk == Desk(None, None, None) && !m.holder.who.Foreign?
    ensures m.paper.document == Some(SECOND) && m.paper.helper.NoHelper? && m.paper.health.Ok?
  {
    hide Written, Tick, ActOf, FactsOf, ListenerFrom, HolderFrom, StatusServerPid, Shows, Step, FoundDead;
    DocumentsSay("http://127.0.0.1:8080/health", 7);
    DocumentsSay("", 8);
    FirstTickAsks(NewMemory(0.0));
    TickLeaves(NewMemory(0.0), AT_0);
    FirstIsFresh();
    FirstSamples();
  }

  /** The second tick has a document without a URL, and pid 8: it remembers that
      a process was dead, and rescues 8. */
  lemma SecondTickRescues(m: Memory)
    requires m == Tick(NewMemory(0.0), AT_0)
    ensures Written(m, AT_1).act == Some(Rescue(Some(8), None, ProcessGone))
    ensures !Written(m, AT_1).hasUrl
  {
    hide Written, Tick, ActOf, FactsOf, ListenerFrom, HolderFrom, StatusServerPid, Step;
    DocumentsSay("", 8);
    FirstTickLeaves(m);
    SecondIsFresh(m);
    TickShows(m, AT_1);
    WrittenIs(m, AT_1);
    var t := Written(m, AT_1);
    GoneIsRescued(m.state, t.look, t.At());
  }

  lemma SecondIsFresh(m: Memory)
    requires m.paper.document == Some(SECOND) && m.contact.lastProbe == 0.0
    ensures FreshTick(m, AT_1)
  {
    DocumentsSay("", 8);
  }

  lemma FirstSamples()
    ensures var t := Written(NewMemory(0.0), AT_0);
            t.boots && t.hasUrl && t.look.isFresh && t.before == NewMemory(0.0) && t.world == AT_0
  {
    hide Written, Shows, FreshTick;
    FirstIsFresh();
    TickShows(NewMemory(0.0), AT_0);
    WrittenKeeps(NewMemory(0.0), AT_0);
    ShowsSamples(Written(NewMemory(0.0), AT_0));
  }

  lemma ShowsSamples(t: Moment)
    requires Shows(t)
    ensures Samples(t)
  {
  }

  lemma GoneIsRescued(state: State, o: Observation, now: real)
    requires NothingAnswers(o) && o.isFresh && state.Busy? && !o.holder.Foreign? && o.helper.NoHelper?
    requires ProvenFree(o) && o.sinceLastStart.None? && o.sinceRescue.None? && o.rescue.Idle?
    requires o.facts.serverMode == "spawn" && o.knownPid.Some? && o.knownAlive == Some(false) && o.childPid.None?
    ensures ActOf(state, o, now) == Some(Rescue(o.knownPid, None, ProcessGone))
  {
  }

  /** A run of two ticks whose rescue names process 8, while the only process
      ever looked at was 7. */
  lemma NamesAnotherProcess() returns (r: seq<Moment>)
    ensures IsRun(r) && |r| == 2
    ensures Rescue(Some(8), None, ProcessGone) in r[1].effects && !r[1].hasUrl
    ensures FoundDead(r[0], 7) && !FoundDead(r[1], 8) && !FoundDead(r[0], 8)
  {
    hide Written, Tick, IsRun;
    var m0 := NewMemory(0.0);
    var m1 := Tick(m0, AT_0);
    FirstTickAsks(m0);
    SecondTickRescues(m1);
    WrittenKeeps(m0, AT_0);
    WrittenKeeps(m1, AT_1);
    StartOfRun(AT_0);
    r := [Written(m0, AT_0)];
    NextOfRun(r, m0, AT_1);
    r := r + [Written(m1, AT_1)];
    TickDoes(m1, AT_1);
  }
}
