/** Why at most one server needs waiting on the child to work: when it fails,
    the window lets a running server go and can start another. */
module ForgottenChild {
  import opened Common
  import opened Controller
  import opened Grounds
  import opened ControllerLaws
  import opened StatusDocument
  import opened Sampler
  import opened Runs
  import opened Children

  /** A spawn-mode installation with one-second settings and nothing listening. */
  const QUIET: Document := Document(
    "http://127.0.0.1:8080/health", "free", None, None, "spawn", 1.0, Some(1.0), Some(1.0), None, Some(0.0), 15.0, 2, 3,
    30.0, None, false)

  /** One tick at `at` on which nothing answers. */
  function Silence(at: real, child: ChildReading, spawned: Option<int>): World {
    World(Clock(at, at, at, at, at, at, at, at), false, false, Empty, Parsed(QUIET, NoHelper), None,
          ProbeAnswer(Health.Absent, false, None), None, child, false, None, spawned, Parsed(QUIET, NoHelper))
  }

  /** The window has read such a document, or is about to read its first. */
  predicate Ready(p: Paper) {
    && p.helper.NoHelper? && p.health.Ok?
    && (p.document == Some(QUIET) || (p.document.None? && p.lastRead.None?))
  }

  lemma PaperSeen(m: Memory, w: World, at: real, child: ChildReading, spawned: Option<int>)
    requires w == Silence(at, child, spawned) && Ready(m.paper) && FreshTick(m, w)
    ensures var p := Seen(m, w).paper; p.document == Some(QUIET) && p.helper.NoHelper? && p.health.Ok?
    ensures HasHealthUrl(Booted(m, w).paper)
    ensures Boots(m, w) <==> m.paper.document.None?
  {
    hide TickSeconds, FreshTick, ListenerFrom, HolderFrom, StatusServerPid;
  }

  lemma QuietLook(m: Memory, w: World, at: real, child: ChildReading, spawned: Option<int>)
    requires w == Silence(at, child, spawned) && Ready(m.paper) && FreshTick(m, w)
    ensures var t := Written(m, w);
            && t.look.isFresh && t.look.helper.NoHelper? && t.look.status.Ok? && !t.look.shellStale
            && t.look.facts == FactsOf(Some(QUIET)) && t.look.holder == Seen(m, w).holder.who
            && t.hasUrl && (t.boots <==> m.paper.document.None?)
            && Shows(t) && t.act == ActOf(m.state, t.look, t.At())
  {
    hide Seen, FreshTick, FactsOf, Shows, Lawful, ActOf, Boots, Booted, ListenerFresh;
    PaperSeen(m, w, at, child, spawned);
    TickShows(m, w);
  }

  lemma QuietSays()
    ensures FactsOf(Some(QUIET)) == Facts("spawn", 1.0, 1.0, 45.0, 15.0, 2, 3, 0.0, 30.0, 24.0)
    ensures ListenerFrom(QUIET).Free? && HolderFrom(QUIET).Absent? && StatusServerPid(QUIET) == None
  {
  }

  lemma HolderSeen(m: Memory, w: World, at: real, child: ChildReading, spawned: Option<int>)
    requires w == Silence(at, child, spawned) && !m.holder.who.Foreign?
    ensures !Seen(m, w).holder.who.Foreign?
  {
    hide ListenerFrom, StatusServerPid, FreshTick, HolderFrom;
    QuietSays();
  }

  /** After a quiet tick that started a server or asked for the status. */
  lemma QuietTickLeaves(m: Memory, w: World, at: real, child: ChildReading, spawned: Option<int>)
    requires w == Silence(at, child, spawned) && Ready(m.paper) && FreshTick(m, w) && !m.holder.who.Foreign?
    requires Written(m, w).act in {Some(Spawn), Some(Restatus)}
    ensures var n := Tick(m, w);
            && Ready(n.paper) && n.paper.document == Some(QUIET) && !n.holder.who.Foreign?
            && n.state == Written(m, w).next && Leaves(Written(m, w), n)
  {
    hide Seen, FreshTick, ListenerFrom, HolderFrom, StatusServerPid, Written, Leaves, Tick;
    QuietSays();
    PaperSeen(m, w, at, child, spawned);
    HolderSeen(m, w, at, child, spawned);
    TickDoes(m, w);
    TickLeaves(m, w);
  }

  lemma FreshAfterASecond(m: Memory, w: World)
    requires m.paper.document == Some(QUIET) && w.clock.began - m.contact.lastProbe >= 1.0
    ensures FreshTick(m, w)
  {
    QuietSays();
  }

  /** What the controller sees of a quiet tick with no child. */
  predicate QuietSight(o: Observation) {
    && o.isFresh && o.helper.NoHelper? && o.status.Ok? && !o.shellStale
    && o.health.Absent? && !o.probeConnected && o.facts == FactsOf(Some(QUIET)) && !o.holder.Foreign?
    && o.childPid.None? && !o.childAlive && !o.childEverBound
    && o.knownPid.None? && o.secondsSinceHealthy.None? && o.knownAlive.None?
    && Waited(o.sinceLastStart, 1.0)
  }

  lemma ProvenFreeIsStarted(state: State, o: Observation, now: real)
    requires QuietSight(o) && !state.Rescuing? && o.listener.Free? && o.listenerFresh
    ensures ActOf(state, o, now) == Some(Spawn)
  {
    QuietSays();
  }

  lemma UnknownIsAskedAbout(state: State, o: Observation, now: real)
    requires QuietSight(o) && !state.Rescuing? && o.listener.Unknown?
    ensures ActOf(state, o, now) == Some(Restatus)
  {
    QuietSays();
  }

  predicate Unknowing(c: Contact) {
    c.headerPid.None? && c.statusPid.None? && c.knownAlive.None? && c.lastHealthy.None?
  }

  /** The memory before a quiet tick at `at`, its last start `last`. */
  predicate Standing(m: Memory, at: real, last: Option<real>) {
    && Ready(m.paper) && !m.holder.who.Foreign? && !m.state.Rescuing? && Unknowing(m.contact)
    && m.port.lastAnswer.None? && !m.child.everBound && m.starts.last == last
    && (last.Some? ==> at - last.value >= 1.0)
  }

  lemma QuietTickSees(m: Memory, w: World, at: real, child: ChildReading, spawned: Option<int>)
    requires w == Silence(at, child, spawned) && Standing(m, at, m.starts.last) && FreshTick(m, w)
    requires m.child.pid.None? || child.CouldNotWait?
    ensures var t := Written(m, w);
            && QuietSight(t.look) && t.look.listener == PortSeen(t).listener
            && t.look.listenerFresh == ListenerFresh(PortSeen(t), 1.0, at)
            && PortSeen(t) == (if m.paper.document.None? then Port(Listener.Free, Some(at), None) else m.port)
            && t.act == ActOf(m.state, t.look, t.At())
  {
    hide FreshTick, ListenerFrom, FactsOf, ActOf, ListenerFresh, Written, StatusServerPid;
    QuietSays();
    QuietLook(m, w, at, child, spawned);
    HolderSeen(m, w, at, child, spawned);
    var t := Written(m, w);
    WrittenKeeps(m, w);
    assert ContactSeen(t).health.Absent? && Unknowing(ContactSeen(t));
  }

  /** A quiet tick on which the OS says nothing listens starts a server. */
  lemma QuietStart(m: Memory, w: World, at: real, child: ChildReading, spawned: int)
    requires w == Silence(at, child, Some(spawned)) && Standing(m, at, m.starts.last) && FreshTick(m, w)
    requires m.child.pid.None? || child.CouldNotWait?
    requires m.paper.document.None? || (m.port.listener.Free? && m.port.readAt.Some? && at - m.port.readAt.value <= 2.0)
    ensures Written(m, w).act == Some(Spawn)
    ensures var n := Tick(m, w);
            && Standing(n, at + 1.0, Some(at)) && n.paper.document == Some(QUIET)
            && n.port == Port(Listener.Unknown, None, None) && n.contact.lastProbe == at
            && n.child == Child(Some(spawned), false)
  {
    hide FreshTick, ListenerFrom, FactsOf, ActOf, Written, StatusServerPid, QuietSight;
    var t := Written(m, w);
    WrittenKeeps(m, w);
    QuietTickSees(m, w, at, child, Some(spawned));
    ProvenFreeIsStarted(m.state, t.look, t.At());
    QuietTickLeaves(m, w, at, child, Some(spawned));
    DecidedMoves(m, w);
    QuietLook(m, w, at, child, Some(spawned));
  }

  /** A quiet tick on which the listener is unknown asks for the status. */
  lemma QuietQuestion(m: Memory, w: World, at: real, child: ChildReading)
    requires w == Silence(at, child, None) && Standing(m, at, m.starts.last) && FreshTick(m, w)
    requires m.child.pid.None? || child.CouldNotWait?
    requires m.paper.document == Some(QUIET) && m.port.listener.Unknown?
    ensures Written(m, w).act == Some(Restatus)
    ensures var n := Tick(m, w);
            && Standing(n, at + 1.0, m.starts.last) && n.paper.document == Some(QUIET)
            && n.port == Port(Listener.Free, Some(at), None) && n.contact.lastProbe == at
            && n.child == Child(None, false)
  {
    hide FreshTick, ListenerFrom, FactsOf, ActOf, Written, StatusServerPid, QuietSight;
    QuietSays();
    var t := Written(m, w);
    WrittenKeeps(m, w);
    QuietTickSees(m, w, at, child, None);
    UnknownIsAskedAbout(m.state, t.look, t.At());
    QuietTickLeaves(m, w, at, child, None);
    DecidedMoves(m, w);
    QuietLook(m, w, at, child, None);
  }

  lemma DecidedMoves(m: Memory, w: World)
    ensures var t := Written(m, w); Moves(m.state, t.next, t.act, t.At())
  {
    hide Moves, Step, ActOf, Look;
    var t := Written(m, w);
    StepMoves(m.state, t.look, t.At());
  }

  const AT_0: World := Silence(0.0, StillRunning, Some(1))
  const AT_1: World := Silence(1.0, CouldNotWait, None)
  const AT_2: World := Silence(2.0, StillRunning, Some(2))
  const AT_3: World := Silence(3.0, StillRunning, None)

  /** What the first three ticks do, and the child each tick finds. */
  lemma QuietMemories(m0: Memory, m1: Memory, m2: Memory, m3: Memory)
    requires m0 == NewMemory(0.0) && m1 == Tick(m0, AT_0) && m2 == Tick(m1, AT_1) && m3 == Tick(m2, AT_2)
    ensures Written(m0, AT_0).act == Some(Spawn) && m1.child.pid == Some(1)
    ensures Written(m1, AT_1).act == Some(Restatus) && m2.child.pid == None
    ensures Written(m2, AT_2).act == Some(Spawn) && m3.child.pid == Some(2)
  {
    hide Written, Tick, FreshTick;
    FirstIsFresh();
    QuietStart(m0, AT_0, 0.0, StillRunning, 1);
    FreshAfterASecond(m1, AT_1);
    QuietQuestion(m1, AT_1, 1.0, CouldNotWait);
    FreshAfterASecond(m2, AT_2);
    QuietStart(m2, AT_2, 2.0, StillRunning, 2);
  }

  lemma FirstIsFresh()
    ensures FreshTick(NewMemory(0.0), AT_0)
  {
  }

  lemma QuietRun(m0: Memory, m1: Memory, m2: Memory, m3: Memory) returns (r: seq<Moment>)
    requires m0 == NewMemory(0.0) && m1 == Tick(m0, AT_0) && m2 == Tick(m1, AT_1) && m3 == Tick(m2, AT_2)
    ensures IsRun(r) && r == [Written(m0, AT_0), Written(m1, AT_1), Written(m2, AT_2), Written(m3, AT_3)]
  {
    hide Written, Tick, IsRun;
    WrittenKeeps(m0, AT_0);
    WrittenKeeps(m1, AT_1);
    WrittenKeeps(m2, AT_2);
    StartOfRun(AT_0);
    r := [Written(m0, AT_0)];
    NextOfRun(r, m0, AT_1);
    r := r + [Written(m1, AT_1)];
    NextOfRun(r, m1, AT_2);
    r := r + [Written(m2, AT_2)];
    NextOfRun(r, m2, AT_3);
    r := r + [Written(m3, AT_3)];
  }

  lemma QuietProcesses(r: seq<Moment>)
    requires |r| == 4
    requires r[0].world == AT_0 && r[0].before.child.pid == None && r[0].act == Some(Spawn)
    requires r[1].world == AT_1 && r[1].before.child.pid == Some(1) && r[1].act == Some(Restatus)
    requires r[2].world == AT_2 && r[2].before.child.pid == None && r[2].act == Some(Spawn)
    requires r[3].world == AT_3 && r[3].before.child.pid == Some(2)
    ensures Processes(r, [{}, {1}, {1}, {1, 2}])
  {
  }

  /** A run of four quiet ticks, a second apart: the first starts server 1, the
      second fails to wait on it, the third starts server 2 beside it. */
  lemma TwoServersAtOnce() returns (r: seq<Moment>, alive: seq<set<int>>)
    ensures IsRun(r) && Processes(r, alive) && |r| == 4
    ensures Spawn in r[2].effects && alive[2] == {1}
    ensures |alive[3]| == 2
  {
    hide Written, Tick, IsRun, Processes;
    var m0 := NewMemory(0.0);
    var m1 := Tick(m0, AT_0);
    var m2 := Tick(m1, AT_1);
    var m3 := Tick(m2, AT_2);
    QuietMemories(m0, m1, m2, m3);
    r := QuietRun(m0, m1, m2, m3);
    WrittenKeeps(m0, AT_0);
    WrittenKeeps(m1, AT_1);
    WrittenKeeps(m2, AT_2);
    WrittenKeeps(m3, AT_3);
    TickDoes(m2, AT_2);
    alive := [{}, {1}, {1}, {1, 2}];
    QuietProcesses(r);
  }
}
