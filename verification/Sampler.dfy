/** The sampler around the controller, on values: what the loop remembers
    between ticks, what the world answers during one tick, and the memory one
    tick leaves behind. `Lifecycle` in `Lifecycle.dfy` does the same in place. */
module Sampler {
  import opened Common
  import opened Controller
  import opened StatusDocument
  import opened RescueReport

  /** The last OS answer about the port and its time, and the time of the last
      answered probe. */
  datatype Port = Port(listener: Listener, readAt: Option<real>, lastAnswer: Option<real>)

  /** What the last probe said, and whom this window last heard from. */
  datatype Contact = Contact(
    health: Health,
    connected: bool,
    answerPid: Option<int>,
    headerPid: Option<int>,
    statusPid: Option<int>,
    knownAlive: Option<bool>,
    lastHealthy: Option<real>,
    consecutiveAbsent: U32,
    lastProbe: real)

  /** Starts since the last healthy server, the first of them, and the last
      start of all. */
  datatype Starts = Starts(attempts: U32, first: Option<real>, last: Option<real>)

  /** The server this window started, if it still runs, and whether it ever
      opened its port. */
  datatype Child = Child(pid: Option<int>, everBound: bool)

  /** The rescue in flight, its report once it has one, and when it was asked
      for. */
  datatype Desk = Desk(inFlight: Option<RescueRequest>, report: Option<RescueOutcome>, asked: Option<real>)

  datatype HolderNote = HolderNote(who: Holder, since: real)

  /** The last status document, how reading it went, and what came with it. */
  datatype Paper = Paper(
    document: Option<Document>,
    health: StatusHealth,
    lastRead: Option<real>,
    helper: Helper,
    pinChecked: bool)

  /** Everything the loop remembers between ticks. Instants are seconds on one
      monotonic clock. */
  datatype Memory = Memory(
    state: State,
    started: real,
    recheckNow: bool,
    port: Port,
    contact: Contact,
    starts: Starts,
    child: Child,
    desk: Desk,
    holder: HolderNote,
    paper: Paper)

  /** What a `--print-status` run came back as; an unrunnable command reads as
      not installed. The helper is re-read beside a document and beside a
      missing command. */
  datatype StatusRead =
    | Parsed(document: Document, helper: Helper)
    | Missing(helper: Helper)
    | Useless

  datatype ProbeAnswer = ProbeAnswer(health: Health, connected: bool, pid: Option<int>)

  /** What the rescue's channel held. */
  datatype Mail = Empty | Disconnected | Delivered(run: RescueRun)

  datatype ChildReading = StillRunning | Exited | CouldNotWait

  /** The clock as one tick reads it. */
  datatype Clock = Clock(
    began: real,
    bootAsked: real,
    bootRead: real,
    probeAsked: real,
    probeRead: real,
    observed: real,
    applied: real,
    reread: real)
  {
    predicate Ordered() {
      began <= bootAsked <= bootRead <= probeAsked <= probeRead <= observed <= applied <= reread
    }
  }

  /** Everything the world answers during one tick. */
  datatype World = World(
    clock: Clock,
    retry: bool,
    takePort: bool,
    mail: Mail,
    boot: StatusRead,
    helperFile: Option<Helper>,
    probe: ProbeAnswer,
    pidAlive: Option<bool>,
    child: ChildReading,
    onDashboard: bool,
    dashboardPid: Option<int>,
    spawned: Option<int>,
    reread: StatusRead)

  function NewMemory(now: real): Memory {
    Memory(
      Booting, now, false,
      Port(Listener.Unknown, None, None),
      Contact(Health.Absent, false, None, None, None, None, None, 0, now - 3600.0),
      Starts(0, None, None),
      Child(None, false),
      Desk(None, None, None),
      HolderNote(Holder.Unknown, now),
      Paper(None, StatusHealth.Ok, None, NoHelper, false))
  }

  // ---- the parts of a tick, in the order the loop runs them ---------------

  function TickSeconds(m: Memory): real {
    if m.state.Starting? || m.state.RestartPending? || m.state.Draining? then
      Max(if m.paper.document.Some? then m.paper.document.value.healthCheckIntervalSeconds else PAINT_TICK_SECONDS,
          PAINT_TICK_SECONDS)
    else Max(FactsOf(m.paper.document).tickSeconds, 1.0)
  }

  function KnownPid(c: Contact): Option<int> {
    if c.headerPid.Some? then c.headerPid else c.statusPid
  }

  predicate ListenerFresh(p: Port, tickSeconds: real, now: real) {
    && p.readAt.Some?
    && (p.lastAnswer.Some? ==> p.lastAnswer.value < p.readAt.value)
    && now - p.readAt.value <= 2.0 * Max(tickSeconds, 1.0)
  }

  function RememberHolder(h: HolderNote, who: Holder, now: real): HolderNote {
    if h.who == who then h else HolderNote(who, now)
  }

  /** The "Take port" button. */
  function TakePort(m: Memory, w: World): Memory {
    m.(starts := if w.takePort then m.starts.(last := None) else m.starts,
       holder := if w.takePort then RememberHolder(m.holder, OursStale, w.clock.began) else m.holder)
  }

  predicate RescueReported(d: Desk, w: World) {
    d.inFlight.Some? && !w.mail.Empty?
  }

  function LostRescue(): RescueOutcome {
    RescueOutcome(RescueResult.Failed, ProcessGone, None, None, [], [], 0.0)
  }

  function PollRescue(d: Desk, w: World): Desk {
    if !RescueReported(d, w) then d
    else
      Desk(None,
           Some(if w.mail.Disconnected? then LostRescue() else OutcomeOf(d.inFlight.value, w.mail.run)),
           d.asked)
  }

  predicate FreshTick(m: Memory, w: World) {
    w.retry || RescueReported(m.desk, w) || m.recheckNow || w.clock.began - m.contact.lastProbe >= TickSeconds(m)
  }

  /** Everything one `--print-status` changes. */
  function ReadStatus(m: Memory, read: StatusRead, asked: real, now: real): Memory {
    m.(port := if read.Parsed? then m.port.(listener := ListenerFrom(read.document), readAt := Some(now)) else m.port,
       contact := if read.Parsed? then m.contact.(statusPid := StatusServerPid(read.document)) else m.contact,
       child := if read.Parsed? && m.child.pid.Some? && ListenerFrom(read.document).Held?
                then m.child.(everBound := true) else m.child,
       holder := if read.Parsed? then RememberHolder(m.holder, HolderFrom(read.document), now) else m.holder,
       paper := ReadPaper(m.paper, read, asked))
  }

  function ReadPaper(p: Paper, read: StatusRead, asked: real): Paper {
    match read
    case Parsed(d, helper) => Paper(Some(d), StatusHealth.Ok, Some(asked), helper, p.pinChecked)
    case Missing(helper) => Paper(p.document, NotInstalled, Some(asked), helper, p.pinChecked)
    case Useless => Paper(p.document, Unreadable, Some(asked), p.helper, p.pinChecked)
  }

  predicate BootRead(p: Paper, isFresh: bool) {
    p.document.None? && (p.lastRead.None? || isFresh) && !p.helper.Alive?
  }

  predicate HasHealthUrl(p: Paper) {
    p.document.Some? && p.document.value.healthUrl != ""
  }

  /** The helper's own file, re-read on every fresh tick. */
  function RefreshHelper(p: Paper, w: World): Paper {
    if w.helperFile.Some? then p.(helper := w.helperFile.value) else p
  }

  /** One health probe. Without a URL to ask it still counts as a look. */
  function Probe(m: Memory, w: World): Memory {
    var asks := HasHealthUrl(m.paper);
    var answered := asks && !w.probe.health.Absent?;
    m.(port := if answered then m.port.(lastAnswer := Some(w.clock.probeRead)) else m.port,
       contact := ProbeContact(m.contact, asks, w),
       child := if answered && m.child.pid.Some? then m.child.(everBound := true) else m.child,
       holder := if answered && w.probe.health.Healthy? then RememberHolder(m.holder, OursHealthy, w.clock.probeRead)
                 else m.holder)
  }

  function ProbeContact(c: Contact, asks: bool, w: World): Contact {
    var p := w.probe;
    if !asks then
      c.(health := Health.Absent, connected := false, answerPid := None, lastProbe := w.clock.probeAsked)
    else if p.health.Absent? then
      Contact(Health.Absent, p.connected, None, c.headerPid, c.statusPid,
              if KnownPid(c).Some? then w.pidAlive else None,
              c.lastHealthy, SaturatingIncrement(c.consecutiveAbsent), w.clock.probeAsked)
    else
      Contact(p.health, p.connected, p.pid, if p.pid.Some? then p.pid else c.headerPid, c.statusPid, Some(true),
              Some(w.clock.probeRead), 0, w.clock.probeAsked)
  }

  /** What observing itself changes: a child that no longer runs is let go, and
      a healthy server ends the episode. */
  function Reap(m: Memory, w: World): Memory {
    m.(child := if w.child.StillRunning? then m.child else m.child.(pid := None),
       starts := if m.contact.health.Healthy? then Starts(0, None, m.starts.last) else m.starts)
  }

  function Age(at: Option<real>, now: real): Option<real> {
    if at.Some? then Some(now - at.value) else None
  }

  function ProgressOf(d: Desk): RescueProgress {
    if d.report.Some? then Done(d.report.value)
    else if d.inFlight.Some? then Running
    else Idle
  }

  /** The observation a reaped memory gives. */
  function Observed(m: Memory, w: World, isFresh: bool): Observation {
    var now, facts := w.clock.observed, FactsOf(m.paper.document);
    Observation(
      isFresh, m.contact.health, m.holder.who, now - m.holder.since, Age(m.contact.lastHealthy, now),
      m.contact.connected, m.port.listener, ListenerFresh(m.port, facts.tickSeconds, now), KnownPid(m.contact),
      m.contact.knownAlive, m.child.pid, m.child.everBound, m.contact.answerPid, w.onDashboard, w.dashboardPid,
      ProgressOf(m.desk), Age(m.desk.asked, now), Age(m.paper.lastRead, now), m.paper.helper, m.paper.health,
      m.child.pid.Some?, Age(m.starts.last, now),
      m.paper.document.Some? && m.paper.document.value.pinDiffers && !m.paper.pinChecked,
      m.starts.attempts, Age(m.starts.first, now), facts)
  }

  /** Starting a server: nothing known about an earlier one survives. */
  function ApplySpawn(m: Memory, w: World): Memory {
    m.(port := Port(Listener.Unknown, None, m.port.lastAnswer),
       contact := m.contact.(headerPid := None, statusPid := None, knownAlive := None,
                             lastHealthy := None, consecutiveAbsent := 0),
       starts := Starts(SaturatingIncrement(m.starts.attempts),
                        if m.starts.first.None? then Some(w.clock.applied) else m.starts.first,
                        Some(w.clock.applied)),
       child := Child(if w.spawned.Some? then w.spawned else m.child.pid, false),
       desk := m.desk.(report := None))
  }

  function ApplyRescue(m: Memory, e: Effect, o: Observation, w: World): Memory
    requires e.Rescue?
  {
    m.(desk := Desk(Some(RescueRequest(e.knownPid, e.childPid, e.reason, o.facts.serverStopWaitSeconds)),
                    None, Some(w.clock.applied)))
  }

  function ApplyRestatus(m: Memory, o: Observation, w: World): Memory {
    var n := ReadStatus(m, w.reread, w.clock.applied, w.clock.reread);
    n.(recheckNow := n.recheckNow
                     || (o.health.Absent? && !o.listenerFresh && n.paper.health.Ok? && n.port.listener.Free?))
  }

  function ApplyEnsureShell(m: Memory): Memory {
    m.(paper := if m.paper.document.Some? && m.paper.document.value.pinDiffers
                then m.paper.(pinChecked := true) else m.paper)
  }

  function ApplyOne(m: Memory, e: Effect, o: Observation, w: World): Memory {
    match e
    case Spawn => ApplySpawn(m, w)
    case Rescue(_, _, _) => ApplyRescue(m, e, o, w)
    case Restatus => ApplyRestatus(m, o, w)
    case EnsureShell => ApplyEnsureShell(m)
    case _ => m
  }

  function Apply(m: Memory, effects: seq<Effect>, o: Observation, w: World): Memory
    decreases effects
  {
    if effects == [] then m else Apply(ApplyOne(m, effects[0], o, w), effects[1..], o, w)
  }

  // ---- the tick ------------------------------------------------------------

  function Polled(m: Memory, w: World): Memory {
    TakePort(m, w).(desk := PollRescue(m.desk, w), recheckNow := false)
  }

  predicate Boots(m: Memory, w: World) {
    BootRead(m.paper, FreshTick(m, w))
  }

  function Booted(m: Memory, w: World): Memory {
    if Boots(m, w) then ReadStatus(Polled(m, w), w.boot, w.clock.bootAsked, w.clock.bootRead) else Polled(m, w)
  }

  function Probed(m: Memory, w: World): Memory {
    if FreshTick(m, w) then
      var booted := Booted(m, w);
      Probe(booted.(paper := RefreshHelper(booted.paper, w)), w)
    else Booted(m, w)
  }

  function Seen(m: Memory, w: World): Memory {
    Reap(Probed(m, w), w)
  }

  function Look(m: Memory, w: World): Observation {
    Observed(Seen(m, w), w, FreshTick(m, w))
  }

  function Now(m: Memory, w: World): real {
    w.clock.observed - m.started
  }

  function Decision(m: Memory, w: World): Next {
    Step(m.state, Look(m, w), Now(m, w))
  }

  /** Move on; outside `Rescuing` no report is kept. */
  function Settle(seen: Memory, next: State): Memory {
    seen.(state := next, desk := if next.Rescuing? then seen.desk else seen.desk.(report := None))
  }

  function Tick(m: Memory, w: World): Memory {
    Apply(Settle(Seen(m, w), Decision(m, w).state), Decision(m, w).effects, Look(m, w), w)
  }
}
