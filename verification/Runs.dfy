/** Whole runs of the window: ticks chained from a fresh start, each with its
    own answers from the world, and how each remembered fact moves across one
    tick. */
module Runs {
  import opened Common
  import opened Controller
  import opened ControllerLaws
  import opened StatusDocument
  import opened RescueReport
  import opened Sampler

  /** One tick, written down: what the window remembered before it, what the
      world answered, what the window saw, where it moved, and what it did. */
  datatype Moment = Moment(
    before: Memory,
    world: World,
    look: Observation,
    next: State,
    effects: seq<Effect>,
    /** The one effect that reaches outside the window. */
    act: Option<Effect>,
    /** Whether the tick read a status document of its own accord, first. */
    boots: bool,
    /** Whether its probe had a health URL to ask. */
    hasUrl: bool)
  {
    function At(): real { world.clock.observed - before.started }

    predicate Spawns() { act == Some(Spawn) }

    predicate Rescues() { act.Some? && act.value.Rescue? }

    /** This tick probed a health URL and the server answered. */
    predicate Answers() { look.isFresh && hasUrl && !world.probe.health.Absent? }

    /** This tick probed a health URL and nothing answered. */
    predicate Silent() { look.isFresh && hasUrl && world.probe.health.Absent? }

    /** The probe of this tick completed a handshake. */
    predicate Handshake() { look.isFresh && hasUrl && world.probe.connected }

    /** A status document was read before this tick's probe. */
    predicate ReadsEarly() { boots && world.boot.Parsed? }

    /** A status document was read because this tick asked for one. */
    predicate ReadsLate() { act == Some(Restatus) && world.reread.Parsed? }

    /** The rescue in flight reported on this tick. */
    predicate Reports() { before.desk.inFlight.Some? && !world.mail.Empty? }
  }

  function Written(before: Memory, world: World): Moment {
    var look := Look(before, world);
    var now := Now(before, world);
    var decision := Decision(before, world);
    Moment(before, world, look, decision.state, decision.effects, ActOf(before.state, look, now),
           Boots(before, world), HasHealthUrl(Booted(before, world).paper))
  }

  /** A run: every tick is written down as it happened, the first from a fresh
      start and each other where the one before it ended, in clock order. */
  ghost predicate IsRun(r: seq<Moment>) {
    Chained(r) && InOrder(r)
  }

  ghost predicate Chained(r: seq<Moment>) {
    r == [] ||
    var last := r[|r| - 1];
    && Chained(r[..|r| - 1])
    && last == Written(last.before, last.world)
    && EndsAt(r[..|r| - 1], last.before.started, last.before)
    && (|r| == 1 ==> last.before.started <= last.world.clock.began)
  }

  /** `m` is what the ticks of `r` leave behind. */
  ghost predicate EndsAt(r: seq<Moment>, started: real, m: Memory) {
    m == if r == [] then NewMemory(started) else Tick(r[|r| - 1].before, r[|r| - 1].world)
  }

  /** The clock never runs backwards, within a tick or between two. */
  ghost predicate InOrder(r: seq<Moment>) {
    && (forall i :: 0 <= i < |r| ==> r[i].world.clock.Ordered())
    && (forall i, j :: 0 <= i < j < |r| ==> r[i].world.clock.reread <= r[j].world.clock.began)
  }

  // ---- the effects of a tick, applied -----------------------------------------

  lemma {:induction false} ApplyQuiet(m: Memory, effects: seq<Effect>, o: Observation, w: World)
    requires Acting(effects) == []
    ensures Apply(m, effects, o, w) == m
    decreases effects
  {
    if effects != [] {
      ApplyQuiet(m, effects[1..], o, w);
    }
  }

  lemma {:induction false} ApplyActs(m: Memory, effects: seq<Effect>, e: Effect, o: Observation, w: World)
    requires Acting(effects) == [e]
    ensures Apply(m, effects, o, w) == ApplyOne(m, e, o, w)
    decreases effects
  {
    if effects[0].Acts() {
      assert Acting(effects)[0] == effects[0] && |Acting(effects)| == 1 + |Acting(effects[1..])|;
      ApplyQuiet(ApplyOne(m, e, o, w), effects[1..], o, w);
    } else {
      assert Acting(effects[1..]) == [e];
      ApplyActs(m, effects[1..], e, o, w);
    }
  }

  function ApplyAct(m: Memory, act: Option<Effect>, o: Observation, w: World): Memory {
    if act.None? then m else ApplyOne(m, act.value, o, w)
  }

  /** A tick leaves behind what it saw, the state it moved to, and the one
      effect that reached outside the window -- however many it only painted. */
  lemma TickDoes(m: Memory, w: World)
    ensures var t := Written(m, w);
            && Tick(m, w) == ApplyAct(Settle(Seen(m, w), t.next), t.act, t.look, w)
            && (forall e: Effect :: e.Acts() ==> (e in t.effects <==> t.act == Some(e)))
  {
    var t := Written(m, w);
    var settled := Settle(Seen(m, w), t.next);
    StepActs(m.state, t.look, Now(m, w));
    forall e: Effect | e.Acts()
      ensures e in t.effects <==> t.act == Some(e)
    {
      InActing(t.effects, e);
    }
    if t.act.None? {
      ApplyQuiet(settled, t.effects, t.look, w);
    } else {
      ApplyActs(settled, t.effects, t.act.value, t.look, w);
    }
  }

  // ---- what this tick's decision saw, and what it left -------------------------

  function PortSeen(t: Moment): Port {
    var p := t.before.port;
    var read := if t.ReadsEarly()
                then Port(ListenerFrom(t.world.boot.document), Some(t.world.clock.bootRead), p.lastAnswer)
                else p;
    if t.Answers() then read.(lastAnswer := Some(t.world.clock.probeRead)) else read
  }

  function PortAfter(t: Moment): Port {
    var seen := PortSeen(t);
    if t.Spawns() then Port(Listener.Unknown, None, seen.lastAnswer)
    else if t.ReadsLate() then
      Port(ListenerFrom(t.world.reread.document), Some(t.world.clock.reread), seen.lastAnswer)
    else seen
  }

  function ContactSeen(t: Moment): Contact {
    var c := if t.ReadsEarly() then t.before.contact.(statusPid := StatusServerPid(t.world.boot.document))
             else t.before.contact;
    if !t.look.isFresh then c
    else if !t.hasUrl then
      c.(health := Health.Absent, connected := false, answerPid := None, lastProbe := t.world.clock.probeAsked)
    else if t.Answers() then AfterAnswer(c, t.world)
    else AfterSilence(c, t.world)
  }

  /** A server that answers is alive, and may name itself. */
  function AfterAnswer(c: Contact, w: World): Contact {
    Contact(w.probe.health, w.probe.connected, w.probe.pid, if w.probe.pid.Some? then w.probe.pid else c.headerPid,
            c.statusPid, Some(true), Some(w.clock.probeRead), 0, w.clock.probeAsked)
  }

  /** After a silent probe the known process is looked up, when there is one. */
  function AfterSilence(c: Contact, w: World): Contact {
    Contact(Health.Absent, w.probe.connected, None, c.headerPid, c.statusPid,
            if c.headerPid.Some? || c.statusPid.Some? then w.pidAlive else None,
            c.lastHealthy, SaturatingIncrement(c.consecutiveAbsent), w.clock.probeAsked)
  }

  function ContactAfter(t: Moment): Contact {
    var seen := ContactSeen(t);
    if t.Spawns() then
      seen.(headerPid := None, statusPid := None, knownAlive := None, lastHealthy := None, consecutiveAbsent := 0)
    else if t.ReadsLate() then seen.(statusPid := StatusServerPid(t.world.reread.document))
    else seen
  }

  function StartsSeen(t: Moment): Starts {
    var s := if t.world.takePort then t.before.starts.(last := None) else t.before.starts;
    if ContactSeen(t).health.Healthy? then Starts(0, None, s.last) else s
  }

  function StartsAfter(t: Moment): Starts {
    var s := StartsSeen(t);
    if !t.Spawns() then s
    else
      Starts(SaturatingIncrement(s.attempts),
             if s.first.None? then Some(t.world.clock.applied) else s.first,
             Some(t.world.clock.applied))
  }

  /** The port was seen held, or something answered, while the child ran. */
  predicate SeesBoundEarly(t: Moment) {
    t.Answers() || (t.ReadsEarly() && ListenerFrom(t.world.boot.document).Held?)
  }

  predicate SeesBoundLate(t: Moment) {
    t.ReadsLate() && ListenerFrom(t.world.reread.document).Held?
  }

  function ChildSeen(t: Moment): Child {
    var c := t.before.child;
    Child(if t.world.child.StillRunning? then c.pid else None,
          c.everBound || (c.pid.Some? && SeesBoundEarly(t)))
  }

  function ChildAfter(t: Moment): Child {
    var c := ChildSeen(t);
    if t.Spawns() then Child(if t.world.spawned.Some? then t.world.spawned else c.pid, false)
    else Child(c.pid, c.everBound || (c.pid.Some? && SeesBoundLate(t)))
  }

  function DeskSeen(t: Moment): Desk {
    var d := t.before.desk;
    if !t.Reports() then d
    else if t.world.mail.Delivered? then Desk(None, Some(OutcomeOf(d.inFlight.value, t.world.mail.run)), d.asked)
    else Desk(None, Some(RescueOutcome(RescueResult.Failed, ProcessGone, None, None, [], [], 0.0)), d.asked)
  }

  /** What a rescue asked for on this tick is about. */
  function RequestOf(t: Moment): RescueRequest
    requires t.Rescues()
  {
    RescueRequest(t.act.value.knownPid, t.act.value.childPid, t.act.value.reason, t.look.facts.serverStopWaitSeconds)
  }

  function DeskAfter(t: Moment): Desk {
    var d := DeskSeen(t);
    if t.Rescues() then Desk(Some(RequestOf(t)), None, Some(t.world.clock.applied))
    else if t.next.Rescuing? && !t.Spawns() then d
    else d.(report := None)
  }

  /** A holder is noted at the moment it is first called so. */
  function Noted(h: HolderNote, who: Holder, at: real): HolderNote {
    HolderNote(who, if h.who == who then h.since else at)
  }

  function HolderSeen(t: Moment): HolderNote {
    var h := if t.world.takePort then Noted(t.before.holder, OursStale, t.world.clock.began)
             else t.before.holder;
    var read := if t.ReadsEarly() then Noted(h, HolderFrom(t.world.boot.document), t.world.clock.bootRead)
                else h;
    if t.Answers() && t.world.probe.health.Healthy? then Noted(read, OursHealthy, t.world.clock.probeRead)
    else read
  }

  function HolderAfter(t: Moment): HolderNote {
    var seen := HolderSeen(t);
    if t.ReadsLate() then Noted(seen, HolderFrom(t.world.reread.document), t.world.clock.reread) else seen
  }

  function PaperRead(t: Moment): Paper {
    if t.boots then AfterReading(t.before.paper, t.world.boot, t.world.clock.bootAsked) else t.before.paper
  }

  /** A document replaces the one before; without one that stays, and so does the
      helper unless the command was missing. */
  function AfterReading(p: Paper, read: StatusRead, asked: real): Paper {
    Paper(if read.Parsed? then Some(read.document) else p.document,
          if read.Parsed? then StatusHealth.Ok else if read.Missing? then NotInstalled else Unreadable,
          Some(asked),
          if read.Useless? then p.helper else read.helper,
          p.pinChecked)
  }

  function PaperSeen(t: Moment): Paper {
    var read := PaperRead(t);
    read.(helper := if t.look.isFresh && t.world.helperFile.Some? then t.world.helperFile.value else read.helper)
  }

  function PaperAfter(t: Moment): Paper {
    var seen := PaperSeen(t);
    if t.act == Some(Restatus) then AfterReading(seen, t.world.reread, t.world.clock.applied)
    else if t.act == Some(EnsureShell) && seen.document.Some? && seen.document.value.pinDiffers then
      seen.(pinChecked := true)
    else seen
  }

  /** Whether the next tick samples anew at once: this one found the port free
      too late to act on it. */
  predicate RechecksAfter(t: Moment) {
    && t.act == Some(Restatus)
    && t.look.health.Absent? && !t.look.listenerFresh
    && PaperAfter(t).health.Ok? && PortAfter(t).listener.Free?
  }

  // ---- a run's ticks, one against the next ---------------------------------------

  /** `n` is what tick `t` leaves behind. */
  predicate Leaves(t: Moment, n: Memory) {
    && n.state == t.next
    && n.started == t.before.started
    && n.port == PortAfter(t)
    && n.contact == ContactAfter(t)
    && n.starts == StartsAfter(t)
    && n.child == ChildAfter(t)
    && n.desk == DeskAfter(t)
    && n.holder == HolderAfter(t)
    && n.paper == PaperAfter(t)
    && n.recheckNow == RechecksAfter(t)
  }

  /** The pid a server named itself by goes before the document's. */
  function Known(c: Contact): Option<int> {
    if c.headerPid.Some? then c.headerPid else c.statusPid
  }

  /** The observation of tick `t` shows what it saw. */
  predicate Shows(t: Moment) {
    var now := t.world.clock.observed;
    && t.look.health == ContactSeen(t).health
    && t.look.probeConnected == ContactSeen(t).connected
    && t.look.knownPid == Known(ContactSeen(t))
    && t.look.knownAlive == ContactSeen(t).knownAlive
    && t.look.secondsSinceHealthy == Age(ContactSeen(t).lastHealthy, now)
    && t.look.listener == PortSeen(t).listener
    && t.look.listenerFresh == ListenerFresh(PortSeen(t), t.look.facts.tickSeconds, now)
    && t.look.startAttempts == StartsSeen(t).attempts
    && t.look.sinceFirstStart == Age(StartsSeen(t).first, now)
    && t.look.sinceLastStart == Age(StartsSeen(t).last, now)
    && t.look.childPid == ChildSeen(t).pid
    && t.look.childAlive == ChildSeen(t).pid.Some?
    && t.look.childEverBound == ChildSeen(t).everBound
    && t.look.rescue == ProgressOf(DeskSeen(t))
    && t.look.sinceRescue == Age(DeskSeen(t).asked, now)
    && t.look.holder == HolderSeen(t).who
    && t.look.holderAge == now - HolderSeen(t).since
    && t.look.answerPid == ContactSeen(t).answerPid
    && t.look.onDashboard == t.world.onDashboard && t.look.dashboardPid == t.world.dashboardPid
    && ShowsPaper(t)
    && Samples(t)
  }

  /** Whether tick `t` probed, and read a document first, as the loop decides it. */
  predicate Samples(t: Moment) {
    && (t.look.isFresh <==> Forced(t) || t.world.clock.began - t.before.contact.lastProbe >= ProbeInterval(t.before))
    && (t.boots <==>
          && t.before.paper.document.None? && !t.before.paper.helper.Alive?
          && (t.look.isFresh || t.before.paper.lastRead.None?))
    && (t.hasUrl <==> PaperRead(t).document.Some? && PaperRead(t).document.value.healthUrl != "")
  }

  /** A button, a report or the tick before asks for a fresh tick at once. */
  predicate Forced(t: Moment) {
    t.world.retry || t.Reports() || t.before.recheckNow
  }

  /** How long the window waits between two probes: as the document says while a
      server comes up or goes down, a tick otherwise, and never under a second. */
  function ProbeInterval(m: Memory): real {
    if m.state.Starting? || m.state.RestartPending? || m.state.Draining? then
      match m.paper.document
      case None => 1.0
      case Some(d) => Max(d.healthCheckIntervalSeconds, 1.0)
    else Max(FactsOf(m.paper.document).tickSeconds, 1.0)
  }

  /** A window just opened: it knows nothing, has read nothing, and its last
      probe counts as an hour ago. */
  predicate Begins(m: Memory) {
    && m.state == Booting && !m.recheckNow
    && m.port == Port(Listener.Unknown, None, None)
    && m.contact == Contact(Health.Absent, false, None, None, None, None, None, 0, m.started - 3600.0)
    && m.starts == Starts(0, None, None) && m.child == Child(None, false)
    && m.desk == Desk(None, None, None) && m.holder == HolderNote(Holder.Unknown, m.started)
    && m.paper == Paper(None, StatusHealth.Ok, None, NoHelper, false)
  }

  /** The same of the status document. */
  predicate ShowsPaper(t: Moment) {
    var p := PaperSeen(t);
    && t.look.helper == p.helper
    && t.look.status == p.health
    && t.look.facts == FactsOf(p.document)
    && t.look.sinceRestatus == Age(p.lastRead, t.world.clock.observed)
    && t.look.shellStale == (p.document.Some? && p.document.value.pinDiffers && !p.pinChecked)
  }

  /** What the controller promises of every tick. */
  predicate Lawful(t: Moment) {
    && (t.act.Some? ==> t.act.value.Acts())
    && Moves(t.before.state, t.next, t.act, t.At())
    && (t.Spawns() || t.Rescues() ==> Justified(t.before.state, t.look, t.At(), t.act.value))
  }

  ghost predicate DoesWhatItLists(t: Moment) {
    forall e: Effect :: e.Acts() ==> (e in t.effects <==> t.act == Some(e))
  }

  /** Everything the theorems about runs need of one: each tick leaves what the
      next finds, shows what it saw, and keeps the controller's laws. */
  ghost predicate Tracked(r: seq<Moment>) {
    && (|r| > 0 ==> Begins(r[0].before) && r[0].before.started <= r[0].world.clock.began)
    && (forall i :: 0 < i < |r| ==> Leaves(r[i - 1], r[i].before))
    && (forall i :: 0 <= i < |r| ==> Shows(r[i]) && Lawful(r[i]) && DoesWhatItLists(r[i]))
    && InOrder(r)
  }

  predicate SameInputs(m: Memory, w: World, t: Moment) {
    && t.before == m && t.world == w
    && t.look.isFresh == FreshTick(m, w) && t.boots == Boots(m, w) && t.hasUrl == HasHealthUrl(Booted(m, w).paper)
  }

  lemma PortBeforeDeciding(m: Memory, w: World, t: Moment)
    requires SameInputs(m, w, t)
    ensures Seen(m, w).port == PortSeen(t)
  {
    hide FreshTick, HolderFrom, StatusServerPid, ReadPaper, ProbeContact, ListenerFrom;
  }

  lemma ProbeTells(c: Contact, w: World)
    ensures ProbeContact(c, false, w)
            == c.(health := Health.Absent, connected := false, answerPid := None, lastProbe := w.clock.probeAsked)
    ensures ProbeContact(c, true, w) == if w.probe.health.Absent? then AfterSilence(c, w) else AfterAnswer(c, w)
  {
  }

  lemma ContactBeforeDeciding(m: Memory, w: World, t: Moment)
    requires SameInputs(m, w, t)
    ensures Seen(m, w).contact == ContactSeen(t)
  {
    hide FreshTick, HolderFrom, ReadPaper, ListenerFrom, StatusServerPid, ProbeContact, AfterSilence, AfterAnswer;
    var c := if t.ReadsEarly() then t.before.contact.(statusPid := StatusServerPid(t.world.boot.document))
             else t.before.contact;
    ProbeTells(c, w);
  }

  lemma StartsBeforeDeciding(m: Memory, w: World, t: Moment)
    requires SameInputs(m, w, t)
    ensures Seen(m, w).starts == StartsSeen(t)
  {
    hide FreshTick, HolderFrom, StatusServerPid, ReadPaper, ListenerFrom;
    ContactBeforeDeciding(m, w, t);
  }

  lemma ChildBeforeDeciding(m: Memory, w: World, t: Moment)
    requires SameInputs(m, w, t)
    ensures Seen(m, w).child == ChildSeen(t)
  {
    hide FreshTick, HolderFrom, StatusServerPid, ReadPaper, ProbeContact;
  }

  lemma DeskBeforeDeciding(m: Memory, w: World, t: Moment)
    requires SameInputs(m, w, t)
    ensures Seen(m, w).desk == DeskSeen(t) && Seen(m, w).started == m.started
  {
    hide FreshTick, HolderFrom, StatusServerPid, ReadPaper, ListenerFrom;
  }

  lemma HolderBeforeDeciding(m: Memory, w: World, t: Moment)
    requires SameInputs(m, w, t)
    ensures Seen(m, w).holder == HolderSeen(t)
  {
    hide FreshTick, ListenerFrom, HolderFrom, StatusServerPid, ReadPaper, ProbeContact, RememberHolder, Noted;
    HolderIsNoted();
  }

  lemma HolderIsNoted()
    ensures forall h, who, at :: RememberHolder(h, who, at) == Noted(h, who, at)
  {
  }

  lemma PaperBeforeDeciding(m: Memory, w: World, t: Moment)
    requires SameInputs(m, w, t)
    ensures Seen(m, w).paper == PaperSeen(t) && !Seen(m, w).recheckNow
    ensures Samples(t)
  {
    hide FreshTick, ListenerFrom, HolderFrom, StatusServerPid, ReadPaper, AfterReading, ProbeContact, ProbeInterval;
    PaperIsRead();
    FreshWhenDue(m, w);
  }

  lemma PaperIsRead()
    ensures forall p, read, asked :: ReadPaper(p, read, asked) == AfterReading(p, read, asked)
  {
  }

  lemma FreshWhenDue(m: Memory, w: World)
    ensures FreshTick(m, w)
            <==> || w.retry || (m.desk.inFlight.Some? && !w.mail.Empty?) || m.recheckNow
                 || w.clock.began - m.contact.lastProbe >= ProbeInterval(m)
  {
    hide FactsOf;
  }

  /** `seen` is what tick `t` saw before it decided. */
  predicate Sees(t: Moment, seen: Memory) {
    && seen.started == t.before.started
    && seen.port == PortSeen(t)
    && seen.contact == ContactSeen(t)
    && seen.starts == StartsSeen(t)
    && seen.child == ChildSeen(t)
    && seen.desk == DeskSeen(t)
    && seen.holder == HolderSeen(t)
    && seen.paper == PaperSeen(t)
    && !seen.recheckNow
  }

  lemma SeesWhatItReads(m: Memory, w: World, t: Moment)
    requires SameInputs(m, w, t)
    ensures Sees(t, Seen(m, w)) && Samples(t)
  {
    hide Seen, FreshTick, PortSeen, ContactSeen, StartsSeen, ChildSeen, DeskSeen, HolderSeen, PaperSeen, Samples;
    PortBeforeDeciding(m, w, t);
    ContactBeforeDeciding(m, w, t);
    StartsBeforeDeciding(m, w, t);
    ChildBeforeDeciding(m, w, t);
    DeskBeforeDeciding(m, w, t);
    HolderBeforeDeciding(m, w, t);
    PaperBeforeDeciding(m, w, t);
  }

  lemma ActingLeaves(t: Moment, seen: Memory)
    requires Sees(t, seen) && (t.act.Some? ==> t.act.value.Acts())
    ensures Leaves(t, ApplyAct(Settle(seen, t.next), t.act, t.look, t.world))
  {
    hide PortSeen, ContactSeen, StartsSeen, ChildSeen, DeskSeen, HolderSeen, PaperSeen, FactsOf;
    hide ListenerFrom, HolderFrom, StatusServerPid, RememberHolder, Noted, ReadPaper, AfterReading;
    HolderIsNoted();
    PaperIsRead();
  }

  lemma LookShows(t: Moment, seen: Memory)
    requires Sees(t, seen) && Samples(t) && t.look == Observed(seen, t.world, t.look.isFresh)
    ensures Shows(t)
  {
    hide PortSeen, ContactSeen, StartsSeen, ChildSeen, DeskSeen, HolderSeen, PaperSeen, Samples, FactsOf, Age;
    hide ListenerFresh, ProgressOf;
  }

  lemma DecidedIsLawful(t: Moment)
    requires t.next == Step(t.before.state, t.look, t.At()).state
    requires t.act == ActOf(t.before.state, t.look, t.At())
    ensures Lawful(t)
  {
    StepMoves(t.before.state, t.look, t.At());
    ReachIsJustified(t.before.state, t.look, t.At());
  }

  lemma TickLeaves(m: Memory, w: World)
    ensures Leaves(Written(m, w), Tick(m, w)) && DoesWhatItLists(Written(m, w))
  {
    hide Leaves, Sees, Seen, Samples, Step, Justified;
    var t := Written(m, w);
    TickDoes(m, w);
    SeesWhatItReads(m, w, t);
    ReachIsJustified(m.state, t.look, Now(m, w));
    ActingLeaves(t, Seen(m, w));
  }

  lemma TickShows(m: Memory, w: World)
    ensures Shows(Written(m, w)) && Lawful(Written(m, w))
  {
    hide Shows, Samples, Lawful, Sees, Step, ActOf, Seen;
    var t := Written(m, w);
    SeesWhatItReads(m, w, t);
    DecidedIsLawful(t);
    LookShows(t, Seen(m, w));
  }

  lemma TrackedGrows(r: seq<Moment>, last: nat)
    requires |r| == last + 1 && Tracked(r[..last]) && InOrder(r)
    requires if last == 0 then r[0].before == NewMemory(r[0].before.started)
                               && r[0].before.started <= r[0].world.clock.began
             else Leaves(r[last - 1], r[last].before)
    requires Shows(r[last]) && Lawful(r[last]) && DoesWhatItLists(r[last])
    ensures Tracked(r)
  {
    hide Shows, Lawful, DoesWhatItLists, Leaves;
    var prefix := r[..last];
    assert forall i :: 0 <= i < last ==> prefix[i] == r[i];
  }

  lemma {:induction false} ChainIsTracked(r: seq<Moment>)
    requires Chained(r) && InOrder(r)
    ensures Tracked(r)
  {
    hide Shows, Lawful, DoesWhatItLists, Leaves, Written, Tick;
    if r != [] {
      var last := |r| - 1;
      assert InOrder(r[..last]);
      ChainIsTracked(r[..last]);
      TickShows(r[last].before, r[last].world);
      TickLeaves(r[last].before, r[last].world);
      if last > 0 {
        var prefix := r[..last];
        assert prefix[last - 1] == r[last - 1];
        assert Chained(prefix);
        TickLeaves(r[last - 1].before, r[last - 1].world);
      }
      TrackedGrows(r, last);
    }
  }

  /** Every run is tracked. */
  lemma RunIsTracked(r: seq<Moment>)
    requires IsRun(r)
    ensures Tracked(r)
  {
    hide Written, Tick, Tracked;
    ChainIsTracked(r);
  }

  /** The clock of the next tick starts where the run left it. */
  ghost predicate Follows(r: seq<Moment>, started: real, w: World) {
    if r == [] then started <= w.clock.began else r[|r| - 1].world.clock.reread <= w.clock.began
  }

  lemma OrderGrows(r: seq<Moment>, t: Moment)
    requires InOrder(r) && t.world.clock.Ordered()
    requires r != [] ==> r[|r| - 1].world.clock.reread <= t.world.clock.began
    ensures InOrder(r + [t])
  {
    var grown := r + [t];
    forall i, j | 0 <= i < j < |grown|
      ensures grown[i].world.clock.reread <= grown[j].world.clock.began
    {
      if j == |r| && i < |r| - 1 {
        assert r[i].world.clock.reread <= r[|r| - 1].world.clock.began;
        assert r[|r| - 1].world.clock.Ordered();
      }
    }
  }

  /** A run and one more tick from where it ended is a run. */
  lemma RunGrows(r: seq<Moment>, t: Moment, started: real)
    requires IsRun(r) && t.world.clock.Ordered()
    requires t == Written(t.before, t.world)
    requires EndsAt(r, started, t.before) && Follows(r, started, t.world)
    ensures IsRun(r + [t])
  {
    hide Written, Tick;
    OrderGrows(r, t);
    assert (r + [t])[..|r|] == r;
  }

  lemma WrittenKeeps(m: Memory, w: World)
    ensures Written(m, w).before == m && Written(m, w).world == w
  {
    hide Look, ActOf, Booted, Boots, Decision;
  }

  lemma WrittenDecides(m: Memory, w: World)
    ensures Written(m, w).effects == Decision(m, w).effects
  {
    hide Look, ActOf, Booted, Boots, Decision;
  }

  lemma StartOfRun(w: World)
    requires w.clock.Ordered() && 0.0 <= w.clock.began
    ensures IsRun([Written(NewMemory(0.0), w)])
  {
    hide Written;
    var t := Written(NewMemory(0.0), w);
    WrittenKeeps(NewMemory(0.0), w);
    RunGrows([], t, 0.0);
    assert [] + [t] == [t];
  }

  lemma NextOfRun(r: seq<Moment>, m: Memory, w: World)
    requires IsRun(r) && r != [] && r[|r| - 1] == Written(m, r[|r| - 1].world)
    requires w.clock.Ordered() && r[|r| - 1].world.clock.reread <= w.clock.began
    ensures IsRun(r + [Written(Tick(m, r[|r| - 1].world), w)])
  {
    hide Written, Tick, IsRun;
    var last := r[|r| - 1].world;
    WrittenKeeps(m, last);
    WrittenKeeps(Tick(m, last), w);
    RunGrows(r, Written(Tick(m, last), w), 0.0);
  }
}
