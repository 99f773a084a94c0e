/** The exact moment of a rescue in a run of the whole window: as long as the
    world keeps saying the same things about a dead server, for each way of being
    dead. */
module DeadRuns {
  import opened Common
  import opened Controller
  import opened Grounds
  import opened ControllerLaws
  import opened StatusDocument
  import opened Sampler
  import opened Runs
  import opened ExactMoment
  import opened RunWalks
  import Evidence

  /** A document that says nothing listens, with these settings. */
  predicate SaysFree(d: Document, f: Facts) {
    ListenerFrom(d).Free? && FactsOf(Some(d)) == f && !d.pinDiffers
  }

  /** What is relied on throughout a stretch, so that what the window knows of
      the processes lasts: every document names the server's pid; nothing is known
      and no document names one; the child runs on. */
  datatype Course = Course(named: bool, unnamed: bool, childRuns: bool)

  predicate Follows(w: World, c: Course) {
    && (w.reread.Parsed? && c.named ==> StatusServerPid(w.reread.document).Some?)
    && (w.reread.Parsed? && c.unnamed ==> StatusServerPid(w.reread.document).None?)
    && (c.childRuns ==> w.child.StillRunning?)
  }

  /** What the process lookup or the child says, for each way of being dead. */
  predicate LooksDead(w: World, reason: DeadReason, c: Course) {
    match reason
    case ProcessGone => c.unnamed || w.pidAlive == Some(false)
    case ListenerLost => w.pidAlive != Some(false)
    case NeverBound => w.child.StillRunning?
  }

  /** What the world answers on a tick of a stretch: silence without a handshake,
      no helper, and a document that says free whenever one is read. */
  predicate Silent(w: World, f: Facts, reason: DeadReason, c: Course) {
    && w.probe.health.Absent? && !w.probe.connected
    && w.reread.Parsed? && w.reread.helper.NoHelper? && SaysFree(w.reread.document, f)
    && (w.helperFile.Some? ==> w.helperFile.value.NoHelper?)
    && Follows(w, c) && LooksDead(w, reason, c)
  }

  /** The window knows a pid, and will. */
  predicate KnowsPid(n: Contact, c: Course) {
    n.headerPid.Some? || (c.named && n.statusPid.Some?)
  }

  /** What the window knows of the processes, throughout. */
  predicate Knows(n: Contact, child: Child, reason: DeadReason, c: Course) {
    match reason
    case ProcessGone =>
      && (child.pid.Some? ==> child.everBound)
      && (|| (n.knownAlive == Some(false) && KnowsPid(n, c) && !c.unnamed)
          || (&& n.headerPid.None? && n.statusPid.None? && c.unnamed && child.pid.None?
              && (n.lastHealthy.Some? || child.everBound)))
    case ListenerLost =>
      && (child.pid.Some? ==> child.everBound)
      && n.knownAlive != Some(false)
      && (KnowsPid(n, c) || (c.childRuns && child.pid.Some?))
    case NeverBound => child.pid.Some? && !child.everBound
  }

  /** What the window remembers throughout. */
  predicate Lasts(m: Memory, f: Facts, reason: DeadReason, c: Course) {
    && m.paper.document.Some? && FactsOf(m.paper.document) == f && !m.paper.document.value.pinDiffers
    && m.paper.helper.NoHelper? && m.paper.health.Ok?
    && m.port.listener.Free? && m.port.readAt.Some?
    && (m.port.lastAnswer.Some? ==> m.port.lastAnswer.value < m.port.readAt.value)
    && m.contact.health.Absent? && !m.contact.connected
    && Knows(m.contact, m.child, reason, c)
    && m.desk.inFlight.None? && m.desk.report.None?
    && !m.holder.who.Foreign?
    && !m.state.Rescuing? && !m.state.Updating? && !m.state.RestartPending?
  }

  /** The grace and the backoffs are over by the time tick `t` decides, and the
      OS answer it goes by is at most two ticks old. */
  predicate RestedAt(t: Moment, f: Facts) {
    var now := t.world.clock.observed;
    && Waited(Age(t.before.starts.last, now), Max(Max(f.startBackoffSeconds, 1.0), f.busyGraceSeconds))
    && Waited(Age(t.before.desk.asked, now), Max(f.startBackoffSeconds, 1.0))
    && t.before.port.readAt.Some? && now - t.before.port.readAt.value <= 2.0 * Max(f.tickSeconds, 1.0)
  }

  // ---- one tick ---------------------------------------------------------------------------

  lemma SeenApart(t: Moment, f: Facts, reason: DeadReason, c: Course)
    requires Shows(t) && Silent(t.world, f, reason, c) && Lasts(t.before, f, reason, c)
    ensures !t.boots && !t.Answers() && PortSeen(t) == t.before.port && DeskSeen(t) == t.before.desk
    ensures PaperSeen(t).document == t.before.paper.document && PaperSeen(t).helper.NoHelper?
    ensures PaperSeen(t).health.Ok?
    ensures !HolderSeen(t).who.Foreign?
    ensures StartsSeen(t).last.None? || StartsSeen(t).last == t.before.starts.last
    ensures ContactSeen(t).health.Absent? && !ContactSeen(t).connected
  {
    hide ListenerFrom, HolderFrom, StatusServerPid, FactsOf, FreshTick, ListenerFresh, ProgressOf, Age, Knows;
  }

  lemma ProcessesSeen(t: Moment, reason: DeadReason, c: Course)
    requires t.world.probe.health.Absent? && !t.boots && Follows(t.world, c) && LooksDead(t.world, reason, c)
    requires Knows(t.before.contact, t.before.child, reason, c)
    ensures Knows(ContactSeen(t), ChildSeen(t), reason, c)
  {
    hide StatusServerPid, ListenerFrom, SaturatingIncrement;
  }

  lemma ProcessesAfter(t: Moment, f: Facts, reason: DeadReason, c: Course)
    requires Silent(t.world, f, reason, c) && Knows(ContactSeen(t), ChildSeen(t), reason, c) && !t.Spawns()
    ensures Knows(ContactAfter(t), ChildAfter(t), reason, c)
    ensures ContactAfter(t).health == ContactSeen(t).health && ContactAfter(t).connected == ContactSeen(t).connected
  {
    hide StatusServerPid, ListenerFrom, FactsOf, ContactSeen, ChildSeen;
  }

  lemma KnowingIsDead(o: Observation, n: Contact, child: Child, reason: DeadReason, c: Course)
    requires ProvenFree(o) && Knows(n, child, reason, c)
    requires o.knownPid == Known(n) && o.knownAlive == n.knownAlive
    requires o.secondsSinceHealthy.Some? <==> n.lastHealthy.Some?
    requires o.childPid == child.pid && o.childEverBound == child.everBound
    ensures IsDead(o, reason)
  {
  }

  /** Such a tick sees a dead server, and nothing in the way of a rescue. */
  lemma DeadIsSeen(t: Moment, f: Facts, reason: DeadReason, c: Course)
    requires Shows(t) && Silent(t.world, f, reason, c) && Lasts(t.before, f, reason, c) && RestedAt(t, f)
    requires f.serverMode == "spawn"
    ensures IsDead(t.look, reason) && InTheClear(t.look) && t.look.facts == f
  {
    hide PortSeen, ContactSeen, StartsSeen, ChildSeen, DeskSeen, HolderSeen, PaperSeen, FreshTick, FactsOf;
    hide Knows, IsDead, Known, Follows, LooksDead, SaysFree;
    SeenApart(t, f, reason, c);
    ProcessesSeen(t, reason, c);
    KnowingIsDead(t.look, ContactSeen(t), ChildSeen(t), reason, c);
  }

  /** Unless it rescues, it only asks again on a fresh tick, and leaves the same. */
  lemma DeadGoesOn(t: Moment, n: Memory, f: Facts, reason: DeadReason, c: Course)
    requires Shows(t) && Silent(t.world, f, reason, c) && Lasts(t.before, f, reason, c) && t.world.clock.Ordered()
    requires Leaves(t, n) && !t.next.Rescuing? && !t.next.Updating? && !t.next.RestartPending?
    requires t.act == if t.look.isFresh then Some(Restatus) else None
    requires t.before.port.readAt.value <= t.world.clock.began
    ensures Lasts(n, f, reason, c)
    ensures n.port.readAt == if t.look.isFresh then Some(t.world.clock.reread) else t.before.port.readAt
    ensures n.starts.last.None? || n.starts.last == t.before.starts.last
    ensures n.desk.asked == t.before.desk.asked
  {
    hide PortSeen, ContactSeen, StartsSeen, ChildSeen, DeskSeen, HolderSeen, PaperSeen, FactsOf, ListenerFrom;
    hide StatusServerPid, HolderFrom, Shows, Knows, ContactAfter, ChildAfter, Follows, LooksDead;
    SeenApart(t, f, reason, c);
    ProcessesSeen(t, reason, c);
    ProcessesAfter(t, f, reason, c);
    OnlyTheOsSaysFree(t.world.reread.document);
  }

  // ---- a stretch of ticks -----------------------------------------------------------------

  /** When the OS answer tick `i` goes by was read: on the last fresh tick of the
      stretch, or before it began. */
  function LastRead(r: seq<Moment>, a: nat, i: nat): real
    requires a <= i < |r|
    decreases i
  {
    if i == a then (if r[a].before.port.readAt.Some? then r[a].before.port.readAt.value else 0.0)
    else if r[i - 1].look.isFresh then r[i - 1].world.clock.reread
    else LastRead(r, a, i - 1)
  }

  /** From tick `a` up to tick `b` the world keeps answering so, and fresh ticks
      come within twice the tick; at `a` the server is dead, the grace and the
      backoffs are over, and nothing was counted yet. */
  ghost predicate Stretch(r: seq<Moment>, a: nat, b: nat, f: Facts, reason: DeadReason, c: Course) {
    && a < b <= |r| && f.serverMode == "spawn" && Lasts(r[a].before, f, reason, c) && RestedAt(r[a], f)
    && !(r[a].before.state.Confirming? && r[a].before.state.dead == reason)
    && (forall i :: a <= i < b ==> Silent(r[i].world, f, reason, c))
    && (forall i :: a <= i < b ==>
          r[i].world.clock.observed - LastRead(r, a, i) <= 2.0 * Max(f.tickSeconds, 1.0))
  }

  predicate RescueAt(t: Moment) {
    W.Rescues(StrideOf(t))
  }

  /** What the proof needs of one tick of a run. */
  ghost predicate Ticks(t: Moment) {
    && Shows(t) && W.Taken(StrideOf(t)) && t.world.clock.Ordered()
    && t.act == ActOf(t.before.state, t.look, t.At())
  }

  lemma RunTicks(r: seq<Moment>, i: nat)
    requires IsRun(r) && i < |r|
    ensures Ticks(r[i]) && (i > 0 ==> Leaves(r[i - 1], r[i].before))
  {
    hide IsRun, Shows, W.Taken, Lawful, DoesWhatItLists, Leaves;
    RunIsTracked(r);
    RunActs(r, i);
    assert InOrder(r);
  }

  lemma AsksOtherwise(t: Moment, reason: DeadReason)
    requires Ticks(t) && IsDead(t.look, reason) && InTheClear(t.look) && !RescueAt(t)
    requires !t.before.state.Rescuing? && !t.before.state.Updating? && !t.before.state.RestartPending?
    ensures t.act == if t.look.isFresh then Some(Restatus) else None
    ensures !t.next.Rescuing? && !t.next.Updating? && !t.next.RestartPending?
  {
    hide IsDead, Shows, Step, InTheClear, ActOf, Enough;
    ClearReach(t.before.state, t.look, reason, t.At());
    DeadStep(StrideOf(t), reason);
    if t.act.Some? && t.act.value.Rescue? {
      StepDoes(t.before.state, t.look, t.At(), t.act.value);
    }
  }

  lemma ClearReach(state: State, o: Observation, reason: DeadReason, now: real)
    requires IsDead(o, reason) && InTheClear(o)
    requires !state.Rescuing? && !state.Updating? && !state.RestartPending?
    ensures var act := ActOf(state, o, now);
            act == (if o.isFresh then Some(Restatus) else None) || (act.Some? && act.value.Rescue?)
  {
    hide AskedRecently, Rested, RestedFromRescue, MayBeRescued, StrangerConfirmed, InstallerNear;
    FreeIsNotHeld(o);
  }

  /** As long as nothing was rescued, tick `n` starts from a dead server. */
  ghost predicate StillDead(r: seq<Moment>, a: nat, n: nat, f: Facts, reason: DeadReason, c: Course)
    requires a <= n < |r|
  {
    && Lasts(r[n].before, f, reason, c)
    && r[n].before.port.readAt == Some(LastRead(r, a, n)) && LastRead(r, a, n) <= r[n].world.clock.began
    && (r[n].before.starts.last.None? || r[n].before.starts.last == r[a].before.starts.last)
    && r[n].before.desk.asked == r[a].before.desk.asked
  }

  lemma StillRested(r: seq<Moment>, a: nat, b: nat, n: nat, f: Facts, reason: DeadReason, c: Course)
    requires Stretch(r, a, b, f, reason, c) && a <= n < b && StillDead(r, a, n, f, reason, c) && InOrder(r)
    ensures RestedAt(r[n], f)
  {
    hide Lasts, SaysFree, Silent, FactsOf;
    assert r[a].world.clock.Ordered() && r[n].world.clock.Ordered();
    assert a < n ==> r[a].world.clock.reread <= r[n].world.clock.began;
  }

  lemma StretchSays(r: seq<Moment>, a: nat, b: nat, n: nat, f: Facts, reason: DeadReason, c: Course)
    requires Stretch(r, a, b, f, reason, c) && a <= n < b
    ensures n < |r| && Silent(r[n].world, f, reason, c) && f.serverMode == "spawn"
  {
    hide Silent, Lasts, RestedAt;
  }

  lemma DeadTick(r: seq<Moment>, a: nat, b: nat, n: nat, f: Facts, reason: DeadReason, c: Course)
    requires Stretch(r, a, b, f, reason, c) && a <= n < b <= |r| && StillDead(r, a, n, f, reason, c)
    requires InOrder(r) && Ticks(r[n])
    ensures IsDead(r[n].look, reason) && InTheClear(r[n].look)
  {
    hide Stretch, Silent, Lasts, IsDead, InTheClear, RestedAt, Shows, W.Taken, ActOf, InOrder;
    StillRested(r, a, b, n, f, reason, c);
    StretchSays(r, a, b, n, f, reason, c);
    DeadIsSeen(r[n], f, reason, c);
  }

  lemma DeadTickLeaves(r: seq<Moment>, a: nat, b: nat, n: nat, f: Facts, reason: DeadReason, c: Course)
    requires Stretch(r, a, b, f, reason, c) && a < n < b <= |r| && StillDead(r, a, n - 1, f, reason, c)
    requires InOrder(r) && Ticks(r[n - 1]) && Leaves(r[n - 1], r[n].before) && !RescueAt(r[n - 1])
    ensures StillDead(r, a, n, f, reason, c)
  {
    hide Stretch, Silent, IsDead, InTheClear, RestedAt, W.Taken, ActOf, Lasts, Leaves, Shows, RescueAt;
    var m := n - 1;
    DeadTick(r, a, b, m, f, reason, c);
    StretchSays(r, a, b, m, f, reason, c);
    LastingState(r[m].before, f, reason, c);
    AsksOtherwise(r[m], reason);
    DeadGoesOn(r[m], r[n].before, f, reason, c);
    assert r[m].world.clock.Ordered() && r[m].world.clock.reread <= r[n].world.clock.began;
  }

  lemma LastingState(m: Memory, f: Facts, reason: DeadReason, c: Course)
    requires Lasts(m, f, reason, c)
    ensures !m.state.Rescuing? && !m.state.Updating? && !m.state.RestartPending?
  {
    hide Knows;
  }

  /** An OS answer was read in the past. */
  lemma ReadBefore(r: seq<Moment>, a: nat)
    requires IsRun(r) && a < |r| && r[a].before.port.readAt.Some?
    ensures r[a].before.port.readAt.value <= r[a].world.clock.began
  {
    hide IsRun, Shows, Lawful, Leaves, DoesWhatItLists, ListenerFrom;
    hide Evidence.TracksPort, Evidence.NoSpawns, Evidence.ReadNoLater;
    RunIsTracked(r);
    Evidence.RunTracksPort(r);
    Evidence.PortHistory(r, a);
    var j :| 0 <= j < a && Evidence.ReadSaid(r[j], r[a].before.port.listener, r[a].before.port.readAt.value);
    assert r[j].world.clock.Ordered() && r[j].world.clock.reread <= r[a].world.clock.began;
  }

  lemma DeadAtFirst(r: seq<Moment>, a: nat, b: nat, f: Facts, reason: DeadReason, c: Course)
    requires IsRun(r) && Stretch(r, a, b, f, reason, c)
    ensures StillDead(r, a, a, f, reason, c)
  {
    hide IsRun, FactsOf, Silent, Max, Knows;
    ReadBefore(r, a);
  }

  lemma {:induction false} StaysDead(r: seq<Moment>, a: nat, b: nat, n: nat, f: Facts, reason: DeadReason, c: Course)
    requires IsRun(r) && Stretch(r, a, b, f, reason, c) && a <= n < b <= |r|
    requires forall k :: a <= k < n ==> !RescueAt(r[k])
    ensures StillDead(r, a, n, f, reason, c) && IsDead(r[n].look, reason) && InTheClear(r[n].look)
    decreases n
  {
    hide IsRun, Stretch, StillDead, IsDead, InTheClear, Ticks, Leaves, RescueAt, Shows, Lawful, DoesWhatItLists;
    RunIsTracked(r);
    assert InOrder(r);
    RunTicks(r, n);
    if n > a {
      StaysDead(r, a, b, n - 1, f, reason, c);
      RunTicks(r, n - 1);
      DeadTickLeaves(r, a, b, n, f, reason, c);
    } else {
      DeadAtFirst(r, a, b, f, reason, c);
    }
    DeadTick(r, a, b, n, f, reason, c);
  }

  // ---- the moment -------------------------------------------------------------------------

  /** The controller's walk through the stretch, up to tick `i`. */
  function StretchWalk(r: seq<Moment>, a: nat, i: nat): (w: seq<W.Stride>)
    requires a <= i < |r|
    ensures |w| == i - a + 1 && forall k :: 0 <= k < |w| ==> w[k] == StrideOf(r[a + k])
  {
    WalkOf(r)[a..i + 1]
  }

  lemma StretchIsDead(r: seq<Moment>, a: nat, b: nat, i: nat, f: Facts, reason: DeadReason, c: Course)
    requires IsRun(r) && Stretch(r, a, b, f, reason, c) && a <= i < b <= |r|
    requires forall k :: a <= k < i ==> !RescueAt(r[k])
    ensures DeadThroughout(StretchWalk(r, a, i), reason)
  {
    hide IsRun, Stretch, IsDead, InTheClear, RescueAt, StillDead, W.Taken;
    var w := StretchWalk(r, a, i);
    RunWalks.RunWalks(r);
    var all := WalkOf(r);
    assert W.IsWalk(w) by {
      forall k | 0 <= k < |w| ensures W.Taken(w[k]) {
        assert w[k] == all[a + k];
      }
      forall k | 0 < k < |w| ensures w[k].state == w[k - 1].next {
        var l := a + k;
        assert w[k] == all[l] && w[k - 1] == all[l - 1];
      }
    }
    forall k | 0 <= k < |w| ensures IsDead(w[k].look, reason) && InTheClear(w[k].look) {
      StaysDead(r, a, b, a + k, f, reason, c);
    }
    StretchState(r, a, b, f, reason, c);
  }

  lemma StretchState(r: seq<Moment>, a: nat, b: nat, f: Facts, reason: DeadReason, c: Course)
    requires Stretch(r, a, b, f, reason, c)
    ensures var s := r[a].before.state;
            !s.Rescuing? && !s.Updating? && !s.RestartPending? && !(s.Confirming? && s.dead == reason)
  {
    hide Knows, Silent, FactsOf, RestedAt;
  }

  lemma FirstRescue(r: seq<Moment>, a: nat, b: nat, i: nat, f: Facts, reason: DeadReason, c: Course)
    requires IsRun(r) && Stretch(r, a, b, f, reason, c) && a <= i < b <= |r|
    requires forall k :: a <= k < i ==> !RescueAt(r[k])
    ensures var w := StretchWalk(r, a, i);
            RescueAt(r[i]) <==> Due(w, i - a, reason) && (forall j :: 0 <= j < i - a ==> !Due(w, j, reason))
  {
    hide IsRun, Stretch, DeadThroughout, Due, W.Rescues;
    var w := StretchWalk(r, a, i);
    StretchIsDead(r, a, b, i, f, reason, c);
    RescuedExactlyWhenDue(w, i - a, reason);
    forall j | 0 <= j < i - a ensures !W.Rescues(w[j]) {
      assert !RescueAt(r[a + j]);
    }
  }

  /** In every run of the whole window, once a server is dead and as long as the
      world keeps saying so, the first rescue falls on exactly the first due
      tick. */
  lemma DeadRunIsRescuedExactlyWhenDue(r: seq<Moment>, a: nat, b: nat, i: nat, f: Facts, reason: DeadReason, c: Course)
    requires IsRun(r) && Stretch(r, a, b, f, reason, c) && a <= i < b <= |r|
    ensures var w := StretchWalk(r, a, i);
            RescueAt(r[i]) && (forall k :: a <= k < i ==> !RescueAt(r[k]))
            <==> Due(w, i - a, reason) && (forall j :: 0 <= j < i - a ==> !Due(w, j, reason))
  {
    hide IsRun, Stretch, Due, RescueAt;
    if forall k :: a <= k < i ==> !RescueAt(r[k]) {
      FirstRescue(r, a, b, i, f, reason, c);
    } else {
      var k: nat :| a <= k < i && RescueAt(r[k]);
      var first := EarliestRescue(r, a, k);
      FirstRescue(r, a, b, first, f, reason, c);
      DueEarlier(r, a, first, i, reason);
    }
  }

  lemma {:induction false} EarliestRescue(r: seq<Moment>, a: nat, k: nat) returns (first: nat)
    requires a <= k < |r| && RescueAt(r[k])
    ensures a <= first <= k && RescueAt(r[first]) && forall l :: a <= l < first ==> !RescueAt(r[l])
    decreases k
  {
    hide RescueAt;
    if l: nat :| a <= l < k && RescueAt(r[l]) {
      first := EarliestRescue(r, a, l);
    } else {
      first := k;
    }
  }

  lemma DueEarlier(r: seq<Moment>, a: nat, first: nat, i: nat, reason: DeadReason)
    requires a <= first < i < |r| && Due(StretchWalk(r, a, first), first - a, reason)
    ensures Due(StretchWalk(r, a, i), first - a, reason)
  {
    hide Due;
    var w := StretchWalk(r, a, i);
    assert w[..first - a + 1] == StretchWalk(r, a, first);
    DueOfStart(w, first - a + 1, first - a, reason);
  }
}
