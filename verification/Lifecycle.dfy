/** The window's loop itself: one object whose fields every tick updates in
    place. Each method is proved to do to its fields what `Sampler` says of a
    memory, and the object carries the run it has been through. */
module Lifecycle {
  import opened Common
  import opened Controller
  import opened StatusDocument
  import opened RescueReport
  import S = Sampler
  import opened Runs
  import Evidence
  import Licence

  class Lifecycle {
    var state: State
    const started: real
    var recheckNow: bool
    var port: S.Port
    var contact: S.Contact
    var starts: S.Starts
    var child: S.Child
    var desk: S.Desk
    var holder: S.HolderNote
    var paper: S.Paper

    /** Every tick so far. */
    ghost var trace: seq<Moment>

    ghost function View(): S.Memory
      reads this
    {
      S.Memory(state, started, recheckNow, port, contact, starts, child, desk, holder, paper)
    }

    /** The object has been through exactly the run it carries. */
    ghost predicate Valid()
      reads this
    {
      && IsRun(trace)
      && EndsAt(trace, started, View())
    }

    constructor (now: real)
      ensures Valid() && trace == [] && View() == S.NewMemory(now)
    {
      state := Booting;
      started := now;
      recheckNow := false;
      port := S.Port(Listener.Unknown, None, None);
      contact := S.Contact(Health.Absent, false, None, None, None, None, None, 0, now - 3600.0);
      starts := S.Starts(0, None, None);
      child := S.Child(None, false);
      desk := S.Desk(None, None, None);
      holder := S.HolderNote(Holder.Unknown, now);
      paper := S.Paper(None, StatusHealth.Ok, None, NoHelper, false);
      trace := [];
    }

    method RememberHolder(who: Holder, now: real)
      modifies this`holder
      ensures holder == S.RememberHolder(old(holder), who, now)
    {
      if holder.who != who {
        holder := S.HolderNote(who, now);
      }
    }

    method TakePort(w: S.World)
      modifies this`starts, this`holder
      ensures View() == S.TakePort(old(View()), w)
    {
      if w.takePort {
        starts := starts.(last := None);
        RememberHolder(OursStale, w.clock.began);
      }
    }

    /** Take the report of the rescue in flight, when there is one. */
    method PollRescue(w: S.World) returns (reported: bool)
      modifies this`desk
      ensures reported == S.RescueReported(old(desk), w)
      ensures desk == S.PollRescue(old(desk), w)
    {
      if desk.inFlight.None? || w.mail.Empty? {
        return false;
      }
      var outcome := if w.mail.Disconnected? then S.LostRescue() else OutcomeOf(desk.inFlight.value, w.mail.run);
      desk := desk.(inFlight := None, report := Some(outcome));
      return true;
    }

    /** One run of the status command, with whatever it came back as. */
    method Restatus(read: S.StatusRead, asked: real, now: real)
      modifies this`port, this`contact, this`child, this`holder, this`paper
      ensures View() == S.ReadStatus(old(View()), read, asked, now)
    {
      paper := paper.(lastRead := Some(asked));
      match read {
        case Parsed(document, helper) =>
          RememberHolder(HolderFrom(document), now);
          port := port.(listener := ListenerFrom(document), readAt := Some(now));
          contact := contact.(statusPid := StatusServerPid(document));
          if child.pid.Some? && port.listener.Held? {
            child := child.(everBound := true);
          }
          paper := paper.(helper := helper, document := Some(document), health := StatusHealth.Ok);
        case Missing(helper) =>
          paper := paper.(health := NotInstalled, helper := helper);
        case Useless =>
          paper := paper.(health := Unreadable);
      }
    }

    method RefreshHelper(w: S.World)
      modifies this`paper
      ensures paper == S.RefreshHelper(old(paper), w)
    {
      if w.helperFile.Some? {
        paper := paper.(helper := w.helperFile.value);
      }
    }

    /** Ask the server for its health, when an address is known. */
    method Probe(w: S.World)
      modifies this`port, this`contact, this`child, this`holder
      ensures View() == S.Probe(old(View()), w)
    {
      contact := contact.(lastProbe := w.clock.probeAsked);
      if paper.document.None? || paper.document.value.healthUrl == "" {
        contact := contact.(health := Health.Absent, connected := false, answerPid := None);
        return;
      }
      contact := contact.(health := w.probe.health, connected := w.probe.connected);
      if w.probe.health.Healthy? {
        RememberHolder(OursHealthy, w.clock.probeRead);
      }
      if w.probe.health.Absent? {
        contact := contact.(answerPid := None,
                            consecutiveAbsent := SaturatingIncrement(contact.consecutiveAbsent),
                            knownAlive := if S.KnownPid(contact).Some? then w.pidAlive else None);
      } else {
        contact := contact.(answerPid := w.probe.pid,
                            headerPid := if w.probe.pid.Some? then w.probe.pid else contact.headerPid,
                            consecutiveAbsent := 0,
                            knownAlive := Some(true),
                            lastHealthy := Some(w.clock.probeRead));
        port := port.(lastAnswer := Some(w.clock.probeRead));
        if child.pid.Some? {
          child := child.(everBound := true);
        }
      }
    }

    /** What observing itself changes: a dead child is let go, and a healthy
        server ends the episode. */
    method Reap(w: S.World)
      modifies this`child, this`starts
      ensures View() == S.Reap(old(View()), w)
    {
      if !w.child.StillRunning? {
        child := child.(pid := None);
      }
      if contact.health.Healthy? {
        starts := starts.(attempts := 0, first := None);
      }
    }

    /** Whether the OS's answer is newer than the last answered probe, and recent. */
    method ListenerFresh(now: real) returns (recent: bool)
      ensures recent == S.ListenerFresh(port, FactsOf(paper.document).tickSeconds, now)
    {
      if port.readAt.None? {
        return false;
      }
      if port.lastAnswer.Some? && port.lastAnswer.value >= port.readAt.value {
        return false;
      }
      var tick := Max(FactsOf(paper.document).tickSeconds, 1.0);
      return now - port.readAt.value <= 2.0 * tick;
    }

    method Progress() returns (progress: RescueProgress)
      ensures progress == S.ProgressOf(desk)
    {
      if desk.report.Some? {
        return Done(desk.report.value);
      }
      return if desk.inFlight.Some? then Running else Idle;
    }

    /** Tell the controller what is remembered and what the world shows. */
    method Observe(w: S.World, isFresh: bool) returns (o: Observation)
      ensures o == S.Observed(View(), w, isFresh)
    {
      hide S.ListenerFresh, S.ProgressOf, S.Age, S.KnownPid, FactsOf;
      var now := w.clock.observed;
      var progress := Progress();
      var listenerFresh := ListenerFresh(now);
      o := Observation(
        isFresh, contact.health, holder.who, now - holder.since, S.Age(contact.lastHealthy, now), contact.connected,
        port.listener, listenerFresh, S.KnownPid(contact), contact.knownAlive, child.pid, child.everBound,
        contact.answerPid, w.onDashboard, w.dashboardPid, progress, S.Age(desk.asked, now),
        S.Age(paper.lastRead, now), paper.helper, paper.health, child.pid.Some?, S.Age(starts.last, now),
        paper.document.Some? && paper.document.value.pinDiffers && !paper.pinChecked,
        starts.attempts, S.Age(starts.first, now), FactsOf(paper.document));
    }

    /** Start a server, and forget every fact about the old one. */
    method Spawn(w: S.World)
      modifies this`starts, this`contact, this`child, this`port, this`desk
      ensures View() == S.ApplySpawn(old(View()), w)
    {
      starts := starts.(last := Some(w.clock.applied));
      contact := contact.(consecutiveAbsent := 0, lastHealthy := None, headerPid := None, statusPid := None,
                          knownAlive := None);
      child := child.(everBound := false);
      port := port.(listener := Listener.Unknown, readAt := None);
      desk := desk.(report := None);
      if starts.first.None? {
        starts := starts.(first := starts.last);
      }
      starts := starts.(attempts := SaturatingIncrement(starts.attempts));
      if w.spawned.Some? {
        child := child.(pid := w.spawned);
      }
    }

    method ApplyOne(e: Effect, o: Observation, w: S.World)
      modifies this
      ensures View() == S.ApplyOne(old(View()), e, o, w) && trace == old(trace)
    {
      match e {
        case Spawn => Spawn(w);
        case Rescue(knownPid, childPid, reason) =>
          desk := S.Desk(Some(RescueRequest(knownPid, childPid, reason, o.facts.serverStopWaitSeconds)), None,
                         Some(w.clock.applied));
        case Restatus =>
          Restatus(w.reread, w.clock.applied, w.clock.reread);
          if o.health.Absent? && !o.listenerFresh && paper.health.Ok? && port.listener.Free? {
            recheckNow := true;
          }
        case EnsureShell =>
          if paper.document.Some? && paper.document.value.pinDiffers {
            paper := paper.(pinChecked := true);
          }
        case _ =>
      }
    }

    /** Do everything a decision lists. */
    method Apply(effects: seq<Effect>, o: Observation, w: S.World)
      modifies this
      ensures View() == S.Apply(old(View()), effects, o, w) && trace == old(trace)
    {
      for i := 0 to |effects|
        invariant S.Apply(View(), effects[i..], o, w) == S.Apply(old(View()), effects, o, w)
        invariant trace == old(trace)
      {
        assert effects[i..][1..] == effects[i + 1..];
        ApplyOne(effects[i], o, w);
      }
    }

    /** How long the loop waits between two probes. */
    method TickSeconds() returns (seconds: real)
      ensures seconds == S.TickSeconds(View())
    {
      if state.Starting? || state.RestartPending? || state.Draining? {
        var interval := if paper.document.Some? then paper.document.value.healthCheckIntervalSeconds
                        else PAINT_TICK_SECONDS;
        return Max(interval, PAINT_TICK_SECONDS);
      }
      return Max(FactsOf(paper.document).tickSeconds, 1.0);
    }

    /** The buttons, the rescue's mail, and whether this tick is a fresh one. */
    method Poll(w: S.World) returns (isFresh: bool)
      modifies this
      ensures isFresh == S.FreshTick(old(View()), w)
      ensures View() == S.Polled(old(View()), w) && trace == old(trace)
    {
      TakePort(w);
      var rescued := PollRescue(w);
      var recheck := recheckNow;
      recheckNow := false;
      var tick := TickSeconds();
      isFresh := w.retry || rescued || recheck || w.clock.began - contact.lastProbe >= tick;
    }

    /** The bootstrap read, then on a fresh tick the helper and the probe. */
    method Sample(w: S.World) returns (isFresh: bool)
      modifies this
      ensures isFresh == S.FreshTick(old(View()), w)
      ensures View() == S.Probed(old(View()), w) && trace == old(trace) && state == old(state)
    {
      isFresh := Poll(w);
      if paper.document.None? && (paper.lastRead.None? || isFresh) && !paper.helper.Alive? {
        Restatus(w.boot, w.clock.bootAsked, w.clock.bootRead);
      }
      assert View() == S.Booted(old(View()), w);
      if isFresh {
        RefreshHelper(w);
        Probe(w);
      }
    }

    /** Move where the decision says, and do what it lists. */
    method Follow(decision: Next, o: Observation, w: S.World)
      modifies this
      ensures View() == S.Apply(S.Settle(old(View()), decision.state), decision.effects, o, w)
      ensures trace == old(trace)
    {
      state := decision.state;
      if !state.Rescuing? {
        desk := desk.(report := None);
      }
      Apply(decision.effects, o, w);
    }

    /** Sample the world, decide, move and act. */
    method Pass(w: S.World) returns (effects: seq<Effect>)
      modifies this
      ensures View() == S.Tick(old(View()), w) && trace == old(trace)
      ensures effects == S.Decision(old(View()), w).effects
    {
      hide S.Reap, S.Probed, S.Observed, Step, S.Apply, S.Settle, S.FreshTick;
      var isFresh := Sample(w);
      Reap(w);
      assert View() == S.Seen(old(View()), w) && state == old(state);
      var o := Observe(w, isFresh);
      assert o == S.Look(old(View()), w);
      var decision := Step(state, o, w.clock.observed - started);
      assert decision == S.Decision(old(View()), w);
      Follow(decision, o, w);
      effects := decision.effects;
    }

    /** One pass of the loop. Whatever it rescues, or starts outside
        `Rescuing`, it has just proved free; whatever it starts in `Rescuing`,
        a report licenses. */
    method Tick(w: S.World) returns (effects: seq<Effect>)
      requires Valid() && w.clock.Ordered() && Follows(trace, started, w)
      modifies this
      ensures Valid() && View() == S.Tick(old(View()), w)
      ensures trace == old(trace) + [Written(old(View()), w)]
      ensures effects == trace[|old(trace)|].effects
      ensures ActsWithReason(trace, |old(trace)|)
    {
      hide IsRun, S.Tick, S.Decision, ActsWithReason, Follows, Written;
      WrittenKeeps(View(), w);
      WrittenDecides(View(), w);
      ghost var t := Written(View(), w);
      RunGrows(trace, t, started);
      LastTickHasReason(trace + [t]);
      effects := Pass(w);
      trace := trace + [t];
    }
  }

  /** What tick `i` does is justified by the run before it. */
  ghost predicate ActsWithReason(r: seq<Moment>, i: nat)
    requires i < |r|
  {
    && (forall e :: e in r[i].effects && (e.Rescue? || (e.Spawn? && !r[i].before.state.Rescuing?)) ==>
          exists j, at :: Evidence.ProvenBy(r, i, j, at))
    && (Effect.Spawn in r[i].effects && r[i].before.state.Rescuing? ==>
          exists j, k :: Licence.LicensedBy(r, i, j, k))
  }

  lemma LastTickHasReason(r: seq<Moment>)
    requires IsRun(r) && |r| > 0
    ensures ActsWithReason(r, |r| - 1)
  {
    hide IsRun, Evidence.ProvenBy, Licence.LicensedBy;
    var i := |r| - 1;
    forall e | e in r[i].effects && (e.Rescue? || (e.Spawn? && !r[i].before.state.Rescuing?))
      ensures exists j, at :: Evidence.ProvenBy(r, i, j, at)
    {
      Evidence.ActsOnFreshEvidence(r, i, e);
    }
    if Effect.Spawn in r[i].effects && r[i].before.state.Rescuing? {
      Licence.StartIsLicensed(r, i);
    }
  }
}
