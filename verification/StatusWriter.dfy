/** The status command, which looks at the machine and writes the document, and
    the window, which reads it: what is read is what the machine showed. */
module StatusWriter {
  import opened Common
  import opened Controller
  import opened StatusDocument

  /** What the server's answer to the command's own probe carried. */
  datatype Reply = Reply(ok: bool, draining: bool, starting: bool)

  datatype Owner = Owner(pid: Option<int>, name: string)

  /** What is known of the owner's process; empty when nothing is. */
  datatype Process = Process(image: string, command: string, isMcc: bool)

  /** Everything the command asks the machine, each question once: the port is
      tried twice, and its owner looked up twice. */
  datatype Machine = Machine(
    reply: Reply,
    bindable: bool,
    heldByMcc: bool,
    bindableAgain: bool,
    owner: Option<Owner>,
    process: Process)

  // ---- the command ----------------------------------------------------------

  /** One probe in one word. Without the flag an old window is told only words it
      knows. */
  function Presence(w: Machine, presenceV2: bool): string {
    if w.reply.ok then "healthy"
    else if presenceV2 && w.reply.draining then "draining"
    else if w.reply.starting then (if presenceV2 then "starting" else "free")
    else if w.bindable then "free"
    else if presenceV2 && w.heldByMcc then "mcc-stale"
    else "foreign"
  }

  function Identified(kind: string, owner: Option<Owner>): HolderEntry {
    HolderEntry(kind, if owner.Some? then owner.value.pid else None, Some(true))
  }

  function PortHolder(w: Machine, presence: string): HolderEntry {
    match presence
    case "healthy" => Identified("ours_healthy", w.owner)
    case "starting" => Identified("ours_starting", w.owner)
    case "draining" => Identified("ours_draining", w.owner)
    case _ =>
      if presence == "free" || w.bindableAgain then HolderEntry("absent", None, Some(true))
      else if w.owner.None? || w.owner.value.pid.None? then HolderEntry("foreign", None, Some(false))
      else if w.process.isMcc then HolderEntry("ours_stale", w.owner.value.pid, Some(true))
      else
        HolderEntry("foreign", w.owner.value.pid,
                    Some(w.process.image != "" || w.owner.value.name != "" || w.process.command != ""))
  }

  function ServerPidOf(holder: HolderEntry): Option<int> {
    if "ours_" <= holder.kind then holder.pid else None
  }

  /** `settings` with what the machine showed written into it. */
  function Written(settings: Document, w: Machine, presenceV2: bool): Document {
    var presence := Presence(w, presenceV2);
    var holder := PortHolder(w, presence);
    settings.(serverPresence := presence, holder := Some(holder), serverPid := ServerPidOf(holder))
  }

  // ---- read back --------------------------------------------------------------

  /** A server of ours answered the command's probe, in whatever stage. */
  predicate Answered(w: Machine) {
    w.reply.ok || w.reply.draining || w.reply.starting
  }

  predicate Bound(w: Machine) {
    !w.bindable && !w.bindableAgain
  }

  function OwnerPid(w: Machine): Option<int> {
    match w.owner
    case Some(Owner(pid, _)) => pid
    case None => None
  }

  /** The owner has a pid, and something is known of its process. */
  predicate Recognised(w: Machine) {
    && OwnerPid(w).Some?
    && (w.process.isMcc || w.process.image != "" || w.process.command != "" || w.owner.value.name != "")
  }

  lemma KindsDiffer()
    ensures "ours_" <= "ours_healthy" && "ours_" <= "ours_starting" && "ours_" <= "ours_draining"
    ensures "ours_" <= "ours_stale" && !("ours_" <= "absent") && !("ours_" <= "foreign")
  {
    assert "absent"[0] == 'a' && "foreign"[0] == 'f' && "ours_"[0] == 'o';
  }

  lemma PresenceOf(w: Machine)
    ensures var p := Presence(w, true);
            && (p == "healthy" <==> w.reply.ok)
            && (p == "draining" <==> !w.reply.ok && w.reply.draining)
            && (p == "starting" <==> !w.reply.ok && !w.reply.draining && w.reply.starting)
            && (p == "free" <==> !Answered(w) && w.bindable)
  {
  }

  /** The window asks with the flag. It reads the port as free exactly when no
      server of ours answered and the port could be bound; as held by My Claude
      Code, under the owner's pid, exactly when one answered or the owner's process
      is one; as a stranger's exactly when the owner's process is known and is not;
      and a lookup that failed as unknown. */
  lemma WindowReadsTheListener(settings: Document, w: Machine)
    ensures var listener := ListenerFrom(Written(settings, w, true));
            && (listener.Free? <==> !Answered(w) && !Bound(w))
            && (forall pid :: listener == Held(pid, Some(true))
                              <==> pid == OwnerPid(w)
                                   && (Answered(w) || (Bound(w) && pid.Some? && w.process.isMcc)))
            && (forall pid :: listener == Held(pid, Some(false))
                              <==> !Answered(w) && Bound(w) && Recognised(w) && !w.process.isMcc && pid == OwnerPid(w))
            && (listener == Listener.Unknown <==> !Answered(w) && Bound(w) && !Recognised(w))
  {
    PresenceOf(w);
  }

  /** The holder's name follows the answer, and without one the owner. */
  lemma WindowReadsTheHolder(settings: Document, w: Machine)
    ensures HolderFrom(Written(settings, w, true))
            == if w.reply.ok then OursHealthy
               else if w.reply.draining then OursDraining
               else if w.reply.starting then OursStarting
               else if !Bound(w) then Holder.Absent
               else if OwnerPid(w).Some? && w.process.isMcc then OursStale
               else Holder.Foreign
  {
    PresenceOf(w);
  }

  /** The pid taken for the server's is the owner's, when the port is held by My
      Claude Code, and none otherwise -- with its own key or, from a command that
      did not write one, by the holder's. */
  lemma WindowReadsThePid(settings: Document, w: Machine)
    ensures var doc := Written(settings, w, true);
            && StatusServerPid(doc)
               == (if Answered(w) || (Bound(w) && w.process.isMcc) then OwnerPid(w) else None)
            && StatusServerPid(doc.(serverPid := None)) == StatusServerPid(doc)
  {
    KindsDiffer();
    PresenceOf(w);
  }

  /** Without the flag a server that is starting reads as a free port: that is
      what the flag is for. */
  lemma FlagTellsAStartFromAFreePort(settings: Document, w: Machine)
    ensures ListenerFrom(Written(settings, w, false)).Free?
            <==> !w.reply.ok && (w.reply.starting || w.bindable || w.bindableAgain)
    ensures ListenerFrom(Written(settings, w, false)).Free? && !ListenerFrom(Written(settings, w, true)).Free?
            <==> !w.reply.ok && Answered(w) && (w.reply.starting || !Bound(w))
  {
    PresenceOf(w);
  }

  // ---- an older command ---------------------------------------------------------

  /** The kind that says what a presence says; a word that says nothing has none. */
  function KindOfPresence(presence: string): string {
    match presence
    case "free" => "absent"
    case "healthy" => "ours_healthy"
    case "starting" => "ours_starting"
    case "draining" => "ours_draining"
    case "mcc-stale" => "ours_stale"
    case "foreign" => "foreign"
    case _ => "?"
  }

  /** A document without a holder reads as the one whose holder says the same,
      under the document's own pid for the server. */
  lemma PresenceReadsAsItsKind(d: Document)
    requires d.holder.None?
    ensures var pid := if d.serverPresence == "foreign" then None else d.serverPid;
            var same := d.(holder := Some(HolderEntry(KindOfPresence(d.serverPresence), pid, None)));
            HolderFrom(d) == HolderFrom(same) && ListenerFrom(d) == ListenerFrom(same)
  {
  }

  /** A kind the window does not know says nothing about the port. */
  lemma UnknownWordsSayNothing(d: Document)
    requires d.holder.Some?
    requires d.holder.value.kind
             !in ["absent", "ours_healthy", "ours_starting", "ours_draining", "ours_stale", "foreign"]
    ensures HolderFrom(d) == Holder.Unknown && ListenerFrom(d) == Listener.Unknown
  {
    var kinds := ["absent", "ours_healthy", "ours_starting", "ours_draining", "ours_stale", "foreign"];
    assert kinds[0] in kinds && kinds[1] in kinds && kinds[2] in kinds;
    assert kinds[3] in kinds && kinds[4] in kinds && kinds[5] in kinds;
  }

  // ---- the settings -------------------------------------------------------------

  /** Settings that mean something; the settings module allows no others. */
  predicate Usable(f: Facts) {
    && f.tickSeconds > 0.0 && f.startBackoffSeconds > 0.0 && f.startTimeoutSeconds > 0.0
    && f.foreignGraceSeconds >= 0.0 && f.busyGraceSeconds >= 0.0 && f.reconnectRestatusSeconds > 0.0
    && f.healthFailureThreshold >= 1 && f.serverStopWaitSeconds >= 0.0
  }

  function WithSettings(d: Document, f: Facts): Document {
    d.(serverMode := f.serverMode,
       tickSeconds := Some(f.tickSeconds),
       startBackoffSeconds := Some(f.startBackoffSeconds),
       foreignGraceSeconds := Some(f.foreignGraceSeconds),
       busyGraceSeconds := Some(f.busyGraceSeconds),
       startTimeoutSeconds := f.startTimeoutSeconds,
       serverStartRetries := f.serverStartRetries,
       healthFailureThreshold := f.healthFailureThreshold,
       reconnectRestatusSeconds := f.reconnectRestatusSeconds,
       serverStopWaitSeconds := Some(f.serverStopWaitSeconds))
  }

  /** Usable settings are read back as they were written, whatever the machine
      shows and with or without the flag. */
  lemma SettingsAreKept(d: Document, f: Facts, w: Machine, presenceV2: bool)
    requires Usable(f)
    ensures FactsOf(Some(Written(WithSettings(d, f), w, presenceV2))) == f
  {
  }

  /** Whatever the rest of the document says, each key is read alone: by its value
      when that is usable, and by its own default when it is not, or not there. */
  lemma EachSettingIsReadAlone(d: Document, v: real, n: U32, mode: string)
    ensures var f := FactsOf(Some(d));
            && FactsOf(Some(d.(tickSeconds := Some(v)))) == f.(tickSeconds := if v > 0.0 then v else 10.0)
            && FactsOf(Some(d.(startBackoffSeconds := Some(v))))
               == f.(startBackoffSeconds := if v > 0.0 then v else 10.0)
            && FactsOf(Some(d.(startTimeoutSeconds := v))) == f.(startTimeoutSeconds := if v > 0.0 then v else 15.0)
            && FactsOf(Some(d.(reconnectRestatusSeconds := v)))
               == f.(reconnectRestatusSeconds := if v > 0.0 then v else 30.0)
            && FactsOf(Some(d.(foreignGraceSeconds := Some(v))))
               == f.(foreignGraceSeconds := if v >= 0.0 then v else 45.0)
            && FactsOf(Some(d.(busyGraceSeconds := Some(v)))) == f.(busyGraceSeconds := if v >= 0.0 then v else 15.0)
            && FactsOf(Some(d.(serverStopWaitSeconds := Some(v))))
               == f.(serverStopWaitSeconds := if v >= 0.0 then v else 24.0)
            && FactsOf(Some(d.(healthFailureThreshold := n))) == f.(healthFailureThreshold := if n == 0 then 3 else n)
            && FactsOf(Some(d.(serverStartRetries := n))) == f.(serverStartRetries := n)
            && FactsOf(Some(d.(serverMode := mode))) == f.(serverMode := mode)
    ensures var f := FactsOf(Some(d));
            && FactsOf(Some(d.(tickSeconds := None))) == f.(tickSeconds := 10.0)
            && FactsOf(Some(d.(startBackoffSeconds := None))) == f.(startBackoffSeconds := 10.0)
            && FactsOf(Some(d.(foreignGraceSeconds := None))) == f.(foreignGraceSeconds := 45.0)
            && FactsOf(Some(d.(busyGraceSeconds := None))) == f.(busyGraceSeconds := 15.0)
            && FactsOf(Some(d.(serverStopWaitSeconds := None))) == f.(serverStopWaitSeconds := 24.0)
  {
  }

  /** A window that has read nothing goes by an empty document in spawn mode with
      two retries. */
  lemma NothingReadIsTheDefaults(d: Document, f: Facts)
    requires d == WithSettings(d, f) && f == Facts("spawn", 10.0, 10.0, 45.0, 15.0, 2, 3, 15.0, 30.0, 24.0)
    ensures FactsOf(None) == FactsOf(Some(d))
  {
  }
}
