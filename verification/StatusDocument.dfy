/** What the window reads out of a parsed status document: the port's holder,
    the server's pid and the settings, with the defaults for a document that
    does not carry them. */
module StatusDocument {
  import opened Common
  import opened Controller

  datatype HolderEntry = HolderEntry(kind: string, pid: Option<int>, identified: Option<bool>)

  datatype Document = Document(
    healthUrl: string,
    serverPresence: string,
    serverPid: Option<int>,
    holder: Option<HolderEntry>,
    serverMode: string,
    healthCheckIntervalSeconds: real,
    tickSeconds: Option<real>,
    startBackoffSeconds: Option<real>,
    foreignGraceSeconds: Option<real>,
    busyGraceSeconds: Option<real>,
    startTimeoutSeconds: real,
    serverStartRetries: U32,
    healthFailureThreshold: U32,
    reconnectRestatusSeconds: real,
    serverStopWaitSeconds: Option<real>,
    /** Whether this document pins another release of the window. */
    pinDiffers: bool)

  const PAINT_TICK_SECONDS := 1.0

  function HolderFrom(d: Document): Holder {
    if d.holder.Some? then
      match d.holder.value.kind
      case "absent" => Holder.Absent
      case "ours_healthy" => OursHealthy
      case "ours_starting" => OursStarting
      case "ours_draining" => OursDraining
      case "ours_stale" => OursStale
      case "foreign" => Holder.Foreign
      case _ => Holder.Unknown
    else
      match d.serverPresence
      case "free" => Holder.Absent
      case "healthy" => OursHealthy
      case "starting" => OursStarting
      case "draining" => OursDraining
      case "mcc-stale" => OursStale
      case "foreign" => Holder.Foreign
      case _ => Holder.Unknown
  }

  /** The OS's answer about the listening socket. */
  function ListenerFrom(d: Document): Listener {
    if d.holder.Some? then
      var holder := d.holder.value;
      if holder.kind == "absent" then Listener.Free
      else if holder.kind in ["ours_healthy", "ours_starting", "ours_draining", "ours_stale"] then
        Held(holder.pid, Some(true))
      else if holder.kind == "foreign" && holder.identified == Some(false) then Listener.Unknown
      else if holder.kind == "foreign" then Held(holder.pid, Some(false))
      else Listener.Unknown
    else if d.serverPresence == "free" then Listener.Free
    else if d.serverPresence in ["healthy", "starting", "draining", "mcc-stale"] then
      Held(d.serverPid, Some(true))
    else if d.serverPresence == "foreign" then Held(None, Some(false))
    else Listener.Unknown
  }

  /** The document's own pid for the server, never a stranger's. */
  function StatusServerPid(d: Document): Option<int> {
    if d.serverPid.Some? then d.serverPid
    else if d.holder.Some? && "ours_" <= d.holder.value.kind then d.holder.value.pid
    else None
  }

  /** The value when it is positive, else the default. */
  function PositiveOr(value: Option<real>, default: real): real {
    if value.Some? && value.value > 0.0 then value.value else default
  }

  function NonNegativeOr(value: Option<real>, default: real): real {
    if value.Some? && value.value >= 0.0 then value.value else default
  }

  function DefaultFacts(): Facts {
    Facts("spawn", 10.0, 10.0, 45.0, 15.0, 2, 3, 15.0, 30.0, 24.0)
  }

  function FactsOf(status: Option<Document>): Facts {
    if status.None? then DefaultFacts()
    else
      var d := status.value;
      Facts(
        d.serverMode,
        PositiveOr(d.tickSeconds, 10.0),
        PositiveOr(d.startBackoffSeconds, 10.0),
        NonNegativeOr(d.foreignGraceSeconds, 45.0),
        PositiveOr(Some(d.startTimeoutSeconds), 15.0),
        d.serverStartRetries,
        if d.healthFailureThreshold > 0 then d.healthFailureThreshold else 3,
        NonNegativeOr(d.busyGraceSeconds, 15.0),
        PositiveOr(Some(d.reconnectRestatusSeconds), 30.0),
        NonNegativeOr(d.serverStopWaitSeconds, 24.0))
  }

  /** A free port comes only from an OS answer that says so; a lookup that
      failed is never free and never a stranger; and a listener called foreign
      names no pid that is later taken for the server's. */
  lemma OnlyTheOsSaysFree(d: Document)
    ensures ListenerFrom(d).Free? <==> HolderFrom(d).Absent?
    ensures ListenerFrom(d) == Listener.Unknown <==>
              HolderFrom(d).Unknown?
              || (HolderFrom(d).Foreign? && d.holder.Some? && d.holder.value.identified == Some(false))
    ensures d.serverPid.None? && HolderFrom(d).Foreign? ==> StatusServerPid(d).None?
    ensures d.holder.Some? && d.serverPid.None? && StatusServerPid(d).Some? && ListenerFrom(d).Held? ==>
              ListenerFrom(d) == Held(StatusServerPid(d), Some(true))
  {
    if d.holder.Some? && d.holder.value.kind == "foreign" {
      assert "foreign"[0] == 'f' && "ours_"[0] == 'o';
    }
  }
}
