/** Reading what a rescue run came back as. A report that could not be decoded
    is `Unreadable`; free text is dropped. */
module RescueReport {
  import opened Common
  import opened Controller

  datatype ReportServer = ReportServer(pids: seq<int>, exitedByItself: bool)

  datatype Report = Report(
    outcome: string,
    servers: seq<ReportServer>,
    leftAlone: seq<seq<int>>,
    stopWaitSeconds: Option<real>)

  datatype RescueRun = Printed(report: Report) | PrintedJunk | Unsupported | Failed

  datatype RescueRequest = RescueRequest(
    knownPid: Option<int>,
    childPid: Option<int>,
    reason: DeadReason,
    stopWaitSeconds: real)

  function StoppedServers(servers: seq<ReportServer>): seq<StoppedServer> {
    if servers == [] then []
    else
      (if servers[0].pids == [] then [] else [StoppedServer(servers[0].pids, servers[0].exitedByItself)])
      + StoppedServers(servers[1..])
  }

  function Flatten(groups: seq<seq<int>>): seq<int> {
    if groups == [] then [] else groups[0] + Flatten(groups[1..])
  }

  function OutcomeOf(request: RescueRequest, run: RescueRun): RescueOutcome {
    var base := RescueOutcome(RescueResult.Failed, request.reason, request.knownPid, request.childPid,
                              [], [], request.stopWaitSeconds);
    match run
    case Unsupported => base.(result := RescueResult.Unsupported)
    case Failed => base
    case PrintedJunk => base
    case Printed(report) =>
      base.(
        result := if report.outcome == "port_free" then PortFree
                  else if report.outcome == "refused" then Refused
                  else RescueResult.Failed,
        servers := StoppedServers(report.servers),
        leftAlone := Flatten(report.leftAlone),
        stopWaitSeconds := if report.stopWaitSeconds.Some? && report.stopWaitSeconds.value >= 0.0
                           then report.stopWaitSeconds.value else request.stopWaitSeconds)
  }

  /** Whether a run lets the window start a server. */
  predicate Licenses(run: RescueRun) {
    run.Unsupported? || (run.Printed? && run.report.outcome == "port_free")
  }

  function PidsOf(servers: seq<StoppedServer>): seq<int> {
    if servers == [] then [] else servers[0].pids + PidsOf(servers[1..])
  }

  function ReportedPids(servers: seq<ReportServer>): seq<int> {
    if servers == [] then [] else servers[0].pids + ReportedPids(servers[1..])
  }

  lemma {:induction false} NoPidIsLost(servers: seq<ReportServer>)
    ensures PidsOf(StoppedServers(servers)) == ReportedPids(servers)
    ensures forall s :: s in StoppedServers(servers) ==> s.pids != []
  {
    if servers != [] {
      NoPidIsLost(servers[1..]);
      var rest := StoppedServers(servers[1..]);
      if servers[0].pids != [] {
        var first := StoppedServer(servers[0].pids, servers[0].exitedByItself);
        assert ([first] + rest)[1..] == rest;
      } else {
        assert [] + rest == rest;
      }
    }
  }

  /** Whatever the command printed, only a readable report that says
      `port_free` reads as a free port, only one that says `refused` as refused,
      and only a command too old to know rescues as unsupported; the request's
      reason and pids always survive, and its wait unless the report names one;
      and every pid the report stopped is kept, once and in order. */
  lemma OutcomeIsProven(request: RescueRequest, run: RescueRun)
    ensures var o := OutcomeOf(request, run);
            && (o.result.PortFree? || o.result.Unsupported? <==> Licenses(run))
            && (o.result.PortFree? ==> run.Printed?)
            && (o.result.Refused? <==> run.Printed? && run.report.outcome == "refused")
            && o.reason == request.reason && o.knownPid == request.knownPid && o.childPid == request.childPid
            && PidsOf(o.servers) == (if run.Printed? then ReportedPids(run.report.servers) else [])
            && (forall wait :: wait >= 0.0 && run.Printed? && run.report.stopWaitSeconds == Some(wait) ==>
                  o.stopWaitSeconds == wait)
            && ((run.Printed? && run.report.stopWaitSeconds.Some? ==> run.report.stopWaitSeconds.value < 0.0) ==>
                  o.stopWaitSeconds == request.stopWaitSeconds)
            && (!run.Printed? ==> o.servers == [] && o.leftAlone == [])
  {
    if run.Printed? {
      NoPidIsLost(run.report.servers);
    }
  }

  lemma {:induction false} FlattenSnoc(groups: seq<seq<int>>, last: seq<int>)
    ensures Flatten(groups + [last]) == Flatten(groups) + last
  {
    if groups == [] {
      assert groups + [last] == [last];
    } else {
      FlattenSnoc(groups[1..], last);
      assert (groups + [last])[1..] == groups[1..] + [last];
    }
  }

  lemma {:induction false} StoppedSnoc(servers: seq<ReportServer>, last: ReportServer)
    ensures StoppedServers(servers + [last])
            == StoppedServers(servers)
               + (if last.pids == [] then [] else [StoppedServer(last.pids, last.exitedByItself)])
  {
    if servers == [] {
      assert servers + [last] == [last];
    } else {
      StoppedSnoc(servers[1..], last);
      assert (servers + [last])[1..] == servers[1..] + [last];
    }
  }

  /** A report is read as it grows: one more stopped server adds that server, with
      the way it ended, unless it names no process; one more process group left
      alone adds its pids; and each leaves all the rest as it was. */
  lemma ReportGrows(request: RescueRequest, report: Report, server: ReportServer, left: seq<int>)
    ensures var o := OutcomeOf(request, Printed(report));
            && OutcomeOf(request, Printed(report.(servers := report.servers + [server])))
               == o.(servers := o.servers + (if server.pids == [] then []
                                             else [StoppedServer(server.pids, server.exitedByItself)]))
            && OutcomeOf(request, Printed(report.(leftAlone := report.leftAlone + [left])))
               == o.(leftAlone := o.leftAlone + left)
    ensures OutcomeOf(request, Printed(report.(servers := [], leftAlone := []))).servers == []
    ensures OutcomeOf(request, Printed(report.(servers := [], leftAlone := []))).leftAlone == []
  {
    StoppedSnoc(report.servers, server);
    FlattenSnoc(report.leftAlone, left);
  }
}
