/** What licenses a start that follows a rescue, and how many rescues run at
    once. */
module Licence {
  import opened Common
  import opened Controller
  import opened Grounds
  import opened ControllerLaws
  import opened RescueReport
  import opened Sampler
  import opened Runs

  /** How the rescue and the state move along a run. */
  ghost predicate TracksDesk(r: seq<Moment>) {
    && (|r| > 0 ==> r[0].before.desk == Desk(None, None, None) && r[0].before.state.Booting?)
    && (forall i :: 0 < i < |r| ==> r[i].before.desk == DeskAfter(r[i - 1]) && r[i].before.state == r[i - 1].next)
    && (forall i :: 0 <= i < |r| ==> DeskLaw(r[i]))
  }

  predicate DeskLaw(t: Moment) {
    && Moves(t.before.state, t.next, t.act, t.At())
    && (t.Rescues() ==> !t.before.state.Rescuing? && !ProgressOf(DeskSeen(t)).Running?)
    && (t.Spawns() && t.before.state.Rescuing? ==> t.look.isFresh && Licensed(ProgressOf(DeskSeen(t))))
  }

  lemma RunTracksDesk(r: seq<Moment>)
    requires Tracked(r)
    ensures TracksDesk(r)
  {
    forall i | 0 < i < |r|
      ensures r[i].before.desk == DeskAfter(r[i - 1]) && r[i].before.state == r[i - 1].next
    {
      assert Leaves(r[i - 1], r[i].before);
    }
    forall i | 0 <= i < |r|
      ensures DeskLaw(r[i])
    {
      assert Lawful(r[i]) && Shows(r[i]);
    }
  }

  /** Nothing is asked of the rescue command, and nothing started, from tick
      `from` up to tick `to`. */
  ghost predicate Quiet(r: seq<Moment>, from: int, to: int) {
    forall k :: 0 <= from <= k < to <= |r| ==> !r[k].Rescues() && !r[k].Spawns()
  }

  ghost predicate NoReports(r: seq<Moment>, from: int, to: int) {
    forall k :: 0 <= from <= k < to <= |r| ==> !r[k].Reports()
  }

  /** What the report of tick `k` made of the rescue asked for on tick `j`. */
  function Heard(request: RescueRequest, t: Moment): RescueOutcome {
    if t.world.mail.Delivered? then OutcomeOf(request, t.world.mail.run)
    else RescueOutcome(RescueResult.Failed, ProcessGone, None, None, [], [], 0.0)
  }

  /** The rescue asked for on tick `j` was heard of on tick `k`. */
  ghost predicate HeardAt(r: seq<Moment>, j: int, k: int, outcome: RescueOutcome) {
    && 0 <= j < k < |r|
    && r[j].Rescues()
    && r[k].Reports()
    && NoReports(r, j + 1, k)
    && outcome == Heard(RequestOf(r[j]), r[k])
  }

  /** The rescue in flight after `n` ticks is the last one asked for, and it has
      not been heard of. */
  ghost predicate InFlightSince(r: seq<Moment>, n: nat, j: int, request: RescueRequest) {
    && 0 <= j < n <= |r|
    && r[j].Rescues() && request == RequestOf(r[j])
    && NoReports(r, j + 1, n)
    && (forall k :: j < k < n ==> !r[k].Rescues())
  }

  /** A report on the desk after `n` ticks is about the last rescue asked for,
      and nothing was started since. */
  ghost predicate OnDeskSince(r: seq<Moment>, n: nat, j: int, k: int, outcome: RescueOutcome) {
    && HeardAt(r, j, k, outcome)
    && k < n <= |r|
    && Quiet(r, j + 1, n)
  }

  ghost predicate DeskIsHistory(r: seq<Moment>, n: nat, state: State, desk: Desk)
    requires n <= |r|
  {
    && (desk.inFlight.Some? ==> desk.report.None? && exists j :: InFlightSince(r, n, j, desk.inFlight.value))
    && (desk.report.Some? ==> state.Rescuing? && exists j, k :: OnDeskSince(r, n, j, k, desk.report.value))
    && (state.Rescuing? && desk.report.None? ==>
          desk.inFlight.Some? && exists j :: InFlightSince(r, n, j, desk.inFlight.value) && Quiet(r, j + 1, n))
  }

  /** The same facts, as tick `n` itself sees them once it has looked at its
      mail. */
  lemma MailIsHeard(r: seq<Moment>, n: nat)
    requires TracksDesk(r) && n < |r| && r[n].before.state.Rescuing?
    requires DeskIsHistory(r, n, r[n].before.state, r[n].before.desk)
    requires DeskSeen(r[n]).report.Some?
    ensures exists j, k :: HeardAt(r, j, k, DeskSeen(r[n]).report.value) && k <= n && Quiet(r, j + 1, n)
  {
    var t := r[n];
    if t.before.desk.report.Some? {
      var j, k :| OnDeskSince(r, n, j, k, t.before.desk.report.value);
      assert HeardAt(r, j, k, DeskSeen(t).report.value);
    } else {
      var j :| InFlightSince(r, n, j, t.before.desk.inFlight.value) && Quiet(r, j + 1, n);
      assert HeardAt(r, j, n, DeskSeen(t).report.value);
    }
  }

  lemma InFlightGrows(r: seq<Moment>, n: nat)
    requires TracksDesk(r) && 0 < n < |r| && r[n].before.desk.inFlight.Some?
    requires DeskIsHistory(r, n - 1, r[n - 1].before.state, r[n - 1].before.desk)
    ensures r[n].before.desk.report.None?
    ensures exists j :: InFlightSince(r, n, j, r[n].before.desk.inFlight.value)
  {
    var t, desk := r[n - 1], r[n].before.desk;
    assert desk == DeskAfter(t);
    if t.Rescues() {
      assert InFlightSince(r, n, n - 1, desk.inFlight.value);
    } else {
      var j :| InFlightSince(r, n - 1, j, t.before.desk.inFlight.value);
      assert InFlightSince(r, n, j, desk.inFlight.value);
    }
  }

  lemma ReportGrows(r: seq<Moment>, n: nat)
    requires TracksDesk(r) && 0 < n < |r| && r[n].before.desk.report.Some?
    requires DeskIsHistory(r, n - 1, r[n - 1].before.state, r[n - 1].before.desk)
    ensures r[n].before.state.Rescuing?
    ensures exists j, k :: OnDeskSince(r, n, j, k, r[n].before.desk.report.value)
  {
    hide HeardAt;
    var t, desk := r[n - 1], r[n].before.desk;
    assert DeskLaw(t) && desk == DeskAfter(t);
    MailIsHeard(r, n - 1);
    var j, k :| HeardAt(r, j, k, desk.report.value) && k <= n - 1 && Quiet(r, j + 1, n - 1);
    assert OnDeskSince(r, n, j, k, desk.report.value);
  }

  lemma InFlightGoesOn(r: seq<Moment>, m: nat, j: int, request: RescueRequest)
    requires m < |r| && InFlightSince(r, m, j, request) && Quiet(r, j + 1, m)
    requires !r[m].Rescues() && !r[m].Spawns() && !r[m].Reports()
    ensures InFlightSince(r, m + 1, j, request) && Quiet(r, j + 1, m + 1)
  {
    hide RequestOf;
  }

  lemma InFlightFrom(r: seq<Moment>, m: nat)
    requires m < |r| && r[m].Rescues()
    ensures InFlightSince(r, m + 1, m, RequestOf(r[m])) && Quiet(r, m + 1, m + 1)
  {
    hide RequestOf;
  }

  /** A tick that leaves the window waiting found it waiting, or asked. */
  lemma WaitingTick(t: Moment)
    requires DeskLaw(t) && t.next.Rescuing? && DeskAfter(t).report.None?
    requires t.before.desk.inFlight.Some? ==> t.before.desk.report.None?
    ensures !t.Rescues() ==>
              && t.before.state.Rescuing? && t.before.desk.report.None? && !t.Spawns() && !t.Reports()
              && DeskAfter(t).inFlight == t.before.desk.inFlight
    ensures t.Rescues() ==> DeskAfter(t).inFlight == Some(RequestOf(t))
  {
    hide RequestOf, OutcomeOf;
  }

  lemma WaitGrows(r: seq<Moment>, n: nat)
    requires TracksDesk(r) && 0 < n < |r| && r[n].before.state.Rescuing? && r[n].before.desk.report.None?
    requires DeskIsHistory(r, n - 1, r[n - 1].before.state, r[n - 1].before.desk)
    ensures r[n].before.desk.inFlight.Some?
    ensures exists j :: InFlightSince(r, n, j, r[n].before.desk.inFlight.value) && Quiet(r, j + 1, n)
  {
    hide OnDeskSince, HeardAt, Heard, InFlightSince, Quiet, DeskLaw, DeskAfter, RequestOf;
    var m: nat := n - 1;
    var t := r[m];
    assert DeskLaw(t) && r[n].before.desk == DeskAfter(t);
    WaitingTick(t);
    if t.Rescues() {
      InFlightFrom(r, m);
      assert InFlightSince(r, n, m, RequestOf(t)) && Quiet(r, m + 1, n);
    } else {
      var j :| InFlightSince(r, m, j, t.before.desk.inFlight.value) && Quiet(r, j + 1, m);
      InFlightGoesOn(r, m, j, t.before.desk.inFlight.value);
    }
  }

  lemma DeskHistoryGrows(r: seq<Moment>, n: nat)
    requires TracksDesk(r) && 0 < n < |r|
    requires DeskIsHistory(r, n - 1, r[n - 1].before.state, r[n - 1].before.desk)
    ensures DeskIsHistory(r, n, r[n].before.state, r[n].before.desk)
  {
    if r[n].before.desk.inFlight.Some? {
      InFlightGrows(r, n);
    }
    if r[n].before.desk.report.Some? {
      ReportGrows(r, n);
    } else if r[n].before.state.Rescuing? {
      WaitGrows(r, n);
    }
  }

  lemma {:induction false} DeskHistory(r: seq<Moment>, n: nat)
    requires TracksDesk(r) && n < |r|
    ensures DeskIsHistory(r, n, r[n].before.state, r[n].before.desk)
  {
    if n > 0 {
      DeskHistory(r, n - 1);
      DeskHistoryGrows(r, n);
    }
  }

  /** The rescue asked for on tick `j` reported on tick `k` that a server may be
      started, and neither a rescue nor a start came between `j` and `i`. */
  ghost predicate LicensedBy(r: seq<Moment>, i: nat, j: int, k: int)
    requires i < |r|
  {
    && 0 <= j < k <= i
    && r[j].Rescues()
    && r[k].Reports() && NoReports(r, j + 1, k)
    && r[k].world.mail.Delivered? && Licenses(r[k].world.mail.run)
    && Quiet(r, j + 1, i)
  }

  lemma ReportLicenses(r: seq<Moment>, i: nat)
    requires TracksDesk(r) && i < |r| && r[i].Spawns() && r[i].before.state.Rescuing?
    ensures exists j, k :: LicensedBy(r, i, j, k)
  {
    hide Moves, DeskIsHistory;
    assert DeskLaw(r[i]);
    DeskHistory(r, i);
    MailIsHeard(r, i);
    var outcome := DeskSeen(r[i]).report.value;
    var j, k :| HeardAt(r, j, k, outcome) && k <= i && Quiet(r, j + 1, i);
    if r[k].world.mail.Delivered? {
      OutcomeIsProven(RequestOf(r[j]), r[k].world.mail.run);
    }
    assert LicensedBy(r, i, j, k);
  }

  /** In every run, a start made in `Rescuing` consumes the report of the last
      rescue asked for; that report said the port is free, or that the command
      knows no rescues; and no other start came in between, so a rescue
      licenses at most one. */
  lemma StartIsLicensed(r: seq<Moment>, i: nat)
    requires IsRun(r) && i < |r| && Spawn in r[i].effects && r[i].before.state.Rescuing?
    ensures r[i].look.isFresh && exists j, k :: LicensedBy(r, i, j, k)
  {
    hide IsRun, LicensedBy;
    RunIsTracked(r);
    RunTracksDesk(r);
    assert DoesWhatItLists(r[i]) && DeskLaw(r[i]);
    ReportLicenses(r, i);
  }

  lemma {:induction false} StillInFlight(r: seq<Moment>, i: nat, n: nat)
    requires TracksDesk(r) && i < n < |r| && r[i].Rescues()
    ensures NoReports(r, i + 1, n) ==> r[n].before.desk.inFlight.Some? && r[n].before.desk.report.None?
    decreases n
  {
    var t := r[n - 1];
    assert r[n].before.desk == DeskAfter(t);
    if i < n - 1 {
      StillInFlight(r, i, n - 1);
    }
  }

  /** At most one rescue is ever in flight: between two of them the first
      reports. */
  lemma OneRescueAtATime(r: seq<Moment>, i: nat, j: nat)
    requires IsRun(r) && i < j < |r| && r[i].Rescues() && r[j].Rescues()
    ensures exists k :: i < k <= j && r[k].Reports()
  {
    hide IsRun, Tracked;
    RunIsTracked(r);
    RunTracksDesk(r);
    StillInFlight(r, i, j);
    assert DeskLaw(r[j]);
    assert r[j].Reports() || !NoReports(r, i + 1, j);
  }
}
