/** How often the window looks: the exact ticks of a run that sample the world
    anew. */
module Cadence {
  import opened StatusDocument
  import opened Runs

  ghost predicate TracksProbes(r: seq<Moment>) {
    && (|r| > 0 ==> r[0].before.contact.lastProbe == r[0].before.started - 3600.0)
    && (forall i :: 0 < i < |r| ==> r[i].before.contact == ContactAfter(r[i - 1]))
    && (forall i :: 0 <= i < |r| ==> Samples(r[i]))
    && InOrder(r)
  }

  lemma RunTracksProbes(r: seq<Moment>)
    requires Tracked(r)
    ensures TracksProbes(r)
  {
    hide ContactAfter, Samples, Lawful, ShowsPaper, InOrder;
    forall i | 0 < i < |r|
      ensures r[i].before.contact == ContactAfter(r[i - 1])
    {
      assert Leaves(r[i - 1], r[i].before);
    }
    forall i | 0 <= i < |r|
      ensures Samples(r[i])
    {
      assert Shows(r[i]);
    }
  }

  /** When the last fresh one of the first `n` ticks asked its probe; before any,
      an hour before the window opened. */
  function LastLook(r: seq<Moment>, n: nat): real
    requires 0 < |r| && n <= |r|
  {
    if n == 0 then r[0].before.started - 3600.0
    else if r[n - 1].look.isFresh then r[n - 1].world.clock.probeAsked
    else LastLook(r, n - 1)
  }

  lemma ProbeIsStamped(t: Moment)
    ensures ContactAfter(t).lastProbe
            == if t.look.isFresh then t.world.clock.probeAsked else t.before.contact.lastProbe
  {
    hide StatusServerPid;
  }

  lemma {:induction false} LastLookIsRemembered(r: seq<Moment>, n: nat)
    requires TracksProbes(r) && n < |r|
    ensures r[n].before.contact.lastProbe == LastLook(r, n)
  {
    hide ContactAfter, Samples, InOrder;
    if n > 0 {
      LastLookIsRemembered(r, n - 1);
      ProbeIsStamped(r[n - 1]);
      assert r[n].before.contact == ContactAfter(r[n - 1]);
    }
  }

  /** In every run a tick samples the world anew exactly when a button, a report
      or the tick before asks for it, or the cadence of its settings and state has
      passed since the last tick that did. */
  lemma LooksExactlyWhenDue(r: seq<Moment>, i: nat)
    requires IsRun(r) && i < |r|
    ensures r[i].look.isFresh
            <==> Forced(r[i]) || r[i].world.clock.began - LastLook(r, i) >= ProbeInterval(r[i].before)
  {
    hide IsRun, Tracked, ProbeInterval, InOrder, Forced;
    RunIsTracked(r);
    RunTracksProbes(r);
    LastLookIsRemembered(r, i);
    assert Samples(r[i]);
  }

  /** The first tick of a window always looks. */
  lemma FirstTickLooks(r: seq<Moment>)
    requires IsRun(r) && |r| > 0
    ensures r[0].look.isFresh
  {
    hide IsRun, Tracked, FactsOf;
    RunIsTracked(r);
    FirstIsDue(r);
    LooksExactlyWhenDue(r, 0);
  }

  lemma FirstIsDue(r: seq<Moment>)
    requires Tracked(r) && |r| > 0
    ensures r[0].world.clock.began - LastLook(r, 0) >= ProbeInterval(r[0].before)
  {
    hide Lawful, Shows, Leaves, DoesWhatItLists, InOrder;
  }
}
