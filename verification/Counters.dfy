/** What the counters of a run count. */
module Counters {
  import opened Common
  import opened Controller
  import opened Grounds
  import opened StatusDocument
  import opened Sampler
  import opened Runs

  ghost predicate TracksCounts(r: seq<Moment>) {
    && (|r| > 0 ==> r[0].before.starts == Starts(0, None, None) && r[0].before.contact.consecutiveAbsent == 0)
    && (forall i :: 0 < i < |r| ==>
          && r[i].before.starts == StartsAfter(r[i - 1])
          && r[i].before.contact.consecutiveAbsent == ContactAfter(r[i - 1]).consecutiveAbsent)
    && (forall i :: 0 <= i < |r| ==>
          && r[i].look.health == ContactSeen(r[i]).health
          && r[i].look.startAttempts == StartsSeen(r[i]).attempts
          && r[i].look.sinceFirstStart == Age(StartsSeen(r[i]).first, r[i].world.clock.observed))
    && InOrder(r)
  }

  lemma RunTracksCounts(r: seq<Moment>)
    requires Tracked(r)
    ensures TracksCounts(r)
  {
    forall i | 0 < i < |r|
      ensures r[i].before.starts == StartsAfter(r[i - 1])
      ensures r[i].before.contact.consecutiveAbsent == ContactAfter(r[i - 1]).consecutiveAbsent
    {
      assert Leaves(r[i - 1], r[i].before);
    }
    forall i | 0 <= i < |r|
      ensures r[i].look.health == ContactSeen(r[i]).health
      ensures r[i].look.startAttempts == StartsSeen(r[i]).attempts
      ensures r[i].look.sinceFirstStart == Age(StartsSeen(r[i]).first, r[i].world.clock.observed)
    {
      assert Shows(r[i]);
    }
  }

  /** Starts during the first `n` ticks, since the last healthy observation. */
  function StartsSinceHealthy(r: seq<Moment>, n: nat): nat
    requires n <= |r|
  {
    if n == 0 then 0
    else
      (if r[n - 1].look.health.Healthy? then 0 else StartsSinceHealthy(r, n - 1))
      + (if r[n - 1].Spawns() then 1 else 0)
  }

  /** Silent probes of a health URL during the first `n` ticks, since the last
      answer or start. */
  function SilencesInARow(r: seq<Moment>, n: nat): nat
    requires n <= |r|
  {
    if n == 0 || r[n - 1].Spawns() || r[n - 1].Answers() then 0
    else SilencesInARow(r, n - 1) + (if r[n - 1].Silent() then 1 else 0)
  }

  lemma {:induction false} StartsAreHistory(r: seq<Moment>, n: nat)
    requires TracksCounts(r) && n < |r|
    ensures r[n].before.starts.attempts == Saturate(StartsSinceHealthy(r, n))
  {
    hide ContactAfter, ContactSeen, SilencesInARow, Age, InOrder;
    if n > 0 {
      var t := r[n - 1];
      StartsAreHistory(r, n - 1);
      assert r[n].before.starts == StartsAfter(t);
    }
  }

  /** What one tick does to the count of silences. */
  lemma SilenceIsCounted(t: Moment)
    ensures ContactAfter(t).consecutiveAbsent
            == if t.Spawns() || t.Answers() then 0
               else if t.Silent() then SaturatingIncrement(t.before.contact.consecutiveAbsent)
               else t.before.contact.consecutiveAbsent
  {
    hide StatusServerPid;
  }

  lemma {:induction false} SilencesAreHistory(r: seq<Moment>, n: nat)
    requires TracksCounts(r) && n < |r|
    ensures r[n].before.contact.consecutiveAbsent == Saturate(SilencesInARow(r, n))
  {
    hide StartsAfter, StartsSeen, ContactAfter, ContactSeen, Age, InOrder;
    if n > 0 {
      var t := r[n - 1];
      SilencesAreHistory(r, n - 1);
      SilenceIsCounted(t);
      assert r[n].before.contact.consecutiveAbsent == ContactAfter(t).consecutiveAbsent;
      CountSaturates(SilencesInARow(r, n - 1));
    }
  }

  lemma CountSaturates(n: nat)
    ensures SaturatingIncrement(Saturate(n)) == Saturate(n + 1) && Saturate(0) == 0
  {
  }

  /** In every run `start_attempts` is the number of starts since the last
      healthy observation, and `consecutive_absent` the number of silent probes
      since the last answer or start, both up to saturation. */
  lemma CountersCount(r: seq<Moment>, n: nat)
    requires IsRun(r) && n < |r|
    ensures r[n].before.starts.attempts == Saturate(StartsSinceHealthy(r, n))
    ensures r[n].before.contact.consecutiveAbsent == Saturate(SilencesInARow(r, n))
    ensures Spawn in r[n].effects <==> r[n].Spawns()
  {
    RunIsTracked(r);
    RunTracksCounts(r);
    StartsAreHistory(r, n);
    SilencesAreHistory(r, n);
    assert DoesWhatItLists(r[n]);
  }

  /** No healthy observation from tick `from` up to tick `to`. */
  ghost predicate Unhealthy(r: seq<Moment>, from: int, to: int) {
    forall k :: 0 <= from <= k < to <= |r| ==> !r[k].look.health.Healthy?
  }

  lemma {:induction false} EpisodeGrows(r: seq<Moment>, i: nat, j: nat)
    requires TracksCounts(r) && i <= j < |r| && Unhealthy(r, i + 1, j + 1)
    ensures StartsSeen(r[i]).attempts <= StartsSeen(r[j]).attempts
    ensures StartsSeen(r[i]).first.Some? ==> StartsSeen(r[j]).first == StartsSeen(r[i]).first
    decreases j
  {
    if i < j {
      EpisodeGrows(r, i, j - 1);
      assert r[j].before.starts == StartsAfter(r[j - 1]);
      assert !r[j].look.health.Healthy?;
    }
  }

  /** Within an episode -- while nothing healthy is seen -- and with the same
      start budget, a spent budget stays spent. */
  lemma SpentStaysSpent(r: seq<Moment>, i: nat, j: nat)
    requires IsRun(r) && i <= j < |r| && Unhealthy(r, i + 1, j + 1)
    requires Budget(r[i].look.facts) == Budget(r[j].look.facts)
    requires Spent(r[i].look)
    ensures Spent(r[j].look)
  {
    hide IsRun, Budget, Shows, Lawful, DoesWhatItLists, Leaves;
    RunIsTracked(r);
    RunTracksCounts(r);
    EpisodeGrows(r, i, j);
    assert r[i].world.clock.Ordered() && r[j].world.clock.Ordered();
    assert i < j ==> r[i].world.clock.reread <= r[j].world.clock.began;
  }
}
