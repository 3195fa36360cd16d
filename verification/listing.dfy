/** The scheduler's SELECTs over the columns: which rows they return and what of them. */
module Listing {
  import opened Options
  import opened Schema
  import opened Machine

  // ----- ListDueSchedulesWithSha -----

  /** Enabled, with a fire time that has come. */
  predicate FireTimeHasCome(row: Schedule, at: Time) {
    row.enabled && row.nextFireAt.Some? && row.nextFireAt.value <= at
  }

  /** `due` holds these schedules and no others, each once with its columns, by fire time. */
  ghost predicate ListsDue(s: Schedules, at: Time, due: seq<Snap>) {
    && (forall i :: 0 <= i < |due| ==> due[i].sid in s && FireTimeHasCome(s[due[i].sid], at))
    && (forall sid :: sid in s && FireTimeHasCome(s[sid], at) ==> exists i :: 0 <= i < |due| && due[i].sid == sid)
    && (forall i :: 0 <= i < |due| ==>
          var row := s[due[i].sid];
          && Some(due[i].fire) == row.nextFireAt && due[i].policy == row.policy
          && due[i].cron == row.cron && due[i].timezone == row.timezone)
    && (forall i, j :: 0 <= i < j < |due| ==> due[i].sid != due[j].sid && due[i].fire <= due[j].fire)
  }

  lemma DueListIsDue(s: Schedules, at: Time, due: seq<Snap>)
    requires IsDueList(s, at, due)
    ensures ListsDue(s, at, due)
  {
    forall sid | sid in s && FireTimeHasCome(s[sid], at) ensures exists i :: 0 <= i < |due| && due[i].sid == sid {
      assert IsDue(s, at, sid);
    }
    forall i | 0 <= i < |due| ensures due[i].sid in s && FireTimeHasCome(s[due[i].sid], at) {
      assert IsDue(s, at, due[i].sid);
    }
  }

  // ----- dispatchPending's SELECT -----

  /** A run of the same schedule, created before, is pending or running. */
  ghost predicate OlderIsUnfinished(runs: Runs, r: Run) {
    exists o :: o in runs && runs[o].sid == r.sid && runs[o].createdAt < r.createdAt
                && (runs[o].status == Pending || runs[o].status == Running)
  }

  /** Waiting, on an enabled schedule; a scheduled run only under queue and with nothing unfinished before it. */
  ghost predicate MayGo(schedules: Schedules, runs: Runs, r: Run) {
    && r.status == Pending && r.sid in schedules && schedules[r.sid].enabled
    && (r.fireTime.Some? ==> schedules[r.sid].policy == Queue && !OlderIsUnfinished(runs, r))
  }

  ghost predicate ListsPending(schedules: Schedules, runs: Runs, jobs: seq<Job>) {
    && (forall i :: 0 <= i < |jobs| ==> jobs[i].rid in runs && MayGo(schedules, runs, runs[jobs[i].rid]))
    && (forall rid :: rid in runs && MayGo(schedules, runs, runs[rid]) ==>
          exists i :: 0 <= i < |jobs| && jobs[i].rid == rid)
    && (forall i :: 0 <= i < |jobs| ==>
          var r := runs[jobs[i].rid];
          jobs[i].sid == r.sid && jobs[i].fire == r.fireTime && jobs[i].created == r.createdAt)
    && (forall i, j :: 0 <= i < j < |jobs| ==> jobs[i].created < jobs[j].created)
  }

  lemma DrainableMayGo(schedules: Schedules, runs: Runs, rid: RunId)
    requires rid in runs
    ensures IsDrainable(schedules, runs, rid) <==> MayGo(schedules, runs, runs[rid])
  {
    assert OlderActive(runs, runs[rid]) <==> OlderIsUnfinished(runs, runs[rid]);
  }

  lemma DrainListIsPending(schedules: Schedules, runs: Runs, jobs: seq<Job>)
    requires IsDrainList(schedules, runs, jobs)
    ensures ListsPending(schedules, runs, jobs)
  {
    forall i | 0 <= i < |jobs| ensures jobs[i].rid in runs && MayGo(schedules, runs, runs[jobs[i].rid]) {
      assert IsDrainable(schedules, runs, jobs[i].rid);
      DrainableMayGo(schedules, runs, jobs[i].rid);
    }
    forall rid | rid in runs && MayGo(schedules, runs, runs[rid])
      ensures exists i :: 0 <= i < |jobs| && jobs[i].rid == rid
    {
      DrainableMayGo(schedules, runs, rid);
    }
  }

  // ----- ListRecentTerminalScheduledRuns -----

  /** A scheduled run of the window that is over. */
  predicate Ended(runs: Runs, sid: ScheduleId, since: Time, rid: RunId) {
    && rid in runs && runs[rid].sid == sid && runs[rid].fireTime.Some? && runs[rid].createdAt >= since
    && (runs[rid].status == Succeeded || runs[rid].status == PartialFailure || runs[rid].status == Failed)
  }

  /** The newest `n` scheduled runs of the window that are over have all failed. */
  ghost predicate LatestFailed(runs: Runs, sid: ScheduleId, since: Time, n: int, ids: seq<RunId>) {
    && |ids| == n
    && (forall i :: 0 <= i < |ids| ==> Ended(runs, sid, since, ids[i]) && runs[ids[i]].status == Failed)
    && (forall i, j :: 0 <= i < j < |ids| ==> ids[i] != ids[j])
    && (forall rid, i :: Ended(runs, sid, since, rid) && rid !in ids && 0 <= i < |ids| ==>
          runs[ids[i]].createdAt > runs[rid].createdAt)
  }

  lemma EligibleHasEnded(runs: Runs, sid: ScheduleId, since: Time, rid: RunId)
    ensures Eligible(runs, sid, since, rid) <==> Ended(runs, sid, since, rid)
  {
  }

  lemma {:induction false} AmongDistinct(some: seq<RunId>, all: seq<RunId>)
    requires forall i :: 0 <= i < |some| ==> some[i] in all
    requires forall i, j :: 0 <= i < j < |some| ==> some[i] != some[j]
    ensures |some| <= |all|
    decreases |some|
  {
    if some != [] {
      var last := some[|some| - 1];
      var k :| 0 <= k < |all| && all[k] == last;
      var rest := all[..k] + all[k + 1..];
      var front := some[..|some| - 1];
      forall i | 0 <= i < |front| ensures front[i] in rest {
        var j :| 0 <= j < |all| && all[j] == some[i];
        assert rest[if j < k then j else j - 1] == front[i];
      }
      AmongDistinct(front, rest);
    }
  }

  /** Lists of the newest are the same rows: what is in one and not the other is older than itself. */
  lemma LatestAreListed(runs: Runs, sid: ScheduleId, since: Time, n: int, ids: seq<RunId>, latest: seq<RunId>)
    requires IsNewest(runs, sid, since, n, ids) && LatestFailed(runs, sid, since, n, latest) && n >= 1
    ensures |ids| == n && forall i :: 0 <= i < |ids| ==> ids[i] in latest
  {
    if |ids| < n {
      forall k | 0 <= k < |latest| ensures latest[k] in ids { EligibleHasEnded(runs, sid, since, latest[k]); }
      AmongDistinct(latest, ids);
    }
    forall i | 0 <= i < |ids| ensures ids[i] in latest {
      if ids[i] !in latest {
        OneIsMissing(ids, latest, i);
        var k :| 0 <= k < |latest| && latest[k] !in ids;
        NotListed(runs, sid, since, n, ids, i, latest[k]);
        NotLatest(runs, sid, since, n, latest, k, ids[i]);
      }
    }
  }

  lemma NotListed(runs: Runs, sid: ScheduleId, since: Time, n: int, ids: seq<RunId>, i: nat, rid: RunId)
    requires IsNewest(runs, sid, since, n, ids) && i < |ids| && rid !in ids && Ended(runs, sid, since, rid)
    ensures ids[i] in runs && runs[ids[i]].createdAt > runs[rid].createdAt
  {
    EligibleHasEnded(runs, sid, since, rid);
  }

  lemma NotLatest(runs: Runs, sid: ScheduleId, since: Time, n: int, latest: seq<RunId>, k: nat, rid: RunId)
    requires LatestFailed(runs, sid, since, n, latest) && k < |latest| && rid !in latest
    requires Eligible(runs, sid, since, rid)
    ensures latest[k] in runs && runs[latest[k]].createdAt > runs[rid].createdAt
  {
    EligibleHasEnded(runs, sid, since, rid);
  }

  lemma OneIsMissing(ids: seq<RunId>, latest: seq<RunId>, i: nat)
    requires |ids| == |latest| && i < |ids| && ids[i] !in latest
    requires forall a, b :: 0 <= a < b < |latest| ==> latest[a] != latest[b]
    ensures exists k :: 0 <= k < |latest| && latest[k] !in ids
  {
    if forall k :: 0 <= k < |latest| ==> latest[k] in ids {
      var rest := ids[..i] + ids[i + 1..];
      forall k | 0 <= k < |latest| ensures latest[k] in rest {
        var j :| 0 <= j < |ids| && ids[j] == latest[k];
        assert rest[if j < i then j else j - 1] == latest[k];
      }
      AmongDistinct(latest, rest);
    }
  }

  /** The streak, over the rows: the listed runs are the newest, and they all failed. */
  lemma StreakIsLatestFailed(runs: Runs, sid: ScheduleId, since: Time, n: int, ids: seq<RunId>)
    requires IsNewest(runs, sid, since, n, ids) && n >= 1
    ensures StreakReached(runs, n, ids) <==> exists latest :: LatestFailed(runs, sid, since, n, latest)
  {
    forall rid ensures Eligible(runs, sid, since, rid) <==> Ended(runs, sid, since, rid) {
      EligibleHasEnded(runs, sid, since, rid);
    }
    if StreakReached(runs, n, ids) { assert LatestFailed(runs, sid, since, n, ids); }
    if latest :| LatestFailed(runs, sid, since, n, latest) {
      LatestAreListed(runs, sid, since, n, ids, latest);
    }
  }

  /** How many failures in a row a schedule is paused after: what its column says, or five. */
  predicate PausesAfter(sch: Schedule, n: int) {
    match sch.autoPauseAfter
    case None => n == 5
    case Some(after) => if after >= 1 then n == after else n == 5
  }

  lemma ThresholdIsTheColumn(sch: Schedule)
    ensures forall n :: n == Threshold(sch) <==> PausesAfter(sch, n)
  {
  }
}
