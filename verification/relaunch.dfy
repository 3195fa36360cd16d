/** Which runs can still be launched, and so which can be launched again. */
module Relaunch {
  import opened Options
  import opened Schema
  import opened Machine
  import opened Lifecycle
  import opened Ledger
  import opened Ranking

  // ----- two more things that always hold -----

  ghost predicate Exposes(log: Log, rid: RunId) {
    exists t :: t in log.exposed && t.rid == rid
  }

  /** A run handed to the dispatcher was handed over with a token. */
  ghost predicate HandedOut(log: Log) {
    forall rid :: rid in log.attempted ==> Exposes(log, rid)
  }

  ghost predicate Unstarted(runs: Runs) {
    forall rid :: rid in runs && runs[rid].status == Pending ==> runs[rid].startedAt.None?
  }

  ghost predicate LaunchInv(s: State) {
    LedgerInv(s) && EndInv(s) && HandedOut(s.log) && Unstarted(s.db.runs)
  }

  lemma MoveHandsOut(db: Db, ctl: Control, log: Log, at: Time, m: Move)
    requires MoveGuard(db, ctl, log, at, m) && TokensOk(ctl, log) && HandedOut(log)
    ensures HandedOut(MoveLog(db, ctl, log, at, m))
  {
    var more := MoveLog(db, ctl, log, at, m);
    forall rid | rid in more.attempted ensures Exposes(more, rid) {
      if rid in log.attempted {
        var t :| t in log.exposed && t.rid == rid;
        assert t in more.exposed;
      } else {
        assert ctl.Launch? && ctl.tok in more.exposed && ctl.tok.rid == rid;
      }
    }
  }

  lemma MoveUnstarted(db: Db, ctl: Control, log: Log, at: Time, m: Move)
    requires MoveGuard(db, ctl, log, at, m) && Unstarted(db.runs)
    ensures Unstarted(MoveDb(db, ctl, log, at, m).runs)
  {
  }

  lemma EventUnstarted(db: Db, log: Log, at: Time, e: Event)
    requires EventGuard(db, log, at, e) && Unstarted(db.runs)
    ensures Unstarted(EventDb(db, log, at, e).runs)
  {
  }

  lemma LaunchInvKept(s: State, step: Step)
    requires LaunchInv(s) && Guard(s, step)
    ensures LaunchInv(Do(s, step))
  {
    LedgerKept(s, step);
    EndInvKept(s, step);
    match step.act {
      case Loop(m) =>
        MoveHandsOut(s.db, s.ctl, s.log, step.at, m);
        MoveUnstarted(s.db, s.ctl, s.log, step.at, m);
      case Env(e) => EventUnstarted(s.db, s.log, step.at, e);
    }
  }

  lemma {:induction false} LaunchInvAlways(s: State, steps: seq<Step>)
    requires LaunchInv(s) && Legal(s, steps)
    ensures LaunchInv(Exec(s, steps))
    decreases |steps|
  {
    if steps != [] {
      LaunchInvKept(s, steps[0]);
      LaunchInvAlways(Do(s, steps[0]), steps[1..]);
    }
  }

  // ----- a run that is not pending is never launched again -----

  predicate Among(jobs: seq<Job>, rid: RunId) {
    exists i :: 0 <= i < |jobs| && jobs[i].rid == rid
  }

  /** The loop may come to launch this run without looking at its row again. */
  predicate InPlan(ctl: Control, rid: RunId) {
    match ctl
    case Advance(_, job, _, _, _) => job.rid == rid
    case Count(_, job, _) => job.rid == rid
    case Discard(_, job, _) => job.rid == rid
    case Sign(job, after) => job.rid == rid || (after.ToDrain? && Among(after.jobs, rid))
    case Launch(job, _, after) => job.rid == rid || (after.ToDrain? && Among(after.jobs, rid))
    case Mark(job, after) => job.rid == rid || (after.ToDrain? && Among(after.jobs, rid))
    case Drain(jobs) => Among(jobs, rid)
    case _ => false
  }

  ghost predicate Past(s: State, rid: RunId) {
    && rid in s.db.usedRuns && (rid in s.db.runs ==> s.db.runs[rid].status != Pending)
    && !InPlan(s.ctl, rid)
  }

  /** From `a` to `b` a runner was launched for this run. */
  ghost predicate LaunchedSince(a: Log, b: Log, rid: RunId) {
    exists i :: |a.launches| <= i < |b.launches| && b.launches[i].rid == rid
  }

  lemma DrainPlans(db: Db, jobs: seq<Job>, rid: RunId)
    requires IsDrainList(db.schedules, db.runs, jobs) && (rid in db.runs ==> db.runs[rid].status != Pending)
    ensures !Among(jobs, rid)
  {
    forall i | 0 <= i < |jobs| ensures jobs[i].rid != rid {
      assert IsDrainable(db.schedules, db.runs, jobs[i].rid);
    }
  }

  lemma FewerAmong(jobs: seq<Job>, rid: RunId)
    requires jobs != [] && !Among(jobs, rid)
    ensures jobs[0].rid != rid && !Among(jobs[1..], rid)
  {
  }

  lemma PlanStaysClear(db: Db, ctl: Control, log: Log, at: Time, m: Move, rid: RunId)
    requires MoveGuard(db, ctl, log, at, m) && rid in db.usedRuns && !InPlan(ctl, rid)
    requires rid in db.runs ==> db.runs[rid].status != Pending
    ensures !InPlan(MoveCtl(db, ctl, log, at, m), rid) && !LaunchedSince(log, MoveLog(db, ctl, log, at, m), rid)
  {
    if m.SelectPending? { DrainPlans(db, m.jobs, rid); }
    if m.DrainNext? { FewerAmong(ctl.jobs, rid); }
  }

  lemma PastKept(s: State, step: Step, rid: RunId)
    requires Past(s, rid) && Guard(s, step) && s.db.runs.Keys <= s.db.usedRuns
    ensures Past(Do(s, step), rid) && !LaunchedSince(s.log, Do(s, step).log, rid)
  {
    StepFollows(s, step);
    if step.act.Loop? { PlanStaysClear(s.db, s.ctl, s.log, step.at, step.act.move, rid); }
  }

  lemma {:induction false} PastForGood(s: State, steps: seq<Step>, rid: RunId)
    requires Past(s, rid) && Legal(s, steps) && s.db.runs.Keys <= s.db.usedRuns
    ensures !LaunchedSince(s.log, Exec(s, steps).log, rid)
    decreases |steps|
  {
    if steps != [] {
      PastKept(s, steps[0], rid);
      StepFollows(s, steps[0]);
      PastForGood(Do(s, steps[0]), steps[1..], rid);
      LaunchesStay(s, steps[0]);
      PrefixStays(Do(s, steps[0]), steps[1..]);
    }
  }

  lemma LaunchesStay(s: State, step: Step)
    requires Guard(s, step)
    ensures s.log.launches <= Do(s, step).log.launches
  {
  }

  lemma {:induction false} PrefixStays(s: State, steps: seq<Step>)
    requires Legal(s, steps)
    ensures s.log.launches <= Exec(s, steps).log.launches
    decreases |steps|
  {
    if steps != [] {
      LaunchesStay(s, steps[0]);
      PrefixStays(Do(s, steps[0]), steps[1..]);
    }
  }

  // ----- a pending run can be launched -----

  /** The loop idles, and this is the only schedule: enabled, on the queue policy, not due until after `until`. */
  ghost predicate Quiet(s: State, sid: ScheduleId, timeoutSec: int, until: Time) {
    && s.ctl.Idle? && s.db.schedules.Keys == {sid}
    && var row := s.db.schedules[sid];
       && row.enabled && row.policy == Queue && row.timeoutSec == timeoutSec
       && row.nextFireAt.Some? && row.nextFireAt.value > until
  }

  /** The manifest keeps this schedule alone, with another expression, policy and timeout. */
  function Reopened(row: Schedule, timeoutSec: int, next: Time): Schedule {
    row.(enabled := true, policy := Queue, timeoutSec := timeoutSec, cron := row.cron + "*", nextFireAt := Some(next))
  }

  lemma Reopen(s: State, sid: ScheduleId, timeoutSec: int, until: Time) returns (t: State)
    requires LaunchInv(s) && s.ctl.Idle? && sid in s.db.schedules && until >= s.now
    ensures Goes(s, t) && LaunchInv(t) && Quiet(t, sid, timeoutSec, until) && t.log == s.log && t.now == s.now
    ensures forall rid :: rid in s.db.runs && s.db.runs[rid].sid == sid ==>
              rid in t.db.runs && t.db.runs[rid] == s.db.runs[rid]
  {
    var before := s.db.schedules[sid];
    var row := Reopened(before, timeoutSec, until + 1);
    assert |row.cron| != |before.cron|;
    var post: Schedules := map[sid := row];
    assert SyncAllows(s.db.schedules, s.db.usedSchedules, post, s.now, s.now);
    var step := Step(s.now, Env(Resync(post, s.now)));
    assert Guard(s, step);
    t := Do(s, step);
    GoesNowhere(s);
    GoesOn(s, s, step);
    LaunchInvKept(s, step);
  }

  function RunningOf(runs: Runs): set<RunId> {
    set rid | rid in runs && runs[rid].status == Running
  }

  /** Nothing but rows that were running changed, and those are over. */
  ghost predicate Finished(s: State, t: State) {
    && t.db.schedules == s.db.schedules && t.ctl == s.ctl && t.log == s.log && t.now == s.now
    && t.db.runs.Keys == s.db.runs.Keys
    && forall rid :: rid in s.db.runs && s.db.runs[rid].status != Running ==> t.db.runs[rid] == s.db.runs[rid]
  }

  /** A running row's runner has a token to finalize it with. */
  lemma FinishOne(s: State, rid: RunId) returns (t: State)
    requires LaunchInv(s) && rid in RunningOf(s.db.runs)
    ensures Goes(s, t) && LaunchInv(t) && Finished(s, t) && RunningOf(t.db.runs) == RunningOf(s.db.runs) - {rid}
  {
    assert EnderOk(s.log, rid, s.db.runs[rid]);
    assert Exposes(s.log, rid);
    var tok :| tok in s.log.exposed && tok.rid == rid;
    var db := s.db.(runs := FinalizeRun(s.db.runs, rid, Succeeded, tok, s.now));
    t := State(s.now, db, s.ctl, s.log);
    GoesNowhere(s);
    GoesByEvent(s, s, s.now, Finalize(tok, Succeeded), t);
    var step := Step(s.now, Env(Finalize(tok, Succeeded)));
    assert Guard(s, step) && Do(s, step) == t;
    LaunchInvKept(s, step);
    FinishedOne(s.db.runs, rid, tok, s.now);
  }

  lemma FinishedOne(runs: Runs, rid: RunId, tok: Token, at: Time)
    requires rid in RunningOf(runs)
    ensures var runs' := FinalizeRun(runs, rid, Succeeded, tok, at);
            && RunningOf(runs') == RunningOf(runs) - {rid} && runs'.Keys == runs.Keys
            && forall o :: o in runs && runs[o].status != Running ==> runs'[o] == runs[o]
  {
  }

  lemma {:induction false} FinishAll(s: State) returns (t: State)
    requires LaunchInv(s)
    ensures Goes(s, t) && LaunchInv(t) && Finished(s, t) && RunningOf(t.db.runs) == {}
    decreases |RunningOf(s.db.runs)|
  {
    if RunningOf(s.db.runs) == {} {
      GoesNowhere(s);
      t := s;
    } else {
      var rid :| rid in RunningOf(s.db.runs);
      var u := FinishOne(s, rid);
      t := FinishAll(u);
      GoesFurther(s, u, t);
    }
  }

  /** Nothing active is older than the run. */
  ghost predicate Oldest(runs: Runs, rid: RunId) {
    && rid in runs && runs[rid].status == Pending
    && forall o :: o in runs && runs[o].status.Active() ==> runs[rid].createdAt <= runs[o].createdAt
  }

  /** A sweep at the very end of the run's limit fails every older pending row and leaves this one. */
  lemma SweepOlder(s: State, sid: ScheduleId, timeoutSec: int, rid: RunId, at: Time) returns (t: State)
    requires LaunchInv(s) && Quiet(s, sid, timeoutSec, at) && RunningOf(s.db.runs) == {}
    requires rid in s.db.runs && s.db.runs[rid].status == Pending
    requires at == s.db.runs[rid].createdAt + Limit(timeoutSec) && at >= s.now
    ensures Goes(s, t) && LaunchInv(t) && Quiet(t, sid, timeoutSec, at) && t.log == s.log && t.now == at
    ensures Oldest(t.db.runs, rid) && t.db.runs[rid] == s.db.runs[rid]
  {
    var step := Step(at, Loop(SweepOrphans));
    assert Guard(s, step);
    t := Do(s, step);
    GoesNowhere(s);
    GoesOn(s, s, step);
    LaunchInvKept(s, step);
    SweptOlder(s.db, at, rid, sid);
  }

  lemma SweptOlder(db: Db, at: Time, rid: RunId, sid: ScheduleId)
    requires Rows(db, at) && Unstarted(db.runs) && RunningOf(db.runs) == {} && db.schedules.Keys == {sid}
    requires rid in db.runs && db.runs[rid].status == Pending
    requires at == db.runs[rid].createdAt + Limit(db.schedules[sid].timeoutSec)
    ensures var runs := OrphanSweep(db.runs, db.schedules, at);
            Oldest(runs, rid) && runs[rid] == db.runs[rid]
  {
    var runs := OrphanSweep(db.runs, db.schedules, at);
    forall o | o in runs && runs[o].status.Active() ensures runs[rid].createdAt <= runs[o].createdAt {
      assert o !in RunningOf(db.runs);
    }
  }

  function Age(runs: Runs): nat -> int {
    (rid: nat) => if rid in runs then runs[rid].createdAt else 0
  }

  function Drainables(schedules: Schedules, runs: Runs): set<RunId> {
    set rid | rid in runs && IsDrainable(schedules, runs, rid)
  }

  /** dispatchPending's SELECT has an answer. */
  lemma DrainListExists(schedules: Schedules, runs: Runs) returns (jobs: seq<Job>)
    requires forall a, b :: a in runs && b in runs && a != b ==> runs[a].createdAt != runs[b].createdAt
    ensures IsDrainList(schedules, runs, jobs)
  {
    var ids := Listed(Drainables(schedules, runs), Age(runs));
    forall i | 0 <= i < |ids| ensures ids[i] in Drainables(schedules, runs) { assert ids[i] in ids; }
    jobs := seq(|ids|, i requires 0 <= i < |ids| => JobOf(ids[i], runs[ids[i]]));
    ListedIsDrained(schedules, runs, ids, jobs);
  }

  lemma ListedIsDrained(schedules: Schedules, runs: Runs, ids: seq<RunId>, jobs: seq<Job>)
    requires ListOf(ids, Drainables(schedules, runs), Age(runs)) && |jobs| == |ids|
    requires forall i :: 0 <= i < |ids| ==>
               ids[i] in Drainables(schedules, runs) && jobs[i] == JobOf(ids[i], runs[ids[i]])
    ensures IsDrainList(schedules, runs, jobs)
  {
    forall i, j | 0 <= i < j < |jobs| ensures jobs[i].created < jobs[j].created {
      assert Age(runs)(ids[i]) < Age(runs)(ids[j]);
    }
    forall rid | IsDrainable(schedules, runs, rid) ensures exists i :: 0 <= i < |jobs| && jobs[i].rid == rid {
      assert rid in Drainables(schedules, runs);
      var i :| 0 <= i < |ids| && ids[i] == rid;
      assert jobs[i].rid == rid;
    }
  }

  /** The oldest active run is drained first. */
  lemma OldestIsFirst(schedules: Schedules, runs: Runs, rid: RunId, jobs: seq<Job>)
    requires Oldest(runs, rid) && IsDrainable(schedules, runs, rid) && IsDrainList(schedules, runs, jobs)
    ensures jobs != [] && jobs[0] == JobOf(rid, runs[rid])
  {
    var i :| 0 <= i < |jobs| && jobs[i].rid == rid;
    assert IsDrainable(schedules, runs, jobs[0].rid);
    assert forall k :: 0 < k < |jobs| ==> jobs[0].created < jobs[k].created;
  }

  lemma {:induction false} LongerThan(signed: set<Token>) returns (n: nat)
    ensures forall t :: t in signed ==> |t.hash| < n
    decreases |signed|
  {
    n := 0;
    if signed != {} {
      var t :| t in signed;
      n := LongerThan(signed - {t});
      n := if |t.hash| < n then n else |t.hash| + 1;
    }
  }

  lemma FreshHash(signed: set<Token>) returns (hash: Digest)
    ensures forall t :: t in signed ==> t.hash != hash
  {
    var n := LongerThan(signed);
    hash := seq(n + 1, _ => '0');
  }

  /** From the head of the drain list to the launch. */
  lemma LaunchHead(s: State, jobs: seq<Job>) returns (t: State)
    requires s.ctl == Drain(jobs) && jobs != []
    ensures Goes(s, t) && t.log.launches == s.log.launches + [jobs[0]]
  {
    var job, after := jobs[0], ToDrain(jobs[1..]);
    GoesNowhere(s);
    GoesByMove(s, s, s.now, DrainNext, State(s.now, s.db, Sign(job, after), s.log));
    var hash := FreshHash(s.log.signed);
    var tok := Token(job.rid, hash);
    var db, log := s.db.(runs := SetTokenHash(s.db.runs, job.rid, hash)), s.log.(signed := s.log.signed + {tok});
    var signed := State(s.now, db, Launch(job, tok, after), log);
    GoesByMove(s, State(s.now, s.db, Sign(job, after), s.log), s.now, SignToken(tok), signed);
    var log' := log.(attempted := log.attempted + {job.rid}, exposed := log.exposed + {tok},
                     launches := log.launches + [job]);
    t := State(s.now, db, Mark(job, after), log');
    GoesByMove(s, signed, s.now, DispatchOk, t);
  }

  /** A pass over the quiet tables comes to drain. */
  lemma ComeToDrain(s: State, sid: ScheduleId, timeoutSec: int, jobs: seq<Job>) returns (t: State)
    requires Quiet(s, sid, timeoutSec, s.now) && IsDrainList(s.db.schedules, s.db.runs, jobs)
    ensures Goes(s, t) && t == State(s.now, s.db, Drain(jobs), s.log)
  {
    assert IsDueList(s.db.schedules, s.now, []);
    GoesNowhere(s);
    var due, select := State(s.now, s.db, Due([]), s.log), State(s.now, s.db, Select, s.log);
    GoesByMove(s, s, s.now, ListDue([]), due);
    GoesByMove(s, due, s.now, EndDue, select);
    t := State(s.now, s.db, Drain(jobs), s.log);
    GoesByMove(s, select, s.now, SelectPending(jobs), t);
  }

  lemma OldestIsDrainable(s: State, sid: ScheduleId, timeoutSec: int, rid: RunId)
    requires LaunchInv(s) && Quiet(s, sid, timeoutSec, s.now) && Oldest(s.db.runs, rid)
    ensures IsDrainable(s.db.schedules, s.db.runs, rid)
  {
    assert s.db.runs[rid].sid in s.db.schedules.Keys;
  }

  lemma LaunchOldest(s: State, sid: ScheduleId, timeoutSec: int, rid: RunId) returns (t: State)
    requires LaunchInv(s) && Quiet(s, sid, timeoutSec, s.now) && Oldest(s.db.runs, rid)
    ensures Goes(s, t) && t.log.launches == s.log.launches + [JobOf(rid, s.db.runs[rid])]
  {
    OldestIsDrainable(s, sid, timeoutSec, rid);
    var jobs := DrainListExists(s.db.schedules, s.db.runs);
    OldestIsFirst(s.db.schedules, s.db.runs, rid, jobs);
    var u := ComeToDrain(s, sid, timeoutSec, jobs);
    t := LaunchHead(u, jobs);
    GoesFurther(s, u, t);
  }

  /** Whatever stands in its way can be cleared away. */
  lemma PendingCanBeLaunched(s: State, rid: RunId) returns (t: State)
    requires LaunchInv(s) && s.ctl.Idle? && rid in s.db.runs && s.db.runs[rid].status == Pending
    ensures Goes(s, t) && t.log.launches == s.log.launches + [JobOf(rid, s.db.runs[rid])]
  {
    var r := s.db.runs[rid];
    var timeoutSec := s.now - r.createdAt;
    var at := r.createdAt + Limit(timeoutSec);
    var a := Reopen(s, r.sid, timeoutSec, at);
    var b := FinishAll(a);
    GoesFurther(s, a, b);
    var c := SweepOlder(b, r.sid, timeoutSec, rid, at);
    GoesFurther(s, b, c);
    t := LaunchOldest(c, r.sid, timeoutSec, rid);
    GoesFurther(s, c, t);
  }

  /**
   * From every reachable state in which the loop idles: a run, launched before or not, is
   * launched in some continuation if and only if its row still stands and is pending.
   */
  lemma LaunchableIff(s: State, steps: seq<Step>, rid: RunId)
    requires Init(s) && Legal(s, steps) && Exec(s, steps).ctl.Idle? && rid in Exec(s, steps).db.usedRuns
    ensures var t := Exec(s, steps);
            (exists u :: Goes(t, u) && LaunchedSince(t.log, u.log, rid)) <==>
              rid in t.db.runs && t.db.runs[rid].status == Pending
  {
    LaunchInvAlways(s, steps);
    var t := Exec(s, steps);
    if rid in t.db.runs && t.db.runs[rid].status == Pending {
      var u := PendingCanBeLaunched(t, rid);
      assert u.log.launches[|t.log.launches|].rid == rid;
      assert LaunchedSince(t.log, u.log, rid);
    } else {
      forall u | Goes(t, u) ensures !LaunchedSince(t.log, u.log, rid) {
        var more :| Leads(t, more, u);
        PastForGood(t, more, rid);
      }
    }
  }
}
