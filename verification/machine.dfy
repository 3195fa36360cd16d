/**
 * The scheduler as a transition system. Every SQL statement of the tick loop, of
 * the run-now and finalize handlers, of pause and resume and of a repo sync is one
 * atomic step; the single tick loop carries a control state saying where it stands.
 *
 * A statement that fails is one that changed nothing. A statement whose effect
 * landed but whose reply was lost is the success step followed by the failure step
 * of the next statement, so it needs no step of its own.
 */
module Machine {
  import opened Options
  import opened Schema

  /** One row of ListDueSchedulesWithSha. */
  datatype Snap = Snap(sid: ScheduleId, fire: Time, policy: Policy, cron: string, timezone: string)

  /** The run a dispatch is about, as read when it was chosen. */
  datatype Job = Job(rid: RunId, sid: ScheduleId, fire: Option<Time>, created: Time)

  /** Where dispatchRun returns to. */
  datatype Return = ToDue(due: seq<Snap>) | ToDrain(jobs: seq<Job>)

  datatype Control =
    | Idle
    | Due(due: seq<Snap>)                                        // loop over due schedules
    | Advance(cur: Snap, job: Job, isNew: bool, next: Time, due: seq<Snap>)  // run inserted
    | Count(cur: Snap, job: Job, due: seq<Snap>)                 // next_fire_at advanced
    | Discard(cur: Snap, job: Job, due: seq<Snap>)               // decided to skip
    | Sign(job: Job, after: Return)                              // dispatchRun entered
    | Launch(job: Job, tok: Token, after: Return)                // token hash persisted
    | Mark(job: Job, after: Return)                              // runner launched
    | Select                                                     // due loop over
    | Drain(jobs: seq<Job>)                                      // loop over pending rows
    | Sweep

  /** A scheduled row as freshly inserted. */
  datatype Fire = Fire(rid: RunId, sid: ScheduleId, time: Time, created: Time)

  datatype Audit = Audit(sid: ScheduleId, at: Time, threshold: int)

  /** The tables, and what has happened to them. */
  datatype Db = Db(
    schedules: Schedules,
    runs: Runs,
    usedSchedules: set<ScheduleId>,     // ids ever given to a schedule
    usedRuns: set<RunId>,               // ids ever given to a run
    lastCreated: Time,                  // created_at of the newest row ever inserted
    fires: seq<Fire>,                   // scheduled rows freshly inserted, in order
    everConcurrent: set<ScheduleId>,    // schedules ever on the concurrent policy
    lastSweep: Time,                    // the last orphan sweep that succeeded
    audits: seq<Audit>)                 // committed schedule.auto_paused entries

  /** What the dispatcher has been asked to do. */
  datatype Log = Log(
    launches: seq<Job>,                 // runners launched, in order
    attempted: set<RunId>,              // runs whose token was handed to the dispatcher
    exposed: set<Token>,                // tokens handed to the dispatcher
    signed: set<Token>,
    unmarked: set<RunId>)               // launched, but SetRunRunning did not complete

  datatype State = State(now: Time, db: Db, ctl: Control, log: Log)

  /** A statement of the tick loop. */
  datatype Move =
    | ListDue(due: seq<Snap>)
    | FireError
    | InsertScheduled(rid: RunId, nonce: string, next: Time)
    | AdvanceNext
    | AdvanceError
    | CountActive
    | CountError
    | DeleteSkipped
    | DeleteError
    | EndDue
    | SelectPending(jobs: seq<Job>)
    | SelectError
    | DrainNext
    | EndDrain
    | SignToken(tok: Token)
    | SignError
    | DispatchOk
    | DispatchError
    | MarkRunning
    | MarkError
    | SweepOrphans
    | SweepError
    | Crash

  /** A statement of anyone else: run-now, finalize, auto-pause, pause and resume, sync. */
  datatype Event =
    | RunNow(sid: ScheduleId, rid: RunId, nonce: string)
    | Finalize(tok: Token, status: Status)
    | Evaluate(sid: ScheduleId, newest: seq<RunId>, since: Time, threshold: int)  // on what was read before
    | Toggle(sid: ScheduleId, on: bool)
    | Resync(post: Schedules, read: Time)     // `read`: when it looked at the clock

  datatype Action = Loop(move: Move) | Env(event: Event)

  /** A statement and the instant it runs at. */
  datatype Step = Step(at: Time, act: Action)

  // ----- the reads -----

  predicate IsDue(s: Schedules, at: Time, sid: ScheduleId) {
    sid in s && s[sid].enabled && s[sid].nextFireAt.Some? && s[sid].nextFireAt.value <= at
  }

  function SnapOf(sid: ScheduleId, row: Schedule): Snap
    requires row.nextFireAt.Some?
  {
    Snap(sid, row.nextFireAt.value, row.policy, row.cron, row.timezone)
  }

  /** `due` is what ListDueSchedulesWithSha returns at `at`. */
  ghost predicate IsDueList(s: Schedules, at: Time, due: seq<Snap>) {
    && (forall i, j :: 0 <= i < j < |due| ==> due[i].sid != due[j].sid && due[i].fire <= due[j].fire)
    && (forall i :: 0 <= i < |due| ==>
          IsDue(s, at, due[i].sid) && due[i] == SnapOf(due[i].sid, s[due[i].sid]))
    && (forall sid :: IsDue(s, at, sid) ==> exists i :: 0 <= i < |due| && due[i].sid == sid)
  }

  predicate OlderActive(runs: Runs, r: Run) {
    exists o :: o in runs && runs[o].sid == r.sid && runs[o].status.Active() && runs[o].createdAt < r.createdAt
  }

  /** The WHERE clause of dispatchPending's SELECT. */
  predicate IsDrainable(schedules: Schedules, runs: Runs, rid: RunId) {
    && rid in runs
    && var r := runs[rid];
    && r.status == Pending
    && r.sid in schedules
    && schedules[r.sid].enabled
    && (r.Scheduled() ==> schedules[r.sid].policy == Queue && !OlderActive(runs, r))
  }

  function JobOf(rid: RunId, r: Run): Job {
    Job(rid, r.sid, r.fireTime, r.createdAt)
  }

  /** `jobs` is what dispatchPending's SELECT returns, oldest first. */
  ghost predicate IsDrainList(schedules: Schedules, runs: Runs, jobs: seq<Job>) {
    && (forall i, j :: 0 <= i < j < |jobs| ==> jobs[i].created < jobs[j].created)
    && (forall i :: 0 <= i < |jobs| ==>
          IsDrainable(schedules, runs, jobs[i].rid) && jobs[i] == JobOf(jobs[i].rid, runs[jobs[i].rid]))
    && (forall rid :: IsDrainable(schedules, runs, rid) ==> exists i :: 0 <= i < |jobs| && jobs[i].rid == rid)
  }

  /**
   * requireBearer's look at the row. It is a statement of its own: by the time the request
   * reaches FinalizeRun the hash may have been replaced, so that step does not rely on it.
   */
  predicate Admits(runs: Runs, tok: Token) {
    tok.rid in runs && runs[tok.rid].tokenHash == tok.hash
  }

  /** The rows ListRecentTerminalScheduledRuns looks at. */
  predicate Eligible(runs: Runs, sid: ScheduleId, since: Time, rid: RunId) {
    && rid in runs
    && runs[rid].sid == sid
    && runs[rid].Scheduled()
    && runs[rid].status.Terminal()
    && runs[rid].createdAt >= since
  }

  /** `ids` is what ListRecentTerminalScheduledRuns returns: newest first, at most `limit`. */
  ghost predicate IsNewest(runs: Runs, sid: ScheduleId, since: Time, limit: int, ids: seq<RunId>) {
    && |ids| <= limit
    && (forall i :: 0 <= i < |ids| ==> Eligible(runs, sid, since, ids[i]))
    && (forall i, j :: 0 <= i < j < |ids| ==> runs[ids[i]].createdAt > runs[ids[j]].createdAt)
    && (forall rid :: Eligible(runs, sid, since, rid) && rid !in ids ==>
          |ids| == limit && forall i :: 0 <= i < |ids| ==> runs[ids[i]].createdAt > runs[rid].createdAt)
  }

  /**
   * What is left of such a list at a later statement: the rows still stand as they were
   * read, but they need not be the newest any more, nor need `since` be last_enabled_at.
   */
  ghost predicate WasNewest(runs: Runs, sid: ScheduleId, since: Time, limit: int, ids: seq<RunId>) {
    && |ids| <= limit
    && (forall i :: 0 <= i < |ids| ==> Eligible(runs, sid, since, ids[i]))
    && (forall i, j :: 0 <= i < j < |ids| ==> runs[ids[i]].createdAt > runs[ids[j]].createdAt)
  }

  /** evaluateAutoPause goes through to its UPDATE. */
  predicate StreakReached(runs: Runs, threshold: int, ids: seq<RunId>)
    requires forall i :: 0 <= i < |ids| ==> ids[i] in runs
  {
    |ids| >= threshold && forall i :: 0 <= i < |ids| ==> runs[ids[i]].status == Failed
  }

  // ----- what a sync may do to a schedule row -----

  /** ON CONFLICT DO UPDATE's CASE: when the freshly computed fire time is taken. */
  predicate Rearms(before: Schedule, cron: string, timezone: string) {
    before.nextFireAt.None? || !before.enabled || before.cron != cron || before.timezone != timezone
  }

  ghost predicate SyncedRow(before: Schedule, after: Schedule, read: Time) {
    && after.lastEnabledAt == before.lastEnabledAt
    && after.autoPausedAt == before.autoPausedAt
    && (|| after == before
        || after == before.(enabled := false, updatedAt := after.updatedAt)
        || (&& after.enabled
            && (if Rearms(before, after.cron, after.timezone)
                then after.nextFireAt.Some? && after.nextFireAt.value > read
                else after.nextFireAt == before.nextFireAt)))
  }

  ghost predicate InsertedRow(after: Schedule, at: Time, read: Time) {
    after.enabled && after.lastEnabledAt <= at && after.nextFireAt.Some? && after.nextFireAt.value > read
  }

  /**
   * A sync, or the removal of a connected repo: rows upserted, disabled or deleted. Fire
   * times were computed from a clock reading that may be older than the write.
   */
  ghost predicate SyncAllows(before: Schedules, used: set<ScheduleId>, after: Schedules, at: Time, read: Time) {
    forall sid :: sid in after ==>
      if sid in before then SyncedRow(before[sid], after[sid], read)
      else sid !in used && InsertedRow(after[sid], at, read)
  }

  // ----- steps -----

  function Back(r: Return): Control {
    match r
    case ToDue(due) => Due(due)
    case ToDrain(jobs) => Drain(jobs)
  }

  ghost predicate MoveGuard(db: Db, ctl: Control, log: Log, at: Time, m: Move) {
    match m
    case ListDue(due) => ctl.Idle? && IsDueList(db.schedules, at, due)
    case FireError => ctl.Due? && ctl.due != []
    case InsertScheduled(rid, nonce, next) =>
      && ctl.Due? && ctl.due != []
      && ctl.due[0].sid in db.schedules
      && rid !in db.usedRuns
      && at > db.lastCreated
      && next > ctl.due[0].fire
    case AdvanceNext => ctl.Advance?
    case AdvanceError => ctl.Advance?
    case CountActive => ctl.Count?
    case CountError => ctl.Count?
    case DeleteSkipped => ctl.Discard?
    case DeleteError => ctl.Discard?
    case EndDue => ctl == Due([])
    case SelectPending(jobs) => ctl.Select? && IsDrainList(db.schedules, db.runs, jobs)
    case SelectError => ctl.Select?
    case DrainNext => ctl.Drain? && ctl.jobs != []
    case EndDrain => ctl == Drain([])
    case SignToken(tok) =>
      ctl.Sign? && tok.rid == ctl.job.rid && forall t :: t in log.signed ==> t.hash != tok.hash
    case SignError => ctl.Sign?
    case DispatchOk => ctl.Launch?
    case DispatchError => ctl.Launch?
    case MarkRunning => ctl.Mark?
    case MarkError => ctl.Mark?
    case SweepOrphans => ctl.Sweep? || ctl.Idle?
    case SweepError => ctl.Sweep?
    case Crash => true
  }

  ghost predicate EventGuard(db: Db, log: Log, at: Time, e: Event) {
    match e
    case RunNow(sid, rid, nonce) => sid in db.schedules && rid !in db.usedRuns && at > db.lastCreated
    case Finalize(tok, status) => tok in log.exposed && status.Terminal()
    case Evaluate(sid, newest, since, threshold) =>
      && sid in db.schedules && since <= db.schedules[sid].lastEnabledAt && threshold >= 1
      && WasNewest(db.runs, sid, since, threshold, newest)
    case Toggle(sid, on) => sid in db.schedules
    case Resync(post, read) => read <= at && SyncAllows(db.schedules, db.usedSchedules, post, at, read)
  }

  ghost predicate Guard(s: State, step: Step) {
    && step.at >= s.now
    && match step.act
       case Loop(m) => MoveGuard(s.db, s.ctl, s.log, step.at, m)
       case Env(e) => EventGuard(s.db, s.log, step.at, e)
  }

  // what a step does to the tables

  function InsertRow(db: Db, rid: RunId, r: Run): Db {
    db.(runs := db.runs[rid := r], usedRuns := db.usedRuns + {rid}, lastCreated := r.createdAt)
  }

  /** InsertRun with ON CONFLICT DO NOTHING. */
  ghost function InsertFire(db: Db, sid: ScheduleId, fire: Time, at: Time, rid: RunId, nonce: string): Db {
    if HasFire(db.runs, sid, fire) then db
    else InsertRow(db, rid, NewRun(sid, Some(fire), at, nonce)).(
           fires := db.fires + [Fire(rid, sid, fire, at)])
  }

  function PauseOnStreak(db: Db, at: Time, sid: ScheduleId, newest: seq<RunId>, threshold: int): Db
    requires sid in db.schedules && forall i :: 0 <= i < |newest| ==> newest[i] in db.runs
  {
    var sch := db.schedules[sid];
    if StreakReached(db.runs, threshold, newest) && sch.enabled then
      db.(schedules := db.schedules[sid := AutoPause(sch, at)],
          audits := db.audits + [Audit(sid, at, threshold)])
    else db
  }

  /** A sync; deleting a schedule deletes its runs (ON DELETE CASCADE). */
  function ApplySync(db: Db, post: Schedules): Db {
    db.(schedules := post,
        runs := map rid | rid in db.runs && db.runs[rid].sid in post :: db.runs[rid],
        usedSchedules := db.usedSchedules + post.Keys,
        everConcurrent := db.everConcurrent + set sid | sid in post && post[sid].policy == Concurrent)
  }

  /** The moves that write a table or the dispatcher's log of launches. */
  predicate Writes(m: Move) {
    || m.InsertScheduled? || m.AdvanceNext? || m.DeleteSkipped? || m.SignToken? || m.DispatchOk?
    || m.MarkRunning? || m.SweepOrphans?
  }

  ghost function MoveDb(db: Db, ctl: Control, log: Log, at: Time, m: Move): Db
    requires MoveGuard(db, ctl, log, at, m)
  {
    match m
    case InsertScheduled(rid, nonce, _) => InsertFire(db, ctl.due[0].sid, ctl.due[0].fire, at, rid, nonce)
    case AdvanceNext => db.(schedules := SetNextFireAt(db.schedules, ctl.cur.sid, ctl.next, at))
    case DeleteSkipped => db.(runs := db.runs - {ctl.job.rid})
    case SignToken(tok) => db.(runs := SetTokenHash(db.runs, tok.rid, tok.hash))
    case MarkRunning => db.(runs := SetRunRunning(db.runs, ctl.job.rid, at))
    case SweepOrphans => db.(runs := OrphanSweep(db.runs, db.schedules, at), lastSweep := at)
    case _ => db
  }

  ghost function EventDb(db: Db, log: Log, at: Time, e: Event): Db
    requires EventGuard(db, log, at, e)
  {
    match e
    case RunNow(sid, rid, nonce) => InsertRow(db, rid, NewRun(sid, None, at, nonce))
    case Finalize(tok, status) => db.(runs := FinalizeRun(db.runs, tok.rid, status, tok, at))
    case Evaluate(sid, newest, _, threshold) => PauseOnStreak(db, at, sid, newest, threshold)
    case Toggle(sid, on) => db.(schedules := db.schedules[sid := SetEnabled(db.schedules[sid], on, at)])
    case Resync(post, _) => ApplySync(db, post)
  }

  // where a statement takes the loop

  ghost function AfterCount(db: Db, cur: Snap, job: Job, due: seq<Snap>): Control {
    match Decide(cur.policy, |OtherActive(db.runs, cur.sid, job.rid)|)
    case DispatchIt => Sign(job, ToDue(due))
    case SkipIt => Discard(cur, job, due)
    case QueueIt => Due(due)
  }

  ghost function MoveCtl(db: Db, ctl: Control, log: Log, at: Time, m: Move): Control
    requires MoveGuard(db, ctl, log, at, m)
  {
    match m
    case ListDue(due) => Due(due)
    case FireError => Due(ctl.due[1..])
    case InsertScheduled(rid, _, next) =>
      var cur := ctl.due[0];
      Advance(cur, Job(rid, cur.sid, Some(cur.fire), at), !HasFire(db.runs, cur.sid, cur.fire), next, ctl.due[1..])
    case AdvanceNext => if ctl.isNew then Count(ctl.cur, ctl.job, ctl.due) else Due(ctl.due)
    case AdvanceError => Due(ctl.due)
    case CountActive => AfterCount(db, ctl.cur, ctl.job, ctl.due)
    case CountError => Due(ctl.due)
    case DeleteSkipped => Due(ctl.due)
    case DeleteError => Due(ctl.due)
    case EndDue => Select
    case SelectPending(jobs) => Drain(jobs)
    case SelectError => Sweep
    case DrainNext => Sign(ctl.jobs[0], ToDrain(ctl.jobs[1..]))
    case EndDrain => Sweep
    case SignToken(tok) => Launch(ctl.job, tok, ctl.after)
    case SignError => Back(ctl.after)
    case DispatchOk => Mark(ctl.job, ctl.after)
    case DispatchError => Back(ctl.after)
    case MarkRunning => Back(ctl.after)
    case MarkError => Back(ctl.after)
    case SweepOrphans => Idle
    case SweepError => Idle
    case Crash => Idle
  }

  ghost function MoveLog(db: Db, ctl: Control, log: Log, at: Time, m: Move): Log
    requires MoveGuard(db, ctl, log, at, m)
  {
    match m
    case SignToken(tok) => log.(signed := log.signed + {tok})
    case DispatchOk =>
      log.(attempted := log.attempted + {ctl.job.rid}, exposed := log.exposed + {ctl.tok},
           launches := log.launches + [ctl.job])
    case DispatchError => log.(attempted := log.attempted + {ctl.job.rid}, exposed := log.exposed + {ctl.tok})
    case MarkError => log.(unmarked := log.unmarked + {ctl.job.rid})
    case Crash => if ctl.Mark? then log.(unmarked := log.unmarked + {ctl.job.rid}) else log
    case _ => log
  }

  ghost function Do(s: State, step: Step): State
    requires Guard(s, step)
  {
    match step.act
    case Loop(m) =>
      State(step.at,
            MoveDb(s.db, s.ctl, s.log, step.at, m),
            MoveCtl(s.db, s.ctl, s.log, step.at, m),
            MoveLog(s.db, s.ctl, s.log, step.at, m))
    case Env(e) => State(step.at, EventDb(s.db, s.log, step.at, e), s.ctl, s.log)
  }

  // ----- behaviours -----

  /** The steps are all allowed, one after the other, from `s`. */
  ghost predicate Legal(s: State, steps: seq<Step>)
    decreases |steps|
  {
    steps == [] || (Guard(s, steps[0]) && Legal(Do(s, steps[0]), steps[1..]))
  }

  /** The state after the steps. */
  ghost function Exec(s: State, steps: seq<Step>): State
    requires Legal(s, steps)
    decreases |steps|
  {
    if steps == [] then s else Exec(Do(s, steps[0]), steps[1..])
  }

  /** An empty database with an idle loop. */
  ghost predicate Init(s: State) {
    && s.db.lastCreated <= s.now && s.db.lastSweep <= s.now
    && s.db == Db(map[], map[], {}, {}, s.db.lastCreated, [], {}, s.db.lastSweep, [])
    && s.ctl == Idle
    && s.log == Log([], {}, {}, {}, {})
  }

  /** Running `a` and then `b` is running `a + b`. */
  lemma {:induction false} ExecSplits(s: State, a: seq<Step>, b: seq<Step>)
    ensures Legal(s, a + b) <==> Legal(s, a) && Legal(Exec(s, a), b)
    ensures Legal(s, a + b) ==> Exec(s, a + b) == Exec(Exec(s, a), b)
    decreases |a|
  {
    if a == [] {
      assert a + b == b;
    } else {
      assert (a + b)[0] == a[0] && (a + b)[1..] == a[1..] + b;
      if Guard(s, a[0]) { ExecSplits(Do(s, a[0]), a[1..], b); }
    }
  }

  /** The steps are a legal run from `start` that ends in `s`. */
  ghost predicate Leads(start: State, steps: seq<Step>, s: State) {
    Legal(start, steps) && Exec(start, steps) == s
  }

  /** One step more. */
  lemma LeadsOn(start: State, steps: seq<Step>, s: State, step: Step)
    requires Leads(start, steps, s) && Guard(s, step)
    ensures Leads(start, steps + [step], Do(s, step))
  {
    var one := [step];
    assert one[0] == step && one[1..] == [];
    assert Legal(Do(s, step), []) && Exec(Do(s, step), []) == Do(s, step);
    assert Legal(s, one) && Exec(s, one) == Exec(Do(s, step), one[1..]);
    ExecSplits(start, steps, one);
  }

  /** Some legal run leads from `s` to `t`. */
  ghost predicate Goes(s: State, t: State) {
    exists steps :: Leads(s, steps, t)
  }

  lemma GoesNowhere(s: State)
    ensures Goes(s, s)
  {
    assert Leads(s, [], s);
  }

  lemma GoesOn(s: State, t: State, step: Step)
    requires Goes(s, t) && Guard(t, step)
    ensures Goes(s, Do(t, step))
  {
    var steps :| Leads(s, steps, t);
    LeadsOn(s, steps, t, step);
  }

  lemma GoesFurther(s: State, t: State, u: State)
    requires Goes(s, t) && Goes(t, u)
    ensures Goes(s, u)
  {
    var a :| Leads(s, a, t);
    var b :| Leads(t, b, u);
    ExecSplits(s, a, b);
    assert Leads(s, a + b, u);
  }

  /** A statement of the loop, told by what it makes of the tables, the plan and the log. */
  lemma GoesByMove(start: State, s: State, at: Time, m: Move, t: State)
    requires Goes(start, s) && at >= s.now && MoveGuard(s.db, s.ctl, s.log, at, m)
    requires t == State(at, MoveDb(s.db, s.ctl, s.log, at, m), MoveCtl(s.db, s.ctl, s.log, at, m),
                        MoveLog(s.db, s.ctl, s.log, at, m))
    ensures Goes(start, t)
  {
    var step := Step(at, Loop(m));
    assert Guard(s, step) && Do(s, step) == t;
    GoesOn(start, s, step);
  }

  lemma GoesByEvent(start: State, s: State, at: Time, e: Event, t: State)
    requires Goes(start, s) && at >= s.now && EventGuard(s.db, s.log, at, e)
    requires t == State(at, EventDb(s.db, s.log, at, e), s.ctl, s.log)
    ensures Goes(start, t)
  {
    var step := Step(at, Env(e));
    assert Guard(s, step) && Do(s, step) == t;
    GoesOn(start, s, step);
  }
}
