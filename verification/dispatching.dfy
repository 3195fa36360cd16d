/** Mutual exclusion, first-in first-out and at-most-once dispatch of scheduled runs. */
module Dispatching {
  import opened Options
  import opened Schema
  import opened Machine
  import opened Lifecycle
  import opened Ledger
  import opened FireTimes

  /** Two jobs the overlap policy orders: scheduled runs of one never-concurrent schedule. */
  predicate Rivals(db: Db, a: Job, b: Job) {
    a.sid == b.sid && a.fire.Some? && b.fire.Some? && a.sid !in db.everConcurrent
  }

  predicate IsOlder(r: Run, job: Job) {
    r.Scheduled() && r.sid == job.sid && r.createdAt < job.created
  }

  /** Every older scheduled run of the job's schedule is over. */
  ghost predicate Ready(db: Db, job: Job) {
    job.fire.Some? && job.sid !in db.everConcurrent ==>
      forall rid :: rid in db.runs && IsOlder(db.runs[rid], job) ==> db.runs[rid].status.Terminal()
  }

  /** A scheduled job is on record as a fire. */
  ghost predicate Recorded(db: Db, job: Job) {
    && job.created <= db.lastCreated && job.rid in db.usedRuns
    && (job.fire.Some? ==> Fire(job.rid, job.sid, job.fire.value, job.created) in db.fires)
  }

  ghost predicate Launched(log: Log, rid: RunId) {
    exists i :: 0 <= i < |log.launches| && log.launches[i].rid == rid
  }

  /** Nothing newer has been launched ahead of the job. */
  ghost predicate NothingNewer(db: Db, log: Log, job: Job) {
    forall i :: 0 <= i < |log.launches| && Rivals(db, log.launches[i], job) ==>
      log.launches[i].created <= job.created
  }

  ghost predicate Picked(db: Db, log: Log, job: Job) {
    && Ready(db, job) && Recorded(db, job) && NothingNewer(db, log, job)
    && (Launched(log, job.rid) ==> job.rid in log.unmarked)
  }

  /** The rows dispatchPending still has to launch do not compete with one another. */
  ghost predicate Apart(db: Db, jobs: seq<Job>) {
    forall i, j :: 0 <= i < j < |jobs| ==> jobs[i].rid != jobs[j].rid && !Rivals(db, jobs[i], jobs[j])
  }

  ghost predicate QueueOk(db: Db, log: Log, jobs: seq<Job>) {
    Apart(db, jobs) && forall i :: 0 <= i < |jobs| ==> Picked(db, log, jobs[i])
  }

  /** A schedule read while on the concurrent policy is remembered as such. */
  ghost predicate PoliciesOk(db: Db, due: seq<Snap>) {
    forall i :: 0 <= i < |due| && due[i].policy == Concurrent ==> due[i].sid in db.everConcurrent
  }

  /** A freshly inserted row: recorded, newer than every launch, not launched itself. */
  ghost predicate Newborn(db: Db, log: Log, cur: Snap, job: Job) {
    && Recorded(db, job) && NothingNewer(db, log, job) && !Launched(log, job.rid)
    && job.sid == cur.sid
    && (cur.policy == Concurrent ==> cur.sid in db.everConcurrent)
  }

  ghost predicate AfterOk(db: Db, log: Log, job: Job, after: Return) {
    match after
    case ToDue(due) => PoliciesOk(db, due)
    case ToDrain(jobs) =>
      && QueueOk(db, log, jobs)
      && forall i :: 0 <= i < |jobs| ==> jobs[i].rid != job.rid && !Rivals(db, job, jobs[i])
  }

  ghost predicate PlanOk(db: Db, log: Log, ctl: Control) {
    match ctl
    case Due(due) => PoliciesOk(db, due)
    case Advance(cur, job, isNew, _, due) => PoliciesOk(db, due) && (isNew ==> Newborn(db, log, cur, job))
    case Count(cur, job, due) => PoliciesOk(db, due) && Newborn(db, log, cur, job)
    case Discard(cur, job, due) => PoliciesOk(db, due) && Newborn(db, log, cur, job)
    case Sign(job, after) => Picked(db, log, job) && AfterOk(db, log, job, after)
    case Launch(job, _, after) => Picked(db, log, job) && AfterOk(db, log, job, after)
    case Mark(job, after) => Recorded(db, job) && AfterOk(db, log, job, after)
    case Drain(jobs) => QueueOk(db, log, jobs)
    case _ => true
  }

  /** What the launches so far look like. */
  ghost predicate LaunchesOk(db: Db, log: Log) {
    && (forall i :: 0 <= i < |log.launches| ==> Ready(db, log.launches[i]) && Recorded(db, log.launches[i]))
    && (forall i, j :: 0 <= i < j < |log.launches| ==>
          && (Rivals(db, log.launches[i], log.launches[j]) ==> log.launches[i].created <= log.launches[j].created)
          && (log.launches[i].rid == log.launches[j].rid ==> log.launches[i].rid in log.unmarked))
  }

  /** A launched run whose mark-running completed is no longer pending. */
  ghost predicate MarkedOk(db: Db, log: Log, ctl: Control) {
    forall rid :: rid in db.runs && Launched(log, rid) && rid !in log.unmarked && !(ctl.Mark? && ctl.job.rid == rid) ==>
      db.runs[rid].status != Pending
  }

  ghost predicate RunningOk(db: Db, log: Log, ctl: Control) {
    && (forall rid :: rid in db.runs && db.runs[rid].status == Running ==> Launched(log, rid))
    && (ctl.Mark? ==> Launched(log, ctl.job.rid))
    && (forall i, rid :: 0 <= i < |log.launches| && rid in db.runs && log.launches[i].rid == rid ==>
          log.launches[i] == JobOf(rid, db.runs[rid]))
  }

  ghost predicate ConcurrentSeen(db: Db) {
    forall sid :: sid in db.schedules && db.schedules[sid].policy == Concurrent ==> sid in db.everConcurrent
  }

  ghost predicate DispatchInv(s: State) {
    && ConcurrentSeen(s.db)
    && LaunchesOk(s.db, s.log)
    && MarkedOk(s.db, s.log, s.ctl)
    && RunningOk(s.db, s.log, s.ctl)
    && PlanOk(s.db, s.log, s.ctl)
  }

  // ----- what the passage of other steps leaves standing -----

  lemma StillPicked(a: Db, b: Db, log: Log, log': Log, job: Job)
    requires DbFollows(a, b) && log'.launches == log.launches && log.unmarked <= log'.unmarked
    requires Recorded(a, job)
    ensures Recorded(b, job)
    ensures Ready(a, job) ==> Ready(b, job)
    ensures NothingNewer(a, log, job) ==> NothingNewer(b, log', job)
  {
    if job.fire.Some? {
      var f := Fire(job.rid, job.sid, job.fire.value, job.created);
      var i :| 0 <= i < |a.fires| && a.fires[i] == f;
      assert b.fires[i] == a.fires[i];
    }
  }

  lemma StillQueued(a: Db, b: Db, log: Log, log': Log, jobs: seq<Job>)
    requires DbFollows(a, b) && log'.launches == log.launches && log.unmarked <= log'.unmarked
    requires QueueOk(a, log, jobs)
    ensures QueueOk(b, log', jobs)
  {
    forall i | 0 <= i < |jobs| ensures Picked(b, log', jobs[i]) {
      assert Picked(a, log, jobs[i]);
      StillPicked(a, b, log, log', jobs[i]);
    }
  }

  lemma StillAfter(a: Db, b: Db, log: Log, log': Log, job: Job, after: Return)
    requires DbFollows(a, b) && log'.launches == log.launches && log.unmarked <= log'.unmarked
    requires AfterOk(a, log, job, after)
    ensures AfterOk(b, log', job, after)
  {
    if after.ToDrain? { StillQueued(a, b, log, log', after.jobs); }
  }

  lemma StillPlanned(a: Db, b: Db, log: Log, log': Log, ctl: Control)
    requires DbFollows(a, b) && log'.launches == log.launches && log.unmarked <= log'.unmarked
    requires PlanOk(a, log, ctl)
    ensures PlanOk(b, log', ctl)
  {
    match ctl {
      case Advance(_, job, isNew, _, _) => if isNew { StillPicked(a, b, log, log', job); }
      case Count(_, job, _) => StillPicked(a, b, log, log', job);
      case Discard(_, job, _) => StillPicked(a, b, log, log', job);
      case Sign(job, after) => StillPicked(a, b, log, log', job); StillAfter(a, b, log, log', job, after);
      case Launch(job, _, after) => StillPicked(a, b, log, log', job); StillAfter(a, b, log, log', job, after);
      case Mark(job, after) => StillPicked(a, b, log, log', job); StillAfter(a, b, log, log', job, after);
      case Drain(jobs) => StillQueued(a, b, log, log', jobs);
      case _ =>
    }
  }

  lemma StillLaunched(a: Db, b: Db, log: Log, log': Log)
    requires DbFollows(a, b) && log'.launches == log.launches && log.unmarked <= log'.unmarked
    requires LaunchesOk(a, log)
    ensures LaunchesOk(b, log')
  {
    forall i | 0 <= i < |log.launches|
      ensures Ready(b, log.launches[i]) && Recorded(b, log.launches[i])
    {
      StillPicked(a, b, log, log', log.launches[i]);
    }
  }

  /** No row becomes running. */
  ghost predicate NoneStarts(a: Db, b: Db) {
    forall rid :: rid in b.runs && b.runs[rid].status == Running ==> rid in a.runs && a.runs[rid].status == Running
  }

  lemma StillMarked(a: Db, b: Db, log: Log, log': Log, ctl: Control)
    requires DbFollows(a, b) && log'.launches == log.launches && log.unmarked <= log'.unmarked
    requires LaunchesOk(a, log) && MarkedOk(a, log, ctl)
    ensures MarkedOk(b, log', ctl)
  {
    forall rid | rid in b.runs && Launched(log', rid) && rid !in log'.unmarked && !(ctl.Mark? && ctl.job.rid == rid)
      ensures b.runs[rid].status != Pending
    {
      assert Launched(log, rid);
      assert rid in a.usedRuns;
    }
  }

  lemma StillRunning(a: Db, b: Db, log: Log, log': Log, ctl: Control)
    requires DbFollows(a, b) && NoneStarts(a, b) && log'.launches == log.launches
    requires LaunchesOk(a, log) && RunningOk(a, log, ctl)
    ensures RunningOk(b, log', ctl)
  {
    forall rid | rid in b.runs && b.runs[rid].status == Running ensures Launched(log', rid) {
      assert Launched(log, rid);
    }
    if ctl.Mark? { assert Launched(log, ctl.job.rid); assert Launched(log', ctl.job.rid); }
  }

  /** No row starts running, and policies are remembered. */
  ghost predicate Still(a: Db, b: Db) {
    NoneStarts(a, b) && (ConcurrentSeen(a) ==> ConcurrentSeen(b))
  }

  lemma EventStill(db: Db, log: Log, at: Time, e: Event)
    requires EventGuard(db, log, at, e)
    ensures Still(db, EventDb(db, log, at, e))
  {
  }

  lemma EventKeepsDispatch(s: State, step: Step)
    requires LedgerInv(s) && DispatchInv(s) && Guard(s, step) && step.act.Env?
    ensures DispatchInv(Do(s, step))
  {
    var e := step.act.event;
    var b := EventDb(s.db, s.log, step.at, e);
    EventFollows(s.db, s.log, step.at, e);
    EventStill(s.db, s.log, step.at, e);
    StillPlanned(s.db, b, s.log, s.log, s.ctl);
    StillLaunched(s.db, b, s.log, s.log);
    StillMarked(s.db, b, s.log, s.log, s.ctl);
    StillRunning(s.db, b, s.log, s.log, s.ctl);
  }

  // ----- what the loop plans next -----

  lemma MoveStill(db: Db, ctl: Control, log: Log, at: Time, m: Move)
    requires MoveGuard(db, ctl, log, at, m)
    ensures !m.MarkRunning? ==> NoneStarts(db, MoveDb(db, ctl, log, at, m))
    ensures ConcurrentSeen(db) ==> ConcurrentSeen(MoveDb(db, ctl, log, at, m))
  {
  }

  /** A row just inserted is newer than everything launched. */
  lemma InsertIsNewborn(db: Db, log: Log, cur: Snap, at: Time, rid: RunId, nonce: string)
    requires LaunchesOk(db, log) && rid !in db.usedRuns && at > db.lastCreated && !HasFire(db.runs, cur.sid, cur.fire)
    requires cur.policy == Concurrent ==> cur.sid in db.everConcurrent
    ensures Newborn(InsertFire(db, cur.sid, cur.fire, at, rid, nonce), log, cur, Job(rid, cur.sid, Some(cur.fire), at))
  {
    var b := InsertFire(db, cur.sid, cur.fire, at, rid, nonce);
    assert b.fires[|db.fires|] == Fire(rid, cur.sid, cur.fire, at);
    forall i | 0 <= i < |log.launches|
      ensures log.launches[i].created <= at && log.launches[i].rid != rid
    {
      assert Recorded(db, log.launches[i]);
    }
  }

  lemma FewerPolicies(db: Db, due: seq<Snap>)
    requires due != [] && PoliciesOk(db, due)
    ensures PoliciesOk(db, due[1..])
  {
  }

  lemma InsertPlans(db: Db, log: Log, due: seq<Snap>, at: Time, rid: RunId, nonce: string, next: Time)
    requires due != [] && PoliciesOk(db, due) && LaunchesOk(db, log) && rid !in db.usedRuns && at > db.lastCreated
    ensures var cur := due[0];
            PlanOk(InsertFire(db, cur.sid, cur.fire, at, rid, nonce), log,
                   Advance(cur, Job(rid, cur.sid, Some(cur.fire), at), !HasFire(db.runs, cur.sid, cur.fire), next,
                           due[1..]))
  {
    FewerPolicies(db, due);
    if !HasFire(db.runs, due[0].sid, due[0].fire) { InsertIsNewborn(db, log, due[0], at, rid, nonce); }
  }

  /** With no other active run, everything older is over. */
  lemma CountPicks(db: Db, log: Log, cur: Snap, job: Job, due: seq<Snap>)
    requires PlanOk(db, log, Count(cur, job, due)) && JobOk(db, job)
    ensures PlanOk(db, log, AfterCount(db, cur, job, due))
  {
    var others := OtherActive(db.runs, cur.sid, job.rid);
    if Decide(cur.policy, |others|) == DispatchIt && cur.policy != Concurrent {
      assert others == {};
      forall rid | rid in db.runs && IsOlder(db.runs[rid], job)
        ensures db.runs[rid].status.Terminal()
      {
        assert rid != job.rid;
        assert rid !in others;
      }
    }
  }

  /** A drainable row has nothing unfinished before it and nothing launched after it. */
  lemma SelectedIsReady(db: Db, log: Log, rid: RunId)
    requires LaunchesOk(db, log) && IsDrainable(db.schedules, db.runs, rid)
    ensures var job := JobOf(rid, db.runs[rid]); Ready(db, job) && NothingNewer(db, log, job)
  {
    var r, job := db.runs[rid], JobOf(rid, db.runs[rid]);
    if r.Scheduled() {
      forall o | o in db.runs && IsOlder(db.runs[o], job) ensures db.runs[o].status.Terminal() {
        assert db.runs[o].status.Active() ==> OlderActive(db.runs, r);
      }
    }
    forall k | 0 <= k < |log.launches| && Rivals(db, log.launches[k], job)
      ensures log.launches[k].created <= job.created
    {
      var later := log.launches[k];
      assert Ready(db, later);
      assert later.created > job.created ==> IsOlder(r, later);
    }
  }

  lemma SelectedIsPicked(db: Db, log: Log, now: Time, rid: RunId)
    requires Rows(db, now) && RowsFired(db) && LaunchesOk(db, log) && MarkedOk(db, log, Select)
    requires IsDrainable(db.schedules, db.runs, rid)
    ensures Picked(db, log, JobOf(rid, db.runs[rid]))
  {
    SelectedIsReady(db, log, rid);
  }

  lemma SelectedApart(db: Db, jobs: seq<Job>, i: int, j: int)
    requires IsDrainList(db.schedules, db.runs, jobs) && 0 <= i < j < |jobs|
    ensures jobs[i].rid != jobs[j].rid && !Rivals(db, jobs[i], jobs[j])
  {
    var a, b := jobs[i], jobs[j];
    assert IsDrainable(db.schedules, db.runs, a.rid) && IsDrainable(db.schedules, db.runs, b.rid);
    var r := db.runs[b.rid];
    assert Rivals(db, a, b) ==> OlderActive(db.runs, r);
  }

  lemma SelectQueues(db: Db, log: Log, now: Time, jobs: seq<Job>)
    requires Rows(db, now) && RowsFired(db) && LaunchesOk(db, log) && MarkedOk(db, log, Select)
    requires IsDrainList(db.schedules, db.runs, jobs)
    ensures QueueOk(db, log, jobs)
  {
    forall i | 0 <= i < |jobs| ensures Picked(db, log, jobs[i]) {
      assert IsDrainable(db.schedules, db.runs, jobs[i].rid);
      SelectedIsPicked(db, log, now, jobs[i].rid);
    }
    forall i, j | 0 <= i < j < |jobs| ensures jobs[i].rid != jobs[j].rid && !Rivals(db, jobs[i], jobs[j]) {
      SelectedApart(db, jobs, i, j);
    }
  }

  lemma ListedPolicies(db: Db, at: Time, due: seq<Snap>)
    requires ConcurrentSeen(db) && IsDueList(db.schedules, at, due)
    ensures PoliciesOk(db, due)
  {
    forall i | 0 <= i < |due| && due[i].policy == Concurrent ensures due[i].sid in db.everConcurrent {
      assert IsDue(db.schedules, at, due[i].sid);
    }
  }

  lemma QueueHead(db: Db, log: Log, jobs: seq<Job>)
    requires jobs != [] && QueueOk(db, log, jobs)
    ensures PlanOk(db, log, Sign(jobs[0], ToDrain(jobs[1..])))
  {
    assert forall i :: 0 <= i < |jobs[1..]| ==> jobs[1..][i] == jobs[i + 1];
  }

  /** Where the loop goes next, before any table changes; nothing is launched. */
  lemma NextPlanOk(db: Db, ctl: Control, log: Log, now: Time, at: Time, m: Move)
    requires MoveGuard(db, ctl, log, at, m) && !m.InsertScheduled? && !m.DispatchOk?
    requires Rows(db, now) && RowsFired(db) && PlanSound(db, now, ctl)
    requires ConcurrentSeen(db) && LaunchesOk(db, log) && MarkedOk(db, log, ctl) && PlanOk(db, log, ctl)
    ensures PlanOk(db, log, MoveCtl(db, ctl, log, at, m))
  {
    if
    case m.ListDue? => ListedPolicies(db, at, m.due);
    case m.FireError? => FewerPolicies(db, ctl.due);
    case m.CountActive? => CountPicks(db, log, ctl.cur, ctl.job, ctl.due);
    case m.SelectPending? => SelectQueues(db, log, now, m.jobs);
    case m.DrainNext? => QueueHead(db, log, ctl.jobs);
    case !m.ListDue? && !m.FireError? && !m.CountActive? && !m.SelectPending? && !m.DrainNext? =>
  }

  // ----- launching -----

  /** One more launch. */
  function WithLaunch(log: Log, job: Job, tok: Token): Log {
    log.(attempted := log.attempted + {job.rid}, exposed := log.exposed + {tok}, launches := log.launches + [job])
  }

  lemma LaunchedMore(log: Log, job: Job, tok: Token, rid: RunId)
    ensures Launched(WithLaunch(log, job, tok), rid) <==> Launched(log, rid) || rid == job.rid
  {
    var more := WithLaunch(log, job, tok).launches;
    assert more[|log.launches|] == job;
    if Launched(log, rid) {
      var i :| 0 <= i < |log.launches| && log.launches[i].rid == rid;
      assert more[i].rid == rid;
    }
  }

  /** A picked job goes to the end of the launches. */
  lemma LaunchOrder(db: Db, log: Log, job: Job, tok: Token)
    requires LaunchesOk(db, log) && Picked(db, log, job)
    ensures LaunchesOk(db, WithLaunch(log, job, tok))
  {
    forall i | 0 <= i < |log.launches| && log.launches[i].rid == job.rid ensures job.rid in log.unmarked {
      assert Launched(log, job.rid);
    }
  }

  lemma LaunchMarks(db: Db, log: Log, job: Job, tok: Token, after: Return)
    requires MarkedOk(db, log, Launch(job, tok, after)) && RunningOk(db, log, Launch(job, tok, after)) && JobOk(db, job)
    ensures MarkedOk(db, WithLaunch(log, job, tok), Mark(job, after))
    ensures RunningOk(db, WithLaunch(log, job, tok), Mark(job, after))
  {
    forall rid ensures Launched(WithLaunch(log, job, tok), rid) <==> Launched(log, rid) || rid == job.rid {
      LaunchedMore(log, job, tok, rid);
    }
  }

  lemma LaunchLeavesQueue(db: Db, log: Log, job: Job, tok: Token, after: Return)
    requires AfterOk(db, log, job, after)
    ensures AfterOk(db, WithLaunch(log, job, tok), job, after)
  {
    if after.ToDrain? {
      forall i | 0 <= i < |after.jobs| ensures Picked(db, WithLaunch(log, job, tok), after.jobs[i]) {
        assert Picked(db, log, after.jobs[i]) && !Rivals(db, job, after.jobs[i]);
        LaunchedMore(log, job, tok, after.jobs[i].rid);
      }
    }
  }

  /** Launching a picked job keeps the launches in order and the rest of the queue picked. */
  lemma LaunchKeeps(s: State, step: Step)
    requires LedgerInv(s) && DispatchInv(s) && Guard(s, step) && step.act == Loop(DispatchOk)
    ensures DispatchInv(Do(s, step))
  {
    var job, tok, after := s.ctl.job, s.ctl.tok, s.ctl.after;
    assert Do(s, step) == State(step.at, s.db, Mark(job, after), WithLaunch(s.log, job, tok));
    LaunchOrder(s.db, s.log, job, tok);
    LaunchMarks(s.db, s.log, job, tok, after);
    LaunchLeavesQueue(s.db, s.log, job, tok, after);
  }

  // ----- marking, and everything else -----

  lemma MarkStarts(db: Db, log: Log, job: Job, after: Return, at: Time)
    requires MarkedOk(db, log, Mark(job, after)) && RunningOk(db, log, Mark(job, after))
    ensures var b := db.(runs := SetRunRunning(db.runs, job.rid, at));
            MarkedOk(b, log, Back(after)) && RunningOk(b, log, Back(after))
  {
  }

  lemma MarkKeeps(s: State, step: Step)
    requires LedgerInv(s) && DispatchInv(s) && Guard(s, step) && step.act == Loop(MarkRunning)
    ensures DispatchInv(Do(s, step))
  {
    var job, after := s.ctl.job, s.ctl.after;
    var b := s.db.(runs := SetRunRunning(s.db.runs, job.rid, step.at));
    assert Do(s, step) == State(step.at, b, Back(after), s.log);
    MoveFollows(s.db, s.ctl, s.log, step.at, MarkRunning);
    MarkStarts(s.db, s.log, job, after, step.at);
    StillPlanned(s.db, b, s.log, s.log, s.ctl);
    StillLaunched(s.db, b, s.log, s.log);
  }

  /** The log of a statement that launches nothing. */
  lemma RestLog(db: Db, ctl: Control, log: Log, at: Time, m: Move)
    requires MoveGuard(db, ctl, log, at, m) && !m.DispatchOk?
    ensures var log' := MoveLog(db, ctl, log, at, m);
            log'.launches == log.launches && log.unmarked <= log'.unmarked
  {
  }

  /** A run that stops being the one marked has been marked or is noted as not. */
  lemma RestMarked(db: Db, ctl: Control, log: Log, at: Time, m: Move)
    requires MoveGuard(db, ctl, log, at, m) && !m.DispatchOk? && !m.MarkRunning?
    requires MarkedOk(db, log, ctl) && RunningOk(db, log, ctl)
    ensures MarkedOk(db, MoveLog(db, ctl, log, at, m), MoveCtl(db, ctl, log, at, m))
    ensures RunningOk(db, MoveLog(db, ctl, log, at, m), MoveCtl(db, ctl, log, at, m))
  {
    RestLog(db, ctl, log, at, m);
    var log' := MoveLog(db, ctl, log, at, m);
    assert forall rid :: Launched(log', rid) <==> Launched(log, rid);
    assert !MoveCtl(db, ctl, log, at, m).Mark?;
    assert ctl.Mark? ==> ctl.job.rid in log'.unmarked;
  }

  lemma RestPlans(db: Db, ctl: Control, log: Log, now: Time, at: Time, m: Move)
    requires MoveGuard(db, ctl, log, at, m) && !m.DispatchOk? && now <= at
    requires Rows(db, now) && RowsFired(db) && PlanSound(db, now, ctl)
    requires ConcurrentSeen(db) && LaunchesOk(db, log) && MarkedOk(db, log, ctl) && PlanOk(db, log, ctl)
    ensures PlanOk(MoveDb(db, ctl, log, at, m), MoveLog(db, ctl, log, at, m), MoveCtl(db, ctl, log, at, m))
  {
    if m.InsertScheduled? {
      InsertPlans(db, log, ctl.due, at, m.rid, m.nonce, m.next);
    } else {
      NextPlanOk(db, ctl, log, now, at, m);
      MoveFollows(db, ctl, log, at, m);
      RestLog(db, ctl, log, at, m);
      StillPlanned(db, MoveDb(db, ctl, log, at, m), log, MoveLog(db, ctl, log, at, m), MoveCtl(db, ctl, log, at, m));
    }
  }

  /** Tables change, or nothing does, but no runner is launched or marked. */
  lemma RestKeeps(s: State, step: Step)
    requires LedgerInv(s) && DispatchInv(s) && Guard(s, step) && step.act.Loop?
    requires !step.act.move.DispatchOk? && !step.act.move.MarkRunning?
    ensures DispatchInv(Do(s, step))
  {
    var m := step.act.move;
    var b, log' := MoveDb(s.db, s.ctl, s.log, step.at, m), MoveLog(s.db, s.ctl, s.log, step.at, m);
    var to := MoveCtl(s.db, s.ctl, s.log, step.at, m);
    MoveFollows(s.db, s.ctl, s.log, step.at, m);
    MoveStill(s.db, s.ctl, s.log, step.at, m);
    RestLog(s.db, s.ctl, s.log, step.at, m);
    RestMarked(s.db, s.ctl, s.log, step.at, m);
    StillLaunched(s.db, b, s.log, log');
    assert LaunchesOk(s.db, log');
    StillMarked(s.db, b, log', log', to);
    StillRunning(s.db, b, log', log', to);
    RestPlans(s.db, s.ctl, s.log, s.now, step.at, m);
  }

  lemma DispatchInvKept(s: State, step: Step)
    requires LedgerInv(s) && DispatchInv(s) && Guard(s, step)
    ensures DispatchInv(Do(s, step))
  {
    if step.act.Env? { EventKeepsDispatch(s, step); }
    else if step.act.move.DispatchOk? { LaunchKeeps(s, step); }
    else if step.act.move.MarkRunning? { MarkKeeps(s, step); }
    else { RestKeeps(s, step); }
  }

  lemma {:induction false} DispatchInvAlways(s: State, steps: seq<Step>)
    requires LedgerInv(s) && DispatchInv(s) && Legal(s, steps)
    ensures LedgerInv(Exec(s, steps)) && DispatchInv(Exec(s, steps))
    decreases |steps|
  {
    if steps != [] {
      LedgerKept(s, steps[0]);
      DispatchInvKept(s, steps[0]);
      DispatchInvAlways(Do(s, steps[0]), steps[1..]);
    }
  }

  // ----- what this means for every reachable state -----

  /**
   * A schedule that was never on the concurrent policy has at most one running scheduled
   * run, and that run is the oldest of its active scheduled ones; in fire time too, as long
   * as fire times are not reused.
   */
  lemma RunningIsOldestActive(s: State, steps: seq<Step>, a: RunId, b: RunId)
    requires Init(s) && Legal(s, steps)
    requires var db := Exec(s, steps).db;
             && a in db.runs && b in db.runs && a != b
             && db.runs[a].Scheduled() && db.runs[b].Scheduled() && db.runs[a].sid == db.runs[b].sid
             && db.runs[a].sid !in db.everConcurrent
             && db.runs[a].status == Running && db.runs[b].status.Active()
    ensures var db := Exec(s, steps).db;
            && db.runs[b].status == Pending
            && db.runs[a].createdAt < db.runs[b].createdAt
            && (AllCurrent(s, steps) ==> db.runs[a].fireTime.value < db.runs[b].fireTime.value)
  {
    DispatchInvAlways(s, steps);
    var t := Exec(s, steps);
    OlderThanLaunched(t, a, b);
    if t.db.runs[b].status == Running { OlderThanLaunched(t, b, a); }
    if AllCurrent(s, steps) {
      FireInvAlways(s, steps);
      RecordedOrder(t.db, t.now, JobOf(a, t.db.runs[a]), JobOf(b, t.db.runs[b]));
    }
  }

  /** Nothing active is older than a running run. */
  lemma OlderThanLaunched(t: State, a: RunId, b: RunId)
    requires LedgerInv(t) && DispatchInv(t)
    requires a in t.db.runs && b in t.db.runs && a != b
    requires t.db.runs[a].Scheduled() && t.db.runs[b].Scheduled() && t.db.runs[a].sid == t.db.runs[b].sid
    requires t.db.runs[a].sid !in t.db.everConcurrent
    requires t.db.runs[a].status == Running && t.db.runs[b].status.Active()
    ensures t.db.runs[a].createdAt < t.db.runs[b].createdAt
  {
    assert Launched(t.log, a);
    var i :| 0 <= i < |t.log.launches| && t.log.launches[i].rid == a;
    assert Ready(t.db, t.log.launches[i]);
  }

  /** Recorded jobs of one schedule are told apart by creation, and with fires in order fire in that order. */
  lemma RecordedOrder(db: Db, now: Time, a: Job, b: Job)
    requires FiresOk(db, now) && a.fire.Some? && b.fire.Some? && a.sid == b.sid
    requires FireOf(a) in db.fires && FireOf(b) in db.fires
    ensures FiresRise(db.fires) && a.created < b.created ==> a.fire.value < b.fire.value
    ensures a.created == b.created ==> a == b
  {
    var i :| 0 <= i < |db.fires| && db.fires[i] == FireOf(a);
    var j :| 0 <= j < |db.fires| && db.fires[j] == FireOf(b);
  }

  /**
   * Runners of one never-concurrent schedule are launched in the order their runs were
   * created, or the very same run again; in fire-time order too, as long as fire times are
   * not reused.
   */
  lemma LaunchedInFireOrder(s: State, steps: seq<Step>, i: int, j: int)
    requires Init(s) && Legal(s, steps)
    requires var t := Exec(s, steps);
             0 <= i < j < |t.log.launches| && Rivals(t.db, t.log.launches[i], t.log.launches[j])
    ensures var l := Exec(s, steps).log.launches;
            l[i] == l[j] || (l[i].created < l[j].created
                             && (AllCurrent(s, steps) ==> l[i].fire.value < l[j].fire.value))
  {
    DispatchInvAlways(s, steps);
    var t := Exec(s, steps);
    assert Recorded(t.db, t.log.launches[i]) && Recorded(t.db, t.log.launches[j]);
    RecordedOrder(t.db, t.now, t.log.launches[i], t.log.launches[j]);
    if AllCurrent(s, steps) { FireInvAlways(s, steps); }
  }

  /** A run launched twice is one whose mark-running statement did not complete. */
  lemma LaunchedTwiceOnlyIfUnmarked(s: State, steps: seq<Step>, i: int, j: int)
    requires Init(s) && Legal(s, steps)
    requires 0 <= i < j < |Exec(s, steps).log.launches|
    requires Exec(s, steps).log.launches[i].rid == Exec(s, steps).log.launches[j].rid
    ensures Exec(s, steps).log.launches[i].rid in Exec(s, steps).log.unmarked
  {
    DispatchInvAlways(s, steps);
  }

  // ----- the mark-running statements that did not complete, read off the steps -----

  /** Every mark-running statement the loop reached completed without an error. */
  ghost predicate MarksSucceed(s: State, steps: seq<Step>)
    requires Legal(s, steps)
    decreases |steps|
  {
    steps == [] ||
    (&& !(s.ctl.Mark? && (steps[0].act == Loop(MarkError) || steps[0].act == Loop(Crash)))
     && MarksSucceed(Do(s, steps[0]), steps[1..]))
  }

  lemma {:induction false} UnmarkedStaysEmpty(s: State, steps: seq<Step>)
    requires Legal(s, steps) && MarksSucceed(s, steps)
    ensures Exec(s, steps).log.unmarked == s.log.unmarked
    decreases |steps|
  {
    if steps != [] { UnmarkedStaysEmpty(Do(s, steps[0]), steps[1..]); }
  }

  /** If mark-running never errors, every run is launched at most once. */
  lemma LaunchedAtMostOnce(s: State, steps: seq<Step>)
    requires Init(s) && Legal(s, steps) && MarksSucceed(s, steps)
    ensures var l := Exec(s, steps).log.launches;
            forall i, j :: 0 <= i < j < |l| ==> l[i].rid != l[j].rid
  {
    UnmarkedStaysEmpty(s, steps);
    DispatchInvAlways(s, steps);
  }

  /** The schedule is on another policy than concurrent in every state of the run. */
  ghost predicate NeverConcurrent(s: State, steps: seq<Step>, sid: ScheduleId)
    requires Legal(s, steps)
    decreases |steps|
  {
    && (sid in s.db.schedules ==> s.db.schedules[sid].policy != Concurrent)
    && (steps == [] || NeverConcurrent(Do(s, steps[0]), steps[1..], sid))
  }

  /** `everConcurrent` is exactly what its name says. */
  lemma {:induction false} EverConcurrentIsSeen(s: State, steps: seq<Step>, sid: ScheduleId)
    requires Legal(s, steps) && sid !in s.db.everConcurrent && NeverConcurrent(s, steps, sid)
    ensures sid !in Exec(s, steps).db.everConcurrent
    decreases |steps|
  {
    if steps != [] {
      assert sid !in Do(s, steps[0]).db.everConcurrent;
      EverConcurrentIsSeen(Do(s, steps[0]), steps[1..], sid);
    }
  }

  /** A schedule kept on skip or queue never has two scheduled runs running. */
  lemma OneRunningPerSchedule(s: State, steps: seq<Step>, sid: ScheduleId, a: RunId, b: RunId)
    requires Init(s) && Legal(s, steps) && NeverConcurrent(s, steps, sid)
    requires var runs := Exec(s, steps).db.runs;
             && a in runs && b in runs && runs[a].sid == sid && runs[b].sid == sid
             && runs[a].Scheduled() && runs[b].Scheduled()
             && runs[a].status == Running && runs[b].status == Running
    ensures a == b
  {
    EverConcurrentIsSeen(s, steps, sid);
    if a != b { RunningIsOldestActive(s, steps, a, b); }
  }
}
