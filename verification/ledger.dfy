/** What the tables, the record of fires and the loop's plan agree on, whatever happens. */
module Ledger {
  import opened Options
  import opened Schema
  import opened Machine
  import opened Lifecycle

  /** Foreign keys, ids and creation instants of the rows. */
  ghost predicate Rows(db: Db, now: Time) {
    && db.lastCreated <= now && db.lastSweep <= now
    && db.schedules.Keys <= db.usedSchedules
    && (forall sid :: sid in db.schedules ==> db.schedules[sid].lastEnabledAt <= now)
    && (forall rid :: rid in db.runs ==>
          && rid in db.usedRuns && db.runs[rid].sid in db.schedules
          && db.runs[rid].createdAt <= db.lastCreated && SweepBase(db.runs[rid]) <= now)
    && (forall a, b :: a in db.runs && b in db.runs && a != b ==> db.runs[a].createdAt != db.runs[b].createdAt)
  }

  function FireOf(job: Job): Fire
    requires job.fire.Some?
  {
    Fire(job.rid, job.sid, job.fire.value, job.created)
  }

  /** Every scheduled row is on record as a fire. */
  ghost predicate RowsFired(db: Db) {
    forall rid :: rid in db.runs && db.runs[rid].Scheduled() ==> FireOf(JobOf(rid, db.runs[rid])) in db.fires
  }

  /** Fires are recorded one after another, none before its time. */
  ghost predicate FiresOk(db: Db, now: Time) {
    && (forall i :: 0 <= i < |db.fires| ==>
          && db.fires[i].sid in db.usedSchedules && db.fires[i].rid in db.usedRuns
          && db.fires[i].time <= now && db.fires[i].created <= db.lastCreated)
    && (forall i, j :: 0 <= i < j < |db.fires| ==> db.fires[i].created < db.fires[j].created)
  }

  /** The row a job was made from, if it is still there. */
  ghost predicate JobOk(db: Db, job: Job) {
    && job.rid in db.usedRuns
    && (job.rid in db.runs ==> job == JobOf(job.rid, db.runs[job.rid]))
  }

  ghost predicate JobsOk(db: Db, jobs: seq<Job>) {
    forall i :: 0 <= i < |jobs| ==> JobOk(db, jobs[i])
  }

  /** Schedules still to be processed: read once each, at or after their fire time. */
  ghost predicate SnapsOk(db: Db, now: Time, due: seq<Snap>) {
    && (forall i, j :: 0 <= i < j < |due| ==> due[i].sid != due[j].sid)
    && (forall i :: 0 <= i < |due| ==> due[i].fire <= now && due[i].sid in db.usedSchedules)
  }

  ghost predicate ReturnOk(db: Db, now: Time, r: Return) {
    match r
    case ToDue(due) => SnapsOk(db, now, due)
    case ToDrain(jobs) => JobsOk(db, jobs)
  }

  /** The schedule being processed is not waiting in `due`. */
  ghost predicate CurOk(db: Db, now: Time, cur: Snap, job: Job, due: seq<Snap>) {
    && SnapsOk(db, now, due)
    && (forall i :: 0 <= i < |due| ==> due[i].sid != cur.sid)
    && cur.fire <= now && cur.sid in db.usedSchedules
    && job.sid == cur.sid && job.fire == Some(cur.fire)
  }

  /** A job for a fresh row: the row and its fire are on record. */
  ghost predicate FreshOk(db: Db, job: Job) {
    JobOk(db, job) && job.fire.Some? && FireOf(job) in db.fires
  }

  ghost predicate PlanSound(db: Db, now: Time, ctl: Control) {
    match ctl
    case Due(due) => SnapsOk(db, now, due)
    case Advance(cur, job, isNew, next, due) =>
      CurOk(db, now, cur, job, due) && next > cur.fire && (isNew ==> FreshOk(db, job))
    case Count(cur, job, due) => CurOk(db, now, cur, job, due) && FreshOk(db, job)
    case Discard(cur, job, due) => CurOk(db, now, cur, job, due) && FreshOk(db, job)
    case Sign(job, after) => JobOk(db, job) && ReturnOk(db, now, after)
    case Launch(job, tok, after) => JobOk(db, job) && ReturnOk(db, now, after)
    case Mark(job, after) => JobOk(db, job) && ReturnOk(db, now, after)
    case Drain(jobs) => JobsOk(db, jobs)
    case _ => true
  }

  ghost predicate LedgerInv(s: State) {
    Rows(s.db, s.now) && RowsFired(s.db) && FiresOk(s.db, s.now) && PlanSound(s.db, s.now, s.ctl)
  }

  // ----- one statement, table by table -----

  lemma InsertedRows(db: Db, now: Time, at: Time, rid: RunId, r: Run)
    requires Rows(db, now) && now <= at && rid !in db.usedRuns && r.createdAt == at > db.lastCreated
    requires r.sid in db.schedules && r.startedAt.None?
    ensures Rows(InsertRow(db, rid, r), at)
  {
  }

  /** Rows rewritten in place keep what identifies them. */
  lemma RewrittenRows(db: Db, runs: Runs, sweep: Time, now: Time, at: Time)
    requires Rows(db, now) && now <= at && sweep <= at && runs.Keys == db.runs.Keys
    requires forall rid :: rid in runs ==>
               && runs[rid].sid == db.runs[rid].sid && runs[rid].createdAt == db.runs[rid].createdAt
               && SweepBase(runs[rid]) <= at
    ensures Rows(db.(runs := runs, lastSweep := sweep), at)
  {
  }

  lemma SignedRows(db: Db, now: Time, at: Time, rid: RunId, hash: string)
    requires Rows(db, now) && now <= at
    ensures Rows(db.(runs := SetTokenHash(db.runs, rid, hash)), at)
  {
    RewrittenRows(db, SetTokenHash(db.runs, rid, hash), db.lastSweep, now, at);
  }

  lemma MarkedRows(db: Db, now: Time, at: Time, rid: RunId)
    requires Rows(db, now) && now <= at
    ensures Rows(db.(runs := SetRunRunning(db.runs, rid, at)), at)
  {
    RewrittenRows(db, SetRunRunning(db.runs, rid, at), db.lastSweep, now, at);
  }

  lemma SweptRows(db: Db, now: Time, at: Time)
    requires Rows(db, now) && now <= at
    ensures Rows(db.(runs := OrphanSweep(db.runs, db.schedules, at), lastSweep := at), at)
  {
    RewrittenRows(db, OrphanSweep(db.runs, db.schedules, at), at, now, at);
  }

  lemma MoveRows(db: Db, ctl: Control, log: Log, now: Time, at: Time, m: Move)
    requires MoveGuard(db, ctl, log, at, m) && now <= at && Rows(db, now)
    ensures Rows(MoveDb(db, ctl, log, at, m), at)
  {
    if m.InsertScheduled? {
      InsertedRows(db, now, at, m.rid, NewRun(ctl.due[0].sid, Some(ctl.due[0].fire), at, m.nonce));
    } else if m.SignToken? {
      SignedRows(db, now, at, m.tok.rid, m.tok.hash);
    } else if m.MarkRunning? {
      MarkedRows(db, now, at, ctl.job.rid);
    } else if m.SweepOrphans? {
      SweptRows(db, now, at);
    }
  }

  lemma EventRows(db: Db, log: Log, now: Time, at: Time, e: Event)
    requires EventGuard(db, log, at, e) && now <= at && Rows(db, now)
    ensures Rows(EventDb(db, log, at, e), at)
  {
    if e.RunNow? { InsertedRows(db, now, at, e.rid, NewRun(e.sid, None, at, e.nonce)); }
  }

  /** The fires recorded so far stay, and a later row of a table is an old one or a new one with its fire. */
  ghost predicate Keeps(a: Db, b: Db) {
    && DbFollows(a, b) && a.usedSchedules <= b.usedSchedules
    && (forall rid :: rid in b.runs && rid !in a.runs && b.runs[rid].Scheduled() ==>
          FireOf(JobOf(rid, b.runs[rid])) in b.fires)
  }

  lemma StillRecorded(a: Db, b: Db, f: Fire)
    requires DbFollows(a, b) && f in a.fires
    ensures f in b.fires
  {
    var i :| 0 <= i < |a.fires| && a.fires[i] == f;
    assert b.fires[i] == f;
  }

  lemma KeepsFired(a: Db, b: Db)
    requires Keeps(a, b) && RowsFired(a)
    ensures RowsFired(b)
  {
    forall rid | rid in b.runs && b.runs[rid].Scheduled() ensures FireOf(JobOf(rid, b.runs[rid])) in b.fires {
      if rid in a.runs { StillRecorded(a, b, FireOf(JobOf(rid, a.runs[rid]))); }
    }
  }

  lemma KeepsJob(a: Db, b: Db, job: Job)
    requires Keeps(a, b)
    ensures JobOk(a, job) ==> JobOk(b, job)
    ensures FreshOk(a, job) ==> FreshOk(b, job)
  {
    if FreshOk(a, job) { StillRecorded(a, b, FireOf(job)); }
  }

  lemma KeepsReturn(a: Db, b: Db, now: Time, at: Time, r: Return)
    requires Keeps(a, b) && now <= at && ReturnOk(a, now, r)
    ensures ReturnOk(b, at, r)
  {
    if r.ToDrain? {
      forall i | 0 <= i < |r.jobs| ensures JobOk(b, r.jobs[i]) { KeepsJob(a, b, r.jobs[i]); }
    }
  }

  /** A plan that the loop does not touch stays sound. */
  lemma KeepsPlan(a: Db, b: Db, now: Time, at: Time, ctl: Control)
    requires Keeps(a, b) && now <= at && PlanSound(a, now, ctl)
    ensures PlanSound(b, at, ctl)
  {
    if
    case ctl.Advance? || ctl.Count? || ctl.Discard? => KeepsJob(a, b, ctl.job);
    case ctl.Sign? || ctl.Launch? || ctl.Mark? => KeepsJob(a, b, ctl.job); KeepsReturn(a, b, now, at, ctl.after);
    case ctl.Drain? => KeepsReturn(a, b, now, at, ToDrain(ctl.jobs));
    case ctl.Idle? || ctl.Due? || ctl.Select? || ctl.Sweep? =>
  }

  lemma InsertKeeps(db: Db, sid: ScheduleId, fire: Time, at: Time, rid: RunId, nonce: string)
    requires db.runs.Keys <= db.usedRuns && rid !in db.usedRuns && at > db.lastCreated
    ensures Keeps(db, InsertFire(db, sid, fire, at, rid, nonce))
  {
    var t := InsertFire(db, sid, fire, at, rid, nonce);
    if !HasFire(db.runs, sid, fire) { assert t.fires[|db.fires|] == Fire(rid, sid, fire, at); }
  }

  lemma MoveIsKept(db: Db, ctl: Control, log: Log, at: Time, m: Move)
    requires MoveGuard(db, ctl, log, at, m) && db.runs.Keys <= db.usedRuns
    ensures Keeps(db, MoveDb(db, ctl, log, at, m))
  {
    if m.InsertScheduled? {
      InsertKeeps(db, ctl.due[0].sid, ctl.due[0].fire, at, m.rid, m.nonce);
    } else {
      MoveFollows(db, ctl, log, at, m);
    }
  }

  lemma EventIsKept(db: Db, log: Log, at: Time, e: Event)
    requires EventGuard(db, log, at, e) && db.runs.Keys <= db.usedRuns
    ensures Keeps(db, EventDb(db, log, at, e))
  {
    EventFollows(db, log, at, e);
  }

  // ----- the record of fires -----

  lemma MoveFires(db: Db, ctl: Control, log: Log, now: Time, at: Time, m: Move)
    requires MoveGuard(db, ctl, log, at, m) && now <= at && Rows(db, now) && FiresOk(db, now)
    requires PlanSound(db, now, ctl)
    ensures FiresOk(MoveDb(db, ctl, log, at, m), at)
  {
    var t := MoveDb(db, ctl, log, at, m);
    if m.InsertScheduled? && !HasFire(db.runs, ctl.due[0].sid, ctl.due[0].fire) {
      assert forall i :: 0 <= i < |db.fires| ==> t.fires[i] == db.fires[i];
    } else {
      assert t.fires == db.fires;
    }
  }

  lemma EventFires(db: Db, log: Log, now: Time, at: Time, e: Event)
    requires EventGuard(db, log, at, e) && now <= at && FiresOk(db, now)
    ensures FiresOk(EventDb(db, log, at, e), at)
  {
    var t := EventDb(db, log, at, e);
    assert t.fires == db.fires && db.lastCreated <= t.lastCreated;
  }

  // ----- the plan -----

  lemma ListedSnaps(db: Db, at: Time, due: seq<Snap>)
    requires db.schedules.Keys <= db.usedSchedules && IsDueList(db.schedules, at, due)
    ensures SnapsOk(db, at, due)
  {
    forall i | 0 <= i < |due| ensures due[i].fire <= at && due[i].sid in db.usedSchedules {
      assert IsDue(db.schedules, at, due[i].sid);
    }
  }

  lemma SelectedJobs(db: Db, jobs: seq<Job>)
    requires db.runs.Keys <= db.usedRuns && IsDrainList(db.schedules, db.runs, jobs)
    ensures JobsOk(db, jobs)
  {
    forall i | 0 <= i < |jobs| ensures JobOk(db, jobs[i]) {
      assert IsDrainable(db.schedules, db.runs, jobs[i].rid);
    }
  }

  lemma FewerSnaps(db: Db, now: Time, due: seq<Snap>)
    requires due != [] && SnapsOk(db, now, due)
    ensures SnapsOk(db, now, due[1..])
    ensures forall i :: 0 <= i < |due[1..]| ==> due[1..][i].sid != due[0].sid
  {
  }

  lemma InsertPlan(db: Db, now: Time, at: Time, due: seq<Snap>, rid: RunId, nonce: string, next: Time)
    requires due != [] && SnapsOk(db, now, due) && now <= at && next > due[0].fire
    requires db.runs.Keys <= db.usedRuns && rid !in db.usedRuns && at > db.lastCreated
    ensures var cur := due[0];
            var t := InsertFire(db, cur.sid, cur.fire, at, rid, nonce);
            PlanSound(t, at,
                      Advance(cur, Job(rid, cur.sid, Some(cur.fire), at), !HasFire(db.runs, cur.sid, cur.fire), next,
                              due[1..]))
  {
    FewerSnaps(db, now, due);
    var t := InsertFire(db, due[0].sid, due[0].fire, at, rid, nonce);
    if !HasFire(db.runs, due[0].sid, due[0].fire) {
      assert t.fires[|db.fires|] == Fire(rid, due[0].sid, due[0].fire, at);
    }
  }

  /** Where the loop goes without writing or with a write that leaves its plan alone. */
  lemma NextPlan(db: Db, ctl: Control, log: Log, now: Time, at: Time, m: Move)
    requires MoveGuard(db, ctl, log, at, m) && Rows(db, now) && now <= at && !m.InsertScheduled?
    requires PlanSound(db, at, ctl)
    ensures PlanSound(db, at, MoveCtl(db, ctl, log, at, m))
  {
    if
    case m.ListDue? => ListedSnaps(db, at, m.due);
    case m.SelectPending? => SelectedJobs(db, m.jobs);
    case m.FireError? => FewerSnaps(db, at, ctl.due);
    case !m.ListDue? && !m.SelectPending? && !m.FireError? =>
  }

  lemma MovePlan(db: Db, ctl: Control, log: Log, now: Time, at: Time, m: Move)
    requires MoveGuard(db, ctl, log, at, m) && Rows(db, now) && now <= at && PlanSound(db, now, ctl)
    ensures PlanSound(MoveDb(db, ctl, log, at, m), at, MoveCtl(db, ctl, log, at, m))
  {
    if m.InsertScheduled? {
      InsertPlan(db, now, at, ctl.due, m.rid, m.nonce, m.next);
    } else {
      KeepsPlan(db, db, now, at, ctl);
      NextPlan(db, ctl, log, now, at, m);
      MoveIsKept(db, ctl, log, at, m);
      KeepsPlan(db, MoveDb(db, ctl, log, at, m), at, at, MoveCtl(db, ctl, log, at, m));
    }
  }

  // ----- every step -----

  lemma LedgerMove(s: State, step: Step)
    requires LedgerInv(s) && Guard(s, step) && step.act.Loop?
    ensures LedgerInv(Do(s, step))
  {
    var m := step.act.move;
    MoveRows(s.db, s.ctl, s.log, s.now, step.at, m);
    MoveIsKept(s.db, s.ctl, s.log, step.at, m);
    KeepsFired(s.db, MoveDb(s.db, s.ctl, s.log, step.at, m));
    MoveFires(s.db, s.ctl, s.log, s.now, step.at, m);
    MovePlan(s.db, s.ctl, s.log, s.now, step.at, m);
  }

  lemma LedgerEvent(s: State, step: Step)
    requires LedgerInv(s) && Guard(s, step) && step.act.Env?
    ensures LedgerInv(Do(s, step))
  {
    var e := step.act.event;
    var t := EventDb(s.db, s.log, step.at, e);
    EventRows(s.db, s.log, s.now, step.at, e);
    EventIsKept(s.db, s.log, step.at, e);
    KeepsFired(s.db, t);
    EventFires(s.db, s.log, s.now, step.at, e);
    KeepsPlan(s.db, t, s.now, step.at, s.ctl);
  }

  lemma LedgerKept(s: State, step: Step)
    requires LedgerInv(s) && Guard(s, step)
    ensures LedgerInv(Do(s, step))
  {
    if step.act.Loop? { LedgerMove(s, step); } else { LedgerEvent(s, step); }
  }

  lemma {:induction false} LedgerAlways(s: State, steps: seq<Step>)
    requires LedgerInv(s) && Legal(s, steps)
    ensures LedgerInv(Exec(s, steps))
    decreases |steps|
  {
    if steps != [] {
      LedgerKept(s, steps[0]);
      LedgerAlways(Do(s, steps[0]), steps[1..]);
    }
  }
}
