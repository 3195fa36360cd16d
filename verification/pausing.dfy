/** What an operator's pause and resume do to the row, and to the loop. */
module Pausing {
  import opened Options
  import opened Schema
  import opened Machine
  import opened Lifecycle
  import opened AutoPausing

  /**
   * The row is enabled exactly as asked. A resume clears auto_paused_at, a pause leaves it;
   * the window moves only when a disabled schedule is resumed. Nothing else changes.
   */
  lemma ToggleSets(s: State, step: Step, sid: ScheduleId, on: bool)
    requires Guard(s, step) && step.act == Env(Toggle(sid, on))
    ensures var t := Do(s, step);
            && t.db.schedules.Keys == s.db.schedules.Keys
            && (forall other :: other in s.db.schedules && other != sid ==>
                  t.db.schedules[other] == s.db.schedules[other])
            && t.db.runs == s.db.runs && t.ctl == s.ctl && t.log == s.log
            && var before, after := s.db.schedules[sid], t.db.schedules[sid];
               && after.enabled == on
               && (on ==> after.autoPausedAt == None)
               && (!on ==> after.autoPausedAt == before.autoPausedAt)
               && (on && !before.enabled ==> after.lastEnabledAt == step.at)
               && (!on || before.enabled ==> after.lastEnabledAt == before.lastEnabledAt)
               && after == before.(enabled := after.enabled, autoPausedAt := after.autoPausedAt,
                                   lastEnabledAt := after.lastEnabledAt, updatedAt := step.at)
  {
  }

  // ----- a paused schedule is left in peace -----

  predicate NoSnap(due: seq<Snap>, sid: ScheduleId) {
    forall i :: 0 <= i < |due| ==> due[i].sid != sid
  }

  predicate NoJob(jobs: seq<Job>, sid: ScheduleId) {
    forall i :: 0 <= i < |jobs| ==> jobs[i].sid != sid
  }

  predicate NotAfter(after: Return, sid: ScheduleId) {
    match after
    case ToDue(due) => NoSnap(due, sid)
    case ToDrain(jobs) => NoJob(jobs, sid)
  }

  /** The loop has nothing of this schedule in hand. */
  predicate NotInHand(ctl: Control, sid: ScheduleId) {
    match ctl
    case Due(due) => NoSnap(due, sid)
    case Advance(cur, job, _, _, due) => cur.sid != sid && job.sid != sid && NoSnap(due, sid)
    case Count(cur, job, due) => cur.sid != sid && job.sid != sid && NoSnap(due, sid)
    case Discard(cur, job, due) => cur.sid != sid && job.sid != sid && NoSnap(due, sid)
    case Sign(job, after) => job.sid != sid && NotAfter(after, sid)
    case Launch(job, _, after) => job.sid != sid && NotAfter(after, sid)
    case Mark(job, after) => job.sid != sid && NotAfter(after, sid)
    case Drain(jobs) => NoJob(jobs, sid)
    case _ => true
  }

  /** From `a` to `b` nothing was fired and nothing launched for this schedule. */
  ghost predicate NothingFor(a: State, b: State, sid: ScheduleId) {
    && a.db.fires <= b.db.fires && a.log.launches <= b.log.launches
    && (forall i :: |a.db.fires| <= i < |b.db.fires| ==> b.db.fires[i].sid != sid)
    && (forall i :: |a.log.launches| <= i < |b.log.launches| ==> b.log.launches[i].sid != sid)
  }

  lemma DisabledIsNotDue(s: Schedules, at: Time, due: seq<Snap>, sid: ScheduleId)
    requires IsDueList(s, at, due) && (sid in s ==> !s[sid].enabled)
    ensures NoSnap(due, sid)
  {
    forall i | 0 <= i < |due| ensures due[i].sid != sid { assert IsDue(s, at, due[i].sid); }
  }

  lemma DisabledIsNotDrained(s: Schedules, runs: Runs, jobs: seq<Job>, sid: ScheduleId)
    requires IsDrainList(s, runs, jobs) && (sid in s ==> !s[sid].enabled)
    ensures NoJob(jobs, sid)
  {
    forall i | 0 <= i < |jobs| ensures jobs[i].sid != sid { assert IsDrainable(s, runs, jobs[i].rid); }
  }

  lemma HandStaysClear(db: Db, ctl: Control, log: Log, at: Time, m: Move, sid: ScheduleId)
    requires MoveGuard(db, ctl, log, at, m) && NotInHand(ctl, sid)
    requires sid in db.schedules ==> !db.schedules[sid].enabled
    ensures NotInHand(MoveCtl(db, ctl, log, at, m), sid)
  {
    if m.ListDue? { DisabledIsNotDue(db.schedules, at, m.due, sid); }
    if m.SelectPending? { DisabledIsNotDrained(db.schedules, db.runs, m.jobs, sid); }
  }

  lemma NothingByMove(s: State, step: Step, sid: ScheduleId)
    requires Guard(s, step) && step.act.Loop? && NotInHand(s.ctl, sid)
    ensures NothingFor(s, Do(s, step), sid)
  {
  }

  lemma QuietStep(s: State, step: Step, sid: ScheduleId)
    requires Guard(s, step) && NotInHand(s.ctl, sid) && (sid in s.db.schedules ==> !s.db.schedules[sid].enabled)
    ensures NotInHand(Do(s, step).ctl, sid) && NothingFor(s, Do(s, step), sid)
  {
    if step.act.Loop? {
      HandStaysClear(s.db, s.ctl, s.log, step.at, step.act.move, sid);
      NothingByMove(s, step, sid);
    }
  }

  /** The schedule is disabled, or gone, in every state of the run. */
  ghost predicate StaysPaused(s: State, steps: seq<Step>, sid: ScheduleId)
    requires Legal(s, steps)
    decreases |steps|
  {
    && (sid in s.db.schedules ==> !s.db.schedules[sid].enabled)
    && (steps == [] || StaysPaused(Do(s, steps[0]), steps[1..], sid))
  }

  lemma {:induction false} QuietWhilePaused(s: State, steps: seq<Step>, sid: ScheduleId)
    requires Legal(s, steps) && NotInHand(s.ctl, sid) && StaysPaused(s, steps, sid)
    ensures NothingFor(s, Exec(s, steps), sid)
    decreases |steps|
  {
    if steps != [] {
      QuietStep(s, steps[0], sid);
      QuietWhilePaused(Do(s, steps[0]), steps[1..], sid);
    }
  }

  /**
   * After an operator's pause, as soon as the loop has nothing of the schedule in hand, no
   * run of it is fired or launched, manual ones included, until it is enabled again.
   */
  lemma PausedIsLeftAlone(s: State, pause: Step, steps: seq<Step>, sid: ScheduleId)
    requires Guard(s, pause) && pause.act == Env(Toggle(sid, false)) && NotInHand(s.ctl, sid)
    requires Legal(Do(s, pause), steps)
    requires steps != [] ==> StaysPaused(Do(Do(s, pause), steps[0]), steps[1..], sid)
    ensures NothingFor(s, Exec(Do(s, pause), steps), sid)
  {
    ToggleSets(s, pause, sid, false);
    QuietWhilePaused(Do(s, pause), steps, sid);
  }
}
