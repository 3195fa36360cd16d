/** What an auto-pause evaluation has read still stands when it acts on it. */
module Evidence {
  import opened Schema
  import opened Machine
  import opened Lifecycle
  import opened Ledger
  import opened AutoPausing

  /** A run nobody has been given: pending for as long as its row stands. */
  ghost predicate Untouched(db: Db, log: Log, job: Job) {
    && job.rid in db.usedRuns && job.rid !in log.attempted
    && (job.rid in db.runs ==> db.runs[job.rid].status == Pending)
  }

  /** The loop has a fresh row in hand that it may still delete. */
  predicate Undecided(ctl: Control) {
    ctl.Count? || ctl.Discard? || (ctl.Advance? && ctl.isNew)
  }

  ghost predicate FreshUntouched(db: Db, log: Log, ctl: Control) {
    log.attempted <= db.usedRuns && (Undecided(ctl) ==> Untouched(db, log, ctl.job))
  }

  ghost predicate EvidenceInv(s: State) {
    LedgerInv(s) && EndInv(s) && FreshUntouched(s.db, s.log, s.ctl)
  }

  lemma MoveUntouched(db: Db, ctl: Control, log: Log, now: Time, at: Time, m: Move)
    requires MoveGuard(db, ctl, log, at, m) && PlanSound(db, now, ctl) && FreshUntouched(db, log, ctl)
    ensures FreshUntouched(MoveDb(db, ctl, log, at, m), MoveLog(db, ctl, log, at, m), MoveCtl(db, ctl, log, at, m))
  {
  }

  lemma EventUntouched(db: Db, ctl: Control, log: Log, at: Time, e: Event)
    requires EventGuard(db, log, at, e) && TokensOk(ctl, log) && FreshUntouched(db, log, ctl)
    ensures FreshUntouched(EventDb(db, log, at, e), log, ctl)
  {
  }

  lemma EvidenceKept(s: State, step: Step)
    requires EvidenceInv(s) && Guard(s, step)
    ensures EvidenceInv(Do(s, step))
  {
    LedgerKept(s, step);
    EndInvKept(s, step);
    match step.act {
      case Loop(m) => MoveUntouched(s.db, s.ctl, s.log, s.now, step.at, m);
      case Env(e) => EventUntouched(s.db, s.ctl, s.log, step.at, e);
    }
  }

  lemma {:induction false} EvidenceAlways(s: State, steps: seq<Step>)
    requires EvidenceInv(s) && Legal(s, steps)
    ensures EvidenceInv(Exec(s, steps))
    decreases |steps|
  {
    if steps != [] {
      EvidenceKept(s, steps[0]);
      EvidenceAlways(Do(s, steps[0]), steps[1..]);
    }
  }

  /** A step that removes a terminal row removes its schedule. */
  lemma TerminalStaysOneStep(s: State, step: Step, rid: RunId)
    requires EvidenceInv(s) && Guard(s, step) && rid in s.db.runs && s.db.runs[rid].status.Terminal()
    ensures rid in Do(s, step).db.runs || s.db.runs[rid].sid !in Do(s, step).db.schedules
  {
  }

  /** Over any run a terminal row stands, as it was, for as long as its schedule exists. */
  lemma {:induction false} TerminalStays(s: State, steps: seq<Step>, rid: RunId)
    requires EvidenceInv(s) && Legal(s, steps) && rid in s.db.runs && s.db.runs[rid].status.Terminal()
    requires s.db.runs[rid].sid in Exec(s, steps).db.schedules
    ensures rid in Exec(s, steps).db.runs && Follows(s.db.runs[rid], Exec(s, steps).db.runs[rid])
    decreases |steps|
  {
    if steps != [] {
      var t := Do(s, steps[0]);
      TerminalStaysOneStep(s, steps[0], rid);
      StepFollows(s, steps[0]);
      EvidenceKept(s, steps[0]);
      if rid in t.db.runs {
        TerminalStays(t, steps[1..], rid);
      } else {
        StillUsed(s, steps[0]);
        DeletedForGood(t, steps[1..], s.db.runs[rid].sid);
      }
    }
  }

  lemma StillUsed(s: State, step: Step)
    requires Guard(s, step)
    ensures s.db.usedSchedules <= Do(s, step).db.usedSchedules
  {
  }

  /**
   * Between the statement that lists the newest runs and the UPDATE, anyone may run. While
   * the schedule exists, the rows listed stand as they were read, the verdict on them is
   * the same, and last_enabled_at has not gone back behind the window that was read.
   */
  lemma ReadingStands(s: State, steps: seq<Step>, sid: ScheduleId, since: Time, threshold: int, ids: seq<RunId>)
    requires EvidenceInv(s) && Legal(s, steps) && IsNewest(s.db.runs, sid, since, threshold, ids)
    requires sid in Exec(s, steps).db.schedules
    ensures WasNewest(Exec(s, steps).db.runs, sid, since, threshold, ids)
    ensures StreakReached(Exec(s, steps).db.runs, threshold, ids) <==> StreakReached(s.db.runs, threshold, ids)
  {
    var runs := Exec(s, steps).db.runs;
    forall i | 0 <= i < |ids| ensures ids[i] in runs && Follows(s.db.runs[ids[i]], runs[ids[i]]) {
      assert Eligible(s.db.runs, sid, since, ids[i]);
      TerminalStays(s, steps, ids[i]);
    }
  }

  // ----- when acting on an earlier reading is right -----

  /** The schedule is resumed, from disabled, somewhere in the run. */
  ghost predicate Resumed(s: State, steps: seq<Step>, sid: ScheduleId)
    requires Legal(s, steps)
    decreases |steps|
  {
    && steps != []
    && (|| (steps[0].act == Env(Toggle(sid, true)) && !s.db.schedules[sid].enabled)
        || Resumed(Do(s, steps[0]), steps[1..], sid))
  }

  /** The window moves exactly when the schedule is resumed, and then past everything before. */
  lemma {:induction false} WindowMovesIffResumed(s: State, steps: seq<Step>, sid: ScheduleId, t: Time)
    requires EvidenceInv(s) && Legal(s, steps) && sid in s.db.schedules && sid in Exec(s, steps).db.schedules
    requires s.db.schedules[sid].lastEnabledAt <= t <= s.now && (steps != [] ==> t < steps[0].at)
    ensures var window := Exec(s, steps).db.schedules[sid].lastEnabledAt;
            if Resumed(s, steps, sid) then window > t else window == s.db.schedules[sid].lastEnabledAt
    decreases |steps|
  {
    if steps != [] {
      var u := Do(s, steps[0]);
      EvidenceKept(s, steps[0]);
      if sid !in u.db.schedules {
        StillUsed(s, steps[0]);
        DeletedForGood(u, steps[1..], sid);
      } else {
        WindowOnlyMovesOn(s, steps[0], sid);
        if steps[0].act == Env(Toggle(sid, true)) && !s.db.schedules[sid].enabled {
          WindowAfter(u, steps[1..], sid);
        } else {
          WindowMovesIffResumed(u, steps[1..], sid, t);
        }
      }
    }
  }

  /**
   * An evaluation that listed these runs in `s` pauses the schedule after `steps`. Did it
   * act on failures since the schedule was last enabled? Exactly when they were that when it
   * read them and nobody resumed the schedule in between: exactly when last_enabled_at is
   * still what it was.
   */
  lemma LatePauseIsFairIff(s: State, steps: seq<Step>, pause: Step)
    requires EvidenceInv(s) && Legal(s, steps) && (steps != [] ==> s.now < steps[0].at)
    requires Guard(Exec(s, steps), pause) && Flips(Exec(s, steps), pause)
    requires var e := pause.act.event;
             e.sid in s.db.schedules && IsNewest(s.db.runs, e.sid, e.since, e.threshold, e.newest)
    ensures var e, t := pause.act.event, Exec(s, steps);
            var before, now := s.db.schedules[e.sid].lastEnabledAt, t.db.schedules[e.sid].lastEnabledAt;
            && (FailedSince(t.db.runs, e.sid, now, e.newest) <==>
                  FailedSince(s.db.runs, e.sid, before, e.newest) && !Resumed(s, steps, e.sid))
            && (before == now <==> !Resumed(s, steps, e.sid))
  {
    var e, t := pause.act.event, Exec(s, steps);
    WindowMovesIffResumed(s, steps, e.sid, s.now);
    FlipNeedsStreak(t, pause);
    forall i | 0 <= i < |e.newest|
      ensures e.newest[i] in s.db.runs && Follows(s.db.runs[e.newest[i]], t.db.runs[e.newest[i]])
    {
      assert Eligible(s.db.runs, e.sid, e.since, e.newest[i]);
      TerminalStays(s, steps, e.newest[i]);
    }
    var now := t.db.schedules[e.sid].lastEnabledAt;
    SameFailures(s.db.runs, t.db.runs, e.sid, now, e.newest);
    if Resumed(s, steps, e.sid) { CreatedBefore(s, e.newest[0]); }
  }

  lemma CreatedBefore(s: State, rid: RunId)
    requires EvidenceInv(s) && rid in s.db.runs
    ensures s.db.runs[rid].createdAt <= s.now
  {
  }

  lemma SameFailures(a: Runs, b: Runs, sid: ScheduleId, since: Time, ids: seq<RunId>)
    requires forall i :: 0 <= i < |ids| ==> ids[i] in a && ids[i] in b && Follows(a[ids[i]], b[ids[i]])
    requires forall i :: 0 <= i < |ids| ==> a[ids[i]].status.Terminal()
    ensures FailedSince(a, sid, since, ids) <==> FailedSince(b, sid, since, ids)
  {
  }
}
