/** Auto-pause: what every automatic pause was preceded by, and what it leaves behind. */
module AutoPausing {
  import opened Schema
  import opened Machine
  import opened Lifecycle
  import opened Ledger
  import opened Listing

  /** The step is an auto-pause that takes a schedule from enabled to disabled. */
  ghost predicate Flips(s: State, step: Step)
    requires Guard(s, step)
  {
    && step.act.Env? && step.act.event.Evaluate?
    && s.db.schedules[step.act.event.sid].enabled
    && !Do(s, step).db.schedules[step.act.event.sid].enabled
  }

  /** The auto-pause flips of a run, in order: whom, when, and after how many failures. */
  ghost function FlipsOf(s: State, steps: seq<Step>): seq<Audit>
    requires Legal(s, steps)
    decreases |steps|
  {
    if steps == [] then []
    else
      (if Flips(s, steps[0]) then [Audit(steps[0].act.event.sid, steps[0].at, steps[0].act.event.threshold)] else [])
      + FlipsOf(Do(s, steps[0]), steps[1..])
  }

  lemma OneEntryPerFlip(s: State, step: Step)
    requires Guard(s, step)
    ensures Do(s, step).db.audits
         == s.db.audits
            + if Flips(s, step) then [Audit(step.act.event.sid, step.at, step.act.event.threshold)] else []
  {
    if step.act.Loop? {
      assert Do(s, step).db.audits == s.db.audits;
    } else if !step.act.event.Evaluate? {
      assert Do(s, step).db.audits == s.db.audits;
    }
  }

  /** The audit log gains exactly one entry per flip, in the order of the flips. */
  lemma {:induction false} AuditsMatchFlips(s: State, steps: seq<Step>)
    requires Legal(s, steps)
    ensures Exec(s, steps).db.audits == s.db.audits + FlipsOf(s, steps)
    decreases |steps|
  {
    if steps != [] {
      OneEntryPerFlip(s, steps[0]);
      AuditsMatchFlips(Do(s, steps[0]), steps[1..]);
    }
  }

  // ----- what precedes a flip -----

  /** `ids` are different failed scheduled runs of `sid`, all created at or after `since`. */
  ghost predicate FailedSince(runs: Runs, sid: ScheduleId, since: Time, ids: seq<RunId>) {
    && (forall i :: 0 <= i < |ids| ==>
          ids[i] in runs && runs[ids[i]].sid == sid && runs[ids[i]].Scheduled()
          && runs[ids[i]].status == Failed && runs[ids[i]].createdAt >= since)
    && (forall i, j :: 0 <= i < j < |ids| ==> ids[i] != ids[j])
  }

  /** At a flip there are as many failed scheduled runs, created in the window that was read, as the threshold. */
  lemma FlipNeedsStreak(s: State, step: Step)
    requires Guard(s, step) && Flips(s, step)
    ensures var e := step.act.event;
            |e.newest| == e.threshold && FailedSince(s.db.runs, e.sid, e.since, e.newest)
  {
  }

  /** The evaluation acts on what holds at the moment of its UPDATE. */
  ghost predicate Prompt(s: State, step: Step)
    requires Guard(s, step) && step.act.Env? && step.act.event.Evaluate?
  {
    var e := step.act.event;
    var sch := s.db.schedules[e.sid];
    && e.since == sch.lastEnabledAt && e.threshold == Threshold(sch)
    && IsNewest(s.db.runs, e.sid, e.since, e.threshold, e.newest)
  }

  /** Then the newest N terminal scheduled runs since last_enabled_at all failed. */
  lemma PromptFlipNeedsStreak(s: State, step: Step)
    requires Guard(s, step) && Flips(s, step) && Prompt(s, step)
    ensures var sid, ids := step.act.event.sid, step.act.event.newest;
            var sch := s.db.schedules[sid];
            && PausesAfter(sch, |ids|)
            && LatestFailed(s.db.runs, sid, sch.lastEnabledAt, |ids|, ids)
  {
    FlipNeedsStreak(s, step);
    var ids := step.act.event.newest;
    forall rid ensures Eligible(s.db.runs, step.act.event.sid, step.act.event.since, rid)
                       <==> Ended(s.db.runs, step.act.event.sid, step.act.event.since, rid)
    {
      EligibleHasEnded(s.db.runs, step.act.event.sid, step.act.event.since, rid);
    }
    ThresholdIsTheColumn(s.db.schedules[step.act.event.sid]);
  }

  /** last_enabled_at of a schedule that survives a step never goes back. */
  lemma WindowOnlyMovesOn(s: State, step: Step, sid: ScheduleId)
    requires Guard(s, step) && sid in s.db.schedules && sid in Do(s, step).db.schedules
    requires s.db.schedules[sid].lastEnabledAt <= s.now
    ensures s.db.schedules[sid].lastEnabledAt <= Do(s, step).db.schedules[sid].lastEnabledAt <= step.at
    ensures Do(s, step).db.schedules[sid].lastEnabledAt != s.db.schedules[sid].lastEnabledAt ==>
              step.act == Env(Toggle(sid, true)) && !s.db.schedules[sid].enabled
  {
  }

  /** A deleted schedule's id is never given to another one. */
  lemma {:induction false} DeletedForGood(s: State, steps: seq<Step>, sid: ScheduleId)
    requires Legal(s, steps) && sid in s.db.usedSchedules && sid !in s.db.schedules
    ensures sid !in Exec(s, steps).db.schedules
    decreases |steps|
  {
    if steps != [] {
      assert sid !in Do(s, steps[0]).db.schedules && sid in Do(s, steps[0]).db.usedSchedules;
      DeletedForGood(Do(s, steps[0]), steps[1..], sid);
    }
  }

  lemma {:induction false} WindowAfter(s: State, steps: seq<Step>, sid: ScheduleId)
    requires Legal(s, steps) && s.db.schedules.Keys <= s.db.usedSchedules
    requires sid in s.db.schedules && sid in Exec(s, steps).db.schedules
    requires s.db.schedules[sid].lastEnabledAt <= s.now
    ensures s.db.schedules[sid].lastEnabledAt <= Exec(s, steps).db.schedules[sid].lastEnabledAt
    decreases |steps|
  {
    if steps != [] {
      var t := Do(s, steps[0]);
      if sid !in t.db.schedules {
        assert sid in t.db.usedSchedules;
        DeletedForGood(t, steps[1..], sid);
      } else {
        WindowOnlyMovesOn(s, steps[0], sid);
        assert t.db.schedules.Keys <= t.db.usedSchedules;
        WindowAfter(t, steps[1..], sid);
      }
    }
  }

  /**
   * After an operator resumes a paused schedule, an auto-pause by an evaluation that read
   * its window since is preceded by threshold-many different failed scheduled runs created
   * since that resume. Those created after the resume instant had no row yet when it
   * happened.
   */
  lemma ResumeStartsAFreshCount(s: State, resume: Step, steps: seq<Step>, pause: Step)
    requires Rows(s.db, s.now) && Guard(s, resume)
    requires resume.act.Env? && resume.act.event.Toggle? && resume.act.event.on
    requires !s.db.schedules[resume.act.event.sid].enabled
    requires Legal(Do(s, resume), steps) && Guard(Exec(Do(s, resume), steps), pause)
    requires Flips(Exec(Do(s, resume), steps), pause) && pause.act.event.sid == resume.act.event.sid
    requires pause.act.event.since >= resume.at
    ensures var t := Exec(Do(s, resume), steps);
            var sid, ids := pause.act.event.sid, pause.act.event.newest;
            && |ids| == pause.act.event.threshold
            && FailedSince(t.db.runs, sid, resume.at, ids)
            && forall i :: 0 <= i < |ids| && t.db.runs[ids[i]].createdAt > resume.at ==> ids[i] !in s.db.runs
  {
    var s1 := Do(s, resume);
    var t := Exec(s1, steps);
    var ids := pause.act.event.newest;
    FlipNeedsStreak(t, pause);
    forall i | 0 <= i < |ids| && t.db.runs[ids[i]].createdAt > resume.at
      ensures ids[i] !in s.db.runs
    {
      if ids[i] in s.db.runs {
        StatusOnlyAdvances(s1, steps, ids[i]);
        assert false;
      }
    }
  }

  /** An evaluation that acts promptly after the resume has read its window since. */
  lemma PromptReadsSince(s: State, resume: Step, steps: seq<Step>, pause: Step)
    requires Rows(s.db, s.now) && Guard(s, resume)
    requires resume.act.Env? && resume.act.event.Toggle? && resume.act.event.on
    requires !s.db.schedules[resume.act.event.sid].enabled
    requires Legal(Do(s, resume), steps) && Guard(Exec(Do(s, resume), steps), pause)
    requires pause.act.Env? && pause.act.event.Evaluate? && pause.act.event.sid == resume.act.event.sid
    requires Prompt(Exec(Do(s, resume), steps), pause)
    ensures pause.act.event.since >= resume.at
  {
    WindowAfter(Do(s, resume), steps, resume.act.event.sid);
  }

  // ----- resuming again -----

  /** The schedule is there and enabled in every state of the run. */
  ghost predicate StaysEnabled(s: State, steps: seq<Step>, sid: ScheduleId)
    requires Legal(s, steps)
    decreases |steps|
  {
    && sid in s.db.schedules && s.db.schedules[sid].enabled
    && (steps == [] || StaysEnabled(Do(s, steps[0]), steps[1..], sid))
  }

  /** However often an enabled schedule is resumed, and whatever else happens, its window stays. */
  lemma {:induction false} RepeatedResumesKeepTheWindow(s: State, steps: seq<Step>, sid: ScheduleId)
    requires Legal(s, steps) && StaysEnabled(s, steps, sid) && s.db.schedules[sid].lastEnabledAt <= s.now
    ensures sid in Exec(s, steps).db.schedules
    ensures Exec(s, steps).db.schedules[sid].lastEnabledAt == s.db.schedules[sid].lastEnabledAt
    decreases |steps|
  {
    if steps != [] {
      WindowOnlyMovesOn(s, steps[0], sid);
      RepeatedResumesKeepTheWindow(Do(s, steps[0]), steps[1..], sid);
    }
  }
}
