/** Runs that show what the scheduler does not promise. */
module Witnesses {
  import opened Options
  import opened Schema
  import opened Machine
  import opened AutoPausing
  import opened Evidence

  /** An empty database and an idle loop. */
  function Start(): State {
    State(0, Db(map[], map[], {}, {}, 0, [], {}, 0, []), Idle, Log([], {}, {}, {}, {}))
  }

  /** Some legal run from the empty database leads there. */
  ghost predicate Reachable(s: State) {
    Goes(Start(), s)
  }

  lemma StartIsReachable()
    ensures Init(Start()) && Reachable(Start())
  {
    GoesNowhere(Start());
  }

  lemma Moves(s: State, at: Time, m: Move, t: State)
    requires Reachable(s) && at >= s.now && MoveGuard(s.db, s.ctl, s.log, at, m)
    requires t == State(at, MoveDb(s.db, s.ctl, s.log, at, m), MoveCtl(s.db, s.ctl, s.log, at, m),
                        MoveLog(s.db, s.ctl, s.log, at, m))
    ensures Reachable(t)
  {
    GoesByMove(Start(), s, at, m, t);
  }

  lemma Happens(s: State, at: Time, e: Event, t: State)
    requires Reachable(s) && at >= s.now && EventGuard(s.db, s.log, at, e)
    requires t == State(at, EventDb(s.db, s.log, at, e), s.ctl, s.log)
    ensures Reachable(t)
  {
    GoesByEvent(Start(), s, at, e, t);
  }

  // ----- stretches of runs -----

  function Row(cron: string, next: Time): Schedule {
    Schedule(0, "nightly", cron, "UTC", Skip, 600, true, Settings("", "", None, {}, None, ""), None, None, 0,
             Some(next), 0)
  }

  /** One schedule on the skip policy. */
  function Synced(next: Time): State {
    State(0, Db(map[0 := Row("a", next)], map[], {0}, {}, 0, [], {}, 0, []), Idle, Log([], {}, {}, {}, {}))
  }

  lemma SyncedIsReachable(next: Time)
    requires next > 0
    ensures Reachable(Synced(next))
  {
    StartIsReachable();
    var post: Schedules := map[0 := Row("a", next)];
    var db := ApplySync(Start().db, post);
    assert db.runs == map[] && db.everConcurrent == {};
    Happens(Start(), 0, Resync(post, 0), Synced(next));
  }

  /** What a launch leaves in the log. */
  function Launching(log: Log, job: Job, tok: Token): Log {
    Log(log.launches + [job], log.attempted + {job.rid}, log.exposed + {tok}, log.signed + {tok}, log.unmarked)
  }

  /** From the start of dispatchRun to the launch. */
  lemma Launched(s: State, job: Job, after: Return, tok: Token)
    requires Reachable(s) && s.ctl == Sign(job, after) && tok.rid == job.rid
    requires forall t :: t in s.log.signed ==> t.hash != tok.hash
    ensures Reachable(State(s.now, s.db.(runs := SetTokenHash(s.db.runs, job.rid, tok.hash)), Mark(job, after),
                            Launching(s.log, job, tok)))
  {
    var db := s.db.(runs := SetTokenHash(s.db.runs, job.rid, tok.hash));
    var signed := s.log.(signed := s.log.signed + {tok});
    Moves(s, s.now, SignToken(tok), State(s.now, db, Launch(job, tok, after), signed));
    Moves(State(s.now, db, Launch(job, tok, after), signed), s.now, DispatchOk,
          State(s.now, db, Mark(job, after), Launching(s.log, job, tok)));
  }

  /** From the end of the due loop: the only drainable row is launched. */
  lemma Drained(s: State, job: Job, tok: Token)
    requires Reachable(s) && s.ctl == Due([]) && IsDrainList(s.db.schedules, s.db.runs, [job]) && tok.rid == job.rid
    requires forall t :: t in s.log.signed ==> t.hash != tok.hash
    ensures Reachable(State(s.now, s.db.(runs := SetTokenHash(s.db.runs, job.rid, tok.hash)), Mark(job, ToDrain([])),
                            Launching(s.log, job, tok)))
  {
    Moves(s, s.now, EndDue, State(s.now, s.db, Select, s.log));
    Moves(State(s.now, s.db, Select, s.log), s.now, SelectPending([job]), State(s.now, s.db, Drain([job]), s.log));
    assert [job][1..] == [];
    var signing := State(s.now, s.db, Sign(job, ToDrain([])), s.log);
    Moves(State(s.now, s.db, Drain([job]), s.log), s.now, DrainNext, signing);
    Launched(signing, job, ToDrain([]), tok);
  }

  // ----- a run launched twice -----

  function Manual(at: Time, hash: string): Run {
    Run(0, None, Pending, at, None, None, None, hash)
  }

  /** A manual row beside the schedule, which is not due. */
  ghost predicate OneManual(s: State, hash: string) {
    && s.ctl == Idle && s.now == 1
    && s.db.schedules == map[0 := Row("a", 1000)] && s.db.runs == map[0 := Manual(1, hash)]
  }

  lemma ManualIsDrained(s: State, hash: string, tok: Token)
    requires Reachable(s) && OneManual(s, hash) && tok.rid == 0
    requires forall t :: t in s.log.signed ==> t.hash != tok.hash
    ensures Reachable(State(1, s.db.(runs := map[0 := Manual(1, tok.hash)]), Mark(Job(0, 0, None, 1), ToDrain([])),
                            Launching(s.log, Job(0, 0, None, 1), tok)))
  {
    assert IsDueList(s.db.schedules, 1, []);
    var job := Job(0, 0, None, 1);
    assert IsDrainable(s.db.schedules, s.db.runs, 0) && [job][0].rid == 0;
    assert IsDrainList(s.db.schedules, s.db.runs, [job]);
    Moves(s, 1, ListDue([]), State(1, s.db, Due([]), s.log));
    Drained(State(1, s.db, Due([]), s.log), job, tok);
    assert SetTokenHash(s.db.runs, 0, tok.hash) == map[0 := Manual(1, tok.hash)];
  }

  /** The loop crashes between the launch and mark-running; the next tick launches the same run again. */
  lemma RunLaunchedTwice()
    ensures exists s :: Reachable(s) && |s.log.launches| == 2 && s.log.launches[0].rid == s.log.launches[1].rid
  {
    SyncedIsReachable(1000);
    var s := Synced(1000);
    var db := InsertRow(s.db, 0, NewRun(0, None, 1, ""));
    var s1 := State(1, db, Idle, s.log);
    Happens(s, 1, RunNow(0, 0, ""), s1);
    assert db.runs == map[0 := Manual(1, Placeholder(""))];
    var job, t1, t2 := Job(0, 0, None, 1), Token(0, "0"), Token(0, "00");
    ManualIsDrained(s1, Placeholder(""), t1);
    var db2 := db.(runs := map[0 := Manual(1, "0")]);
    var log2 := Launching(s.log, job, t1);
    var s3 := State(1, db2, Idle, log2.(unmarked := log2.unmarked + {0}));
    Moves(State(1, db2, Mark(job, ToDrain([])), log2), 1, Crash, s3);
    ManualIsDrained(s3, "0", t2);
    var last := State(1, s3.db.(runs := map[0 := Manual(1, "00")]), Mark(job, ToDrain([])), Launching(s3.log, job, t2));
    assert last.log.launches == [job, job];
  }

  // ----- a scheduled run -----

  function Fired(hash: string, status: Status): Run {
    Run(0, Some(10), status, 10, if status == Running then Some(10) else None, None, None, hash)
  }

  /** The schedule has fired at 10 and moved on; the overlap decision is due. */
  function Counting(): State {
    State(10, Db(map[0 := Row("a", 20).(updatedAt := 10)], map[0 := Fired(Placeholder(""), Pending)], {0}, {0}, 10,
                 [Fire(0, 0, 10, 10)], {}, 0, []),
          Count(Snap(0, 10, Skip, "a", "UTC"), Job(0, 0, Some(10), 10), []), Log([], {}, {}, {}, {}))
  }

  /** The row is in. */
  function Inserted(): State {
    State(10, Counting().db.(schedules := map[0 := Row("a", 10)]),
          Advance(Snap(0, 10, Skip, "a", "UTC"), Job(0, 0, Some(10), 10), true, 20, []), Counting().log)
  }

  lemma InsertedIsReachable()
    ensures Reachable(Inserted())
  {
    SyncedIsReachable(10);
    var s := Synced(10);
    var c := Snap(0, 10, Skip, "a", "UTC");
    assert IsDue(s.db.schedules, 10, 0) && [c][0].sid == 0;
    assert IsDueList(s.db.schedules, 10, [c]);
    var s1 := State(10, s.db, Due([c]), s.log);
    Moves(s, 10, ListDue([c]), s1);
    assert [c][1..] == [];
    assert InsertFire(s.db, 0, 10, 10, 0, "") == Inserted().db;
    Moves(s1, 10, InsertScheduled(0, "", 20), Inserted());
  }

  lemma CountingIsReachable()
    ensures Reachable(Counting())
  {
    InsertedIsReachable();
    Moves(Inserted(), 10, AdvanceNext, Counting());
  }

  /** It is launched and marked. */
  function Started(): State {
    var s := Counting();
    State(10, s.db.(runs := map[0 := Fired("0", Running)]), Due([]),
          Launching(s.log, Job(0, 0, Some(10), 10), Token(0, "0")))
  }

  lemma DecidedToDispatch()
    ensures var s := Counting(); Reachable(State(10, s.db, Sign(s.ctl.job, ToDue([])), s.log))
  {
    CountingIsReachable();
    var s := Counting();
    assert OtherActive(s.db.runs, 0, 0) == {};
    Moves(s, 10, CountActive, State(10, s.db, Sign(s.ctl.job, ToDue([])), s.log));
  }

  lemma StartedIsReachable()
    ensures Reachable(Started())
  {
    DecidedToDispatch();
    var s := Counting();
    var job, tok := Job(0, 0, Some(10), 10), Token(0, "0");
    Launched(State(10, s.db, Sign(job, ToDue([])), s.log), job, ToDue([]), tok);
    var db := s.db.(runs := map[0 := Fired("0", Pending)]);
    assert SetTokenHash(s.db.runs, 0, "0") == db.runs;
    MarkedIsStarted(State(10, db, Mark(job, ToDue([])), Launching(s.log, job, tok)));
  }

  lemma MarkedIsStarted(s: State)
    requires Reachable(s)
    requires s == State(10, Counting().db.(runs := map[0 := Fired("0", Pending)]),
                        Mark(Job(0, 0, Some(10), 10), ToDue([])),
                        Launching(Counting().log, Job(0, 0, Some(10), 10), Token(0, "0")))
    ensures Reachable(Started())
  {
    assert SetRunRunning(s.db.runs, 0, 10) == map[0 := Fired("0", Running)];
    Moves(s, 10, MarkRunning, Started());
  }

  // ----- manual runs are not excluded -----

  lemma ManualIsLaunchedBeside()
    ensures var s := Started();
            var db := InsertRow(s.db, 1, NewRun(0, None, 11, ""));
            Reachable(State(11, db.(runs := SetTokenHash(db.runs, 1, "00")), Mark(Job(1, 0, None, 11), ToDrain([])),
                            Launching(s.log, Job(1, 0, None, 11), Token(1, "00"))))
  {
    StartedIsReachable();
    var s := Started();
    var db := InsertRow(s.db, 1, NewRun(0, None, 11, ""));
    var s1 := State(11, db, Due([]), s.log);
    Happens(s, 11, RunNow(0, 1, ""), s1);
    var job := Job(1, 0, None, 11);
    OnlyManual(db);
    Drained(s1, job, Token(1, "00"));
  }

  lemma OnlyManual(db: Db)
    requires db == InsertRow(Started().db, 1, NewRun(0, None, 11, ""))
    ensures IsDrainList(db.schedules, db.runs, [Job(1, 0, None, 11)])
  {
    var job := Job(1, 0, None, 11);
    assert IsDrainable(db.schedules, db.runs, 1) && [job][0].rid == 1;
    assert forall rid :: IsDrainable(db.schedules, db.runs, rid) ==> rid == 1;
  }

  /** Under the skip policy a manual run runs beside a scheduled one. */
  lemma ManualRunsBeside()
    ensures exists s, a, b :: Reachable(s) && a in s.db.runs && b in s.db.runs && a != b
              && s.db.runs[a].sid == s.db.runs[b].sid && s.db.runs[a].sid !in s.db.everConcurrent
              && s.db.runs[a].status == Running && s.db.runs[b].status == Running
              && s.db.runs[a].Scheduled() && !s.db.runs[b].Scheduled()
  {
    ManualIsLaunchedBeside();
    var s := Started();
    var db := InsertRow(s.db, 1, NewRun(0, None, 11, ""));
    var db2 := db.(runs := SetTokenHash(db.runs, 1, "00"));
    var log := Launching(s.log, Job(1, 0, None, 11), Token(1, "00"));
    var s3 := State(11, db2.(runs := SetRunRunning(db2.runs, 1, 11)), Drain([]), log);
    Moves(State(11, db2, Mark(Job(1, 0, None, 11), ToDrain([])), log), 11, MarkRunning, s3);
    assert s3.db.runs[0].status == Running && s3.db.runs[1].status == Running;
    assert s3.db.runs[0].Scheduled() && !s3.db.runs[1].Scheduled();
  }

  // ----- a stale sync -----

  /** The schedule fired at 10, was skipped, and its row is gone. */
  function Gone(): State {
    var s := Counting();
    State(11, s.db.(runs := map[1 := Manual(11, Placeholder(""))], usedRuns := {0, 1}, lastCreated := 11), Idle, s.log)
  }

  lemma GoneIsReachable()
    ensures Reachable(Gone())
  {
    CountingIsReachable();
    var s := Counting();
    var c, job := s.ctl.cur, s.ctl.job;
    var db := InsertRow(s.db, 1, NewRun(0, None, 11, ""));
    var s1 := State(11, db, s.ctl, s.log);
    Happens(s, 11, RunNow(0, 1, ""), s1);
    assert 1 in OtherActive(db.runs, 0, 0);
    assert |OtherActive(db.runs, 0, 0)| > 0;
    var s2 := State(11, db, Discard(c, job, []), s.log);
    Moves(s1, 11, CountActive, s2);
    var gone := db.(runs := db.runs - {0});
    assert gone.runs == map[1 := Manual(11, Placeholder(""))];
    Moves(s2, 11, DeleteSkipped, State(11, gone, Due([]), s.log));
    Moves(State(11, gone, Due([]), s.log), 11, Crash, Gone());
  }

  /** A sync that read the clock at 9 re-arms it to 10 when it writes at 12. */
  function Rearmed(): State {
    State(12, Gone().db.(schedules := map[0 := Row("b", 10)]), Idle, Gone().log)
  }

  lemma RearmedIsReachable()
    ensures Reachable(Rearmed())
  {
    GoneIsReachable();
    var s := Gone();
    var post: Schedules := map[0 := Row("b", 10)];
    assert SyncedRow(s.db.schedules[0], post[0], 9);
    assert ApplySync(s.db, post) == Rearmed().db;
    Happens(s, 12, Resync(post, 9), Rearmed());
  }

  /**
   * So 10, a time that was fired and skipped between the reading and the write, gets a
   * second fresh row.
   */
  lemma StaleSyncReusesAFireTime()
    ensures exists s, i, j :: Reachable(s) && 0 <= i < j < |s.db.fires|
              && s.db.fires[i].sid == s.db.fires[j].sid && s.db.fires[i].time == s.db.fires[j].time
  {
    RearmedIsReachable();
    var s := Rearmed();
    var c := Snap(0, 10, Skip, "b", "UTC");
    assert IsDue(s.db.schedules, 12, 0) && [c][0].sid == 0;
    assert IsDueList(s.db.schedules, 12, [c]);
    var s2 := State(12, s.db, Due([c]), s.log);
    Moves(s, 12, ListDue([c]), s2);
    assert [c][1..] == [];
    var db := InsertFire(s.db, 0, 10, 12, 2, "");
    var s3 := State(12, db, Advance(c, Job(2, 0, Some(10), 12), true, 20, []), s.log);
    Moves(s2, 12, InsertScheduled(2, "", 20), s3);
    assert s3.db.fires[0] == Fire(0, 0, 10, 10) && s3.db.fires[1] == Fire(2, 0, 10, 12);
  }

  // ----- a sync is no resume, and the sweep knows no pause -----

  /** A sync can enable a paused schedule; it does not touch last_enabled_at or auto_paused_at. */
  lemma SyncEnablesWithoutResuming(s: State, sid: ScheduleId, at: Time)
    requires sid in s.db.schedules && !s.db.schedules[sid].enabled && at >= s.now
    ensures exists post: Schedules ::
              var step := Step(at, Env(Resync(post, at)));
              && Guard(s, step) && sid in post && post[sid].enabled
              && post[sid].lastEnabledAt == s.db.schedules[sid].lastEnabledAt
              && post[sid].autoPausedAt == s.db.schedules[sid].autoPausedAt
  {
    var row := s.db.schedules[sid].(enabled := true, nextFireAt := Some(at + 1));
    var post: Schedules := map[sid := row];
    assert SyncAllows(s.db.schedules, s.db.usedSchedules, post, at, at);
    assert Guard(s, Step(at, Env(Resync(post, at))));
  }

  /** So after a sync the failures from before it still count: the next evaluation can pause at once. */
  lemma SyncedCanBePausedAtOnce(s: State, sid: ScheduleId, newest: seq<RunId>, at: Time)
    requires sid in s.db.schedules && !s.db.schedules[sid].enabled && at >= s.now
    requires IsNewest(s.db.runs, sid, s.db.schedules[sid].lastEnabledAt, Threshold(s.db.schedules[sid]), newest)
    requires StreakReached(s.db.runs, Threshold(s.db.schedules[sid]), newest)
    ensures exists post: Schedules ::
              var sync := Step(at, Env(Resync(post, at)));
              var pause := Step(at, Env(Evaluate(sid, newest, s.db.schedules[sid].lastEnabledAt,
                                                 Threshold(s.db.schedules[sid]))));
              && Guard(s, sync) && Guard(Do(s, sync), pause) && Flips(Do(s, sync), pause)
              && Prompt(Do(s, sync), pause)
  {
    var row := s.db.schedules[sid].(enabled := true, nextFireAt := Some(at + 1));
    var post := s.db.schedules[sid := row];
    assert SyncAllows(s.db.schedules, s.db.usedSchedules, post, at, at);
    var sync := Step(at, Env(Resync(post, at)));
    var pause := Step(at, Env(Evaluate(sid, newest, row.lastEnabledAt, Threshold(row))));
    assert Guard(s, sync);
    var t := Do(s, sync);
    assert forall rid :: Eligible(s.db.runs, sid, row.lastEnabledAt, rid) <==>
        Eligible(t.db.runs, sid, row.lastEnabledAt, rid);
    assert IsNewest(t.db.runs, sid, row.lastEnabledAt, Threshold(row), newest);
    assert Guard(t, pause) && Flips(t, pause);
  }

  // ----- an evaluation that acts on what it read before a resume -----

  /** The schedule pauses after one failure, and its one run has failed. */
  function FailedOnce(): State {
    var s := Started();
    var row := s.db.schedules[0].(autoPauseAfter := Some(1));
    var run := Fired("0", Running).(status := Failed, finishedAt := Some(11), ender := Some(ByRunner(Token(0, "0"))));
    State(12, s.db.(schedules := map[0 := row], runs := map[0 := run]), Due([]), s.log)
  }

  lemma FailedOnceIsReachable()
    ensures Reachable(FailedOnce())
  {
    StartedIsReachable();
    var s := Started();
    var tok := Token(0, "0");
    var db := s.db.(runs := FailedOnce().db.runs);
    assert FinalizeRun(s.db.runs, 0, Failed, tok, 11) == db.runs;
    assert EventDb(s.db, s.log, 11, Finalize(tok, Failed)) == db;
    Happens(s, 11, Finalize(tok, Failed), State(11, db, Due([]), s.log));
    var post := FailedOnce().db.schedules;
    assert ApplySync(db, post) == FailedOnce().db;
    Happens(State(11, db, Due([]), s.log), 12, Resync(post, 12), FailedOnce());
  }

  function PauseOnce(at: Time): Step {
    Step(at, Env(Evaluate(0, [0], 0, 1)))
  }

  /** Two evaluations list that failure. One pauses at 13, the operator resumes at 14. */
  lemma ResumedAfterPause(s: State) returns (steps: seq<Step>)
    requires s == FailedOnce()
    ensures Legal(s, steps) && steps != [] && s.now < steps[0].at && Resumed(s, steps, 0)
    ensures var t := Exec(s, steps);
            && t.now == 14 && t.db.runs == s.db.runs
            && t.db.schedules == s.db.schedules[0 := s.db.schedules[0].(lastEnabledAt := 14, updatedAt := 14)]
  {
    var pause, resume := PauseOnce(13), Step(14, Env(Toggle(0, true)));
    steps := [pause, resume];
    assert Guard(s, pause);
    var u := Do(s, pause);
    assert steps[1..] == [resume] && [resume][1..] == [];
    assert Guard(u, resume);
    var t := Do(u, resume);
    assert Legal(t, []) && Exec(t, []) == t;
    assert Legal(u, [resume]) && Exec(u, [resume]) == t;
    assert Resumed(u, [resume], 0);
  }

  /** The other evaluation then pauses it again, on the failure from before the resume. */
  lemma LatePauseOnOldFailures()
    ensures exists s, steps, pause ::
              && Reachable(s) && Legal(s, steps) && Resumed(s, steps, 0) && Exec(s, steps).db.runs == s.db.runs
              && Guard(Exec(s, steps), pause) && Flips(Exec(s, steps), pause)
              && 0 in s.db.schedules
              && IsNewest(s.db.runs, 0, s.db.schedules[0].lastEnabledAt, Threshold(s.db.schedules[0]),
                          pause.act.event.newest)
  {
    FailedOnceIsReachable();
    var s := FailedOnce();
    var steps := ResumedAfterPause(s);
    var t, pause := Exec(s, steps), PauseOnce(15);
    assert Eligible(t.db.runs, 0, 0, [0][0]);
    assert Guard(t, pause) && Flips(t, pause);
  }

  /** An overdue row waiting in the queue of a paused schedule is failed by the sweep. */
  lemma PausedRowsAreSwept(s: State, rid: RunId, at: Time)
    requires s.ctl == Idle && at >= s.now && rid in s.db.runs && s.db.runs[rid].status == Pending
    requires s.db.runs[rid].sid in s.db.schedules && !s.db.schedules[s.db.runs[rid].sid].enabled
    requires Overdue(s.db.runs[rid], s.db.schedules, at)
    ensures var step := Step(at, Loop(SweepOrphans));
            && Guard(s, step) && rid in Do(s, step).db.runs
            && Do(s, step).db.runs[rid].status == Failed && Do(s, step).db.runs[rid].ender == Some(BySweep)
  {
  }
}
