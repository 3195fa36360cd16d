/**
 * A sync computes fire times from a clock reading that can be older than its write. Which
 * re-armed times are harmless? Exactly those that FireTimes asks for.
 */
module StaleSync {
  import opened Options
  import opened Schema
  import opened Machine
  import opened Lifecycle
  import opened Ledger
  import opened FireTimes

  /** Some continuation, with every later sync harmless, breaks the order of the fires. */
  ghost predicate Unsafe(s: State) {
    exists steps :: Legal(s, steps) && AllCurrent(s, steps) && !FiresRise(Exec(s, steps).db.fires)
  }

  lemma UnsafeNow(s: State)
    requires !FiresRise(s.db.fires)
    ensures Unsafe(s)
  {
    assert Legal(s, []) && AllCurrent(s, []) && Exec(s, []) == s;
  }

  lemma UnsafeBefore(s: State, step: Step)
    requires Guard(s, step) && CurrentStep(s, step) && Unsafe(Do(s, step))
    ensures Unsafe(s)
  {
    var rest :| Legal(Do(s, step), rest) && AllCurrent(Do(s, step), rest)
      && !FiresRise(Exec(Do(s, step), rest).db.fires);
    var all := [step] + rest;
    assert all[0] == step && all[1..] == rest;
    assert Legal(s, all) && AllCurrent(s, all) && Exec(s, all) == Exec(Do(s, step), rest);
  }

  /** The same for a statement of the loop, told by what it makes of the tables and the plan. */
  lemma UnsafeMove(s: State, at: Time, m: Move, t: State)
    requires at >= s.now && MoveGuard(s.db, s.ctl, s.log, at, m)
    requires t == State(at, MoveDb(s.db, s.ctl, s.log, at, m), MoveCtl(s.db, s.ctl, s.log, at, m),
                        MoveLog(s.db, s.ctl, s.log, at, m))
    requires Unsafe(t)
    ensures Unsafe(s)
  {
    var step := Step(at, Loop(m));
    assert Guard(s, step) && Do(s, step) == t;
    UnsafeBefore(s, step);
  }

  lemma {:induction false} FreshId(used: set<nat>) returns (n: nat)
    ensures forall u :: u in used ==> u < n
    decreases used
  {
    n := 0;
    if used != {} {
      var u :| u in used;
      var m := FreshId(used - {u});
      n := Max(m, u + 1);
      forall w | w in used ensures w < n { assert w == u || w in used - {u}; }
    }
  }

  function Max(a: int, b: int): int { if a < b then b else a }

  // ----- an armed schedule and an instant it fired whose row is gone -----

  /** `sid` is armed at `v`, and fired at or after `t >= v` although nothing stands at `t`. */
  ghost predicate Exposed(db: Db, sid: ScheduleId, v: Time, t: Time, i: nat) {
    && sid in db.schedules && db.schedules[sid].enabled && db.schedules[sid].nextFireAt == Some(v)
    && i < |db.fires| && db.fires[i].sid == sid && v <= t <= db.fires[i].time
    && !HasFire(db.runs, sid, t)
  }

  lemma InsertBreaksOrder(db: Db, sid: ScheduleId, t: Time, i: nat, at: Time, rid: RunId)
    requires i < |db.fires| && db.fires[i].sid == sid && t <= db.fires[i].time && !HasFire(db.runs, sid, t)
    ensures !FiresRise(InsertFire(db, sid, t, at, rid, "").fires)
  {
    var fires := InsertFire(db, sid, t, at, rid, "").fires;
    assert fires[i] == db.fires[i] && fires[|db.fires|].sid == sid && fires[|db.fires|].time == t;
  }

  lemma FireUnsafe(s: State, c: Snap, i: nat)
    requires s.ctl == Due([c]) && Exposed(s.db, c.sid, c.fire, c.fire, i)
    ensures Unsafe(s)
  {
    var rid := FreshId(s.db.usedRuns);
    var at := Max(s.now, s.db.lastCreated + 1);
    var m := InsertScheduled(rid, "", c.fire + 1);
    var t := State(at, MoveDb(s.db, s.ctl, s.log, at, m), MoveCtl(s.db, s.ctl, s.log, at, m),
                   MoveLog(s.db, s.ctl, s.log, at, m));
    InsertBreaksOrder(s.db, c.sid, c.fire, i, at, rid);
    UnsafeNow(t);
    UnsafeMove(s, at, m, t);
  }

  /** The only schedule left, listed once its time has come. */
  lemma ListAlone(s: State, sid: ScheduleId, v: Time, at: Time)
    requires s.db.schedules.Keys == {sid} && IsDue(s.db.schedules, at, sid) && s.db.schedules[sid].nextFireAt == Some(v)
    ensures IsDueList(s.db.schedules, at, [SnapOf(sid, s.db.schedules[sid])])
  {
    var due := [SnapOf(sid, s.db.schedules[sid])];
    assert due[0].sid == sid;
    forall x | IsDue(s.db.schedules, at, x) ensures exists i :: 0 <= i < |due| && due[i].sid == x {
      assert x in s.db.schedules.Keys;
    }
  }

  lemma ListUnsafe(s: State, sid: ScheduleId, v: Time, at: Time)
    requires s.ctl == Idle && s.db.schedules.Keys == {sid} && at == Max(s.now, v)
    requires s.db.schedules[sid].enabled && s.db.schedules[sid].nextFireAt == Some(v)
    requires Unsafe(State(at, s.db, Due([SnapOf(sid, s.db.schedules[sid])]), s.log))
    ensures Unsafe(s)
  {
    ListAlone(s, sid, v, at);
    UnsafeMove(s, at, ListDue([SnapOf(sid, s.db.schedules[sid])]),
               State(at, s.db, Due([SnapOf(sid, s.db.schedules[sid])]), s.log));
  }

  lemma IdleUnsafe(s: State, sid: ScheduleId, v: Time, i: nat)
    requires s.ctl == Idle && s.db.schedules.Keys == {sid} && Exposed(s.db, sid, v, v, i)
    ensures Unsafe(s)
  {
    var at, c := Max(s.now, v), SnapOf(sid, s.db.schedules[sid]);
    FireUnsafe(State(at, s.db, Due([c]), s.log), c, i);
    ListUnsafe(s, sid, v, at);
  }

  lemma CrashUnsafe(s: State)
    requires Unsafe(State(s.now, s.db, Idle, MoveLog(s.db, s.ctl, s.log, s.now, Crash)))
    ensures Unsafe(s)
  {
    UnsafeMove(s, s.now, Crash, State(s.now, s.db, Idle, MoveLog(s.db, s.ctl, s.log, s.now, Crash)));
  }

  /** The instant `v` itself still has its row: the insert conflicts and the loop moves on to `t`. */
  lemma SkipAheadUnsafe(s: State, sid: ScheduleId, v: Time, t: Time, i: nat)
    requires s.ctl == Idle && s.db.schedules.Keys == {sid} && Exposed(s.db, sid, v, t, i) && v < t
    requires HasFire(s.db.runs, sid, v)
    ensures Unsafe(s)
  {
    var at0, c := Max(s.now, v), SnapOf(sid, s.db.schedules[sid]);
    var at := Max(at0, s.db.lastCreated + 1);
    var rid := FreshId(s.db.usedRuns);
    var job := Job(rid, sid, Some(v), at);
    var s1 := State(at0, s.db, Due([c]), s.log);
    var s2 := State(at, s.db, Advance(c, job, false, t, []), s.log);
    var moved := s.db.(schedules := SetNextFireAt(s.db.schedules, sid, t, at));
    var s3 := State(at, moved, Due([]), s.log);
    IdleUnsafe(State(at, moved, Idle, s.log), sid, t, i);
    CrashUnsafe(s3);
    UnsafeMove(s2, at, AdvanceNext, s3);
    assert [c][1..] == [];
    UnsafeMove(s1, at, InsertScheduled(rid, "", t), s2);
    ListUnsafe(s, sid, v, at0);
  }

  /** Every other schedule is removed first; that re-arms nothing. */
  lemma AloneUnsafe(s: State, sid: ScheduleId)
    requires sid in s.db.schedules
    requires Unsafe(State(s.now, ApplySync(s.db, map[sid := s.db.schedules[sid]]), s.ctl, s.log))
    ensures Unsafe(s)
  {
    var post: Schedules := map[sid := s.db.schedules[sid]];
    var step := Step(s.now, Env(Resync(post, s.now)));
    assert SyncAllows(s.db.schedules, s.db.usedSchedules, post, s.now, s.now);
    assert Do(s, step) == State(s.now, ApplySync(s.db, post), s.ctl, s.log);
    UnsafeBefore(s, step);
  }

  lemma GapUnsafe(s: State, sid: ScheduleId, v: Time, t: Time, i: nat)
    requires s.ctl == Idle && Exposed(s.db, sid, v, t, i)
    ensures Unsafe(s)
  {
    var db1 := ApplySync(s.db, map[sid := s.db.schedules[sid]]);
    var s1 := State(s.now, db1, Idle, s.log);
    assert !HasFire(db1.runs, sid, t);
    if HasFire(db1.runs, sid, v) {
      SkipAheadUnsafe(s1, sid, v, t, i);
    } else {
      assert Exposed(db1, sid, v, v, i);
      IdleUnsafe(s1, sid, v, i);
    }
    AloneUnsafe(s, sid);
  }

  /** An armed schedule that is not clear can fire out of order, wherever the loop stands. */
  lemma NotClearUnsafe(s: State, sid: ScheduleId, v: Time)
    requires sid in s.db.schedules && s.db.schedules[sid].enabled && s.db.schedules[sid].nextFireAt == Some(v)
    requires !Clear(s.db, sid, v)
    ensures Unsafe(s)
  {
    var i :| 0 <= i < |s.db.fires| && s.db.fires[i].sid == sid && !Filled(s.db.runs, sid, v, s.db.fires[i].time + 1);
    var t :| v <= t < s.db.fires[i].time + 1 && !HasFire(s.db.runs, sid, t);
    GapUnsafe(State(s.now, s.db, Idle, MoveLog(s.db, s.ctl, s.log, s.now, Crash)), sid, v, t, i);
    CrashUnsafe(s);
  }

  // ----- a schedule in hand -----

  ghost predicate Armed(db: Db, sid: ScheduleId, v: Time) {
    sid in db.schedules && db.schedules[sid].enabled && db.schedules[sid].nextFireAt == Some(v)
  }

  /** A row that stands was fired. */
  lemma StandingFired(db: Db, sid: ScheduleId, t: Time) returns (i: nat)
    requires RowsFired(db) && HasFire(db.runs, sid, t)
    ensures i < |db.fires| && db.fires[i].sid == sid && db.fires[i].time == t
  {
    var rid :| rid in db.runs && db.runs[rid].sid == sid && db.runs[rid].fireTime == Some(t);
    assert FireOf(JobOf(rid, db.runs[rid])) in db.fires;
    i :| 0 <= i < |db.fires| && db.fires[i] == FireOf(JobOf(rid, db.runs[rid]));
  }

  lemma NotFilled(db: Db, sid: ScheduleId, v: Time, t: Time, i: nat)
    requires i < |db.fires| && db.fires[i].sid == sid && v <= t <= db.fires[i].time && !HasFire(db.runs, sid, t)
    ensures !Clear(db, sid, v)
  {
    assert !Filled(db.runs, sid, v, db.fires[i].time + 1);
  }

  /** The loop comes to it first and fires it; then the re-armed time is behind. */
  lemma HeadUnsafe(s: State, due: seq<Snap>, v: Time, t: Time)
    requires s.ctl == Due(due) && due != [] && Armed(s.db, due[0].sid, v) && RowsFired(s.db)
    requires s.db.runs.Keys <= s.db.usedRuns
    requires v <= t < due[0].fire && !HasFire(s.db.runs, due[0].sid, t)
    ensures Unsafe(s)
  {
    var c := due[0];
    if HasFire(s.db.runs, c.sid, c.fire) {
      var i := StandingFired(s.db, c.sid, c.fire);
      NotFilled(s.db, c.sid, v, t, i);
      NotClearUnsafe(s, c.sid, v);
    } else {
      var rid := FreshId(s.db.usedRuns);
      var at := Max(s.now, s.db.lastCreated + 1);
      var b := InsertFire(s.db, c.sid, c.fire, at, rid, "");
      var u := State(at, b, Advance(c, Job(rid, c.sid, Some(c.fire), at), true, c.fire + 1, due[1..]), s.log);
      assert b.fires[|s.db.fires|] == Fire(rid, c.sid, c.fire, at);
      assert !HasFire(b.runs, c.sid, t);
      NotFilled(b, c.sid, v, t, |s.db.fires|);
      NotClearUnsafe(u, c.sid, v);
      UnsafeMove(s, at, InsertScheduled(rid, "", c.fire + 1), u);
    }
  }

  lemma {:induction false} DueUnsafe(s: State, due: seq<Snap>, k: nat, v: Time, t: Time)
    requires s.ctl == Due(due) && k < |due| && Armed(s.db, due[k].sid, v) && RowsFired(s.db)
    requires s.db.runs.Keys <= s.db.usedRuns
    requires v <= t < due[k].fire && !HasFire(s.db.runs, due[k].sid, t)
    ensures Unsafe(s)
    decreases k
  {
    if k == 0 {
      HeadUnsafe(s, due, v, t);
    } else {
      var u := State(s.now, s.db, Due(due[1..]), s.log);
      DueUnsafe(u, due[1..], k - 1, v, t);
      UnsafeMove(s, s.now, FireError, u);
    }
  }

  /** The failure of the statement the loop stands before; it takes it back to what is waiting. */
  function Failure(ctl: Control): Move
    requires Waiting(ctl) != [] && !ctl.Due?
  {
    match ctl
    case Advance(_, _, _, _, _) => AdvanceError
    case Count(_, _, _) => CountError
    case Discard(_, _, _) => DeleteError
    case Sign(_, _) => SignError
    case Launch(_, _, _) => DispatchError
    case Mark(_, _) => MarkError
  }

  lemma WaitingUnsafe(s: State, k: nat, v: Time, t: Time)
    requires k < |Waiting(s.ctl)| && Armed(s.db, Waiting(s.ctl)[k].sid, v) && RowsFired(s.db)
    requires s.db.runs.Keys <= s.db.usedRuns
    requires v <= t < Waiting(s.ctl)[k].fire && !HasFire(s.db.runs, Waiting(s.ctl)[k].sid, t)
    ensures Unsafe(s)
  {
    if s.ctl.Due? {
      DueUnsafe(s, s.ctl.due, k, v, t);
    } else {
      var m := Failure(s.ctl);
      var u := State(s.now, s.db, Due(Waiting(s.ctl)), MoveLog(s.db, s.ctl, s.log, s.now, m));
      DueUnsafe(u, Waiting(s.ctl), k, v, t);
      UnsafeMove(s, s.now, m, u);
    }
  }

  // ----- a row about to be deleted -----

  /** With fires in order, a fire time belongs to one row. */
  lemma SameFireSameRow(db: Db, job: Job, o: RunId)
    requires RowsFired(db) && FiresRise(db.fires) && FreshOk(db, job)
    requires o in db.runs && db.runs[o].sid == job.sid && db.runs[o].fireTime == job.fire
    ensures o == job.rid
  {
    var i :| 0 <= i < |db.fires| && db.fires[i] == FireOf(JobOf(o, db.runs[o]));
    var j :| 0 <= j < |db.fires| && db.fires[j] == FireOf(job);
    assert i == j;
  }

  lemma OnlyRow(db: Db, job: Job)
    requires RowsFired(db) && FiresRise(db.fires) && FreshOk(db, job)
    ensures !HasFire(db.runs - {job.rid}, job.sid, job.fire.value)
  {
    forall o | o in db.runs && db.runs[o].sid == job.sid && db.runs[o].fireTime == job.fire ensures o == job.rid {
      SameFireSameRow(db, job, o);
    }
  }

  lemma DiscardUnsafe(s: State, v: Time)
    requires s.ctl.Discard? && Armed(s.db, s.ctl.cur.sid, v) && v <= s.ctl.cur.fire
    requires LedgerInv(s)
    ensures Unsafe(s)
  {
    if !FiresRise(s.db.fires) {
      UnsafeNow(s);
    } else {
      var cur, job := s.ctl.cur, s.ctl.job;
      var b := s.db.(runs := s.db.runs - {job.rid});
      var u := State(s.now, b, Due(s.ctl.due), s.log);
      OnlyRow(s.db, job);
      var i :| 0 <= i < |s.db.fires| && s.db.fires[i] == FireOf(job);
      NotFilled(b, cur.sid, v, cur.fire, i);
      NotClearUnsafe(u, cur.sid, v);
      UnsafeMove(s, s.now, DeleteSkipped, u);
    }
  }

  /** With an active manual run beside it the fresh row is discarded. */
  lemma SkipUnsafe(s: State, v: Time, rid: RunId)
    requires s.ctl.Count? && Discards(s.ctl.cur.policy) && Armed(s.db, s.ctl.cur.sid, v) && v <= s.ctl.cur.fire
    requires LedgerInv(s)
    requires rid in OtherActive(s.db.runs, s.ctl.cur.sid, s.ctl.job.rid)
    ensures Unsafe(s)
  {
    var u := State(s.now, s.db, Discard(s.ctl.cur, s.ctl.job, s.ctl.due), s.log);
    DiscardUnsafe(u, v);
    assert |OtherActive(s.db.runs, s.ctl.cur.sid, s.ctl.job.rid)| > 0;
    UnsafeMove(s, s.now, CountActive, u);
  }

  lemma CountUnsafe(s: State, v: Time)
    requires s.ctl.Count? && Discards(s.ctl.cur.policy) && Armed(s.db, s.ctl.cur.sid, v) && v <= s.ctl.cur.fire
    requires LedgerInv(s)
    ensures Unsafe(s)
  {
    var rid := FreshId(s.db.usedRuns);
    var at, sid := Max(s.now, s.db.lastCreated + 1), s.ctl.cur.sid;
    var step := Step(at, Env(RunNow(sid, rid, "")));
    var u := Do(s, step);
    LedgerKept(s, step);
    assert u.db.runs[rid].status == Pending && u.db.runs[rid].sid == sid && rid != s.ctl.job.rid;
    SkipUnsafe(u, v, rid);
    UnsafeBefore(s, step);
  }

  // ----- the sync -----

  /** For a surviving schedule a sync neither adds nor removes a row. */
  lemma SyncedFires(db: Db, post: Schedules, sid: ScheduleId, t: Time)
    requires sid in post
    ensures HasFire(ApplySync(db, post).runs, sid, t) <==> HasFire(db.runs, sid, t)
  {
    var b := ApplySync(db, post);
    if HasFire(db.runs, sid, t) {
      var o :| o in db.runs && db.runs[o].sid == sid && db.runs[o].fireTime == Some(t);
      assert o in b.runs && b.runs[o].fireTime == Some(t);
    }
  }

  lemma SyncedClear(db: Db, post: Schedules, sid: ScheduleId, v: Time)
    requires sid in post && Clear(ApplySync(db, post), sid, v)
    ensures Clear(db, sid, v)
  {
    var b := ApplySync(db, post);
    forall i | 0 <= i < |db.fires| && db.fires[i].sid == sid ensures Filled(db.runs, sid, v, db.fires[i].time + 1) {
      assert b.fires[i] == db.fires[i];
      assert Filled(b.runs, sid, v, b.fires[i].time + 1);
      forall t | v <= t < db.fires[i].time + 1 ensures HasFire(db.runs, sid, t) { SyncedFires(db, post, sid, t); }
    }
  }

  lemma RearmedIsArmed(s: State, step: Step, sid: ScheduleId)
    requires Guard(s, step) && step.act.Env? && step.act.event.Resync?
    requires Rearmed(s.db.schedules, step.act.event.post, sid)
    ensures Armed(ApplySync(s.db, step.act.event.post), sid, step.act.event.post[sid].nextFireAt.value)
  {
    assert SyncedRow(s.db.schedules[sid], step.act.event.post[sid], step.act.event.read);
  }

  lemma HarmfulIsUnsafe(s: State, step: Step, sid: ScheduleId)
    requires LedgerInv(s) && Guard(s, step) && step.act.Env? && step.act.event.Resync?
    requires Rearmed(s.db.schedules, step.act.event.post, sid)
    requires !Current(s.db, s.ctl, sid, step.act.event.post[sid].nextFireAt.value)
    ensures Unsafe(Do(s, step))
  {
    var post := step.act.event.post;
    var v, u := post[sid].nextFireAt.value, Do(s, step);
    LedgerKept(s, step);
    RearmedIsArmed(s, step, sid);
    assert u.db == ApplySync(s.db, post) && u.ctl == s.ctl;
    if !Clear(s.db, sid, v) {
      if Clear(u.db, sid, v) { SyncedClear(s.db, post, sid, v); }
      NotClearUnsafe(u, sid, v);
    } else if MayDiscard(s.ctl) && s.ctl.cur.sid == sid && v <= s.ctl.cur.fire {
      if s.ctl.Discard? { DiscardUnsafe(u, v); } else { CountUnsafe(u, v); }
    } else {
      var k :| 0 <= k < |Waiting(s.ctl)| && Waiting(s.ctl)[k].sid == sid
        && !Filled(s.db.runs, sid, v, Waiting(s.ctl)[k].fire);
      var t :| v <= t < Waiting(s.ctl)[k].fire && !HasFire(s.db.runs, sid, t);
      SyncedFires(s.db, post, sid, t);
      WaitingUnsafe(u, k, v, t);
    }
  }

  /**
   * The condition is exact: after a sync no continuation breaks the order of the fires, if
   * and only if every time the sync re-armed is harmless at the moment of its write.
   */
  lemma SyncIsSafeIff(s: State, step: Step)
    requires FireInv(s) && Guard(s, step) && step.act.Env? && step.act.event.Resync?
    ensures !Unsafe(Do(s, step)) <==> CurrentStep(s, step)
  {
    if CurrentStep(s, step) {
      FireInvKept(s, step);
      if Unsafe(Do(s, step)) {
        var rest :| Legal(Do(s, step), rest) && AllCurrent(Do(s, step), rest)
          && !FiresRise(Exec(Do(s, step), rest).db.fires);
        FireInvAlways(Do(s, step), rest);
      }
    } else {
      var sid :| Rearmed(s.db.schedules, step.act.event.post, sid)
                 && !Current(s.db, s.ctl, sid, step.act.event.post[sid].nextFireAt.value);
      HarmfulIsUnsafe(s, step, sid);
    }
  }
}
