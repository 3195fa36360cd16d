/** No fire time of a schedule is ever used twice, although skipped rows are deleted. */
module FireTimes {
  import opened Options
  import opened Schema
  import opened Machine
  import opened Lifecycle
  import opened Ledger

  /** Fresh fire times of one schedule strictly increase. */
  ghost predicate FiresRise(fires: seq<Fire>) {
    forall i, j :: 0 <= i < j < |fires| && fires[i].sid == fires[j].sid ==> fires[i].time < fires[j].time
  }

  /** Every instant from `from` up to `to` has its row standing, so an insert there conflicts. */
  ghost predicate Filled(runs: Runs, sid: ScheduleId, from: Time, to: Time) {
    forall t :: from <= t < to ==> HasFire(runs, sid, t)
  }

  /** Firing `sid` at `t` or later reuses nothing: what fired since `t` still has its row, without a gap. */
  ghost predicate Clear(db: Db, sid: ScheduleId, t: Time) {
    forall i :: 0 <= i < |db.fires| && db.fires[i].sid == sid ==> Filled(db.runs, sid, t, db.fires[i].time + 1)
  }

  ghost predicate AtMost(db: Db, sid: ScheduleId, t: Time) {
    forall i :: 0 <= i < |db.fires| && db.fires[i].sid == sid ==> db.fires[i].time <= t
  }

  ghost predicate NextClear(db: Db) {
    forall sid :: sid in db.schedules && db.schedules[sid].nextFireAt.Some? ==>
      Clear(db, sid, db.schedules[sid].nextFireAt.value)
  }

  // ----- the fires the loop still has in hand -----

  /** Schedules read as due that the loop has not come to yet. */
  function Waiting(ctl: Control): seq<Snap> {
    match ctl
    case Due(due) => due
    case Advance(_, _, _, _, due) => due
    case Count(_, _, due) => due
    case Discard(_, _, due) => due
    case Sign(_, after) => if after.ToDue? then after.due else []
    case Launch(_, _, after) => if after.ToDue? then after.due else []
    case Mark(_, after) => if after.ToDue? then after.due else []
    case _ => []
  }

  ghost predicate SnapClear(db: Db, c: Snap) {
    c.sid in db.schedules ==>
      && Clear(db, c.sid, c.fire)
      && db.schedules[c.sid].nextFireAt.Some?
      && Filled(db.runs, c.sid, db.schedules[c.sid].nextFireAt.value, c.fire)
  }

  ghost predicate SnapsClear(db: Db, due: seq<Snap>) {
    forall i :: 0 <= i < |due| ==> SnapClear(db, due[i])
  }

  /** The policies under which a fire that finds another run active loses its row. */
  predicate Discards(p: Policy) { p == Skip || p == Unknown }

  /** The row of `cur` is or may be about to be deleted. */
  predicate MayDiscard(ctl: Control) {
    ctl.Discard? || (ctl.Count? && Discards(ctl.cur.policy))
  }

  ghost predicate CurClear(db: Db, ctl: Control) {
    && (ctl.Advance? && ctl.cur.sid in db.schedules ==> Clear(db, ctl.cur.sid, ctl.cur.fire))
    && ((ctl.Advance? && ctl.isNew) || ctl.Count? || ctl.Discard? ==> AtMost(db, ctl.cur.sid, ctl.cur.fire))
    && (MayDiscard(ctl) && ctl.cur.sid in db.schedules && db.schedules[ctl.cur.sid].nextFireAt.Some? ==>
          db.schedules[ctl.cur.sid].nextFireAt.value > ctl.cur.fire)
  }

  ghost predicate ClearInv(db: Db, ctl: Control) {
    FiresRise(db.fires) && NextClear(db) && SnapsClear(db, Waiting(ctl)) && CurClear(db, ctl)
  }

  ghost predicate FireInv(s: State) {
    LedgerInv(s) && ClearInv(s.db, s.ctl)
  }

  // ----- the one thing asked of a sync -----

  /**
   * Re-arming `sid` to `v` is harmless: everything it fired or is about to fire from `v` on
   * has or will have its row standing, and no such row is about to be deleted.
   */
  ghost predicate Current(db: Db, ctl: Control, sid: ScheduleId, v: Time) {
    && Clear(db, sid, v)
    && (forall i :: 0 <= i < |Waiting(ctl)| && Waiting(ctl)[i].sid == sid ==>
          Filled(db.runs, sid, v, Waiting(ctl)[i].fire))
    && (MayDiscard(ctl) && ctl.cur.sid == sid ==> v > ctl.cur.fire)
  }

  predicate Rearmed(before: Schedules, after: Schedules, sid: ScheduleId) {
    && sid in before && sid in after
    && after[sid].nextFireAt != before[sid].nextFireAt && after[sid].nextFireAt.Some?
  }

  ghost predicate CurrentStep(s: State, step: Step) {
    step.act.Env? && step.act.event.Resync? ==>
      forall sid :: Rearmed(s.db.schedules, step.act.event.post, sid) ==>
        Current(s.db, s.ctl, sid, step.act.event.post[sid].nextFireAt.value)
  }

  /** Every sync of the run re-arms harmlessly. */
  ghost predicate AllCurrent(s: State, steps: seq<Step>)
    requires Legal(s, steps)
    decreases |steps|
  {
    steps == [] || (CurrentStep(s, steps[0]) && AllCurrent(Do(s, steps[0]), steps[1..]))
  }

  // ----- rows that stay keep their instants filled -----

  ghost predicate Standing(a: Db, b: Db) {
    && b.fires == a.fires
    && forall sid, t :: sid in b.schedules && HasFire(a.runs, sid, t) ==> HasFire(b.runs, sid, t)
  }

  /** Every row of a surviving schedule survives with its schedule and fire time. */
  ghost predicate RowsStay(a: Db, b: Db) {
    forall rid :: rid in a.runs && a.runs[rid].sid in b.schedules ==>
      rid in b.runs && b.runs[rid].sid == a.runs[rid].sid && b.runs[rid].fireTime == a.runs[rid].fireTime
  }

  lemma StayingStands(a: Db, b: Db)
    requires b.fires == a.fires && RowsStay(a, b)
    ensures Standing(a, b)
  {
    forall sid, t | sid in b.schedules && HasFire(a.runs, sid, t) ensures HasFire(b.runs, sid, t) {
      var rid :| rid in a.runs && a.runs[rid].sid == sid && a.runs[rid].fireTime == Some(t);
      assert b.runs[rid].fireTime == Some(t);
    }
  }

  lemma StandingFilled(a: Db, b: Db, sid: ScheduleId, from: Time, to: Time)
    requires Standing(a, b) && sid in b.schedules && Filled(a.runs, sid, from, to)
    ensures Filled(b.runs, sid, from, to)
  {
  }

  lemma StandingClear(a: Db, b: Db, sid: ScheduleId, t: Time)
    requires Standing(a, b) && sid in b.schedules && Clear(a, sid, t)
    ensures Clear(b, sid, t)
  {
    forall i | 0 <= i < |b.fires| && b.fires[i].sid == sid ensures Filled(b.runs, sid, t, b.fires[i].time + 1) {
      StandingFilled(a, b, sid, t, a.fires[i].time + 1);
    }
  }

  lemma LaterClear(db: Db, sid: ScheduleId, t: Time, u: Time)
    requires Clear(db, sid, t) && t <= u
    ensures Clear(db, sid, u)
  {
    forall i | 0 <= i < |db.fires| && db.fires[i].sid == sid ensures Filled(db.runs, sid, u, db.fires[i].time + 1) {
      assert Filled(db.runs, sid, t, db.fires[i].time + 1);
    }
  }

  lemma PastAllIsClear(db: Db, sid: ScheduleId, t: Time)
    requires AtMost(db, sid, t - 1)
    ensures Clear(db, sid, t)
  {
  }

  // ----- steps that leave fires and rows standing -----

  /** A surviving schedule keeps next_fire_at, or is re-armed harmlessly, or is new. */
  ghost predicate NextKept(a: Db, b: Db, ctl: Control, sid: ScheduleId)
    requires sid in b.schedules
  {
    if sid !in a.schedules then sid !in a.usedSchedules
    else b.schedules[sid].nextFireAt == a.schedules[sid].nextFireAt
         || (b.schedules[sid].nextFireAt.Some? && Current(a, ctl, sid, b.schedules[sid].nextFireAt.value))
  }

  ghost predicate Quiet(a: Db, b: Db, ctl: Control) {
    && Standing(a, b)
    && forall sid :: sid in b.schedules ==> NextKept(a, b, ctl, sid)
  }

  lemma QuietNext(a: Db, b: Db, now: Time, ctl: Control)
    requires Quiet(a, b, ctl) && NextClear(a) && FiresOk(a, now)
    ensures NextClear(b)
  {
    forall sid | sid in b.schedules && b.schedules[sid].nextFireAt.Some?
      ensures Clear(b, sid, b.schedules[sid].nextFireAt.value)
    {
      assert NextKept(a, b, ctl, sid);
      if sid in a.schedules {
        StandingClear(a, b, sid, b.schedules[sid].nextFireAt.value);
      } else {
        assert forall i :: 0 <= i < |b.fires| ==> b.fires[i] == a.fires[i];
      }
    }
  }

  lemma QuietSnap(a: Db, b: Db, ctl: Control, i: nat)
    requires Quiet(a, b, ctl) && i < |Waiting(ctl)| && SnapClear(a, Waiting(ctl)[i])
    requires Waiting(ctl)[i].sid in a.usedSchedules
    ensures SnapClear(b, Waiting(ctl)[i])
  {
    var c := Waiting(ctl)[i];
    if c.sid in b.schedules {
      assert NextKept(a, b, ctl, c.sid);
      StandingClear(a, b, c.sid, c.fire);
      StandingFilled(a, b, c.sid, b.schedules[c.sid].nextFireAt.value, c.fire);
    }
  }

  lemma QuietCur(a: Db, b: Db, ctl: Control)
    requires Quiet(a, b, ctl) && CurClear(a, ctl)
    requires ctl.Advance? || ctl.Count? || ctl.Discard? ==> ctl.cur.sid in a.usedSchedules
    ensures CurClear(b, ctl)
  {
    if (ctl.Advance? || ctl.Count? || ctl.Discard?) && ctl.cur.sid in b.schedules {
      assert NextKept(a, b, ctl, ctl.cur.sid);
      if ctl.Advance? { StandingClear(a, b, ctl.cur.sid, ctl.cur.fire); }
    }
  }

  lemma QuietClear(a: Db, b: Db, now: Time, ctl: Control)
    requires Quiet(a, b, ctl) && ClearInv(a, ctl) && FiresOk(a, now) && PlanSound(a, now, ctl)
    ensures ClearInv(b, ctl)
  {
    QuietNext(a, b, now, ctl);
    forall i | 0 <= i < |Waiting(ctl)| ensures SnapClear(b, Waiting(ctl)[i]) {
      assert SnapClear(a, Waiting(ctl)[i]);
      QuietSnap(a, b, ctl, i);
    }
    QuietCur(a, b, ctl);
  }

  // ----- the steps of everyone else -----

  lemma EventStays(db: Db, log: Log, at: Time, e: Event)
    requires EventGuard(db, log, at, e) && db.runs.Keys <= db.usedRuns
    ensures EventDb(db, log, at, e).fires == db.fires && RowsStay(db, EventDb(db, log, at, e))
  {
  }

  lemma EventNext(s: State, step: Step, sid: ScheduleId)
    requires Rows(s.db, s.now) && Guard(s, step) && step.act.Env? && CurrentStep(s, step)
    requires sid in EventDb(s.db, s.log, step.at, step.act.event).schedules
    ensures NextKept(s.db, EventDb(s.db, s.log, step.at, step.act.event), s.ctl, sid)
  {
    var e := step.act.event;
    if e.Resync? && sid in s.db.schedules { assert SyncedRow(s.db.schedules[sid], e.post[sid], e.read); }
  }

  lemma EventKeeps(s: State, step: Step)
    requires FireInv(s) && Guard(s, step) && step.act.Env? && CurrentStep(s, step)
    ensures ClearInv(EventDb(s.db, s.log, step.at, step.act.event), s.ctl)
  {
    var b := EventDb(s.db, s.log, step.at, step.act.event);
    EventStays(s.db, s.log, step.at, step.act.event);
    StayingStands(s.db, b);
    forall sid | sid in b.schedules ensures NextKept(s.db, b, s.ctl, sid) { EventNext(s, step, sid); }
    QuietClear(s.db, b, s.now, s.ctl);
  }

  // ----- the insert -----

  /** One more row fills one more instant and empties none. */
  lemma InsertStands(db: Db, sid: ScheduleId, fire: Time, at: Time, rid: RunId, nonce: string, x: ScheduleId, t: Time)
    requires rid !in db.runs
    ensures var b := InsertFire(db, sid, fire, at, rid, nonce);
            && (HasFire(db.runs, x, t) ==> HasFire(b.runs, x, t))
            && HasFire(b.runs, sid, fire)
  {
    var b := InsertFire(db, sid, fire, at, rid, nonce);
    if HasFire(db.runs, x, t) {
      var o :| o in db.runs && db.runs[o].sid == x && db.runs[o].fireTime == Some(t);
      assert b.runs[o].fireTime == Some(t);
    }
    if !HasFire(db.runs, sid, fire) { assert b.runs[rid].fireTime == Some(fire); }
  }

  lemma InsertFills(db: Db, sid: ScheduleId, fire: Time, at: Time, rid: RunId, nonce: string, x: ScheduleId,
                    from: Time, to: Time)
    requires rid !in db.runs && Filled(db.runs, x, from, to)
    ensures Filled(InsertFire(db, sid, fire, at, rid, nonce).runs, x, from, to)
  {
    forall t | from <= t < to ensures HasFire(InsertFire(db, sid, fire, at, rid, nonce).runs, x, t) {
      InsertStands(db, sid, fire, at, rid, nonce, x, t);
    }
  }

  /** What was clear stays clear, and for the inserted schedule from any instant filled up to the insert. */
  lemma InsertClears(db: Db, sid: ScheduleId, fire: Time, at: Time, rid: RunId, nonce: string, x: ScheduleId, t: Time)
    requires rid !in db.runs && Clear(db, x, t) && (x == sid ==> Filled(db.runs, sid, t, fire))
    ensures Clear(InsertFire(db, sid, fire, at, rid, nonce), x, t)
  {
    var b := InsertFire(db, sid, fire, at, rid, nonce);
    forall i | 0 <= i < |b.fires| && b.fires[i].sid == x ensures Filled(b.runs, x, t, b.fires[i].time + 1) {
      if i < |db.fires| {
        assert b.fires[i] == db.fires[i];
        InsertFills(db, sid, fire, at, rid, nonce, x, t, db.fires[i].time + 1);
      } else {
        InsertFills(db, sid, fire, at, rid, nonce, x, t, fire);
        InsertStands(db, sid, fire, at, rid, nonce, sid, fire);
      }
    }
  }

  /** Where nothing stands and all is clear, everything fired before. */
  lemma ClearIsLater(db: Db, sid: ScheduleId, t: Time)
    requires Clear(db, sid, t) && !HasFire(db.runs, sid, t)
    ensures AtMost(db, sid, t - 1)
  {
    forall i | 0 <= i < |db.fires| && db.fires[i].sid == sid ensures db.fires[i].time <= t - 1 {
      assert Filled(db.runs, sid, t, db.fires[i].time + 1);
    }
  }

  lemma InsertRises(db: Db, cur: Snap, at: Time, rid: RunId, nonce: string)
    requires FiresRise(db.fires) && Clear(db, cur.sid, cur.fire)
    ensures var b := InsertFire(db, cur.sid, cur.fire, at, rid, nonce);
            FiresRise(b.fires) && (!HasFire(db.runs, cur.sid, cur.fire) ==> AtMost(b, cur.sid, cur.fire))
  {
    if !HasFire(db.runs, cur.sid, cur.fire) { ClearIsLater(db, cur.sid, cur.fire); }
  }

  lemma InsertSnap(db: Db, cur: Snap, at: Time, rid: RunId, nonce: string, c: Snap)
    requires rid !in db.runs && SnapClear(db, c) && c.sid != cur.sid
    ensures SnapClear(InsertFire(db, cur.sid, cur.fire, at, rid, nonce), c)
  {
    if c.sid in db.schedules {
      InsertClears(db, cur.sid, cur.fire, at, rid, nonce, c.sid, c.fire);
      InsertFills(db, cur.sid, cur.fire, at, rid, nonce, c.sid, db.schedules[c.sid].nextFireAt.value, c.fire);
    }
  }

  lemma InsertNext(db: Db, cur: Snap, at: Time, rid: RunId, nonce: string)
    requires rid !in db.runs && NextClear(db) && SnapClear(db, cur)
    ensures NextClear(InsertFire(db, cur.sid, cur.fire, at, rid, nonce))
  {
    forall sid | sid in db.schedules && db.schedules[sid].nextFireAt.Some?
      ensures Clear(InsertFire(db, cur.sid, cur.fire, at, rid, nonce), sid, db.schedules[sid].nextFireAt.value)
    {
      InsertClears(db, cur.sid, cur.fire, at, rid, nonce, sid, db.schedules[sid].nextFireAt.value);
    }
  }

  lemma InsertKeepsClear(db: Db, due: seq<Snap>, at: Time, rid: RunId, nonce: string, next: Time)
    requires due != [] && due[0].sid in db.schedules && rid !in db.runs
    requires FiresRise(db.fires) && NextClear(db) && SnapsClear(db, due)
    requires forall i :: 0 < i < |due| ==> due[i].sid != due[0].sid
    ensures var cur := due[0];
            ClearInv(InsertFire(db, cur.sid, cur.fire, at, rid, nonce),
                     Advance(cur, Job(rid, cur.sid, Some(cur.fire), at), !HasFire(db.runs, cur.sid, cur.fire), next,
                             due[1..]))
  {
    var cur := due[0];
    assert SnapClear(db, cur);
    InsertRises(db, cur, at, rid, nonce);
    InsertNext(db, cur, at, rid, nonce);
    forall i | 0 <= i < |due[1..]| ensures SnapClear(InsertFire(db, cur.sid, cur.fire, at, rid, nonce), due[1..][i]) {
      assert SnapClear(db, due[i + 1]);
      InsertSnap(db, cur, at, rid, nonce, due[i + 1]);
    }
    assert Filled(db.runs, cur.sid, cur.fire, cur.fire);
    InsertClears(db, cur.sid, cur.fire, at, rid, nonce, cur.sid, cur.fire);
  }

  // ----- advancing and discarding -----

  lemma AdvanceKeepsClear(db: Db, cur: Snap, job: Job, isNew: bool, next: Time, due: seq<Snap>, at: Time)
    requires ClearInv(db, Advance(cur, job, isNew, next, due)) && next > cur.fire
    requires forall i :: 0 <= i < |due| ==> due[i].sid != cur.sid
    ensures var b := db.(schedules := SetNextFireAt(db.schedules, cur.sid, next, at));
            ClearInv(b, if isNew then Count(cur, job, due) else Due(due))
  {
    var b := db.(schedules := SetNextFireAt(db.schedules, cur.sid, next, at));
    if cur.sid in db.schedules { LaterClear(db, cur.sid, cur.fire, next); }
    forall sid | sid in b.schedules && b.schedules[sid].nextFireAt.Some?
      ensures Clear(b, sid, b.schedules[sid].nextFireAt.value)
    {
      assert Clear(db, sid, b.schedules[sid].nextFireAt.value);
    }
    forall i | 0 <= i < |due| ensures SnapClear(b, due[i]) { assert SnapClear(db, due[i]); }
  }

  lemma DiscardStands(db: Db, job: Job, x: ScheduleId, t: Time)
    requires JobOk(db, job) && x != job.sid && HasFire(db.runs, x, t)
    ensures HasFire(db.runs - {job.rid}, x, t)
  {
    var o :| o in db.runs && db.runs[o].sid == x && db.runs[o].fireTime == Some(t);
    assert o in db.runs - {job.rid};
  }

  lemma DiscardFills(db: Db, job: Job, x: ScheduleId, from: Time, to: Time)
    requires JobOk(db, job) && x != job.sid && Filled(db.runs, x, from, to)
    ensures Filled(db.runs - {job.rid}, x, from, to)
  {
    forall t | from <= t < to ensures HasFire(db.runs - {job.rid}, x, t) { DiscardStands(db, job, x, t); }
  }

  lemma DiscardClears(db: Db, job: Job, x: ScheduleId, t: Time)
    requires JobOk(db, job) && Clear(db, x, t) && (x == job.sid ==> AtMost(db, x, t - 1))
    ensures Clear(db.(runs := db.runs - {job.rid}), x, t)
  {
    var b := db.(runs := db.runs - {job.rid});
    forall i | 0 <= i < |b.fires| && b.fires[i].sid == x ensures Filled(b.runs, x, t, b.fires[i].time + 1) {
      if x != job.sid { DiscardFills(db, job, x, t, db.fires[i].time + 1); }
    }
  }

  lemma DiscardKeepsClear(db: Db, cur: Snap, job: Job, due: seq<Snap>)
    requires ClearInv(db, Discard(cur, job, due)) && JobOk(db, job) && job.sid == cur.sid
    requires forall i :: 0 <= i < |due| ==> due[i].sid != cur.sid
    ensures ClearInv(db.(runs := db.runs - {job.rid}), Due(due))
  {
    var b := db.(runs := db.runs - {job.rid});
    forall sid | sid in b.schedules && b.schedules[sid].nextFireAt.Some?
      ensures Clear(b, sid, b.schedules[sid].nextFireAt.value)
    {
      DiscardClears(db, job, sid, b.schedules[sid].nextFireAt.value);
    }
    forall i | 0 <= i < |due| ensures SnapClear(b, due[i]) {
      assert SnapClear(db, due[i]);
      if due[i].sid in db.schedules {
        DiscardClears(db, job, due[i].sid, due[i].fire);
        DiscardFills(db, job, due[i].sid, db.schedules[due[i].sid].nextFireAt.value, due[i].fire);
      }
    }
  }

  // ----- the other moves of the loop -----

  /** Statements that rewrite rows in place, or read, or fail. */
  predicate Mild(m: Move) {
    !m.InsertScheduled? && !m.AdvanceNext? && !m.DeleteSkipped?
  }

  lemma MildStays(db: Db, ctl: Control, log: Log, at: Time, m: Move)
    requires MoveGuard(db, ctl, log, at, m) && Mild(m)
    ensures var b := MoveDb(db, ctl, log, at, m);
            b.fires == db.fires && b.schedules == db.schedules && RowsStay(db, b)
  {
  }

  lemma ListedClear(db: Db, at: Time, due: seq<Snap>)
    requires NextClear(db) && IsDueList(db.schedules, at, due)
    ensures SnapsClear(db, due)
  {
    forall i | 0 <= i < |due| ensures SnapClear(db, due[i]) { assert IsDue(db.schedules, at, due[i].sid); }
  }

  /** What is in hand afterwards was in hand before, or was just read. */
  lemma WaitingAfter(db: Db, ctl: Control, log: Log, at: Time, m: Move)
    requires MoveGuard(db, ctl, log, at, m) && Mild(m)
    ensures var w := Waiting(MoveCtl(db, ctl, log, at, m));
            if m.ListDue? then w == m.due
            else if m.FireError? then w == Waiting(ctl)[1..]
            else w == Waiting(ctl) || w == []
  {
  }

  lemma MildWaiting(db: Db, ctl: Control, log: Log, at: Time, m: Move)
    requires MoveGuard(db, ctl, log, at, m) && Mild(m) && NextClear(db) && SnapsClear(db, Waiting(ctl))
    ensures SnapsClear(db, Waiting(MoveCtl(db, ctl, log, at, m)))
  {
    WaitingAfter(db, ctl, log, at, m);
    if m.ListDue? { ListedClear(db, at, m.due); }
    if m.FireError? { FewerClear(db, Waiting(ctl)); }
  }

  lemma FewerClear(db: Db, due: seq<Snap>)
    requires due != [] && SnapsClear(db, due)
    ensures SnapsClear(db, due[1..])
  {
  }

  lemma MildCur(db: Db, ctl: Control, log: Log, at: Time, m: Move)
    requires MoveGuard(db, ctl, log, at, m) && Mild(m) && CurClear(db, ctl)
    ensures CurClear(db, MoveCtl(db, ctl, log, at, m))
  {
  }

  lemma MildKeeps(db: Db, ctl: Control, log: Log, now: Time, at: Time, m: Move)
    requires MoveGuard(db, ctl, log, at, m) && Mild(m) && ClearInv(db, ctl) && FiresOk(db, now)
    requires PlanSound(db, now, MoveCtl(db, ctl, log, at, m))
    ensures ClearInv(MoveDb(db, ctl, log, at, m), MoveCtl(db, ctl, log, at, m))
  {
    var b, to := MoveDb(db, ctl, log, at, m), MoveCtl(db, ctl, log, at, m);
    MildWaiting(db, ctl, log, at, m);
    MildCur(db, ctl, log, at, m);
    MildStays(db, ctl, log, at, m);
    StayingStands(db, b);
    assert Quiet(db, b, to);
    QuietClear(db, b, now, to);
  }

  lemma MoveKeeps(db: Db, ctl: Control, log: Log, now: Time, at: Time, m: Move)
    requires MoveGuard(db, ctl, log, at, m) && now <= at && Rows(db, now) && FiresOk(db, now) && PlanSound(db, now, ctl)
    requires ClearInv(db, ctl)
    ensures ClearInv(MoveDb(db, ctl, log, at, m), MoveCtl(db, ctl, log, at, m))
  {
    if m.InsertScheduled? {
      InsertKeepsClear(db, ctl.due, at, m.rid, m.nonce, m.next);
    } else if m.AdvanceNext? {
      AdvanceKeepsClear(db, ctl.cur, ctl.job, ctl.isNew, ctl.next, ctl.due, at);
    } else if m.DeleteSkipped? {
      DiscardKeepsClear(db, ctl.cur, ctl.job, ctl.due);
    } else {
      KeepsPlan(db, db, now, at, ctl);
      NextPlan(db, ctl, log, now, at, m);
      MildKeeps(db, ctl, log, at, at, m);
    }
  }

  // ----- every step -----

  /** Every step keeps the fire-time invariant; a sync does if it re-arms harmlessly. */
  lemma FireInvKept(s: State, step: Step)
    requires FireInv(s) && Guard(s, step) && CurrentStep(s, step)
    ensures FireInv(Do(s, step))
  {
    LedgerKept(s, step);
    if step.act.Loop? {
      MoveKeeps(s.db, s.ctl, s.log, s.now, step.at, step.act.move);
    } else {
      EventKeeps(s, step);
    }
  }

  lemma {:induction false} FireInvAlways(s: State, steps: seq<Step>)
    requires FireInv(s) && Legal(s, steps) && AllCurrent(s, steps)
    ensures FireInv(Exec(s, steps))
    decreases |steps|
  {
    if steps != [] {
      FireInvKept(s, steps[0]);
      FireInvAlways(Do(s, steps[0]), steps[1..]);
    }
  }

  /**
   * Over any interleaving from an empty database, with any statement allowed to fail, the
   * loop allowed to crash anywhere, and syncs that may have read the clock long before they
   * write, as long as none re-arms onto a fire whose row is gone: each (schedule, fire time)
   * gets a fresh row at most once, and a schedule's fresh fire times strictly increase.
   */
  lemma FireTimesNeverReused(s: State, steps: seq<Step>)
    requires Init(s) && Legal(s, steps) && AllCurrent(s, steps)
    ensures FiresRise(Exec(s, steps).db.fires)
    ensures var fires := Exec(s, steps).db.fires;
            forall i, j :: 0 <= i < |fires| && 0 <= j < |fires| && i != j ==>
              (fires[i].sid, fires[i].time) != (fires[j].sid, fires[j].time)
  {
    FireInvAlways(s, steps);
  }

  // ----- what a sync can do to be harmless -----

  /** It is enough that the re-armed time still lies ahead when it is written. */
  lemma AheadIsCurrent(s: State, at: Time, sid: ScheduleId, v: Time)
    requires LedgerInv(s) && s.now <= at < v
    ensures Current(s.db, s.ctl, sid, v)
  {
    PastAllIsClear(s.db, sid, v);
    assert SnapsOk(s.db, s.now, Waiting(s.ctl));
  }

  /** A sync that writes in the instant it read the clock re-arms harmlessly. */
  lemma PromptSyncIsCurrent(s: State, step: Step)
    requires LedgerInv(s) && Guard(s, step) && step.act.Env? && step.act.event.Resync?
    requires step.act.event.read == step.at
    ensures CurrentStep(s, step)
  {
    var post := step.act.event.post;
    forall sid | Rearmed(s.db.schedules, post, sid)
      ensures Current(s.db, s.ctl, sid, post[sid].nextFireAt.value)
    {
      assert SyncedRow(s.db.schedules[sid], post[sid], step.at);
      AheadIsCurrent(s, step.at, sid, post[sid].nextFireAt.value);
    }
  }
}
