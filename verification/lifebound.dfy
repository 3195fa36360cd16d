/** No run stays unfinished for ever: the orphan sweep bounds its age. */
module LifeBound {
  import opened Options
  import opened Schema
  import opened Machine
  import opened Ledger

  /** The schedule keeps one timeout for as long as it exists. */
  ghost predicate TimeoutFixed(s: State, steps: seq<Step>, sid: ScheduleId, timeoutSec: int)
    requires Legal(s, steps)
    decreases |steps|
  {
    && (sid in s.db.schedules ==> s.db.schedules[sid].timeoutSec == timeoutSec)
    && (steps == [] || TimeoutFixed(Do(s, steps[0]), steps[1..], sid, timeoutSec))
  }

  /** Whenever the loop marks a run running, a sweep succeeded at most `gap` before. */
  ghost predicate SweepsWithin(s: State, steps: seq<Step>, gap: int)
    requires Legal(s, steps)
    decreases |steps|
  {
    steps == [] ||
    (&& (steps[0].act == Loop(MarkRunning) ==> steps[0].at - s.db.lastSweep <= gap)
     && SweepsWithin(Do(s, steps[0]), steps[1..], gap))
  }

  /**
   * What holds of one row between sweeps, where `limit` is what the sweep tolerates:
   * a pending row was young at the last sweep, a started one was young when it started.
   */
  predicate Young(r: Run, lastSweep: Time, limit: int, gap: int) {
    && (r.status == Pending ==> r.startedAt.None? && lastSweep - r.createdAt <= limit)
    && (r.status == Running ==> r.startedAt.Some? && r.startedAt.value - r.createdAt <= limit + gap)
  }

  /** What the sweep tolerates; a timeout below -300 s tolerates nothing. */
  function Tolerance(timeoutSec: int): nat {
    if Limit(timeoutSec) < 0 then 0 else Limit(timeoutSec)
  }

  ghost predicate AllYoung(db: Db, sid: ScheduleId, limit: int, gap: int) {
    forall rid :: rid in db.runs && db.runs[rid].sid == sid ==> Young(db.runs[rid], db.lastSweep, limit, gap)
  }

  /** A row the sweep leaves alone is at most twice the limit plus the gap old. */
  lemma YoungSurvives(r: Run, lastSweep: Time, at: Time, timeoutSec: int, gap: int)
    requires Young(r, lastSweep, Tolerance(timeoutSec), gap) && r.status.Active() && gap >= 0
    requires SweepBase(r) <= at && at - SweepBase(r) <= Limit(timeoutSec)
    ensures Young(r, at, Tolerance(timeoutSec), gap) && at - r.createdAt <= 2 * Limit(timeoutSec) + gap
  {
  }

  lemma SweepKeepsYoung(db: Db, now: Time, at: Time, sid: ScheduleId, timeoutSec: int, gap: int)
    requires Rows(db, now) && now <= at && AllYoung(db, sid, Tolerance(timeoutSec), gap) && gap >= 0
    requires sid in db.schedules ==> db.schedules[sid].timeoutSec == timeoutSec
    ensures var runs := OrphanSweep(db.runs, db.schedules, at);
            forall rid :: rid in runs && runs[rid].sid == sid ==>
              && Young(runs[rid], at, Tolerance(timeoutSec), gap)
              && (runs[rid].status.Active() ==> at - runs[rid].createdAt <= 2 * Limit(timeoutSec) + gap)
  {
    var runs := OrphanSweep(db.runs, db.schedules, at);
    forall rid | rid in runs && runs[rid].sid == sid
      ensures Young(runs[rid], at, Tolerance(timeoutSec), gap)
      ensures runs[rid].status.Active() ==> at - runs[rid].createdAt <= 2 * Limit(timeoutSec) + gap
    {
      assert Young(db.runs[rid], db.lastSweep, Tolerance(timeoutSec), gap);
      if runs[rid].status.Active() {
        YoungSurvives(db.runs[rid], db.lastSweep, at, timeoutSec, gap);
      }
    }
  }

  lemma EventKeepsYoung(db: Db, log: Log, now: Time, at: Time, e: Event, sid: ScheduleId, limit: nat, gap: int)
    requires EventGuard(db, log, at, e) && now <= at && Rows(db, now)
    requires AllYoung(db, sid, limit, gap)
    ensures AllYoung(EventDb(db, log, at, e), sid, limit, gap)
  {
  }

  lemma MoveKeepsYoung(db: Db, ctl: Control, log: Log, now: Time, at: Time, m: Move, sid: ScheduleId,
                       timeoutSec: int, gap: int)
    requires MoveGuard(db, ctl, log, at, m) && now <= at && Rows(db, now) && gap >= 0
    requires sid in db.schedules ==> db.schedules[sid].timeoutSec == timeoutSec
    requires m.MarkRunning? ==> at - db.lastSweep <= gap
    requires AllYoung(db, sid, Tolerance(timeoutSec), gap)
    ensures AllYoung(MoveDb(db, ctl, log, at, m), sid, Tolerance(timeoutSec), gap)
  {
    if m.SweepOrphans? { SweepKeepsYoung(db, now, at, sid, timeoutSec, gap); }
  }

  /** A pending row was within the tolerance at the last sweep, a running one when it started. */
  lemma {:induction false} YoungAlways(s: State, steps: seq<Step>, sid: ScheduleId, timeoutSec: int, gap: int)
    requires LedgerInv(s) && Legal(s, steps) && gap >= 0
    requires TimeoutFixed(s, steps, sid, timeoutSec) && SweepsWithin(s, steps, gap)
    requires AllYoung(s.db, sid, Tolerance(timeoutSec), gap)
    ensures LedgerInv(Exec(s, steps)) && AllYoung(Exec(s, steps).db, sid, Tolerance(timeoutSec), gap)
    ensures sid in Exec(s, steps).db.schedules ==> Exec(s, steps).db.schedules[sid].timeoutSec == timeoutSec
    decreases |steps|
  {
    if steps != [] {
      LedgerKept(s, steps[0]);
      match steps[0].act {
        case Loop(m) => MoveKeepsYoung(s.db, s.ctl, s.log, s.now, steps[0].at, m, sid, timeoutSec, gap);
        case Env(e) => EventKeepsYoung(s.db, s.log, s.now, steps[0].at, e, sid, Tolerance(timeoutSec), gap);
      }
      YoungAlways(Do(s, steps[0]), steps[1..], sid, timeoutSec, gap);
    }
  }

  /**
   * With sweeps at most `gap` apart and a fixed timeout, no run of the schedule is
   * unfinished after a sweep once it is older than twice (timeout + 300 s) plus the gap,
   * whatever dispatches, failures and crashes came before.
   */
  lemma AgedRunsAreTerminal(s: State, steps: seq<Step>, sweep: Step, sid: ScheduleId, timeoutSec: int, gap: int,
                            rid: RunId)
    requires Init(s) && Legal(s, steps) && gap >= 0
    requires TimeoutFixed(s, steps, sid, timeoutSec) && SweepsWithin(s, steps, gap)
    requires sweep.act == Loop(SweepOrphans) && Guard(Exec(s, steps), sweep)
    requires var runs := Do(Exec(s, steps), sweep).db.runs;
             && rid in runs && runs[rid].sid == sid
             && sweep.at - runs[rid].createdAt > 2 * Limit(timeoutSec) + gap
    ensures Do(Exec(s, steps), sweep).db.runs[rid].status.Terminal()
  {
    YoungAlways(s, steps, sid, timeoutSec, gap);
    var t := Exec(s, steps);
    SweepKeepsYoung(t.db, t.now, sweep.at, sid, timeoutSec, gap);
  }
}
