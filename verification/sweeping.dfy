/** The orphan sweep over the columns: whom it fails, and whom it must leave alone. */
module Sweeping {
  import opened Options
  import opened Schema
  import opened Machine
  import opened Lifecycle
  import opened LifeBound

  /** Five minutes over the timeout, in microseconds. */
  predicate WithinGrace(from: Time, at: Time, timeoutSec: int) {
    at - from <= (timeoutSec + 300) * 1_000_000
  }

  /** A row and what a sweep made of it. */
  ghost predicate FairlySwept(r: Run, after: Run, schedules: Schedules, at: Time) {
    if r.sid !in schedules || (r.status != Pending && r.status != Running) then after == r
    else
      var limit := schedules[r.sid].timeoutSec;
      if (r.startedAt.Some? && WithinGrace(r.startedAt.value, at, limit))
         || (r.startedAt.None? && WithinGrace(r.createdAt, at, limit))
      then after == r
      else after == Run(r.sid, r.fireTime, Failed, r.createdAt, r.startedAt, Some(at), Some(BySweep), r.tokenHash)
  }

  ghost predicate AllFairlySwept(a: Runs, b: Runs, schedules: Schedules, at: Time) {
    b.Keys == a.Keys && forall rid :: rid in a ==> FairlySwept(a[rid], b[rid], schedules, at)
  }

  lemma SweepIsFair(runs: Runs, schedules: Schedules, at: Time)
    ensures AllFairlySwept(runs, OrphanSweep(runs, schedules, at), schedules, at)
  {
  }

  // ----- over whole runs -----

  /** A row has started exactly if it is running, or may have if it is over; a swept one was out of time. */
  ghost predicate Timely(r: Run, timeoutSec: int) {
    && (r.status == Pending ==> r.startedAt.None?)
    && (r.status == Running ==> r.startedAt.Some?)
    && (r.ender == Some(BySweep) ==>
          && r.finishedAt.Some?
          && !WithinGrace(if r.startedAt.Some? then r.startedAt.value else r.createdAt, r.finishedAt.value, timeoutSec))
    && (r.status.Active() ==> r.ender.None?)
  }

  ghost predicate AllTimely(db: Db, sid: ScheduleId, timeoutSec: int) {
    forall rid :: rid in db.runs && db.runs[rid].sid == sid ==> Timely(db.runs[rid], timeoutSec)
  }

  lemma MoveIsTimely(db: Db, ctl: Control, log: Log, at: Time, m: Move, sid: ScheduleId, timeoutSec: int)
    requires MoveGuard(db, ctl, log, at, m) && AllTimely(db, sid, timeoutSec)
    requires sid in db.schedules ==> db.schedules[sid].timeoutSec == timeoutSec
    ensures AllTimely(MoveDb(db, ctl, log, at, m), sid, timeoutSec)
  {
    if m.SweepOrphans? { SweepIsFair(db.runs, db.schedules, at); }
  }

  lemma EventIsTimely(db: Db, log: Log, at: Time, e: Event, sid: ScheduleId, timeoutSec: int)
    requires EventGuard(db, log, at, e) && AllTimely(db, sid, timeoutSec)
    ensures AllTimely(EventDb(db, log, at, e), sid, timeoutSec)
  {
  }

  lemma {:induction false} TimelyAlways(s: State, steps: seq<Step>, sid: ScheduleId, timeoutSec: int)
    requires Legal(s, steps) && TimeoutFixed(s, steps, sid, timeoutSec) && AllTimely(s.db, sid, timeoutSec)
    ensures AllTimely(Exec(s, steps).db, sid, timeoutSec)
    decreases |steps|
  {
    if steps != [] {
      match steps[0].act {
        case Loop(m) => MoveIsTimely(s.db, s.ctl, s.log, steps[0].at, m, sid, timeoutSec);
        case Env(e) => EventIsTimely(s.db, s.log, steps[0].at, e, sid, timeoutSec);
      }
      TimelyAlways(Do(s, steps[0]), steps[1..], sid, timeoutSec);
    }
  }

  /** A pending row that is marked has started at that very instant. */
  lemma MarkedStartsNow(s: State, mark: Step, rid: RunId)
    requires Guard(s, mark) && mark.act == Loop(MarkRunning) && s.ctl.job.rid == rid
    requires rid in s.db.runs && s.db.runs[rid].status == Pending
    ensures rid in Do(s, mark).db.runs
    ensures Do(s, mark).db.runs[rid] == s.db.runs[rid].(status := Running, startedAt := Some(mark.at))
  {
  }

  /**
   * A run that was marked running at some instant is not failed by a sweep until its
   * timeout and five minutes have passed since, however long it had waited before.
   */
  lemma MarkedRunsAreLeftAlone(s: State, before: seq<Step>, mark: Step, after: seq<Step>, sid: ScheduleId,
                               timeoutSec: int, rid: RunId)
    requires Init(s) && Legal(s, before) && Guard(Exec(s, before), mark) && Legal(Do(Exec(s, before), mark), after)
    requires TimeoutFixed(s, before, sid, timeoutSec) && TimeoutFixed(Do(Exec(s, before), mark), after, sid, timeoutSec)
    requires mark.act == Loop(MarkRunning) && Exec(s, before).ctl.job.rid == rid
    requires rid in Exec(s, before).db.runs && Exec(s, before).db.runs[rid].status == Pending
    requires Exec(s, before).db.runs[rid].sid == sid
    requires var end := Exec(Do(Exec(s, before), mark), after);
             rid in end.db.runs && end.db.runs[rid].ender == Some(BySweep)
    ensures var r := Exec(Do(Exec(s, before), mark), after).db.runs[rid];
            r.finishedAt.Some? && r.finishedAt.value > mark.at + (timeoutSec + 300) * 1_000_000
  {
    var t := Exec(s, before);
    var u := Do(t, mark);
    EndInvAlways(s, before);
    EndInvKept(t, mark);
    TimelyAlways(s, before, sid, timeoutSec);
    MarkedStartsNow(t, mark, rid);
    FixedAt(s, before, sid, timeoutSec);
    MoveIsTimely(t.db, t.ctl, t.log, mark.at, MarkRunning, sid, timeoutSec);
    TimelyAlways(u, after, sid, timeoutSec);
    StatusOnlyAdvances(u, after, rid);
  }

  lemma {:induction false} FixedAt(s: State, steps: seq<Step>, sid: ScheduleId, timeoutSec: int)
    requires Legal(s, steps) && TimeoutFixed(s, steps, sid, timeoutSec)
    ensures sid in Exec(s, steps).db.schedules ==> Exec(s, steps).db.schedules[sid].timeoutSec == timeoutSec
    decreases |steps|
  {
    if steps != [] { FixedAt(Do(s, steps[0]), steps[1..], sid, timeoutSec); }
  }

  /** And one still pending is not failed by a sweep until they have passed since it was created. */
  lemma WaitingRunsAreLeftAlone(s: State, steps: seq<Step>, sid: ScheduleId, timeoutSec: int, rid: RunId)
    requires Init(s) && Legal(s, steps) && TimeoutFixed(s, steps, sid, timeoutSec)
    requires rid in Exec(s, steps).db.runs && Exec(s, steps).db.runs[rid].sid == sid
    requires Exec(s, steps).db.runs[rid].ender == Some(BySweep) && Exec(s, steps).db.runs[rid].startedAt.None?
    ensures var r := Exec(s, steps).db.runs[rid];
            r.finishedAt.Some? && r.finishedAt.value > r.createdAt + (timeoutSec + 300) * 1_000_000
  {
    TimelyAlways(s, steps, sid, timeoutSec);
  }
}
