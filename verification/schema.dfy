/** The `schedule` and `run` tables, and the guarded SQL statements that change them. */
module Schema {
  import opened Options

  type ScheduleId = nat
  type RunId = nat
  type SkillId = nat

  /** Microseconds on the database clock. */
  type Time = int

  const SECOND: int := 1_000_000

  /** Lower-case hexadecimal text, the form of a runner token's SHA-256 hash. */
  predicate IsHex(s: string) {
    |s| > 0 && forall i :: 0 <= i < |s| ==> '0' <= s[i] <= '9' || 'a' <= s[i] <= 'f'
  }

  type Digest = s: string | IsHex(s) witness "0"

  /** What `runner_token_hash` holds before a dispatch. */
  function Placeholder(nonce: string): string {
    "pending:" + nonce
  }

  /** A signed runner token: the run in its claims and its hash. */
  datatype Token = Token(rid: RunId, hash: Digest)

  datatype Policy = Skip | Queue | Concurrent | Unknown

  datatype Status = Pending | Running | Succeeded | PartialFailure | Failed {
    predicate Terminal() {
      this == Succeeded || this == PartialFailure || this == Failed
    }

    predicate Active() {
      this == Pending || this == Running
    }
  }

  /** Columns that only a sync writes and that the scheduler passes through. */
  datatype Settings = Settings(
    provider: string,
    model: string,
    maxTurns: Option<int>,
    mcpEnv: set<string>,
    copilotPrefix: Option<string>,
    payload: string)

  datatype Schedule = Schedule(
    skill: SkillId,
    name: string,
    cron: string,
    timezone: string,
    policy: Policy,
    timeoutSec: int,
    enabled: bool,
    settings: Settings,
    autoPauseAfter: Option<int>,
    autoPausedAt: Option<Time>,
    lastEnabledAt: Time,
    nextFireAt: Option<Time>,
    updatedAt: Time)

  /** How a terminal row got there: the orphan sweep, or a runner holding `token`. */
  datatype Ender = BySweep | ByRunner(token: Token)

  /** `fireTime` is NULL exactly for manual runs (run_fire_reason_time_consistent). */
  datatype Run = Run(
    sid: ScheduleId,
    fireTime: Option<Time>,
    status: Status,
    createdAt: Time,
    startedAt: Option<Time>,
    finishedAt: Option<Time>,
    ender: Option<Ender>,
    tokenHash: string)
  {
    predicate Scheduled() {
      fireTime.Some?
    }
  }

  type Runs = map<RunId, Run>
  type Schedules = map<ScheduleId, Schedule>

  // ----- run.sql -----

  /** The partial unique index run_schedule_firetime_unique already holds this key. */
  predicate HasFire(runs: Runs, sid: ScheduleId, fire: Time) {
    exists rid :: rid in runs && runs[rid].sid == sid && runs[rid].fireTime == Some(fire)
  }

  function NewRun(sid: ScheduleId, fireTime: Option<Time>, at: Time, nonce: string): Run {
    Run(sid, fireTime, Pending, at, None, None, None, Placeholder(nonce))
  }

  /** FinalizeRun: refuses a row that is already terminal. */
  function FinalizeRun(runs: Runs, rid: RunId, status: Status, bearer: Token, at: Time): Runs {
    if rid in runs && !runs[rid].status.Terminal() then
      runs[rid := runs[rid].(status := status, finishedAt := Some(at), ender := Some(ByRunner(bearer)))]
    else runs
  }

  /** SetRunRunning: only a pending row. */
  function SetRunRunning(runs: Runs, rid: RunId, at: Time): Runs {
    if rid in runs && runs[rid].status == Pending then
      runs[rid := runs[rid].(status := Running, startedAt := Some(at))]
    else runs
  }

  function SetTokenHash(runs: Runs, rid: RunId, hash: string): Runs {
    if rid in runs then runs[rid := runs[rid].(tokenHash := hash)] else runs
  }

  /** The age the orphan sweep tolerates for a schedule with this timeout. */
  function Limit(timeoutSec: int): int {
    (timeoutSec + 300) * SECOND
  }

  function SweepBase(r: Run): Time {
    if r.startedAt.Some? then r.startedAt.value else r.createdAt
  }

  predicate Overdue(r: Run, schedules: Schedules, at: Time) {
    && r.sid in schedules
    && r.status.Active()
    && at - SweepBase(r) > Limit(schedules[r.sid].timeoutSec)
  }

  /** OrphanSweep. */
  function OrphanSweep(runs: Runs, schedules: Schedules, at: Time): Runs {
    map rid | rid in runs ::
      if Overdue(runs[rid], schedules, at)
      then runs[rid].(status := Failed, finishedAt := Some(at), ender := Some(BySweep))
      else runs[rid]
  }

  /** The count processOne makes over ListActiveRunsForSchedule, leaving out `self`. */
  function OtherActive(runs: Runs, sid: ScheduleId, self: RunId): set<RunId> {
    set rid | rid in runs && rid != self && runs[rid].sid == sid && runs[rid].status.Active()
  }

  // ----- schedule.sql -----

  function SetNextFireAt(schedules: Schedules, sid: ScheduleId, next: Time, at: Time): Schedules {
    if sid in schedules
    then schedules[sid := schedules[sid].(nextFireAt := Some(next), updatedAt := at)]
    else schedules
  }

  /** AutoPauseSchedule: `WHERE enabled = true`. */
  function AutoPause(sch: Schedule, at: Time): Schedule {
    if sch.enabled
    then sch.(enabled := false, autoPausedAt := Some(at), updatedAt := at)
    else sch
  }

  /** SetScheduleEnabled: the anti-flap window moves only on a false to true change. */
  function SetEnabled(sch: Schedule, on: bool, at: Time): Schedule {
    sch.(enabled := on,
         autoPausedAt := if on then None else sch.autoPausedAt,
         lastEnabledAt := if on && !sch.enabled then at else sch.lastEnabledAt,
         updatedAt := at)
  }

  const DEFAULT_AUTO_PAUSE_AFTER: int := 5

  function Threshold(sch: Schedule): (n: int)
    ensures n >= 1
  {
    if sch.autoPauseAfter.Some? && sch.autoPauseAfter.value >= 1
    then sch.autoPauseAfter.value
    else DEFAULT_AUTO_PAUSE_AFTER
  }

  // ----- scheduler/overlap.go -----

  datatype Decision = DispatchIt | SkipIt | QueueIt

  function Decide(policy: Policy, activeCount: nat): (d: Decision)
    ensures d == DispatchIt <==> policy == Concurrent || activeCount == 0
    ensures d == QueueIt ==> policy == Queue
  {
    match policy
    case Concurrent => DispatchIt
    case Queue => if activeCount == 0 then DispatchIt else QueueIt
    case Skip => if activeCount == 0 then DispatchIt else SkipIt
    case Unknown => if activeCount == 0 then DispatchIt else SkipIt
  }
}
