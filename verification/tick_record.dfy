/** The record the loop's code keeps of its statements, and what a pass is judged by. */
module TickRecord {
  import opened Options
  import opened Schema
  import opened Cron
  import opened Overlap
  import opened Machine

  // ----- what the loop did to the outside -----

  /** Schedules advanced, runs launched and discarded, sweeps that worked and that failed. */
  datatype Tally = Tally(fired: int, launched: int, discarded: int, swept: int, unswept: int)

  function Plus(a: Tally, b: Tally): Tally {
    Tally(a.fired + b.fired, a.launched + b.launched, a.discarded + b.discarded, a.swept + b.swept,
          a.unswept + b.unswept)
  }

  const NOTHING := Tally(0, 0, 0, 0, 0)

  ghost function One(act: Action): Tally {
    if act == Loop(AdvanceNext) then Tally(1, 0, 0, 0, 0)
    else if act == Loop(DispatchOk) then Tally(0, 1, 0, 0, 0)
    else if act == Loop(DeleteSkipped) then Tally(0, 0, 1, 0, 0)
    else if act == Loop(SweepOrphans) then Tally(0, 0, 0, 1, 0)
    else if act == Loop(SweepError) then Tally(0, 0, 0, 0, 1)
    else NOTHING
  }

  ghost function TallyOf(steps: seq<Step>): Tally {
    if steps == [] then NOTHING
    else Plus(TallyOf(steps[..|steps| - 1]), One(steps[|steps| - 1].act))
  }

  lemma TallyGrows(steps: seq<Step>, step: Step)
    ensures TallyOf(steps + [step]) == Plus(TallyOf(steps), One(step.act))
  {
    assert (steps + [step])[..|steps|] == steps;
  }

  // ----- what a run reaches -----

  type Property = (State, seq<Step>, Tally) -> bool

  /** Holds at the start and is passed on by every allowed step. */
  ghost predicate Inductive(start: State, holds: Property) {
    && holds(start, [], NOTHING)
    && forall s, steps, done, step :: holds(s, steps, done) && Guard(s, step) ==>
         holds(Do(s, step), steps + [step], Plus(done, One(step.act)))
  }

  /** The steps lead to `s` and did `done`: whatever is inductive holds there. */
  ghost predicate Reached(start: State, steps: seq<Step>, s: State, done: Tally) {
    forall holds: Property :: Inductive(start, holds) ==> holds(s, steps, done)
  }

  lemma ReachedOn(start: State, steps: seq<Step>, s: State, done: Tally, step: Step)
    requires Reached(start, steps, s, done) && Guard(s, step)
    ensures Reached(start, steps + [step], Do(s, step), Plus(done, One(step.act)))
  {
  }

  /** In particular the steps are a legal run that ends in `s`, and `done` is their tally. */
  lemma ReachedIsLegal(start: State, steps: seq<Step>, s: State, done: Tally)
    requires Reached(start, steps, s, done)
    ensures Leads(start, steps, s) && done == TallyOf(steps)
  {
    var holds: Property := (t, run, d) => Leads(start, run, t) && d == TallyOf(run);
    forall t, run, d, step | holds(t, run, d) && Guard(t, step)
      ensures holds(Do(t, step), run + [step], Plus(d, One(step.act)))
    {
      LeadsOn(start, run, t, step);
      TallyGrows(run, step);
    }
    assert Legal(start, []) && Exec(start, []) == start;
    assert Leads(start, [], start);
    assert TallyOf([]) == NOTHING;
    assert holds(start, [], NOTHING);
    assert Inductive(start, holds);
  }

  // ----- what never goes away -----

  /** Fires and launches stay on record; a schedule that is gone stays gone. */
  ghost predicate Grown(a: State, b: State) {
    && (forall f :: f in a.db.fires ==> f in b.db.fires)
    && (forall j :: j in a.log.launches ==> j in b.log.launches)
    && a.db.usedSchedules <= b.db.usedSchedules
    && (forall sid :: sid in a.db.usedSchedules && sid in b.db.schedules ==> sid in a.db.schedules)
  }

  lemma MoveGrows(db: Db, ctl: Control, log: Log, at: Time, m: Move)
    requires MoveGuard(db, ctl, log, at, m)
    ensures var b, log' := MoveDb(db, ctl, log, at, m), MoveLog(db, ctl, log, at, m);
            && (forall f :: f in db.fires ==> f in b.fires)
            && (forall j :: j in log.launches ==> j in log'.launches)
            && b.usedSchedules == db.usedSchedules && b.schedules.Keys == db.schedules.Keys
  {
  }

  lemma StepGrows(s: State, step: Step)
    requires Guard(s, step)
    ensures Grown(s, Do(s, step))
  {
    if step.act.Loop? { MoveGrows(s.db, s.ctl, s.log, step.at, step.act.move); }
  }

  lemma {:induction false} RunGrows(s: State, steps: seq<Step>)
    requires Legal(s, steps)
    ensures Grown(s, Exec(s, steps))
    decreases |steps|
  {
    if steps != [] {
      StepGrows(s, steps[0]);
      RunGrows(Do(s, steps[0]), steps[1..]);
    }
  }

  /** Statements, the state they lead to and what they did. */
  datatype Record = Record(trace: seq<Step>, model: State, done: Tally)

  /** `b` is a later form of the record `a`. */
  ghost predicate Continued(start: State, a: Record, b: Record) {
    && Reached(start, a.trace, a.model, a.done) && Reached(start, b.trace, b.model, b.done)
    && a.trace <= b.trace
  }

  lemma TheRestLeads(start: State, a: seq<Step>, s: State, b: seq<Step>, t: State)
    requires Leads(start, a, s) && Leads(start, b, t) && a <= b
    ensures Leads(s, b[|a|..], t)
  {
    assert b == a + b[|a|..];
    ExecSplits(start, a, b[|a|..]);
  }

  /** A longer record leads on from a shorter one. */
  lemma LeadsFurther(start: State, a: Record, b: Record) returns (rest: seq<Step>)
    requires Continued(start, a, b)
    ensures Leads(start, a.trace, a.model) && Leads(a.model, rest, b.model)
  {
    ReachedIsLegal(start, a.trace, a.model, a.done);
    ReachedIsLegal(start, b.trace, b.model, b.done);
    TheRestLeads(start, a.trace, a.model, b.trace, b.model);
    rest := b.trace[|a.trace|..];
  }

  lemma StaysOnRecord(start: State, a: Record, b: Record)
    requires Continued(start, a, b)
    ensures Grown(a.model, b.model)
  {
    var rest := LeadsFurther(start, a, b);
    RunGrows(a.model, rest);
  }

  /** The snap's fire is on record. */
  ghost predicate FiredAt(s: State, c: Snap) {
    exists f :: f in s.db.fires && f.sid == c.sid && f.time == c.fire
  }

  lemma StillFired(start: State, a: Record, b: Record, c: Snap)
    requires Continued(start, a, b) && FiredAt(a.model, c)
    ensures FiredAt(b.model, c)
  {
    StaysOnRecord(start, a, b);
    FiredStays(a.model, b.model, c);
  }

  lemma FiredStays(a: State, b: State, c: Snap)
    requires Grown(a, b) && FiredAt(a, c)
    ensures FiredAt(b, c)
  {
    var f :| f in a.db.fires && f.sid == c.sid && f.time == c.fire;
    assert f in b.db.fires;
  }

  // ----- statements on record -----

  /** The first `n` statements led to `s`. */
  ghost predicate PassedAt(start: State, steps: seq<Step>, n: nat, s: State) {
    n <= |steps| && exists done :: Reached(start, steps[..n], s, done)
  }

  lemma StillPassed(start: State, a: seq<Step>, b: seq<Step>, n: nat, s: State)
    requires a <= b && PassedAt(start, a, n, s)
    ensures PassedAt(start, b, n, s)
  {
    assert b[..n] == a[..n];
  }

  lemma PassesNow(start: State, r: Record)
    requires Reached(start, r.trace, r.model, r.done)
    ensures PassedAt(start, r.trace, |r.trace|, r.model)
  {
    assert r.trace[..|r.trace|] == r.trace;
  }

  /** In the state `s` the loop made this move, at or after position `since`. */
  ghost predicate TookFrom(start: State, since: nat, steps: seq<Step>, s: State, m: Move) {
    exists n, done :: since <= n < |steps| && Reached(start, steps[..n], s, done) && steps[n].act == Loop(m)
  }

  lemma StillTook(start: State, since: nat, since': nat, a: seq<Step>, b: seq<Step>, s: State, m: Move)
    requires a <= b && since' <= since && TookFrom(start, since, a, s, m)
    ensures TookFrom(start, since', b, s, m)
  {
    var n, done :| since <= n < |a| && Reached(start, a[..n], s, done) && a[n].act == Loop(m);
    assert b[..n] == a[..n] && b[n] == a[n];
  }

  lemma TookNow(start: State, since: nat, steps: seq<Step>, s: State, done: Tally, step: Step, m: Move)
    requires since <= |steps| && Reached(start, steps, s, done) && step.act == Loop(m)
    ensures TookFrom(start, since, steps + [step], s, m)
  {
    var all := steps + [step];
    assert all[..|steps|] == steps && all[|steps|] == step;
  }

  /** The step was taken at or after position `from`. */
  ghost predicate Taken(steps: seq<Step>, from: nat, act: Action) {
    exists k :: from <= k < |steps| && steps[k].act == act
  }

  lemma TakenStays(a: seq<Step>, b: seq<Step>, from: nat, from': nat, act: Action)
    requires a <= b && from' <= from && Taken(a, from, act)
    ensures Taken(b, from', act)
  {
    var k :| from <= k < |a| && a[k].act == act;
    assert b[k].act == act;
  }

  // ----- how the work on one row can end -----

  datatype Outcome =
    | NoNextTime        // the cron expression gives no next time
    | ScheduleGone      // deleted since it was read
    | FiringFailed      // the insert or the advance failed
    | AlreadyFired      // the insert conflicted; only next_fire_at moved on
    | FollowUpFailed    // fired, but the count, the delete or the dispatch failed
    | Skipped
    | Queued
    | Dispatched
  {
    predicate Error() { NoNextTime? || ScheduleGone? || FiringFailed? || FollowUpFailed? }

    /** The row is there and next_fire_at has moved on. */
    predicate Fired() { AlreadyFired? || FollowUpFailed? || Settled() }

    /** The overlap policy was applied. */
    predicate Settled() { Skipped? || Queued? || Dispatched? }
  }

  datatype Stats = Stats(dispatched: nat, skipped: nat, queued: nat, errored: nat)

  const NO_STATS := Stats(0, 0, 0, 0)

  function Counted(s: Stats, how: Outcome): Stats {
    if how.Error() then s.(errored := s.errored + 1)
    else match how
      case Skipped => s.(skipped := s.skipped + 1)
      case Queued => s.(queued := s.queued + 1)
      case Dispatched => s.(dispatched := s.dispatched + 1)
      case _ => s
  }

  /** What firing a due schedule with this outcome did. */
  function Deeds(how: Outcome): Tally {
    Tally(if how.Fired() then 1 else 0, if how.Dispatched? then 1 else 0, if how.Skipped? then 1 else 0, 0, 0)
  }

  /** The advance and what the verdict brought are the deeds. */
  lemma DeedsAdd(t: Tally, how: Outcome)
    requires how.Fired()
    ensures Plus(Plus(t, Tally(1, 0, 0, 0, 0)), Tally(0, Deeds(how).launched, Deeds(how).discarded, 0, 0))
         == Plus(t, Deeds(how))
  {
  }

  /** What draining a row with this outcome did. */
  function Launches(how: Outcome): Tally {
    Tally(0, if how.Dispatched? then 1 else 0, 0, 0, 0)
  }

  /** The statistics after these outcomes, one after another. */
  function CountedAll(s: Stats, hows: seq<Outcome>): Stats {
    if hows == [] then s else Counted(CountedAll(s, hows[..|hows| - 1]), hows[|hows| - 1])
  }

  function DeedsAll(hows: seq<Outcome>): Tally {
    if hows == [] then NOTHING else Plus(DeedsAll(hows[..|hows| - 1]), Deeds(hows[|hows| - 1]))
  }

  function LaunchesAll(hows: seq<Outcome>): Tally {
    if hows == [] then NOTHING else Plus(LaunchesAll(hows[..|hows| - 1]), Launches(hows[|hows| - 1]))
  }

  lemma CountedNone(s: Stats, t: Tally)
    ensures CountedAll(s, []) == s && Plus(t, DeedsAll([])) == t && Plus(t, LaunchesAll([])) == t
  {
  }

  lemma CountedMore(s: Stats, hows: seq<Outcome>, how: Outcome)
    ensures CountedAll(s, hows + [how]) == Counted(CountedAll(s, hows), how)
  {
    assert (hows + [how])[..|hows|] == hows;
  }

  lemma DeedsMore(t: Tally, hows: seq<Outcome>, how: Outcome)
    ensures Plus(t, DeedsAll(hows + [how])) == Plus(Plus(t, DeedsAll(hows)), Deeds(how))
  {
    assert (hows + [how])[..|hows|] == hows;
    PlusAgain(t, DeedsAll(hows), Deeds(how));
  }

  lemma LaunchesMore(t: Tally, hows: seq<Outcome>, how: Outcome)
    ensures Plus(t, LaunchesAll(hows + [how])) == Plus(Plus(t, LaunchesAll(hows)), Launches(how))
  {
    assert (hows + [how])[..|hows|] == hows;
    PlusAgain(t, LaunchesAll(hows), Launches(how));
  }

  lemma PlusAgain(a: Tally, b: Tally, c: Tally)
    ensures Plus(a, Plus(b, c)) == Plus(Plus(a, b), c)
  {
  }

  /** Dispatched and skipped count the launches and the discards. */
  lemma {:induction false} CountedIsDone(s: Stats, hows: seq<Outcome>)
    ensures CountedAll(s, hows).dispatched == s.dispatched + DeedsAll(hows).launched
    ensures CountedAll(s, hows).skipped == s.skipped + DeedsAll(hows).discarded
    ensures DeedsAll(hows).launched == LaunchesAll(hows).launched
    decreases |hows|
  {
    if hows != [] { CountedIsDone(s, hows[..|hows| - 1]); }
  }

  /** Without errors every due schedule is fired. */
  lemma {:induction false} NoErrorsAllFired(s: Stats, hows: seq<Outcome>)
    requires forall i :: 0 <= i < |hows| ==> !hows[i].Error()
    ensures CountedAll(s, hows).errored == s.errored && DeedsAll(hows).fired == |hows|
    decreases |hows|
  {
    if hows != [] { NoErrorsAllFired(s, hows[..|hows| - 1]); }
  }

  /** And every drained row is launched. */
  lemma {:induction false} NoErrorsAllLaunched(s: Stats, sent: seq<Outcome>)
    requires forall i :: 0 <= i < |sent| ==> sent[i].Dispatched?
    ensures CountedAll(s, sent).errored == s.errored && LaunchesAll(sent).launched == |sent|
    decreases |sent|
  {
    if sent != [] { NoErrorsAllLaunched(s, sent[..|sent| - 1]); }
  }

  lemma {:induction false} LaunchesAlone(sent: seq<Outcome>)
    ensures LaunchesAll(sent).discarded == 0
    decreases |sent|
  {
    if sent != [] { LaunchesAlone(sent[..|sent| - 1]); }
  }

  lemma {:induction false} NoneDiscarded(sent: seq<Outcome>)
    requires forall i :: 0 <= i < |sent| ==> !sent[i].Skipped?
    ensures DeedsAll(sent).discarded == 0
    decreases |sent|
  {
    if sent != [] { NoneDiscarded(sent[..|sent| - 1]); }
  }

  // ----- which outcome is the right one -----

  ghost predicate FailedIn(fails: nat -> bool, from: nat, to: nat) {
    exists k :: from <= k < to && fails(k)
  }

  /** The rows are what a SELECT returned; without one, a call failed and there are none. */
  ghost predicate Selected(steps: seq<Step>, since: nat, fails: nat -> bool, from: nat, to: nat, jobs: seq<Job>) {
    Taken(steps, since, Loop(SelectPending(jobs))) || (jobs == [] && FailedIn(fails, from, to))
  }

  lemma StillSelected(a: seq<Step>, b: seq<Step>, since: nat, since': nat, fails: nat -> bool, from: nat, from': nat,
                      to: nat, to': nat, jobs: seq<Job>)
    requires a <= b && since' <= since && from' <= from && to <= to' && Selected(a, since, fails, from, to, jobs)
    ensures Selected(b, since', fails, from', to', jobs)
  {
    if Taken(a, since, Loop(SelectPending(jobs))) {
      TakenStays(a, b, since, since', Loop(SelectPending(jobs)));
    } else {
      var k :| from <= k < to && fails(k);
      assert FailedIn(fails, from', to');
    }
  }

  /** What is given to a pass, and where on the record it begins. */
  datatype World = World(start: State, since: nat, nextFire: Clockwork, fails: nat -> bool)

  /** What the loop saw when it turned to a row: the state of the decision, and the run it was about. */
  datatype Seen = Seen(state: State, job: Job)

  function Verdict(d: Decision): Outcome {
    match d
    case DispatchIt => Dispatched
    case SkipIt => Skipped
    case QueueIt => Queued
  }

  /** In this state the pass ran the insert for the due schedule, and the fire's row stood there. */
  ghost predicate StoodThere(w: World, steps: seq<Step>, c: Snap, s: State) {
    && (exists m: Move :: m.InsertScheduled? && TookFrom(w.start, w.since, steps, s, m))
    && s.ctl.Due? && s.ctl.due != [] && s.ctl.due[0] == c && HasFire(s.db.runs, c.sid, c.fire)
  }

  /** The outcome is what the policy makes of the rows of the schedule itself. */
  ghost predicate Applied(runs: Runs, c: Snap, self: RunId, how: Outcome) {
    && (how.Dispatched? <==> c.policy == Concurrent || !AnotherActive(runs, c.sid, self))
    && (how.Queued? <==> c.policy == Queue && AnotherActive(runs, c.sid, self))
    && (how.Skipped? <==> (c.policy == Skip || c.policy == Unknown) && AnotherActive(runs, c.sid, self))
  }

  /** In this state the pass counted the other active runs for the fresh row, and `how` is what follows. */
  ghost predicate WasDecided(w: World, steps: seq<Step>, c: Snap, seen: Seen, how: Outcome) {
    && TookFrom(w.start, w.since, steps, seen.state, CountActive)
    && seen.state.ctl.Count? && seen.state.ctl.cur == c && seen.state.ctl.job == seen.job
    && seen.job.sid == c.sid && seen.job.fire == Some(c.fire)
    && Applied(seen.state.db.runs, c, seen.job.rid, how)
  }

  lemma StillStood(w: World, a: seq<Step>, b: seq<Step>, c: Snap, s: State)
    requires a <= b && StoodThere(w, a, c, s)
    ensures StoodThere(w, b, c, s)
  {
    var m: Move :| m.InsertScheduled? && TookFrom(w.start, w.since, a, s, m);
    StillTook(w.start, w.since, w.since, a, b, s, m);
  }

  /** The pass set the schedule's next_fire_at to the time that follows the fire. */
  ghost predicate MovedOn(w: World, steps: seq<Step>, c: Snap) {
    exists s :: TookFrom(w.start, w.since, steps, s, AdvanceNext) && s.ctl.Advance? && s.ctl.cur == c
                && w.nextFire(c.cron, c.timezone, c.fire) == Some(s.ctl.next)
  }

  lemma StillMovedOn(w: World, a: seq<Step>, b: seq<Step>, c: Snap)
    requires a <= b && MovedOn(w, a, c)
    ensures MovedOn(w, b, c)
  {
    var s :| TookFrom(w.start, w.since, a, s, AdvanceNext) && s.ctl.Advance? && s.ctl.cur == c
             && w.nextFire(c.cron, c.timezone, c.fire) == Some(s.ctl.next);
    StillTook(w.start, w.since, w.since, a, b, s, AdvanceNext);
  }

  /** `how` is how the work on the due schedule `c` ended, given the calls made from `from` to `to`. */
  ghost predicate DueFits(w: World, r: Record, from: nat, to: nat, c: Snap, how: Outcome, seen: Seen) {
    && (how.NoNextTime? <==> w.nextFire(c.cron, c.timezone, c.fire).None?)
    && (how.ScheduleGone? ==> c.sid !in r.model.db.schedules)
    && (how.FiringFailed? || how.FollowUpFailed? ==> FailedIn(w.fails, from, to))
    && (how.Fired() ==> FiredAt(r.model, c) && MovedOn(w, r.trace, c))
    && (how.AlreadyFired? ==> StoodThere(w, r.trace, c, seen.state))
    && (how.Settled() ==> WasDecided(w, r.trace, c, seen, how))
    && (how.Dispatched? ==> seen.job in r.model.log.launches)
  }

  /** And for a drained row. */
  ghost predicate JobFits(w: World, r: Record, from: nat, to: nat, job: Job, how: Outcome) {
    && (how.Dispatched? || how.FollowUpFailed?)
    && (how.FollowUpFailed? ==> FailedIn(w.fails, from, to))
    && (how.Dispatched? ==> job in r.model.log.launches)
  }

  ghost predicate AllDueFit(w: World, r: Record, from: nat, to: nat, due: seq<Snap>, hows: seq<Outcome>,
                            seen: seq<Seen>) {
    && |seen| == |hows| <= |due|
    && (forall i :: 0 <= i < |due| ==> due[i].sid in r.model.db.usedSchedules)
    && (forall i :: 0 <= i < |hows| ==> DueFits(w, r, from, to, due[i], hows[i], seen[i]))
  }

  ghost predicate AllJobsFit(w: World, r: Record, from: nat, to: nat, jobs: seq<Job>, hows: seq<Outcome>) {
    |hows| <= |jobs| && forall i :: 0 <= i < |hows| ==> JobFits(w, r, from, to, jobs[i], hows[i])
  }

  lemma FailedWider(fails: nat -> bool, from: nat, to: nat, from': nat, to': nat)
    requires from' <= from && to <= to' && FailedIn(fails, from, to)
    ensures FailedIn(fails, from', to')
  {
    var k :| from <= k < to && fails(k);
  }

  /** What was right of a schedule dealt with stays right. */
  lemma DueFitsOn(w: World, a: Record, b: Record, from: nat, to: nat, from': nat, to': nat, c: Snap, how: Outcome,
                  seen: Seen)
    requires Grown(a.model, b.model) && a.trace <= b.trace && from' <= from && to <= to'
    requires c.sid in a.model.db.usedSchedules && DueFits(w, a, from, to, c, how, seen)
    ensures DueFits(w, b, from', to', c, how, seen)
  {
    if how.Fired() {
      FiredStays(a.model, b.model, c);
      StillMovedOn(w, a.trace, b.trace, c);
    }
    if FailedIn(w.fails, from, to) { FailedWider(w.fails, from, to, from', to'); }
    if how.AlreadyFired? { StillStood(w, a.trace, b.trace, c, seen.state); }
    if how.Settled() { StillTook(w.start, w.since, w.since, a.trace, b.trace, seen.state, CountActive); }
  }

  lemma OneMoreDueFits(w: World, r: Record, from: nat, mid: nat, to: nat, due: seq<Snap>,
                       hows: seq<Outcome>, seen: seq<Seen>, how: Outcome, saw: Seen)
    requires from <= mid && |hows| < |due| && AllDueFit(w, r, from, to, due, hows, seen)
    requires DueFits(w, r, mid, to, due[|hows|], how, saw)
    ensures AllDueFit(w, r, from, to, due, hows + [how], seen + [saw])
  {
    if FailedIn(w.fails, mid, to) { FailedWider(w.fails, mid, to, from, to); }
  }

  lemma OneMoreJobFits(w: World, r: Record, from: nat, mid: nat, to: nat, jobs: seq<Job>, sent: seq<Outcome>,
                       how: Outcome)
    requires from <= mid && |sent| < |jobs| && AllJobsFit(w, r, from, to, jobs, sent)
    requires JobFits(w, r, mid, to, jobs[|sent|], how)
    ensures AllJobsFit(w, r, from, to, jobs, sent + [how])
  {
    if FailedIn(w.fails, mid, to) { FailedWider(w.fails, mid, to, from, to); }
  }

  lemma DueStillFit(w: World, a: Record, b: Record, from: nat, to: nat, to': nat, due: seq<Snap>,
                    hows: seq<Outcome>, seen: seq<Seen>)
    requires Continued(w.start, a, b) && to <= to' && AllDueFit(w, a, from, to, due, hows, seen)
    ensures AllDueFit(w, b, from, to', due, hows, seen)
  {
    StaysOnRecord(w.start, a, b);
    forall i | 0 <= i < |hows| ensures DueFits(w, b, from, to', due[i], hows[i], seen[i]) {
      assert DueFits(w, a, from, to, due[i], hows[i], seen[i]);
      DueFitsOn(w, a, b, from, to, from, to', due[i], hows[i], seen[i]);
    }
  }

  lemma JobsStillFit(w: World, a: Record, b: Record, from: nat, to: nat, to': nat, jobs: seq<Job>, sent: seq<Outcome>)
    requires Continued(w.start, a, b) && to <= to' && AllJobsFit(w, a, from, to, jobs, sent)
    ensures AllJobsFit(w, b, from, to', jobs, sent)
  {
    StaysOnRecord(w.start, a, b);
    forall i | 0 <= i < |sent| ensures JobFits(w, b, from, to', jobs[i], sent[i]) {
      assert JobFits(w, a, from, to, jobs[i], sent[i]);
      if FailedIn(w.fails, from, to) { FailedWider(w.fails, from, to, from, to'); }
    }
  }

  /** A whole pass: what was due and what was drained, with their outcomes. */
  datatype Work = Work(due: seq<Snap>, hows: seq<Outcome>, seen: seq<Seen>, jobs: seq<Job>, sent: seq<Outcome>)

  ghost predicate WorkFits(w: World, r: Record, from: nat, to: nat, p: Work) {
    && |p.hows| == |p.due| && AllDueFit(w, r, from, to, p.due, p.hows, p.seen)
    && |p.sent| == |p.jobs| && AllJobsFit(w, r, from, to, p.jobs, p.sent)
  }

  function WorkStats(p: Work): Stats { CountedAll(CountedAll(NO_STATS, p.hows), p.sent) }

  /** A tally with the pass's deeds added. */
  function WithWork(t: Tally, p: Work): Tally { Plus(Plus(t, DeedsAll(p.hows)), LaunchesAll(p.sent)) }

  lemma WorkStillFits(w: World, a: Record, b: Record, from: nat, to: nat, to': nat, p: Work)
    requires Continued(w.start, a, b) && to <= to' && WorkFits(w, a, from, to, p)
    ensures WorkFits(w, b, from, to', p)
  {
    DueStillFit(w, a, b, from, to, to', p.due, p.hows, p.seen);
    JobsStillFit(w, a, b, from, to, to', p.jobs, p.sent);
  }

  lemma DrainDiscardsNothing(w: World, r: Record, from: nat, to: nat, jobs: seq<Job>, sent: seq<Outcome>)
    requires AllJobsFit(w, r, from, to, jobs, sent)
    ensures DeedsAll(sent).discarded == 0
  {
    forall i | 0 <= i < |sent| ensures !sent[i].Skipped? {
      assert JobFits(w, r, from, to, jobs[i], sent[i]);
    }
    NoneDiscarded(sent);
  }

  /** Launches and discards of a pass are what its statistics say. */
  lemma WorkIsCounted(w: World, r: Record, from: nat, to: nat, p: Work)
    requires WorkFits(w, r, from, to, p)
    ensures WorkStats(p).dispatched == WithWork(NOTHING, p).launched
    ensures WorkStats(p).skipped == WithWork(NOTHING, p).discarded
  {
    DrainDiscardsNothing(w, r, from, to, p.jobs, p.sent);
    PassIsCounted(p.hows, p.sent);
  }

  lemma PassIsCounted(hows: seq<Outcome>, sent: seq<Outcome>)
    requires DeedsAll(sent).discarded == 0
    ensures var all := CountedAll(CountedAll(NO_STATS, hows), sent);
            && all.dispatched == Plus(Plus(NOTHING, DeedsAll(hows)), LaunchesAll(sent)).launched
            && all.skipped == Plus(Plus(NOTHING, DeedsAll(hows)), LaunchesAll(sent)).discarded
  {
    LaunchesAlone(sent);
    CountedIsDone(NO_STATS, hows);
    CountedIsDone(CountedAll(NO_STATS, hows), sent);
  }

  /** The schedule was due in a pass without trouble: fired before, or fired now and dealt with as Decide says. */
  ghost predicate DoneSmoothly(w: World, r: Record, c: Snap, how: Outcome, seen: Seen) {
    && FiredAt(r.model, c) && MovedOn(w, r.trace, c)
    && (how.AlreadyFired? ==> StoodThere(w, r.trace, c, seen.state))
    && (!how.AlreadyFired? ==> WasDecided(w, r.trace, c, seen, how))
    && (how.Dispatched? ==> seen.job in r.model.log.launches)
  }

  /**
   * A pass in which no call fails, every due schedule has a next time and none was deleted:
   * each has its fire on record and next_fire_at moved on once; one that was not fired
   * before has been counted and skipped, queued or launched as the policy says; each drained
   * row is launched, and nothing counts as an error.
   */
  lemma SmoothPass(w: World, r: Record, from: nat, to: nat, p: Work)
    requires WorkFits(w, r, from, to, p) && !FailedIn(w.fails, from, to)
    requires forall i :: 0 <= i < |p.due| ==>
               p.due[i].sid in r.model.db.schedules && w.nextFire(p.due[i].cron, p.due[i].timezone, p.due[i].fire).Some?
    ensures WorkStats(p).errored == 0
    ensures DeedsAll(p.hows).fired == |p.due| && LaunchesAll(p.sent).launched == |p.jobs|
    ensures forall i :: 0 <= i < |p.due| ==> DoneSmoothly(w, r, p.due[i], p.hows[i], p.seen[i])
    ensures forall i :: 0 <= i < |p.jobs| ==> p.jobs[i] in r.model.log.launches
  {
    forall i | 0 <= i < |p.due| ensures !p.hows[i].Error() && DoneSmoothly(w, r, p.due[i], p.hows[i], p.seen[i]) {
      assert DueFits(w, r, from, to, p.due[i], p.hows[i], p.seen[i]);
    }
    forall i | 0 <= i < |p.jobs| ensures p.sent[i].Dispatched? && p.jobs[i] in r.model.log.launches {
      assert JobFits(w, r, from, to, p.jobs[i], p.sent[i]);
    }
    NoErrorsAllFired(NO_STATS, p.hows);
    NoErrorsAllLaunched(CountedAll(NO_STATS, p.hows), p.sent);
  }
}
