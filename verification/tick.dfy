/** Tick, processOne, dispatchRun and dispatchPending as code over the tables. */
module TickCode {
  import opened Options
  import opened Schema
  import opened Cron
  import opened Overlap
  import opened Machine
  import opened Ledger
  import opened FireTimes
  import opened Dispatching
  import opened Listing
  import opened Sweeping
  import opened TickRecord

  function Swept(ok: bool): Tally {
    if ok then Tally(0, 0, 0, 1, 0) else Tally(0, 0, 0, 0, 1)
  }

  /** The pass swept once, in a state on record, and this is what it made of the rows there. */
  ghost predicate SweptFairly(start: State, since: nat, steps: seq<Step>, runs: Runs, schedules: Schedules, at: Time) {
    exists before :: TookFrom(start, since, steps, before, Move.SweepOrphans)
                     && AllFairlySwept(before.db.runs, runs, schedules, at)
  }

  predicate NoneOverdue(runs: Runs, schedules: Schedules, now: Time) {
    forall rid :: rid in runs ==> !Overdue(runs[rid], schedules, now)
  }

  // ----- SELECT id FROM keys WHERE wanted ORDER BY rank -----

  ghost predicate Ranked(ids: seq<nat>, rank: nat -> int) {
    forall i, j :: 0 <= i < j < |ids| ==> rank(ids[i]) <= rank(ids[j])
  }

  ghost predicate Distinct(ids: seq<nat>) {
    forall i, j :: 0 <= i < j < |ids| ==> ids[i] != ids[j]
  }

  /** `ids` lists the wanted ones among `keys`, once each, by rank. */
  ghost predicate Selects(ids: seq<nat>, keys: set<nat>, wanted: nat -> bool, rank: nat -> int) {
    && Distinct(ids) && Ranked(ids, rank)
    && forall k :: k in ids <==> k in keys && wanted(k)
  }

  method InsertRanked(ids: seq<nat>, id: nat, rank: nat -> int) returns (out: seq<nat>)
    requires Distinct(ids) && Ranked(ids, rank) && id !in ids
    ensures Distinct(out) && Ranked(out, rank)
    ensures forall k :: k in out <==> k in ids || k == id
  {
    var at := 0;
    while at < |ids| && rank(ids[at]) <= rank(id)
      invariant at <= |ids|
      invariant forall i :: 0 <= i < at ==> rank(ids[i]) <= rank(id)
    {
      at := at + 1;
    }
    out := ids[..at] + [id] + ids[at..];
    assert forall i :: 0 <= i < |out| ==> out[i] == if i < at then ids[i] else if i == at then id else ids[i - 1];
    Spliced(ids, at, id);
  }

  lemma Spliced(ids: seq<nat>, at: nat, id: nat)
    requires at <= |ids|
    ensures forall k :: k in ids[..at] + [id] + ids[at..] <==> k in ids || k == id
  {
    assert ids == ids[..at] + ids[at..];
  }

  method SelectRanked(keys: set<nat>, wanted: nat -> bool, rank: nat -> int) returns (ids: seq<nat>)
    ensures Selects(ids, keys, wanted, rank)
  {
    ids := [];
    var rest := keys;
    while rest != {}
      invariant rest <= keys && Selects(ids, keys - rest, wanted, rank)
      decreases rest
    {
      var k :| k in rest;
      if wanted(k) { ids := InsertRanked(ids, k, rank); }
      rest := rest - {k};
    }
    assert keys - rest == keys;
  }

  // ListDueSchedulesWithSha

  function DueAt(s: Schedules, at: Time): nat -> bool {
    (sid: nat) => sid in s && s[sid].enabled && s[sid].nextFireAt.Some? && s[sid].nextFireAt.value <= at
  }

  function FireRank(s: Schedules): nat -> int {
    (sid: nat) => if sid in s && s[sid].nextFireAt.Some? then s[sid].nextFireAt.value else 0
  }

  function SnapsOf(s: Schedules, ids: seq<nat>): (due: seq<Snap>)
    requires forall i :: 0 <= i < |ids| ==> ids[i] in s && s[ids[i]].nextFireAt.Some?
    ensures |due| == |ids| && forall i :: 0 <= i < |ids| ==> due[i] == SnapOf(ids[i], s[ids[i]])
  {
    if ids == [] then []
    else
      var row := s[ids[0]];
      [Snap(ids[0], row.nextFireAt.value, row.policy, row.cron, row.timezone)] + SnapsOf(s, ids[1..])
  }

  lemma SnapsAreDue(s: Schedules, at: Time, ids: seq<nat>)
    requires Selects(ids, s.Keys, DueAt(s, at), FireRank(s))
    ensures forall i :: 0 <= i < |ids| ==> ids[i] in s && s[ids[i]].nextFireAt.Some?
    ensures IsDueList(s, at, SnapsOf(s, ids))
  {
    forall i | 0 <= i < |ids| ensures IsDue(s, at, ids[i]) { assert ids[i] in ids; }
    var due := SnapsOf(s, ids);
    forall i, j | 0 <= i < j < |due| ensures due[i].fire <= due[j].fire {
      assert FireRank(s)(ids[i]) <= FireRank(s)(ids[j]);
    }
    forall sid | IsDue(s, at, sid) ensures exists i :: 0 <= i < |due| && due[i].sid == sid {
      assert DueAt(s, at)(sid);
      var i :| 0 <= i < |ids| && ids[i] == sid;
      assert due[i].sid == sid;
    }
  }

  // dispatchPending's SELECT

  function DrainableIn(schedules: Schedules, runs: Runs): nat -> bool {
    (rid: nat) =>
      && rid in runs && runs[rid].status == Pending
      && runs[rid].sid in schedules && schedules[runs[rid].sid].enabled
      && (runs[rid].fireTime.None?
          || (&& schedules[runs[rid].sid].policy == Queue
              && !exists o :: o in runs && runs[o].sid == runs[rid].sid && runs[o].createdAt < runs[rid].createdAt
                              && (runs[o].status == Pending || runs[o].status == Running)))
  }

  function AgeRank(runs: Runs): nat -> int {
    (rid: nat) => if rid in runs then runs[rid].createdAt else 0
  }

  function JobsOf(runs: Runs, ids: seq<nat>): (jobs: seq<Job>)
    requires forall i :: 0 <= i < |ids| ==> ids[i] in runs
    ensures |jobs| == |ids| && forall i :: 0 <= i < |ids| ==> jobs[i] == JobOf(ids[i], runs[ids[i]])
  {
    if ids == [] then []
    else
      var r := runs[ids[0]];
      [Job(ids[0], r.sid, r.fireTime, r.createdAt)] + JobsOf(runs, ids[1..])
  }

  lemma DrainableAsAsked(s: Schedules, runs: Runs, rid: nat)
    ensures DrainableIn(s, runs)(rid) <==> IsDrainable(s, runs, rid)
  {
    if rid in runs { DrainableMayGo(s, runs, rid); }
  }

  lemma JobsAreDrainable(s: Schedules, runs: Runs, ids: seq<nat>)
    requires Selects(ids, runs.Keys, DrainableIn(s, runs), AgeRank(runs))
    requires forall a, b :: a in runs && b in runs && a != b ==> runs[a].createdAt != runs[b].createdAt
    ensures forall i :: 0 <= i < |ids| ==> ids[i] in runs
    ensures IsDrainList(s, runs, JobsOf(runs, ids))
  {
    forall rid ensures DrainableIn(s, runs)(rid) <==> IsDrainable(s, runs, rid) { DrainableAsAsked(s, runs, rid); }
    forall i | 0 <= i < |ids| ensures IsDrainable(s, runs, ids[i]) { assert ids[i] in ids; }
    var jobs := JobsOf(runs, ids);
    forall i, j | 0 <= i < j < |jobs| ensures jobs[i].created < jobs[j].created {
      assert AgeRank(runs)(ids[i]) <= AgeRank(runs)(ids[j]);
    }
    forall rid | IsDrainable(s, runs, rid) ensures exists i :: 0 <= i < |jobs| && jobs[i].rid == rid {
      assert DrainableIn(s, runs)(rid);
      var i :| 0 <= i < |ids| && ids[i] == rid;
      assert jobs[i].rid == rid;
    }
  }

  class Store {
    const nextFire: Clockwork
    const fails: nat -> bool          // which of the loop's calls to the outside fail
    var calls: nat
    var now: Time
    var schedules: Schedules
    var runs: Runs
    var nextId: nat
    var serial: nat
    ghost const start: State
    ghost var trace: seq<Step>        // the statements executed so far
    ghost var model: State            // the state of the transition system they lead to
    ghost var done: Tally             // what they did to the outside

    /** The tables are those of a state the transition system reaches. */
    ghost predicate Valid()
      reads this
    {
      && Init(start) && Reached(start, trace, model, done)
      && model.now == now && model.db.schedules == schedules && model.db.runs == runs
      && model.db.lastCreated <= now
      && (forall rid :: rid in model.db.usedRuns ==> rid < nextId)
      && (forall t :: t in model.log.signed ==> |t.hash| <= serial)
      && StrictlyLater(nextFire)
    }

    constructor (nextFire: Clockwork, fails: nat -> bool, now: Time)
      requires StrictlyLater(nextFire)
      ensures Valid() && trace == [] && model.ctl == Idle
      ensures schedules == map[] && runs == map[] && this.now == now && this.nextFire == nextFire && this.fails == fails
    {
      this.nextFire, this.fails, calls := nextFire, fails, 0;
      this.now, schedules, runs, nextId, serial := now, map[], map[], 0, 0;
      start := State(now, Db(map[], map[], {}, {}, now, [], {}, now, []), Idle, Log([], {}, {}, {}, {}));
      trace, model, done := [], start, NOTHING;
    }

    /** What this code does is a legal run, and every state it reaches satisfies the invariants. */
    lemma Safe()
      requires Valid()
      ensures Leads(start, trace, model) && done == TallyOf(trace)
      ensures LedgerInv(model) && DispatchInv(model)
      ensures AllCurrent(start, trace) ==> FireInv(model)
    {
      ReachedIsLegal(start, trace, model, done);
      DispatchInvAlways(start, trace);
      if AllCurrent(start, trace) { FireInvAlways(start, trace); }
    }

    /** Schedules in hand have ids that were given out. */
    lemma KnownDue(due: seq<Snap>)
      requires Valid() && model.ctl == Due(due)
      ensures forall i :: 0 <= i < |due| ==> due[i].sid in model.db.usedSchedules
    {
      Safe();
    }

    lemma DistinctAges()
      requires Valid()
      ensures forall a, b :: a in runs && b in runs && a != b ==> runs[a].createdAt != runs[b].createdAt
    {
      Safe();
    }

    lemma StandingIsFired(sid: ScheduleId, t: Time)
      requires Valid() && HasFire(runs, sid, t)
      ensures exists f :: f in model.db.fires && f.sid == sid && f.time == t
    {
      Safe();
      var rid :| rid in runs && runs[rid].sid == sid && runs[rid].fireTime == Some(t);
      assert FireOf(JobOf(rid, runs[rid])) in model.db.fires;
    }

    /** The statement about to run is a legal step: record it. */
    ghost method Take(step: Step)
      requires Reached(start, trace, model, done) && Guard(model, step)
      modifies this`trace, this`model, this`done
      ensures trace == old(trace) + [step] && model == Do(old(model), step) && done == Plus(old(done), One(step.act))
      ensures Reached(start, trace, model, done)
    {
      ReachedOn(start, trace, model, done, step);
      trace, model, done := trace + [step], Do(model, step), Plus(done, One(step.act));
    }

    /** What every piece of the loop promises besides its effect on the control state. */
    twostate predicate Continues()
      reads this
    {
      Valid() && old(trace) <= trace && now >= old(now) && calls >= old(calls)
    }

    /** The record as it stands. */
    ghost function Rec(): Record
      reads this
    {
      Record(trace, model, done)
    }

    /** `w` is what this loop was given, and began on this record. */
    ghost predicate Given(w: World)
      reads this
    {
      w.start == start && w.nextFire == nextFire && w.fails == fails && w.since <= |trace|
    }

    /**
     * Between two statements of the loop anyone else may run any number of theirs.
     * Callers may rely on this contract only.
     */
    method Others()
      requires Valid()
      modifies this
      ensures Continues() && model.ctl == old(model.ctl) && model.log == old(model.log)
      ensures done == old(done) && calls == old(calls)
    {
    }

    /** Others have run, and the database or the dispatcher answers the loop's next call. */
    method Reply() returns (ok: bool)
      requires Valid()
      modifies this
      ensures Continues() && model.ctl == old(model.ctl) && model.log == old(model.log)
      ensures done == old(done)
      ensures ok == !old(fails(calls)) && calls == old(calls) + 1
    {
      Others();
      ok := !fails(calls);
      calls := calls + 1;
    }

    /** The instant the next statement runs at. */
    method Clock() returns (at: Time)
      ensures at > now
    {
      at := now + 1;
    }

    /** A step of the loop that writes no table: a read, a branch, or a failed statement. */
    method Silently(ghost m: Move, ghost to: Control)
      requires Valid() && !Writes(m) && !m.SweepError?
      requires forall at :: at > now ==> Guard(model, Step(at, Loop(m))) && Do(model, Step(at, Loop(m))).ctl == to
      modifies this`now, this`trace, this`model, this`done
      ensures Continues() && done == old(done) && model.ctl == to
      ensures Taken(trace, |old(trace)|, Loop(m)) && TookFrom(start, |old(trace)|, trace, old(model), m)
    {
      var at := Clock();
      Take(Step(at, Loop(m)));
      assert trace[|old(trace)|].act == Loop(m);
      TookNow(start, |old(trace)|, old(trace), old(model), old(done), Step(at, Loop(m)), m);
      now := at;
    }

    // ----- reads -----

    method ListDueSchedules(at: Time) returns (due: seq<Snap>)
      ensures IsDueList(schedules, at, due) && ListsDue(schedules, at, due)
    {
      var ids := SelectRanked(schedules.Keys, DueAt(schedules, at), FireRank(schedules));
      SnapsAreDue(schedules, at, ids);
      due := SnapsOf(schedules, ids);
      DueListIsDue(schedules, at, due);
    }

    method ListDrainable() returns (jobs: seq<Job>)
      requires Valid()
      ensures IsDrainList(schedules, runs, jobs) && ListsPending(schedules, runs, jobs)
    {
      DistinctAges();
      var ids := SelectRanked(runs.Keys, DrainableIn(schedules, runs), AgeRank(runs));
      JobsAreDrainable(schedules, runs, ids);
      jobs := JobsOf(runs, ids);
      DrainListIsPending(schedules, runs, jobs);
    }

    // ----- dispatchRun -----

    /** Sign and persist, dispatch, mark running; only the first two can fail it. */
    method DispatchRun(job: Job, ghost after: Return) returns (ok: bool)
      requires Valid() && model.ctl == Sign(job, after)
      modifies this
      ensures Continues() && model.ctl == Back(after)
      ensures done == Plus(old(done), Tally(0, if ok then 1 else 0, 0, 0, 0))
      ensures ok == !old(fails(calls) || fails(calls + 1))
      ensures ok ==> job in model.log.launches && calls == old(calls) + 3
      ensures !ok ==> FailedIn(fails, old(calls), calls)
    {
      ok := Persist(job, after);
      if ok {
        ok := Launch(job, after);
        if ok {
          label Launched:
          MarkRunning(job, after);
          StaysOnRecord(start, old@Launched(Rec()), Rec());
        }
      }
    }

    /** Sign the token and store its hash. */
    method Persist(job: Job, ghost after: Return) returns (ok: bool)
      requires Valid() && model.ctl == Sign(job, after)
      modifies this
      ensures Continues() && done == old(done)
      ensures !ok ==> model.ctl == Back(after)
      ensures ok ==> model.ctl.Launch? && model.ctl.job == job && model.ctl.after == after
      ensures ok == !old(fails(calls)) && calls == old(calls) + 1
    {
      ok := Reply();
      if ok {
        StoreHash(job, after);
      } else {
        Silently(SignError, Back(after));
      }
    }

    /** UPDATE run SET runner_token_hash, with a hash never used before. */
    method StoreHash(job: Job, ghost after: Return)
      requires Valid() && model.ctl == Sign(job, after)
      modifies this`now, this`serial, this`runs, this`trace, this`model, this`done
      ensures Continues() && done == old(done)
      ensures model.ctl.Launch? && model.ctl.job == job && model.ctl.after == after
    {
      var at := Clock();
      var hash := seq(serial + 1, _ => '0');
      Take(Step(at, Loop(SignToken(Token(job.rid, hash)))));
      if job.rid in runs {
        runs := runs[job.rid := runs[job.rid].(tokenHash := hash)];
      }
      now, serial := at, serial + 1;
    }

    /** Ask the dispatcher for a runner. */
    method Launch(job: Job, ghost after: Return) returns (ok: bool)
      requires Valid() && model.ctl.Launch? && model.ctl.job == job && model.ctl.after == after
      modifies this
      ensures Continues() && model.ctl == if ok then Mark(job, after) else Back(after)
      ensures done == Plus(old(done), Tally(0, if ok then 1 else 0, 0, 0, 0))
      ensures ok == !old(fails(calls)) && calls == old(calls) + 1
      ensures ok ==> job in model.log.launches
    {
      ok := Reply();
      if ok {
        var at := Clock();
        Take(Step(at, Loop(DispatchOk)));
        now := at;
      } else {
        Silently(DispatchError, Back(after));
      }
    }

    /** SetRunRunning, best effort. */
    method MarkRunning(job: Job, ghost after: Return)
      requires Valid() && model.ctl == Mark(job, after)
      modifies this
      ensures Continues() && model.ctl == Back(after) && done == old(done) && calls == old(calls) + 1
      ensures !old(fails(calls)) ==> model.log == old(model.log)
    {
      var ok := Reply();
      if ok {
        SetRunning(job, after);
      } else {
        Silently(MarkError, Back(after));
      }
    }

    method SetRunning(job: Job, ghost after: Return)
      requires Valid() && model.ctl == Mark(job, after)
      modifies this`now, this`runs, this`trace, this`model, this`done
      ensures Continues() && model.ctl == Back(after) && done == old(done)
      ensures model.log == old(model.log)
      ensures runs == SetRunRunning(old(runs), job.rid, now)
    {
      var at := Clock();
      Take(Step(at, Loop(Move.MarkRunning)));
      if job.rid in runs && runs[job.rid].status == Pending {
        runs := runs[job.rid := runs[job.rid].(status := Running, startedAt := Some(at))];
      }
      now := at;
    }

    // ----- processOne -----

    /**
     * Fire one due schedule: insert, advance, decide, and discard, queue or dispatch. The
     * outcome says which. Each way of failing has its cause. Without one the fire is on
     * record and next_fire_at has moved on, and unless the insert met the fire's row, the
     * other active runs were counted and what Decide says of them is what was done.
     */
    method ProcessOne(cur: Snap, ghost rest: seq<Snap>, before: Stats, ghost w: World)
      returns (stats: Stats, ghost how: Outcome, ghost seen: Seen)
      requires Valid() && model.ctl == Due([cur] + rest) && Given(w)
      modifies this
      ensures Continues() && model.ctl == Due(rest)
      ensures stats == Counted(before, how) && done == Plus(old(done), Deeds(how))
      ensures DueFits(w, Rec(), old(calls), calls, cur, how, seen)
      ensures how.FiringFailed? ==> old(fails(calls) || fails(calls + 1))
      ensures how.FollowUpFailed? ==> old(fails(calls + 2) || fails(calls + 3) || fails(calls + 4))
      ensures how.Fired() ==> !old(fails(calls)) && !old(fails(calls + 1))
      ensures how.Skipped? ==> !old(fails(calls + 2)) && !old(fails(calls + 3))
      ensures how.Queued? ==> !old(fails(calls + 2))
      ensures how.Dispatched? ==> !old(fails(calls + 2)) && !old(fails(calls + 3)) && !old(fails(calls + 4))
    {
      var next := nextFire(cur.cron, cur.timezone, cur.fire);
      if next.Some? {
        stats, how, seen := FireNow(cur, next.value, rest, before, w);
      } else {
        seen := Seen(model, Job(0, cur.sid, None, 0));
        assert ([cur] + rest)[1..] == rest;
        Silently(FireError, Due(rest));
        stats, how := before.(errored := before.errored + 1), NoNextTime;
      }
    }

    /** There is a next time. */
    method FireNow(cur: Snap, next: Time, ghost rest: seq<Snap>, before: Stats, ghost w: World)
      returns (stats: Stats, ghost how: Outcome, ghost seen: Seen)
      requires Valid() && model.ctl == Due([cur] + rest) && Given(w)
      requires nextFire(cur.cron, cur.timezone, cur.fire) == Some(next)
      modifies this
      ensures Continues() && model.ctl == Due(rest)
      ensures stats == Counted(before, how) && done == Plus(old(done), Deeds(how))
      ensures DueFits(w, Rec(), old(calls), calls, cur, how, seen)
      ensures how.FiringFailed? ==> old(fails(calls) || fails(calls + 1))
      ensures how.FollowUpFailed? ==> old(fails(calls + 2) || fails(calls + 3) || fails(calls + 4))
      ensures how.Fired() ==> !old(fails(calls)) && !old(fails(calls + 1))
      ensures how.Skipped? ==> !old(fails(calls + 2)) && !old(fails(calls + 3))
      ensures how.Queued? ==> !old(fails(calls + 2))
      ensures how.Dispatched? ==> !old(fails(calls + 2)) && !old(fails(calls + 3)) && !old(fails(calls + 4))
    {
      var ok, isNew, job;
      ghost var stood;
      ok, isNew, job, stood := InsertRun(cur, next, rest, w);
      if ok {
        label In:
        stats, how, seen := Advanced(cur, isNew, job, next, rest, before, stood, w);
        if FailedIn(fails, old@In(calls), calls) { FailedWider(fails, old@In(calls), calls, old(calls), calls); }
      } else {
        seen := Seen(stood, job);
        stats := before.(errored := before.errored + 1);
        how := if cur.sid in schedules then FiringFailed else ScheduleGone;
      }
    }

    /** The run is inserted or was there. */
    method Advanced(cur: Snap, isNew: bool, job: Job, next: Time, ghost rest: seq<Snap>, before: Stats,
                    ghost stood: State, ghost w: World)
      returns (stats: Stats, ghost how: Outcome, ghost seen: Seen)
      requires Valid() && model.ctl == Advance(cur, job, isNew, next, rest) && FiredAt(model, cur) && Given(w)
      requires job.sid == cur.sid && job.fire == Some(cur.fire)
      requires nextFire(cur.cron, cur.timezone, cur.fire) == Some(next)
      requires !isNew ==> StoodThere(w, trace, cur, stood)
      modifies this
      ensures Continues() && model.ctl == Due(rest)
      ensures stats == Counted(before, how) && done == Plus(old(done), Deeds(how)) && FiredAt(model, cur)
      ensures how.FiringFailed? || (how.Fired() && MovedOn(w, trace, cur))
      ensures how.FiringFailed? <==> old(fails(calls))
      ensures how.FollowUpFailed? ==> isNew && old(fails(calls + 1) || fails(calls + 2) || fails(calls + 3))
      ensures how.FiringFailed? || how.FollowUpFailed? ==> FailedIn(fails, old(calls), calls)
      ensures how.AlreadyFired? ==> !isNew && StoodThere(w, trace, cur, seen.state)
      ensures how.Settled() ==> isNew && seen.job == job && WasDecided(w, trace, cur, seen, how)
      ensures how.Skipped? ==> !old(fails(calls + 1)) && !old(fails(calls + 2))
      ensures how.Queued? ==> !old(fails(calls + 1))
      ensures how.Dispatched? ==> !old(fails(calls + 1)) && !old(fails(calls + 2)) && !old(fails(calls + 3))
      ensures how.Dispatched? ==> job in model.log.launches
    {
      seen := Seen(stood, job);
      var ok := AdvanceNextFire(cur, isNew, job, next, rest, w);
      if ok && isNew {
        label Fresh:
        stats, how, seen := Decided(cur, job, rest, before, w);
        if how.FollowUpFailed? { FailedWider(fails, old@Fresh(calls), calls, old(calls), calls); }
        DeedsAdd(old(done), how);
      } else if ok {
        StillStood(w, old(trace), trace, cur, stood);
        stats, how := before, AlreadyFired;
      } else {
        stats, how := before.(errored := before.errored + 1), FiringFailed;
      }
    }

    /** The overlap decision on a fresh row, and what follows from it. */
    method Decided(cur: Snap, job: Job, ghost rest: seq<Snap>, before: Stats, ghost w: World)
      returns (stats: Stats, ghost how: Outcome, ghost seen: Seen)
      requires Valid() && model.ctl == Control.Count(cur, job, rest) && Given(w)
      requires job.sid == cur.sid && job.fire == Some(cur.fire) && FiredAt(model, cur) && MovedOn(w, trace, cur)
      modifies this
      ensures Continues() && model.ctl == Due(rest) && FiredAt(model, cur) && MovedOn(w, trace, cur)
      ensures how.FollowUpFailed? || how.Settled()
      ensures stats == Counted(before, how)
        && done == Plus(old(done), Tally(0, Deeds(how).launched, Deeds(how).discarded, 0, 0))
      ensures how.FollowUpFailed? ==> FailedIn(fails, old(calls), calls)
      ensures how.FollowUpFailed? ==> old(fails(calls) || fails(calls + 1) || fails(calls + 2))
      ensures how.Settled() ==> seen.job == job && WasDecided(w, trace, cur, seen, how)
      ensures how.Skipped? ==> !old(fails(calls)) && !old(fails(calls + 1))
      ensures how.Queued? ==> !old(fails(calls))
      ensures how.Dispatched? ==> !old(fails(calls)) && !old(fails(calls + 1)) && !old(fails(calls + 2))
      ensures how.Dispatched? ==> job in model.log.launches
    {
      var ok, decision;
      ok, decision, seen := CountActive(cur, job, rest, w);
      if ok {
        label Counted:
        stats, how := CarriedOut(cur, job, decision, rest, before);
        StillTook(start, w.since, w.since, old@Counted(trace), trace, seen.state, Move.CountActive);
      } else {
        stats, how := before.(errored := before.errored + 1), FollowUpFailed;
      }
      StillFired(start, old(Rec()), Rec(), cur);
      StillMovedOn(w, old(trace), trace, cur);
    }

    /** What was decided is done. */
    method CarriedOut(cur: Snap, job: Job, decision: Decision, ghost rest: seq<Snap>, before: Stats)
      returns (stats: Stats, ghost how: Outcome)
      requires Valid()
      requires model.ctl == match decision
                            case DispatchIt => Sign(job, ToDue(rest))
                            case SkipIt => Discard(cur, job, rest)
                            case QueueIt => Due(rest)
      modifies this
      ensures Continues() && model.ctl == Due(rest)
      ensures how == Verdict(decision) || (how.FollowUpFailed? && FailedIn(fails, old(calls), calls))
      ensures how.FollowUpFailed? <==>
                !decision.QueueIt? && old(fails(calls) || (decision.DispatchIt? && fails(calls + 1)))
      ensures stats == Counted(before, how)
        && done == Plus(old(done), Tally(0, Deeds(how).launched, Deeds(how).discarded, 0, 0))
      ensures how.Skipped? ==> !old(fails(calls)) && job.rid !in runs
      ensures how.Dispatched? ==> !old(fails(calls)) && !old(fails(calls + 1)) && job in model.log.launches
    {
      var ok;
      match decision {
        case SkipIt =>
          ok := DeleteRun(cur, job, rest);
          how := if ok then Skipped else FollowUpFailed;
          stats := if ok then before.(skipped := before.skipped + 1) else before.(errored := before.errored + 1);
        case QueueIt =>
          how := Queued;
          stats := before.(queued := before.queued + 1);
        case DispatchIt =>
          ok := DispatchRun(job, ToDue(rest));
          how := if ok then Dispatched else FollowUpFailed;
          stats := if ok then before.(dispatched := before.dispatched + 1) else before.(errored := before.errored + 1);
      }
    }

    /** InsertRun; a missing schedule is a foreign-key violation. */
    method InsertRun(cur: Snap, next: Time, ghost rest: seq<Snap>, ghost w: World)
      returns (ok: bool, isNew: bool, job: Job, ghost stood: State)
      requires Valid() && model.ctl == Due([cur] + rest) && next > cur.fire && Given(w)
      modifies this
      ensures Continues() && done == old(done) && calls == old(calls) + 1
      ensures model.ctl == if ok then Advance(cur, job, isNew, next, rest) else Due(rest)
      ensures ok <==> !old(fails(calls)) && cur.sid in schedules
      ensures ok ==> FiredAt(model, cur) && job.sid == cur.sid && job.fire == Some(cur.fire)
      ensures ok && !isNew ==> StoodThere(w, trace, cur, stood)
      ensures ok && isNew ==> job.rid in runs && runs[job.rid].status == Pending
    {
      var lands := Reply();
      stood := model;
      var nonce: string := *;
      ok, isNew, job := lands && cur.sid in schedules, false, Job(nextId, cur.sid, Some(cur.fire), now + 1);
      if ok {
        isNew := Land(cur, job, next, nonce, rest, w);
      } else {
        assert ([cur] + rest)[1..] == rest;
        Silently(FireError, Due(rest));
      }
    }

    /** ON CONFLICT (schedule_id, fire_time) DO NOTHING. */
    method Land(cur: Snap, job: Job, next: Time, nonce: string, ghost rest: seq<Snap>, ghost w: World)
      returns (isNew: bool)
      requires Valid() && model.ctl == Due([cur] + rest) && Given(w)
      requires job == Job(nextId, cur.sid, Some(cur.fire), now + 1) && cur.sid in schedules && next > cur.fire
      modifies this`now, this`nextId, this`runs, this`trace, this`model, this`done
      ensures Continues() && done == old(done)
      ensures model.ctl == Advance(cur, job, isNew, next, rest) && FiredAt(model, cur)
      ensures isNew <==> !old(HasFire(runs, cur.sid, cur.fire))
      ensures !isNew ==> StoodThere(w, trace, cur, old(model))
      ensures runs == if isNew then old(runs)[job.rid := NewRun(cur.sid, job.fire, job.created, nonce)] else old(runs)
    {
      assert ([cur] + rest)[1..] == rest;
      isNew := !HasFire(runs, cur.sid, cur.fire);
      LandedIsFired(cur, job, nonce);
      ghost var m := InsertScheduled(nextId, nonce, next);
      Take(Step(job.created, Loop(m)));
      TookNow(start, w.since, old(trace), old(model), old(done), Step(job.created, Loop(m)), m);
      if isNew {
        var row := Run(cur.sid, Some(cur.fire), Pending, job.created, None, None, None, "pending:" + nonce);
        runs := runs[job.rid := row];
      }
      now, nextId := job.created, nextId + 1;
    }

    /** Whether the row is new or stood there, its fire is on record. */
    lemma LandedIsFired(cur: Snap, job: Job, nonce: string)
      requires Valid()
      ensures exists f :: f in InsertFire(model.db, cur.sid, cur.fire, job.created, job.rid, nonce).fires
                          && f.sid == cur.sid && f.time == cur.fire
    {
      var b := InsertFire(model.db, cur.sid, cur.fire, job.created, job.rid, nonce);
      if HasFire(model.db.runs, cur.sid, cur.fire) {
        StandingIsFired(cur.sid, cur.fire);
      } else {
        assert b.fires[|model.db.fires|] in b.fires;
      }
    }

    /** UpdateScheduleNextFireAt. */
    method AdvanceNextFire(cur: Snap, isNew: bool, job: Job, next: Time, ghost rest: seq<Snap>, ghost w: World)
      returns (ok: bool)
      requires Valid() && model.ctl == Advance(cur, job, isNew, next, rest) && FiredAt(model, cur) && Given(w)
      requires nextFire(cur.cron, cur.timezone, cur.fire) == Some(next)
      modifies this
      ensures Continues() && done == Plus(old(done), Tally(if ok then 1 else 0, 0, 0, 0, 0))
      ensures model.ctl == if ok && isNew then Control.Count(cur, job, rest) else Due(rest)
      ensures ok == !old(fails(calls)) && calls == old(calls) + 1
      ensures FiredAt(model, cur) && (ok ==> MovedOn(w, trace, cur))
    {
      ok := Reply();
      if ok {
        SetNext(cur, isNew, job, next, rest, w);
      } else {
        Silently(AdvanceError, Due(rest));
      }
      StillFired(start, old(Rec()), Rec(), cur);
    }

    method SetNext(cur: Snap, isNew: bool, job: Job, next: Time, ghost rest: seq<Snap>, ghost w: World)
      requires Valid() && model.ctl == Advance(cur, job, isNew, next, rest) && Given(w)
      modifies this`now, this`schedules, this`trace, this`model, this`done
      ensures Continues() && done == Plus(old(done), Tally(1, 0, 0, 0, 0))
      ensures model.ctl == if isNew then Control.Count(cur, job, rest) else Due(rest)
      ensures schedules == SetNextFireAt(old(schedules), cur.sid, next, now)
      ensures TookFrom(w.start, w.since, trace, old(model), AdvanceNext)
    {
      var at := Clock();
      Take(Step(at, Loop(AdvanceNext)));
      TookNow(start, w.since, old(trace), old(model), old(done), Step(at, Loop(AdvanceNext)), AdvanceNext);
      if cur.sid in schedules {
        schedules := schedules[cur.sid := schedules[cur.sid].(nextFireAt := Some(next), updatedAt := at)];
      }
      now := at;
    }

    /** ListActiveRunsForSchedule and Decide. */
    method CountActive(cur: Snap, job: Job, ghost rest: seq<Snap>, ghost w: World)
      returns (ok: bool, decision: Decision, ghost seen: Seen)
      requires Valid() && model.ctl == Control.Count(cur, job, rest) && Given(w)
      modifies this
      ensures Continues() && done == old(done)
      ensures !ok ==> model.ctl == Due(rest)
      ensures ok ==> model.ctl == match decision
                                  case DispatchIt => Sign(job, ToDue(rest))
                                  case SkipIt => Discard(cur, job, rest)
                                  case QueueIt => Due(rest)
      ensures ok == !old(fails(calls)) && calls == old(calls) + 1
      ensures ok ==> TookFrom(w.start, w.since, trace, seen.state, Move.CountActive)
      ensures seen.state.ctl == Control.Count(cur, job, rest) && seen.job == job
      ensures decision == Decide(cur.policy, |OtherActive(seen.state.db.runs, cur.sid, job.rid)|)
      ensures Applied(seen.state.db.runs, cur, job.rid, Verdict(decision))
    {
      ok := Reply();
      seen := Seen(model, job);
      var activeCount := CountOthers(runs, cur.sid, job.rid);
      decision := Decide(cur.policy, activeCount);
      label Asked:
      if ok {
        Silently(Move.CountActive, AfterCount(model.db, cur, job, rest));
        StillTook(start, |old@Asked(trace)|, w.since, trace, trace, seen.state, Move.CountActive);
      } else {
        Silently(CountError, Due(rest));
      }
      DecisionOverRows(seen.state.db.runs, cur.sid, job.rid, cur.policy);
    }

    /** DeleteRun, for a fire the overlap policy skips. */
    method DeleteRun(cur: Snap, job: Job, ghost rest: seq<Snap>) returns (ok: bool)
      requires Valid() && model.ctl == Discard(cur, job, rest)
      modifies this
      ensures Continues() && model.ctl == Due(rest)
      ensures done == Plus(old(done), Tally(0, 0, if ok then 1 else 0, 0, 0))
      ensures ok == !old(fails(calls)) && calls == old(calls) + 1
      ensures ok ==> job.rid !in runs
    {
      ok := Reply();
      if ok {
        var at := Clock();
        Take(Step(at, Loop(DeleteSkipped)));
        now, runs := at, runs - {job.rid};
      } else {
        Silently(DeleteError, Due(rest));
      }
    }

    // ----- dispatchPending -----

    /**
     * Drains what its SELECT returns. If that fails nothing is drained; otherwise every row
     * is tried, and launched unless one of its calls failed.
     */
    method DispatchPending(before: Stats, ghost from: nat, ghost w: World)
      returns (stats: Stats, ghost jobs: seq<Job>, ghost sent: seq<Outcome>)
      requires Valid() && model.ctl == Select && from <= calls && Given(w)
      modifies this
      ensures Continues() && model.ctl == Sweep
      ensures Selected(trace, |old(trace)|, fails, old(calls), calls, jobs)
      ensures old(fails(calls)) ==> jobs == []
      ensures |sent| == |jobs| && AllJobsFit(w, Rec(), from, calls, jobs, sent)
      ensures stats == CountedAll(before, sent) && done == Plus(old(done), LaunchesAll(sent))
    {
      var ok, rows := SelectPending();
      if ok {
        label Read:
        stats, sent := DrainAll(rows, before, from, w);
        jobs := rows;
        TakenStays(old@Read(trace), trace, |old(trace)|, |old(trace)|, Loop(Move.SelectPending(rows)));
      } else {
        stats, jobs, sent := before, [], [];
        CountedNone(before, done);
        assert fails(old(calls));
      }
    }

    method SelectPending() returns (ok: bool, jobs: seq<Job>)
      requires Valid() && model.ctl == Select
      modifies this
      ensures Continues() && model.ctl == if ok then Drain(jobs) else Sweep
      ensures done == old(done) && ok == !old(fails(calls)) && calls == old(calls) + 1
      ensures ok ==> Taken(trace, |old(trace)|, Loop(Move.SelectPending(jobs)))
    {
      ok := Reply();
      jobs := [];
      if ok {
        jobs := ListDrainable();
        Silently(Move.SelectPending(jobs), Drain(jobs));
      } else {
        Silently(SelectError, Sweep);
      }
    }

    /** Oldest first; a failed dispatch does not stop the others. */
    method DrainAll(jobs: seq<Job>, before: Stats, ghost from: nat, ghost w: World)
      returns (stats: Stats, ghost sent: seq<Outcome>)
      requires Valid() && model.ctl == Drain(jobs) && from <= calls && Given(w)
      modifies this
      ensures Continues() && model.ctl == Sweep
      ensures |sent| == |jobs| && AllJobsFit(w, Rec(), from, calls, jobs, sent)
      ensures stats == CountedAll(before, sent) && done == Plus(old(done), LaunchesAll(sent))
    {
      stats, sent := DrainEach(jobs, before, from, w);
      label Done:
      Silently(EndDrain, Sweep);
      JobsStillFit(w, old@Done(Rec()), Rec(), from, calls, calls, jobs, sent);
    }

    method DrainEach(jobs: seq<Job>, before: Stats, ghost from: nat, ghost w: World)
      returns (stats: Stats, ghost sent: seq<Outcome>)
      requires Valid() && model.ctl == Drain(jobs) && from <= calls && Given(w)
      modifies this
      ensures Drained(old(Rec()), old(calls), jobs, |jobs|, before, from, w, stats, sent)
    {
      stats, sent := before, [];
      assert jobs[0..] == jobs;
      CountedNone(before, done);
      for i := 0 to |jobs|
        invariant Drained(old(Rec()), old(calls), jobs, i, before, from, w, stats, sent)
      {
        stats, sent := DrainNth(old(Rec()), old(calls), jobs, i, before, stats, sent, from, w);
      }
    }

    /** The first `i` rows are dealt with, since this record and this many calls. */
    ghost predicate Drained(r: Record, c: nat, jobs: seq<Job>, i: nat, first: Stats, from: nat, w: World, stats: Stats,
                            sent: seq<Outcome>)
      reads this
    {
      && Valid() && r.trace <= trace && now >= r.model.now && from <= c <= calls && Given(w)
      && i <= |jobs| && model.ctl == Drain(jobs[i..])
      && |sent| == i && AllJobsFit(w, Rec(), from, calls, jobs, sent)
      && stats == CountedAll(first, sent) && done == Plus(r.done, LaunchesAll(sent))
    }

    method DrainNth(ghost r: Record, ghost c: nat, jobs: seq<Job>, i: nat, ghost first: Stats, before: Stats,
                    ghost so: seq<Outcome>, ghost from: nat, ghost w: World)
      returns (stats: Stats, ghost sent: seq<Outcome>)
      requires i < |jobs| && Drained(r, c, jobs, i, first, from, w, before, so)
      modifies this
      ensures Drained(r, c, jobs, i + 1, first, from, w, stats, sent)
    {
      assert jobs[i..] == [jobs[i]] + jobs[i + 1..];
      ghost var how;
      stats, how := DrainOne(jobs[i], jobs[i + 1..], before, w);
      JobsStillFit(w, old(Rec()), Rec(), from, old(calls), calls, jobs, so);
      OneMoreJobFits(w, Rec(), from, old(calls), calls, jobs, so, how);
      CountedMore(first, so, how);
      LaunchesMore(r.done, so, how);
      sent := so + [how];
    }

    /** The loop turns to the next row. */
    method TakeUp(job: Job, ghost rest: seq<Job>)
      requires Valid() && model.ctl == Drain([job] + rest)
      modifies this`now, this`trace, this`model, this`done
      ensures Continues() && done == old(done) && model.ctl == Sign(job, ToDrain(rest))
    {
      assert ([job] + rest)[1..] == rest;
      Silently(DrainNext, Sign(job, ToDrain(rest)));
    }

    /** Launched exactly when the token is stored and the dispatcher answers. */
    method DrainOne(job: Job, ghost rest: seq<Job>, before: Stats, ghost w: World)
      returns (stats: Stats, ghost how: Outcome)
      requires Valid() && model.ctl == Drain([job] + rest) && Given(w)
      modifies this
      ensures Continues() && model.ctl == Drain(rest)
      ensures how.Dispatched? <==> !old(fails(calls)) && !old(fails(calls + 1))
      ensures JobFits(w, Rec(), old(calls), calls, job, how)
      ensures stats == Counted(before, how) && done == Plus(old(done), Launches(how))
    {
      TakeUp(job, rest);
      var ok := DispatchRun(job, ToDrain(rest));
      if ok {
        stats, how := before.(dispatched := before.dispatched + 1), Dispatched;
      } else {
        stats, how := before.(errored := before.errored + 1), FollowUpFailed;
      }
    }

    // ----- Tick -----

    /**
     * One pass of the loop, with everyone else running in between. Only a failed listing
     * stops it. Every schedule it listed is fired, and what it freshly fired is skipped,
     * queued or launched as the overlap policy says of the runs active then; every row it
     * selected is launched; unless there is a cause: no next time, a schedule deleted
     * meanwhile, a failed call. The statistics are the outcomes. One sweep is made, and if
     * it succeeds no run is overdue.
     */
    method Tick() returns (err: bool, stats: Stats, swept: bool, ghost p: Work)
      requires Valid() && model.ctl == Idle
      modifies this
      ensures Continues() && model.ctl == Idle
      ensures err == old(fails(calls))
      ensures err ==> stats == NO_STATS && done == old(done)
      ensures !err ==> Taken(trace, |old(trace)|, Loop(Move.ListDue(p.due)))
      ensures !err ==> Selected(trace, |old(trace)|, fails, old(calls), calls, p.jobs)
      ensures !err ==> stats == WorkStats(p)
                       && WorkFits(World(start, |old(trace)|, nextFire, fails), Rec(), old(calls), calls, p)
      ensures !err ==> done == Plus(WithWork(old(done), p), Swept(swept))
      ensures swept ==> !err && NoneOverdue(runs, schedules, now)
                        && SweptFairly(start, |old(trace)|, trace, runs, schedules, now)
      ensures !swept ==> FailedIn(fails, old(calls), calls)
    {
      stats, swept, p := NO_STATS, false, Work([], [], [], [], []);
      var ok, listed := ListDue();
      err := !ok;
      if ok {
        label Listed:
        stats, swept, p := Pass(listed, old(calls), World(start, |old(trace)|, nextFire, fails));
        StillSelected(trace, trace, |old@Listed(trace)|, |old(trace)|, fails, old(calls), old(calls), calls, calls,
                      p.jobs);
        TakenStays(old@Listed(trace), trace, |old(trace)|, |old(trace)|, Loop(Move.ListDue(listed)));
      } else {
        assert fails(old(calls));
      }
    }

    /** What follows the listing. */
    method Pass(due: seq<Snap>, ghost from: nat, ghost w: World) returns (stats: Stats, swept: bool, ghost p: Work)
      requires Valid() && model.ctl == Due(due) && from <= calls && Given(w)
      modifies this
      ensures Continues() && model.ctl == Idle && p.due == due
      ensures Selected(trace, |old(trace)|, fails, from, calls, p.jobs)
      ensures WorkFits(w, Rec(), from, calls, p) && stats == WorkStats(p)
      ensures done == Plus(WithWork(old(done), p), Swept(swept))
      ensures swept ==> NoneOverdue(runs, schedules, now)
                        && SweptFairly(start, w.since, trace, runs, schedules, now)
      ensures !swept ==> FailedIn(fails, from, calls)
    {
      stats, p := FireAndDrain(due, from, w);
      label Worked:
      ghost var before;
      swept, before := SweepOrphans();
      if swept {
        StillTook(start, |old@Worked(trace)|, w.since, trace, trace, before, Move.SweepOrphans);
      }
      WorkStillFits(w, old@Worked(Rec()), Rec(), from, old@Worked(calls), calls, p);
      StillSelected(old@Worked(trace), trace, |old(trace)|, |old(trace)|, fails, from, from, old@Worked(calls),
                    calls, p.jobs);
      assert !swept ==> fails(old@Worked(calls));
    }

    method FireAndDrain(due: seq<Snap>, ghost from: nat, ghost w: World) returns (stats: Stats, ghost p: Work)
      requires Valid() && model.ctl == Due(due) && from <= calls && Given(w)
      modifies this
      ensures Continues() && model.ctl == Sweep && p.due == due
      ensures Selected(trace, |old(trace)|, fails, from, calls, p.jobs)
      ensures WorkFits(w, Rec(), from, calls, p) && stats == WorkStats(p)
      ensures done == WithWork(old(done), p)
    {
      ghost var hows, seen, jobs, sent;
      stats, hows, seen := ProcessAll(due, from, w);
      label Processed:
      stats, jobs, sent := DispatchPending(stats, from, w);
      DueStillFit(w, old@Processed(Rec()), Rec(), from, old@Processed(calls), calls, due, hows, seen);
      StillSelected(trace, trace, |old@Processed(trace)|, |old(trace)|, fails, old@Processed(calls), from, calls,
                    calls, jobs);
      p := Work(due, hows, seen, jobs, sent);
    }

    method ListDue() returns (ok: bool, due: seq<Snap>)
      requires Valid() && model.ctl == Idle
      modifies this
      ensures Continues() && model.ctl == if ok then Due(due) else Idle
      ensures done == old(done) && ok == !old(fails(calls)) && calls == old(calls) + 1
      ensures ok ==> Taken(trace, |old(trace)|, Loop(Move.ListDue(due)))
    {
      ok := Reply();
      due := [];
      if ok {
        var at := Clock();
        due := ListDueSchedules(at);
        Take(Step(at, Loop(Move.ListDue(due))));
        assert trace[|trace| - 1].act == Loop(Move.ListDue(due));
        now := at;
      }
    }

    /** Every due schedule is tried; an error on one does not stop the others. */
    method ProcessAll(due: seq<Snap>, ghost from: nat, ghost w: World)
      returns (stats: Stats, ghost hows: seq<Outcome>, ghost seen: seq<Seen>)
      requires Valid() && model.ctl == Due(due) && from <= calls && Given(w)
      modifies this
      ensures Continues() && model.ctl == Select
      ensures |hows| == |due| && AllDueFit(w, Rec(), from, calls, due, hows, seen)
      ensures stats == CountedAll(NO_STATS, hows) && done == Plus(old(done), DeedsAll(hows))
    {
      stats, hows, seen := ProcessEach(due, from, w);
      label Done:
      Silently(EndDue, Select);
      DueStillFit(w, old@Done(Rec()), Rec(), from, calls, calls, due, hows, seen);
    }

    method ProcessEach(due: seq<Snap>, ghost from: nat, ghost w: World)
      returns (stats: Stats, ghost hows: seq<Outcome>, ghost seen: seq<Seen>)
      requires Valid() && model.ctl == Due(due) && from <= calls && Given(w)
      modifies this
      ensures SoFar(old(Rec()), old(calls), due, |due|, from, w, stats, hows, seen)
    {
      NoneYet(due, from, w);
      stats, hows, seen := NO_STATS, [], [];
      for i := 0 to |due|
        invariant SoFar(old(Rec()), old(calls), due, i, from, w, stats, hows, seen)
      {
        stats, hows, seen := ProcessNth(old(Rec()), old(calls), due, i, stats, hows, seen, from, w);
      }
    }

    lemma NoneYet(due: seq<Snap>, from: nat, w: World)
      requires Valid() && model.ctl == Due(due) && from <= calls && Given(w)
      ensures SoFar(Rec(), calls, due, 0, from, w, NO_STATS, [], [])
    {
      KnownDue(due);
      assert due[0..] == due;
      CountedNone(NO_STATS, done);
    }

    /** The first `i` due schedules are dealt with, since this record and this many calls. */
    ghost predicate SoFar(r: Record, c: nat, due: seq<Snap>, i: nat, from: nat, w: World, stats: Stats,
                          hows: seq<Outcome>, seen: seq<Seen>)
      reads this
    {
      && Valid() && r.trace <= trace && now >= r.model.now && from <= c <= calls && Given(w)
      && i <= |due| && model.ctl == Due(due[i..])
      && |hows| == i && AllDueFit(w, Rec(), from, calls, due, hows, seen)
      && stats == CountedAll(NO_STATS, hows) && done == Plus(r.done, DeedsAll(hows))
    }

    method ProcessNth(ghost r: Record, ghost c: nat, due: seq<Snap>, i: nat, before: Stats, ghost so: seq<Outcome>,
                      ghost saw: seq<Seen>, ghost from: nat, ghost w: World)
      returns (stats: Stats, ghost hows: seq<Outcome>, ghost seen: seq<Seen>)
      requires i < |due| && SoFar(r, c, due, i, from, w, before, so, saw)
      modifies this
      ensures SoFar(r, c, due, i + 1, from, w, stats, hows, seen)
    {
      assert due[i..] == [due[i]] + due[i + 1..];
      ghost var how, at;
      stats, how, at := ProcessOne(due[i], due[i + 1..], before, w);
      DueStillFit(w, old(Rec()), Rec(), from, old(calls), calls, due, so, saw);
      OneMoreDueFits(w, Rec(), from, old(calls), calls, due, so, saw, how, at);
      CountedMore(NO_STATS, so, how);
      DeedsMore(r.done, so, how);
      hows, seen := so + [how], saw + [at];
    }

    /** OrphanSweep, best effort. */
    method SweepOrphans() returns (ok: bool, ghost before: State)
      requires Valid() && model.ctl == Sweep
      modifies this
      ensures Continues() && model.ctl == Idle && ok == !old(fails(calls)) && calls == old(calls) + 1
      ensures done == Plus(old(done), Swept(ok))
      ensures ok ==> NoneOverdue(runs, schedules, now)
      ensures ok ==> TookFrom(start, |old(trace)|, trace, before, Move.SweepOrphans)
                     && AllFairlySwept(before.db.runs, runs, schedules, now)
    {
      ok := Reply();
      before := model;
      if ok {
        label Asked:
        SweepRows();
        StillTook(start, |old@Asked(trace)|, |old(trace)|, trace, trace, before, Move.SweepOrphans);
      } else {
        var at := Clock();
        Take(Step(at, Loop(SweepError)));
        now := at;
      }
    }

    method SweepRows()
      requires Valid() && model.ctl == Sweep
      modifies this`now, this`runs, this`trace, this`model, this`done
      ensures Continues() && model.ctl == Idle && done == Plus(old(done), Tally(0, 0, 0, 1, 0))
      ensures AllFairlySwept(old(runs), runs, schedules, now) && NoneOverdue(runs, schedules, now)
      ensures TookFrom(start, |old(trace)|, trace, old(model), Move.SweepOrphans)
    {
      var at := Clock();
      SweepIsFair(runs, schedules, at);
      Take(Step(at, Loop(Move.SweepOrphans)));
      TookNow(start, |old(trace)|, old(trace), old(model), old(done), Step(at, Loop(Move.SweepOrphans)),
              Move.SweepOrphans);
      now, runs := at, OrphanSweep(runs, schedules, at);
    }
  }
}
