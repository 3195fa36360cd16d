/** The life of a run row: which way its status moves, and who may end it. */
module Lifecycle {
  import opened Options
  import opened Schema
  import opened Machine

  function Rank(s: Status): nat {
    match s
    case Pending => 0
    case Running => 1
    case _ => 2
  }

  /** `b` is a possible later form of the row `a`. */
  predicate Follows(a: Run, b: Run) {
    && b.sid == a.sid && b.fireTime == a.fireTime && b.createdAt == a.createdAt
    && Rank(a.status) <= Rank(b.status)
    && (a.status.Terminal() ==> b.status == a.status && b.finishedAt == a.finishedAt && b.ender == a.ender)
    && (a.status != Pending ==> b.startedAt == a.startedAt)
  }

  /** Every row of `b` is a later form of a row of `a`, or was inserted after all of them. */
  ghost predicate DbFollows(a: Db, b: Db) {
    && a.lastCreated <= b.lastCreated && a.everConcurrent <= b.everConcurrent && a.usedRuns <= b.usedRuns
    && |a.fires| <= |b.fires| && b.fires[..|a.fires|] == a.fires
    && (forall rid :: rid in b.runs ==>
          if rid in a.runs then Follows(a.runs[rid], b.runs[rid])
          else rid !in a.usedRuns && rid in b.usedRuns && b.runs[rid].createdAt > a.lastCreated
               && b.runs[rid].status == Pending)
  }

  lemma RewrittenFollows(db: Db, runs: Runs, sweep: Time)
    requires runs.Keys == db.runs.Keys && forall rid :: rid in runs ==> Follows(db.runs[rid], runs[rid])
    ensures DbFollows(db, db.(runs := runs, lastSweep := sweep))
  {
  }

  lemma InsertFollows(db: Db, rid: RunId, r: Run, fires: seq<Fire>)
    requires db.runs.Keys <= db.usedRuns && rid !in db.usedRuns && r.createdAt > db.lastCreated && r.status == Pending
    ensures DbFollows(db, InsertRow(db, rid, r).(fires := db.fires + fires))
  {
  }

  lemma SignFollows(db: Db, rid: RunId, hash: string)
    ensures DbFollows(db, db.(runs := SetTokenHash(db.runs, rid, hash)))
  {
    RewrittenFollows(db, SetTokenHash(db.runs, rid, hash), db.lastSweep);
  }

  lemma MarkFollows(db: Db, rid: RunId, at: Time)
    ensures DbFollows(db, db.(runs := SetRunRunning(db.runs, rid, at)))
  {
    RewrittenFollows(db, SetRunRunning(db.runs, rid, at), db.lastSweep);
  }

  lemma SweepFollows(db: Db, at: Time)
    ensures DbFollows(db, db.(runs := OrphanSweep(db.runs, db.schedules, at), lastSweep := at))
  {
    RewrittenFollows(db, OrphanSweep(db.runs, db.schedules, at), at);
  }

  lemma DeleteFollows(db: Db, rid: RunId)
    ensures DbFollows(db, db.(runs := db.runs - {rid}))
  {
  }

  lemma AdvanceFollows(db: Db, schedules: Schedules)
    ensures DbFollows(db, db.(schedules := schedules))
  {
  }

  lemma MoveFollows(db: Db, ctl: Control, log: Log, at: Time, m: Move)
    requires MoveGuard(db, ctl, log, at, m) && db.runs.Keys <= db.usedRuns
    ensures DbFollows(db, MoveDb(db, ctl, log, at, m))
  {
    if m.InsertScheduled? {
      var c := ctl.due[0];
      InsertFollows(db, m.rid, NewRun(c.sid, Some(c.fire), at, m.nonce), [Fire(m.rid, c.sid, c.fire, at)]);
    } else if m.SignToken? {
      SignFollows(db, m.tok.rid, m.tok.hash);
    } else if m.MarkRunning? {
      MarkFollows(db, ctl.job.rid, at);
    } else if m.SweepOrphans? {
      SweepFollows(db, at);
    } else if m.DeleteSkipped? {
      DeleteFollows(db, ctl.job.rid);
    } else {
      AdvanceFollows(db, MoveDb(db, ctl, log, at, m).schedules);
    }
  }

  lemma EventFollows(db: Db, log: Log, at: Time, e: Event)
    requires EventGuard(db, log, at, e) && db.runs.Keys <= db.usedRuns
    ensures DbFollows(db, EventDb(db, log, at, e))
  {
  }

  lemma StepFollows(s: State, step: Step)
    requires Guard(s, step) && s.db.runs.Keys <= s.db.usedRuns
    ensures DbFollows(s.db, Do(s, step).db)
    ensures Do(s, step).db.runs.Keys <= Do(s, step).db.usedRuns
  {
    match step.act {
      case Loop(m) => MoveFollows(s.db, s.ctl, s.log, step.at, m);
      case Env(e) => EventFollows(s.db, s.log, step.at, e);
    }
  }

  /** An id that is spent and gone never comes back. */
  lemma {:induction false} GoneForGood(s: State, steps: seq<Step>, rid: RunId)
    requires Legal(s, steps) && s.db.runs.Keys <= s.db.usedRuns
    requires rid in s.db.usedRuns && rid !in s.db.runs
    ensures rid !in Exec(s, steps).db.runs
    decreases |steps|
  {
    if steps != [] {
      StepFollows(s, steps[0]);
      GoneForGood(Do(s, steps[0]), steps[1..], rid);
    }
  }

  /**
   * Over any run of the system a row's status only moves pending, running, terminal,
   * and a terminal row keeps its status, its finish time and who ended it.
   */
  lemma {:induction false} StatusOnlyAdvances(s: State, steps: seq<Step>, rid: RunId)
    requires Legal(s, steps) && s.db.runs.Keys <= s.db.usedRuns
    requires rid in s.db.runs && rid in Exec(s, steps).db.runs
    ensures Follows(s.db.runs[rid], Exec(s, steps).db.runs[rid])
    decreases |steps|
  {
    if steps != [] {
      var t := Do(s, steps[0]);
      StepFollows(s, steps[0]);
      if rid !in t.db.runs {
        GoneForGood(t, steps[1..], rid);
      } else {
        StatusOnlyAdvances(t, steps[1..], rid);
      }
    }
  }

  // ----- who may end a run -----

  ghost predicate TokensOk(ctl: Control, log: Log) {
    && log.exposed <= log.signed
    && (forall t, u :: t in log.signed && u in log.signed && t.hash == u.hash ==> t == u)
    && (forall t :: t in log.exposed ==> t.rid in log.attempted)
    && (ctl.Launch? ==> ctl.tok in log.signed && ctl.tok.rid == ctl.job.rid)
    && (ctl.Mark? ==> ctl.job.rid in log.attempted)
  }

  /** A row was ended by the sweep, or by a token of its own that was handed out; a running one was handed out. */
  ghost predicate EnderOk(log: Log, rid: RunId, r: Run) {
    && (r.status.Terminal() <==> r.ender.Some?)
    && (r.status == Running ==> rid in log.attempted)
    && (r.ender == Some(BySweep) ==> r.status == Failed)
    && (r.ender.Some? && r.ender.value.ByRunner? ==>
          r.ender.value.token.rid == rid && r.ender.value.token in log.exposed)
  }

  ghost predicate EndersOk(runs: Runs, log: Log) {
    forall rid :: rid in runs ==> EnderOk(log, rid, runs[rid])
  }

  ghost predicate EndInv(s: State) {
    TokensOk(s.ctl, s.log) && EndersOk(s.db.runs, s.log) && s.db.runs.Keys <= s.db.usedRuns
  }

  lemma TokensMove(db: Db, ctl: Control, log: Log, at: Time, m: Move)
    requires MoveGuard(db, ctl, log, at, m) && TokensOk(ctl, log)
    ensures TokensOk(MoveCtl(db, ctl, log, at, m), MoveLog(db, ctl, log, at, m))
  {
    var log' := MoveLog(db, ctl, log, at, m);
    if !m.SignToken? && !m.DispatchOk? && !m.DispatchError? {
      assert log'.signed == log.signed && log'.exposed == log.exposed && log'.attempted == log.attempted;
    }
  }

  lemma LogGrows(db: Db, ctl: Control, log: Log, at: Time, m: Move)
    requires MoveGuard(db, ctl, log, at, m)
    ensures log.attempted <= MoveLog(db, ctl, log, at, m).attempted
      && log.exposed <= MoveLog(db, ctl, log, at, m).exposed
  {
  }

  lemma EndersRows(db: Db, ctl: Control, log: Log, at: Time, m: Move)
    requires MoveGuard(db, ctl, log, at, m) && EndersOk(db.runs, log) && TokensOk(ctl, log)
    ensures EndersOk(MoveDb(db, ctl, log, at, m).runs, log)
  {
    if !m.InsertScheduled? && !m.DeleteSkipped? && !m.SignToken? && !m.MarkRunning? && !m.SweepOrphans? {
      assert MoveDb(db, ctl, log, at, m).runs == db.runs;
    }
  }

  lemma EndersMove(db: Db, ctl: Control, log: Log, at: Time, m: Move)
    requires MoveGuard(db, ctl, log, at, m) && EndersOk(db.runs, log) && TokensOk(ctl, log)
    ensures EndersOk(MoveDb(db, ctl, log, at, m).runs, MoveLog(db, ctl, log, at, m))
  {
    EndersRows(db, ctl, log, at, m);
    LogGrows(db, ctl, log, at, m);
  }

  lemma EndersEvent(db: Db, log: Log, at: Time, e: Event)
    requires EventGuard(db, log, at, e) && EndersOk(db.runs, log)
    ensures EndersOk(EventDb(db, log, at, e).runs, log)
  {
  }

  lemma EndInvKept(s: State, step: Step)
    requires EndInv(s) && Guard(s, step)
    ensures EndInv(Do(s, step))
  {
    StepFollows(s, step);
    match step.act {
      case Loop(m) =>
        TokensMove(s.db, s.ctl, s.log, step.at, m);
        EndersMove(s.db, s.ctl, s.log, step.at, m);
      case Env(e) => EndersEvent(s.db, s.log, step.at, e);
    }
  }

  lemma {:induction false} EndInvAlways(s: State, steps: seq<Step>)
    requires EndInv(s) && Legal(s, steps)
    ensures EndInv(Exec(s, steps))
    decreases |steps|
  {
    if steps != [] {
      EndInvKept(s, steps[0]);
      EndInvAlways(Do(s, steps[0]), steps[1..]);
    }
  }

  /**
   * A run that was never handed to the dispatcher is still pending or was ended by the
   * sweep; and no finalize request for it is accepted.
   */
  lemma OnlyDispatchedRunsFinalize(s: State, steps: seq<Step>, rid: RunId)
    requires Init(s) && Legal(s, steps)
    requires rid in Exec(s, steps).db.runs && rid !in Exec(s, steps).log.attempted
    ensures var r := Exec(s, steps).db.runs[rid];
            r.status == Pending || (r.status == Failed && r.ender == Some(BySweep))
    ensures forall tok: Token, status, at :: tok.rid == rid ==>
              !Guard(Exec(s, steps), Step(at, Env(Finalize(tok, status))))
  {
    EndInvAlways(s, steps);
  }

  /** The `pending:` placeholder is never a token's hash, so such a row refuses every bearer. */
  lemma PlaceholderRefusesBearers(runs: Runs, tok: Token, nonce: string)
    requires tok.rid in runs && runs[tok.rid].tokenHash == Placeholder(nonce)
    ensures !Admits(runs, tok)
  {
    var hash: string := tok.hash;
    assert IsHex(hash);
    assert Placeholder(nonce)[0] == 'p';
  }

  /** After a re-dispatch only the newest token is let in: a row admits at most one bearer. */
  lemma OneBearerPerRow(s: State, steps: seq<Step>, t: Token, u: Token)
    requires Init(s) && Legal(s, steps) && t.rid == u.rid
    requires t in Exec(s, steps).log.exposed && u in Exec(s, steps).log.exposed
    requires Admits(Exec(s, steps).db.runs, t) && Admits(Exec(s, steps).db.runs, u)
    ensures t == u
  {
    EndInvAlways(s, steps);
  }
}
