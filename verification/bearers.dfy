/** Which tokens the row lets in: those signed for it, and the runner launched last. */
module Bearers {
  import opened Options
  import opened Schema
  import opened Machine
  import opened Lifecycle
  import opened Ledger

  /** The hash column holds a placeholder or the hash of a token signed for this run. */
  ghost predicate HashOk(log: Log, rid: RunId, r: Run) {
    (exists nonce :: r.tokenHash == "pending:" + nonce) || (exists t :: t in log.signed && t == Token(rid, t.hash)
                                                                        && t.hash == r.tokenHash)
  }

  ghost predicate HashesOk(runs: Runs, log: Log) {
    forall rid :: rid in runs ==> HashOk(log, rid, runs[rid])
  }

  lemma InsertedHash(log: Log, rid: RunId, sid: ScheduleId, fire: Option<Time>, at: Time, nonce: string)
    ensures HashOk(log, rid, NewRun(sid, fire, at, nonce))
  {
    assert NewRun(sid, fire, at, nonce).tokenHash == "pending:" + nonce;
  }

  /** A row that keeps its hash keeps this, however the log grows. */
  lemma SameHash(a: Log, b: Log, rid: RunId, r: Run, r': Run)
    requires HashOk(a, rid, r) && a.signed <= b.signed && r'.tokenHash == r.tokenHash
    ensures HashOk(b, rid, r')
  {
    if t :| t in a.signed && t == Token(rid, t.hash) && t.hash == r.tokenHash { assert t in b.signed; }
  }

  lemma MoveHashes(db: Db, ctl: Control, log: Log, at: Time, m: Move)
    requires MoveGuard(db, ctl, log, at, m) && HashesOk(db.runs, log) && db.runs.Keys <= db.usedRuns
    ensures HashesOk(MoveDb(db, ctl, log, at, m).runs, MoveLog(db, ctl, log, at, m))
  {
    var runs, log' := MoveDb(db, ctl, log, at, m).runs, MoveLog(db, ctl, log, at, m);
    forall rid | rid in runs ensures HashOk(log', rid, runs[rid]) {
      if m.SignToken? && rid == m.tok.rid {
        assert m.tok in log'.signed;
      } else if rid in db.runs {
        SameHash(log, log', rid, db.runs[rid], runs[rid]);
      } else {
        InsertedHash(log', rid, ctl.due[0].sid, Some(ctl.due[0].fire), at, m.nonce);
      }
    }
  }

  lemma EventHashes(db: Db, log: Log, at: Time, e: Event)
    requires EventGuard(db, log, at, e) && HashesOk(db.runs, log)
    ensures HashesOk(EventDb(db, log, at, e).runs, log)
  {
    var runs := EventDb(db, log, at, e).runs;
    forall rid | rid in runs ensures HashOk(log, rid, runs[rid]) {
      if e.RunNow? && rid == e.rid {
        InsertedHash(log, rid, e.sid, None, at, e.nonce);
      } else {
        SameHash(log, log, rid, db.runs[rid], runs[rid]);
      }
    }
  }

  lemma {:induction false} HashesAlways(s: State, steps: seq<Step>)
    requires Legal(s, steps) && HashesOk(s.db.runs, s.log) && s.db.runs.Keys <= s.db.usedRuns
    ensures HashesOk(Exec(s, steps).db.runs, Exec(s, steps).log)
    decreases |steps|
  {
    if steps != [] {
      StepFollows(s, steps[0]);
      match steps[0].act {
        case Loop(m) => MoveHashes(s.db, s.ctl, s.log, steps[0].at, m);
        case Env(e) => EventHashes(s.db, s.log, steps[0].at, e);
      }
      HashesAlways(Do(s, steps[0]), steps[1..]);
    }
  }

  /** In every reachable state a row lets in only what the loop signed for it. */
  lemma AdmittedWasSigned(s: State, steps: seq<Step>, tok: Token)
    requires Init(s) && Legal(s, steps) && Admits(Exec(s, steps).db.runs, tok)
    ensures tok in Exec(s, steps).log.signed
  {
    HashesAlways(s, steps);
    var t := Exec(s, steps);
    assert HashOk(t.log, tok.rid, t.db.runs[tok.rid]);
    if nonce :| t.db.runs[tok.rid].tokenHash == "pending:" + nonce {
      PlaceholderRefusesBearers(t.db.runs, tok, nonce);
    }
  }

  // ----- the runner launched last -----

  /** No token is signed for this run. */
  ghost predicate NoneSigned(steps: seq<Step>, rid: RunId) {
    forall i :: 0 <= i < |steps| && steps[i].act.Loop? && steps[i].act.move.SignToken? ==>
      steps[i].act.move.tok.rid != rid
  }

  lemma AdmittedStays(s: State, step: Step, tok: Token)
    requires Guard(s, step) && s.db.runs.Keys <= s.db.usedRuns && Admits(s.db.runs, tok)
    requires !(step.act.Loop? && step.act.move.SignToken? && step.act.move.tok.rid == tok.rid)
    requires tok.rid in Do(s, step).db.runs
    ensures Admits(Do(s, step).db.runs, tok)
  {
  }

  lemma {:induction false} AdmittedUntilSigned(s: State, steps: seq<Step>, tok: Token)
    requires Legal(s, steps) && s.db.runs.Keys <= s.db.usedRuns && Admits(s.db.runs, tok)
    requires NoneSigned(steps, tok.rid) && tok.rid in Exec(s, steps).db.runs
    ensures Admits(Exec(s, steps).db.runs, tok)
    decreases |steps|
  {
    if steps != [] {
      var t := Do(s, steps[0]);
      StepFollows(s, steps[0]);
      if tok.rid !in t.db.runs { GoneForGood(t, steps[1..], tok.rid); }
      AdmittedStays(s, steps[0], tok);
      AdmittedUntilSigned(t, steps[1..], tok);
    }
  }

  /** The token about to be handed over is the one its row lets in. */
  ghost predicate HandingOver(db: Db, ctl: Control) {
    ctl.Launch? && ctl.tok.rid in db.runs ==> Admits(db.runs, ctl.tok)
  }

  lemma HandingOverKept(s: State, step: Step)
    requires Guard(s, step) && s.db.runs.Keys <= s.db.usedRuns && HandingOver(s.db, s.ctl)
    requires PlanSound(s.db, s.now, s.ctl) && TokensOk(s.ctl, s.log)
    ensures HandingOver(Do(s, step).db, Do(s, step).ctl)
  {
  }

  lemma {:induction false} HandingOverAlways(s: State, steps: seq<Step>)
    requires Legal(s, steps) && LedgerInv(s) && EndInv(s) && HandingOver(s.db, s.ctl)
    ensures LedgerInv(Exec(s, steps)) && EndInv(Exec(s, steps))
    ensures HandingOver(Exec(s, steps).db, Exec(s, steps).ctl)
    decreases |steps|
  {
    if steps != [] {
      LedgerKept(s, steps[0]);
      EndInvKept(s, steps[0]);
      HandingOverKept(s, steps[0]);
      HandingOverAlways(Do(s, steps[0]), steps[1..]);
    }
  }

  /**
   * A runner that was launched is let in for as long as its row stands and the loop signs no
   * other token for it: whatever everybody else does, its finalize request is not turned away.
   */
  lemma LaunchedIsLetIn(s: State, before: seq<Step>, launch: Step, after: seq<Step>)
    requires Init(s) && Legal(s, before) && Guard(Exec(s, before), launch) && launch.act == Loop(DispatchOk)
    requires Legal(Do(Exec(s, before), launch), after) && NoneSigned(after, Exec(s, before).ctl.tok.rid)
    requires Exec(s, before).ctl.tok.rid in Exec(Do(Exec(s, before), launch), after).db.runs
    ensures Admits(Exec(Do(Exec(s, before), launch), after).db.runs, Exec(s, before).ctl.tok)
  {
    HandingOverAlways(s, before);
    var t := Exec(s, before);
    LedgerKept(t, launch);
    if t.ctl.tok.rid !in t.db.runs { GoneForGood(Do(t, launch), after, t.ctl.tok.rid); }
    AdmittedUntilSigned(Do(t, launch), after, t.ctl.tok);
  }
}
