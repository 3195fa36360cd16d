/** The run-now and finalize handlers and the auto-pause evaluation, as code over the tables. */
module Handlers {
  import opened Options
  import opened Schema
  import opened Machine
  import opened AutoPausing
  import opened Evidence
  import opened Listing
  import opened TickRecord
  import opened TickCode

  const NO_CONTENT := 204
  const OK := 200
  const BAD_REQUEST := 400
  const UNAUTHORIZED := 401
  const FORBIDDEN := 403
  const NOT_FOUND := 404
  const CONFLICT := 409
  const SERVER_ERROR := 500

  // ----- the finalize body -----

  datatype Notification = Notification(kind: string, target: string, status: string, reason: Option<string>)

  datatype Body = Body(
    status: string,
    durationMs: Option<int>,
    tokensIn: Option<int>,
    tokensOut: Option<int>,
    costCents: Option<int>,
    notifications: seq<Notification>)

  function StatusOf(s: string): Option<Status> {
    if s == "succeeded" then Some(Succeeded)
    else if s == "partial_failure" then Some(PartialFailure)
    else if s == "failed" then Some(Failed)
    else None
  }

  predicate NonNegative(n: Option<int>) { n.Some? ==> n.value >= 0 }

  predicate Sendable(n: Notification) {
    && 1 <= |n.kind| <= 200 && 1 <= |n.target| <= 200
    && (n.status == "sent" || n.status == "skipped" || n.status == "failed")
    && (n.reason.Some? ==> |n.reason.value| <= 2000)
  }

  predicate Acceptable(b: Body) {
    && StatusOf(b.status).Some?
    && NonNegative(b.durationMs) && NonNegative(b.tokensIn) && NonNegative(b.tokensOut) && NonNegative(b.costCents)
    && forall i :: 0 <= i < |b.notifications| ==> Sendable(b.notifications[i])
  }

  method CheckBody(b: Body) returns (ok: bool)
    ensures ok <==> Acceptable(b)
  {
    if b.status != "succeeded" && b.status != "partial_failure" && b.status != "failed" { return false; }
    if b.durationMs.Some? && b.durationMs.value < 0 { return false; }
    if b.tokensIn.Some? && b.tokensIn.value < 0 { return false; }
    if b.tokensOut.Some? && b.tokensOut.value < 0 { return false; }
    if b.costCents.Some? && b.costCents.value < 0 { return false; }
    for i := 0 to |b.notifications|
      invariant forall j :: 0 <= j < i ==> Sendable(b.notifications[j])
    {
      var n := b.notifications[i];
      if n.kind == "" || |n.kind| > 200 { return false; }
      if n.target == "" || |n.target| > 200 { return false; }
      if n.status != "sent" && n.status != "skipped" && n.status != "failed" { return false; }
      if n.reason.Some? && |n.reason.value| > 2000 { return false; }
    }
    return true;
  }

  // ----- ListRecentTerminalScheduledRuns -----

  function EligibleIn(runs: Runs, sid: ScheduleId, since: Time): nat -> bool {
    (rid: nat) =>
      && rid in runs && runs[rid].sid == sid && runs[rid].fireTime.Some? && runs[rid].createdAt >= since
      && (runs[rid].status == Succeeded || runs[rid].status == PartialFailure || runs[rid].status == Failed)
  }

  function NewestRank(runs: Runs): nat -> int {
    (rid: nat) => if rid in runs then -runs[rid].createdAt else 0
  }

  lemma NewestFirst(runs: Runs, sid: ScheduleId, since: Time, all: seq<nat>)
    requires Selects(all, runs.Keys, EligibleIn(runs, sid, since), NewestRank(runs))
    requires forall a, b :: a in runs && b in runs && a != b ==> runs[a].createdAt != runs[b].createdAt
    ensures forall i :: 0 <= i < |all| ==> all[i] in runs && Eligible(runs, sid, since, all[i])
    ensures forall i, j :: 0 <= i < j < |all| ==> runs[all[i]].createdAt > runs[all[j]].createdAt
    ensures forall rid :: Eligible(runs, sid, since, rid) ==> rid in all
  {
    forall i | 0 <= i < |all| ensures Eligible(runs, sid, since, all[i]) { assert all[i] in all; }
    forall i, j | 0 <= i < j < |all| ensures runs[all[i]].createdAt > runs[all[j]].createdAt {
      assert NewestRank(runs)(all[i]) <= NewestRank(runs)(all[j]);
    }
    forall rid | Eligible(runs, sid, since, rid) ensures rid in all {
      EligibleHasEnded(runs, sid, since, rid);
      assert EligibleIn(runs, sid, since)(rid);
    }
  }

  /** ORDER BY created_at DESC LIMIT n. */
  lemma TopIsNewest(runs: Runs, sid: ScheduleId, since: Time, limit: nat, all: seq<nat>, n: nat)
    requires Selects(all, runs.Keys, EligibleIn(runs, sid, since), NewestRank(runs))
    requires forall a, b :: a in runs && b in runs && a != b ==> runs[a].createdAt != runs[b].createdAt
    requires n == if limit < |all| then limit else |all|
    ensures IsNewest(runs, sid, since, limit, all[..n])
  {
    NewestFirst(runs, sid, since, all);
    HeadIsNewest(runs, sid, since, limit, all, n);
  }

  lemma HeadIsNewest(runs: Runs, sid: ScheduleId, since: Time, limit: nat, all: seq<nat>, n: nat)
    requires n == if limit < |all| then limit else |all|
    requires forall i :: 0 <= i < |all| ==> all[i] in runs && Eligible(runs, sid, since, all[i])
    requires forall i, j :: 0 <= i < j < |all| ==> runs[all[i]].createdAt > runs[all[j]].createdAt
    requires forall rid :: Eligible(runs, sid, since, rid) ==> rid in all
    ensures IsNewest(runs, sid, since, limit, all[..n])
  {
    var ids := all[..n];
    assert forall j :: 0 <= j < n ==> ids[j] == all[j];
    forall rid | Eligible(runs, sid, since, rid) && rid !in ids
      ensures |ids| == limit && forall i :: 0 <= i < |ids| ==> runs[ids[i]].createdAt > runs[rid].createdAt
    {
      var k :| 0 <= k < |all| && all[k] == rid;
    }
  }

  method ListRecent(db: Store, sid: ScheduleId, since: Time, limit: nat) returns (ids: seq<RunId>)
    requires db.Valid()
    ensures IsNewest(db.runs, sid, since, limit, ids)
  {
    db.DistinctAges();
    var all := SelectRanked(db.runs.Keys, EligibleIn(db.runs, sid, since), NewestRank(db.runs));
    var n := if limit < |all| then limit else |all|;
    TopIsNewest(db.runs, sid, since, limit, all, n);
    ids := all[..n];
  }

  /** The streak: enough rows, and none that did not fail. */
  method AllFailed(runs: Runs, threshold: int, ids: seq<RunId>) returns (streak: bool)
    requires forall i :: 0 <= i < |ids| ==> ids[i] in runs
    ensures streak <==> StreakReached(runs, threshold, ids)
  {
    if |ids| < threshold { return false; }
    for i := 0 to |ids|
      invariant forall j :: 0 <= j < i ==> runs[ids[j]].status == Failed
    {
      if runs[ids[i]].status != Failed { return false; }
    }
    return true;
  }

  // ----- the handlers -----

  /** A statement of these handlers goes on the record of the loop's system. */
  twostate predicate Beside(db: Store)
    reads db
  {
    db.Continues() && db.model.ctl == old(db.model.ctl) && db.model.log == old(db.model.log)
  }

  /** Which of a request's calls fail. */
  datatype Faults = Faults(lookup: bool, begin: bool, insert: bool, commit: bool, evaluate: bool)

  // ----- evaluateAutoPause -----

  /** Where on the record, and in which states, an evaluation read, listed and acted; its threshold, what it listed. */
  datatype Evaluation = Evaluation(readAt: nat, config: State, listAt: nat, listed: State, actAt: nat, acted: State,
                                   threshold: int, newest: seq<RunId>)

  /** Its statements ran one after another, none before `since`. */
  ghost predicate InOrder(start: State, since: nat, steps: seq<Step>, e: Evaluation) {
    && since <= e.readAt <= e.listAt <= e.actAt
    && PassedAt(start, steps, e.readAt, e.config)
    && PassedAt(start, steps, e.listAt, e.listed)
    && PassedAt(start, steps, e.actAt, e.acted)
  }

  /**
   * It pauses an enabled schedule exactly when the newest scheduled runs of the window it
   * read, as many as the schedule asks for, have all failed.
   */
  ghost predicate Judged(sid: ScheduleId, e: Evaluation, paused: bool) {
    if sid !in e.config.db.schedules then !paused
    else
      var sch := e.config.db.schedules[sid];
      && PausesAfter(sch, e.threshold)
      && IsNewest(e.listed.db.runs, sid, sch.lastEnabledAt, e.threshold, e.newest)
      && (paused <==> && sid in e.acted.db.schedules && e.acted.db.schedules[sid].enabled
                      && exists latest ::
                           LatestFailed(e.listed.db.runs, sid, sch.lastEnabledAt, e.threshold, latest))
  }

  /** Pausing is one statement on record, right after the state it acted in. */
  ghost predicate Evaluated(start: State, since: nat, steps: seq<Step>, sid: ScheduleId, e: Evaluation, paused: bool) {
    && InOrder(start, since, steps, e) && Judged(sid, e, paused)
    && (paused ==>
          var sch := e.config.db.schedules[sid];
          && sid in e.config.db.schedules && e.actAt < |steps|
          && steps[e.actAt].act == Env(Evaluate(sid, e.newest, sch.lastEnabledAt, e.threshold)))
  }

  /** What was read at `c` and listed at `a` is still good at `b`. */
  lemma StillGood(start: State, c: Record, a: Record, b: Record, sid: ScheduleId, threshold: int, ids: seq<RunId>)
    requires Init(start) && Continued(start, c, a) && Continued(start, a, b)
    requires sid in c.model.db.schedules && sid in b.model.db.schedules
    requires IsNewest(a.model.db.runs, sid, c.model.db.schedules[sid].lastEnabledAt, threshold, ids)
    ensures var since := c.model.db.schedules[sid].lastEnabledAt;
            && since <= b.model.db.schedules[sid].lastEnabledAt
            && WasNewest(b.model.db.runs, sid, since, threshold, ids)
            && (StreakReached(b.model.db.runs, threshold, ids) <==> StreakReached(a.model.db.runs, threshold, ids))
  {
    WindowIsLater(start, c, b, sid);
    var rest := LeadsFurther(start, a, b);
    EvidenceAlways(start, a.trace);
    ReadingStands(a.model, rest, sid, c.model.db.schedules[sid].lastEnabledAt, threshold, ids);
  }

  lemma WindowIsLater(start: State, c: Record, b: Record, sid: ScheduleId)
    requires Init(start) && Continued(start, c, b) && sid in c.model.db.schedules && sid in b.model.db.schedules
    ensures c.model.db.schedules[sid].lastEnabledAt <= b.model.db.schedules[sid].lastEnabledAt
  {
    var rest := LeadsFurther(start, c, b);
    EvidenceAlways(start, c.trace);
    WindowAfter(c.model, rest, sid);
  }

  /** One row was paused, at this instant. */
  ghost predicate Paused(a: Schedules, b: Schedules, sid: ScheduleId, at: Time) {
    sid in a && b == a[sid := a[sid].(enabled := false, autoPausedAt := Some(at), updatedAt := at)]
  }

  /**
   * evaluateAutoPause. Others may run before and between the three statements that read the
   * window, list the runs and pause. A call that fails leaves nothing of it behind.
   */
  method EvaluateAutoPause(db: Store, sid: ScheduleId, status: Status, scheduled: bool, fails: bool)
    returns (ok: bool, paused: bool, ghost e: Evaluation)
    requires db.Valid()
    modifies db
    ensures Beside(db)
    ensures !scheduled || status != Failed ==> ok && !paused && db.trace == old(db.trace)
    ensures scheduled && status == Failed ==> ok == !fails
    ensures !ok ==> !paused
    ensures ok && scheduled && status == Failed ==>
              && Evaluated(db.start, |old(db.trace)|, db.trace, sid, e, paused)
              && (!paused ==> db.model == e.acted)
              && (paused ==>
                    && Paused(e.acted.db.schedules, db.schedules, sid, db.now)
                    && db.model.db.audits == e.acted.db.audits + [Audit(sid, db.now, e.threshold)])
  {
    ok, paused := true, false;
    e := Evaluation(|db.trace|, db.model, |db.trace|, db.model, |db.trace|, db.model, 0, []);
    if !scheduled || status != Failed { return; }
    db.Others();
    if fails { ok := false; return; }
    if sid in db.schedules {
      paused, e := EvaluateConfig(db, sid, db.schedules[sid]);
    } else {
      e := Evaluation(|db.trace|, db.model, |db.trace|, db.model, |db.trace|, db.model, 0, []);
      PassesNow(db.start, db.Rec());
    }
  }

  /** The window and the threshold are read. */
  method EvaluateConfig(db: Store, sid: ScheduleId, sch: Schedule) returns (paused: bool, ghost e: Evaluation)
    requires db.Valid() && sid in db.schedules && sch == db.schedules[sid]
    modifies db
    ensures Beside(db) && Evaluated(db.start, |old(db.trace)|, db.trace, sid, e, paused)
    ensures e.config == old(db.model)
    ensures !paused ==> db.model == e.acted
    ensures paused ==> Paused(e.acted.db.schedules, db.schedules, sid, db.now)
                       && db.model.db.audits == e.acted.db.audits + [Audit(sid, db.now, e.threshold)]
  {
    ghost var c := db.Rec();
    PassesNow(db.start, c);
    var threshold := DEFAULT_AUTO_PAUSE_AFTER;
    if sch.autoPauseAfter.Some? && sch.autoPauseAfter.value >= 1 {
      threshold := sch.autoPauseAfter.value;
    }
    db.Others();
    ghost var a := db.Rec();
    PassesNow(db.start, a);
    StillPassed(db.start, c.trace, a.trace, |c.trace|, c.model);
    var ids := ListRecent(db, sid, sch.lastEnabledAt, threshold);
    var streak := AllFailed(db.runs, threshold, ids);
    StreakIsLatestFailed(db.runs, sid, sch.lastEnabledAt, threshold, ids);
    paused := false;
    e := Evaluation(|c.trace|, c.model, |a.trace|, a.model, |a.trace|, a.model, threshold, ids);
    if streak {
      paused, e := PauseNow(db, sid, sch, threshold, ids, c, a);
    }
  }

  /** AutoPauseSchedule, with its audit entry, on a streak listed at `a`. */
  method PauseNow(db: Store, sid: ScheduleId, sch: Schedule, threshold: int, ids: seq<RunId>, ghost c: Record,
                  ghost a: Record)
    returns (paused: bool, ghost e: Evaluation)
    requires db.Valid() && a == db.Rec() && Continued(db.start, c, a)
    requires sid in c.model.db.schedules && sch == c.model.db.schedules[sid] && PausesAfter(sch, threshold)
    requires IsNewest(a.model.db.runs, sid, sch.lastEnabledAt, threshold, ids)
    requires StreakReached(a.model.db.runs, threshold, ids)
    modifies db
    ensures Beside(db) && Evaluated(db.start, |c.trace|, db.trace, sid, e, paused)
    ensures e.config == c.model
    ensures !paused ==> db.model == e.acted
    ensures paused ==> Paused(e.acted.db.schedules, db.schedules, sid, db.now)
                       && db.model.db.audits == e.acted.db.audits + [Audit(sid, db.now, e.threshold)]
  {
    db.Others();
    ghost var b := db.Rec();
    e := Evaluation(|c.trace|, c.model, |a.trace|, a.model, |b.trace|, b.model, threshold, ids);
    StreakIsLatestFailed(a.model.db.runs, sid, sch.lastEnabledAt, threshold, ids);
    paused := sid in db.schedules && db.schedules[sid].enabled;
    if paused {
      StillGood(db.start, c, a, b, sid, threshold, ids);
      Flip(db, sid, sch.lastEnabledAt, threshold, ids);
    }
    OnRecordInOrder(db.start, c, a, b, db.trace, e);
  }

  lemma OnRecordInOrder(start: State, c: Record, a: Record, b: Record, steps: seq<Step>, e: Evaluation)
    requires Continued(start, c, a) && Continued(start, a, b) && b.trace <= steps
    requires e == Evaluation(|c.trace|, c.model, |a.trace|, a.model, |b.trace|, b.model, e.threshold, e.newest)
    ensures InOrder(start, |c.trace|, steps, e)
  {
    PassesNow(start, c);
    PassesNow(start, a);
    PassesNow(start, b);
    StillPassed(start, c.trace, steps, |c.trace|, c.model);
    StillPassed(start, a.trace, steps, |a.trace|, a.model);
    StillPassed(start, b.trace, steps, |b.trace|, b.model);
  }

  method Flip(db: Store, sid: ScheduleId, since: Time, threshold: int, ids: seq<RunId>)
    requires db.Valid() && sid in db.schedules && db.schedules[sid].enabled
    requires since <= db.schedules[sid].lastEnabledAt && threshold >= 1
    requires WasNewest(db.runs, sid, since, threshold, ids) && StreakReached(db.runs, threshold, ids)
    modifies db
    ensures Beside(db) && db.runs == old(db.runs)
    ensures db.trace == old(db.trace) + [Step(db.now, Env(Evaluate(sid, ids, since, threshold)))]
    ensures Paused(old(db.schedules), db.schedules, sid, db.now)
    ensures db.model.db.audits == old(db.model.db.audits) + [Audit(sid, db.now, threshold)]
  {
    var at := db.Clock();
    db.Take(Step(at, Env(Evaluate(sid, ids, since, threshold))));
    var row := db.schedules[sid];
    db.schedules := db.schedules[sid := row.(enabled := false, autoPausedAt := Some(at), updatedAt := at)];
    db.now := at;
  }

  // ----- finalize -----

  /** The finalize transaction: the answer is decided by the row and by which call fails. */
  method CommitFinalize(db: Store, tok: Token, status: Status, faults: Faults) returns (code: int)
    requires db.Valid() && tok in db.model.log.exposed && status.Terminal()
    modifies db
    ensures Beside(db) && db.schedules == old(db.schedules)
    ensures code == if faults.begin then SERVER_ERROR
                    else if tok.rid !in old(db.runs) || old(db.runs)[tok.rid].status.Terminal() then CONFLICT
                    else if faults.insert || faults.commit then SERVER_ERROR
                    else NO_CONTENT
    ensures code == NO_CONTENT ==>
              && db.runs == old(db.runs)[tok.rid := old(db.runs)[tok.rid].(status := status,
                                                                           finishedAt := Some(db.now),
                                                                           ender := Some(ByRunner(tok)))]
              && db.trace == old(db.trace) + [Step(db.now, Env(Finalize(tok, status)))]
    ensures code != NO_CONTENT ==> db.runs == old(db.runs) && db.trace == old(db.trace)
  {
    if faults.begin { return SERVER_ERROR; }
    if tok.rid !in db.runs || db.runs[tok.rid].status.Terminal() { return CONFLICT; }
    if faults.insert || faults.commit { return SERVER_ERROR; }
    var at := db.Clock();
    db.Take(Step(at, Env(Finalize(tok, status))));
    db.runs := db.runs[tok.rid := db.runs[tok.rid].(status := status, finishedAt := Some(at),
                                                    ender := Some(ByRunner(tok)))];
    db.now := at;
    return NO_CONTENT;
  }

  /** requireBearer lets the request in: a bearer the signer issued, for a row that holds its hash. */
  predicate LetIn(runs: Runs, bearer: Option<Token>, faults: Faults) {
    bearer.Some? && !faults.lookup && Admits(runs, bearer.value)
  }

  /** It is about the bearer's own run and says something acceptable. */
  predicate Proper(bearer: Option<Token>, url: Option<RunId>, body: Option<Body>) {
    bearer.Some? && url == Some(bearer.value.rid) && body.Some? && Acceptable(body.value)
  }

  /** Why a request gets one of these answers. */
  predicate Unauthorized(runs: Runs, bearer: Option<Token>, faults: Faults) {
    bearer.None? || (!faults.lookup && !Admits(runs, bearer.value))
  }

  predicate ForAnother(bearer: Option<Token>, url: Option<RunId>) {
    bearer.Some? && url.Some? && url.value != bearer.value.rid
  }

  method CheckFinalize(runs: Runs, bearer: Option<Token>, url: Option<RunId>, body: Option<Body>, faults: Faults)
    returns (refusal: Option<int>)
    ensures refusal == Some(UNAUTHORIZED) <==> Unauthorized(runs, bearer, faults)
    ensures refusal == Some(SERVER_ERROR) <==> bearer.Some? && faults.lookup
    ensures refusal == Some(FORBIDDEN) <==> LetIn(runs, bearer, faults) && ForAnother(bearer, url)
    ensures refusal.None? <==> LetIn(runs, bearer, faults) && Proper(bearer, url, body)
    ensures refusal in {None, Some(UNAUTHORIZED), Some(SERVER_ERROR), Some(FORBIDDEN), Some(BAD_REQUEST)}
  {
    if bearer.None? { return Some(UNAUTHORIZED); }
    var tok := bearer.value;
    if faults.lookup { return Some(SERVER_ERROR); }
    if tok.rid !in runs { return Some(UNAUTHORIZED); }
    if runs[tok.rid].tokenHash != tok.hash { return Some(UNAUTHORIZED); }
    if url.None? { return Some(BAD_REQUEST); }
    if url.value != tok.rid { return Some(FORBIDDEN); }
    if body.None? { return Some(BAD_REQUEST); }
    var ok := CheckBody(body.value);
    return if ok then None else Some(BAD_REQUEST);
  }

  /** What a finalize request did: where its update is on record, of which row, to what, and the evaluation. */
  datatype Served = Served(at: nat, row: Run, status: Status, paused: bool, evaluation: Evaluation)

  /** The status that the body's text asks for. */
  predicate Asked(text: string, status: Status) {
    && (text == "succeeded" <==> status == Succeeded)
    && (text == "partial_failure" <==> status == PartialFailure)
    && (text == "failed" <==> status == Failed)
  }

  /**
   * The update is on record, on a row that was not terminal; and for a failed scheduled run
   * an evaluation of its schedule followed, unless that met a fault.
   */
  ghost predicate Finalized(start: State, since: nat, steps: seq<Step>, tok: Token, faults: Faults, f: Served) {
    && since <= f.at < |steps| && steps[f.at].act == Env(Finalize(tok, f.status))
    && (exists s :: PassedAt(start, steps, f.at, s) && tok.rid in s.db.runs && s.db.runs[tok.rid] == f.row)
    && !f.row.status.Terminal()
    && (f.row.Scheduled() && f.status == Failed && !faults.evaluate ==>
          Evaluated(start, f.at + 1, steps, f.row.sid, f.evaluation, f.paused))
  }

  /**
   * POST /internal/runs/{id}/finalize behind requireBearer. A refused request writes
   * nothing. Any other is answered by the row as it stands when the transaction runs and by
   * which call fails. Everybody else may run between any two statements.
   */
  method ServeFinalize(db: Store, bearer: Option<Token>, url: Option<RunId>, body: Option<Body>, faults: Faults)
    returns (code: int, ghost f: Served)
    requires db.Valid() && (bearer.Some? ==> bearer.value in db.model.log.exposed)
    modifies db
    ensures Beside(db)
    ensures code in {401, 403, 400, 500, 409, 204}
    ensures code == 401 <==> Unauthorized(old(db.runs), bearer, faults)
    ensures code == 403 <==> LetIn(old(db.runs), bearer, faults) && ForAnother(bearer, url)
    ensures code == 400 <==>
              LetIn(old(db.runs), bearer, faults) && !ForAnother(bearer, url) && !Proper(bearer, url, body)
    ensures code in {401, 403, 400} || (bearer.Some? && faults.lookup) ==>
              db.trace == old(db.trace)
    ensures code in {409, 204} ==> LetIn(old(db.runs), bearer, faults) && Proper(bearer, url, body)
    ensures code == 500 ==> faults.lookup || faults.begin || faults.insert || faults.commit
    ensures code == 409 ==>
              !faults.begin && (bearer.value.rid !in db.runs || db.runs[bearer.value.rid].status.Terminal())
    ensures code == 204 ==>
              && !faults.begin && !faults.insert && !faults.commit
              && Finalized(db.start, |old(db.trace)|, db.trace, bearer.value, faults, f)
              && Asked(body.value.status, f.status)
  {
    f := Served(0, Waiting(0, 0, ""), Pending, false, Evaluation(0, db.model, 0, db.model, 0, db.model, 0, []));
    var refusal := CheckFinalize(db.runs, bearer, url, body, faults);
    if refusal.Some? { return refusal.value, f; }
    code, f := FinalizeAndEvaluate(db, bearer.value, StatusOf(body.value.status).value, faults);
  }

  method FinalizeAndEvaluate(db: Store, tok: Token, status: Status, faults: Faults) returns (code: int, ghost f: Served)
    requires db.Valid() && tok in db.model.log.exposed && status.Terminal()
    modifies db
    ensures Beside(db) && code in {SERVER_ERROR, CONFLICT, NO_CONTENT}
    ensures code == SERVER_ERROR ==> faults.begin || faults.insert || faults.commit
    ensures code == CONFLICT ==> !faults.begin && (tok.rid !in db.runs || db.runs[tok.rid].status.Terminal())
    ensures code == NO_CONTENT ==>
              && !faults.begin && !faults.insert && !faults.commit
              && Finalized(db.start, |old(db.trace)|, db.trace, tok, faults, f) && f.status == status
  {
    f := Served(0, Waiting(0, 0, ""), Pending, false, Evaluation(0, db.model, 0, db.model, 0, db.model, 0, []));
    db.Others();
    ghost var r := db.Rec();
    code := CommitFinalize(db, tok, status, faults);
    if code == NO_CONTENT {
      var row := db.runs[tok.rid];
      var ok, paused;
      ghost var e;
      ok, paused, e := EvaluateAutoPause(db, row.sid, status, row.Scheduled(), faults.evaluate);
      f := Served(|r.trace|, r.model.db.runs[tok.rid], status, paused, e);
      PassesNow(db.start, r);
      StillPassed(db.start, r.trace, db.trace, |r.trace|, r.model);
    }
  }

  /** An id never used is no row's. */
  lemma NextIdIsFree(db: Store)
    requires db.Valid()
    ensures db.nextId !in db.runs
  {
    db.Safe();
  }

  /** A manual run nobody has been given: it holds a placeholder for its token's hash. */
  function Waiting(sid: ScheduleId, at: Time, nonce: string): Run {
    Run(sid, None, Pending, at, None, None, None, "pending:" + nonce)
  }

  /** InsertRun with a NULL fire time, which never conflicts. */
  method InsertManual(db: Store, sid: ScheduleId, nonce: string) returns (rid: RunId)
    requires db.Valid() && sid in db.schedules
    modifies db
    ensures Beside(db) && db.schedules == old(db.schedules)
    ensures rid !in old(db.runs) && db.runs == old(db.runs)[rid := Waiting(sid, db.now, nonce)]
    ensures db.trace == old(db.trace) + [Step(db.now, Env(RunNow(sid, rid, nonce)))]
  {
    NextIdIsFree(db);
    rid := db.nextId;
    var at := db.Clock();
    db.Take(Step(at, Env(RunNow(sid, rid, nonce))));
    db.runs := db.runs[rid := Waiting(sid, at, nonce)];
    db.nextId, db.now := rid + 1, at;
  }

  /**
   * POST /internal/schedules/{id}/run-now: a pending manual row, with a placeholder for its
   * hash. A refused request writes nothing; a schedule deleted after it was loaded makes the
   * insert fail.
   */
  method ServeRunNow(db: Store, loopback: bool, id: Option<ScheduleId>, decodes: bool, nonce: string, faults: Faults)
    returns (code: int, rid: RunId)
    requires db.Valid()
    modifies db
    ensures Beside(db) && code in {403, 400, 500, 404, 200}
    ensures code == 403 <==> !loopback
    ensures code == 400 <==> loopback && (id.None? || !decodes)
    ensures code == 404 <==>
              loopback && id.Some? && decodes && !faults.lookup && id.value !in old(db.schedules)
    ensures code in {403, 400, 404} || faults.lookup ==> db.trace == old(db.trace) && code != 200
    ensures code == 500 ==> faults.lookup || faults.insert || id.value !in db.schedules
    ensures code == 200 ==>
              && !faults.lookup && !faults.insert
              && Taken(db.trace, |old(db.trace)|, Env(RunNow(id.value, rid, nonce)))
              && rid in db.runs && db.runs[rid] == Waiting(id.value, db.now, nonce)
  {
    rid := 0;
    if !loopback { return FORBIDDEN, rid; }
    if id.None? { return BAD_REQUEST, rid; }
    if !decodes { return BAD_REQUEST, rid; }
    if faults.lookup { return SERVER_ERROR, rid; }
    var sid := id.value;
    if sid !in db.schedules { return NOT_FOUND, rid; }
    db.Others();
    if faults.insert || sid !in db.schedules { return SERVER_ERROR, rid; }
    rid := InsertManual(db, sid, nonce);
    assert db.trace[|db.trace| - 1].act == Env(RunNow(sid, rid, nonce));
    return OK, rid;
  }
}
