/**
 * The per-address cap on event streams: a counter that every request raises before it is
 * judged, with the raise, the lowering after a rejection and the lowering at the handler's
 * return as the atomic steps of many concurrent requests.
 */
module StreamCap {

  datatype Phase = Admitted | Rejected

  datatype Request = Request(ip: string, phase: Phase)

  /** Counters never vanish; `live` holds the requests between their raise and their lowering. */
  datatype State = State(counts: map<string, int>, live: map<nat, Request>)

  datatype Step =
    | Start(id: nat, ip: string)
    | Leave(id: nat)

  function Fresh(): State { State(map[], map[]) }

  function Count(s: State, ip: string): int {
    if ip in s.counts then s.counts[ip] else 0
  }

  predicate Enabled(s: State, step: Step) {
    match step
    case Start(id, _) => id !in s.live
    case Leave(id) => id in s.live
  }

  function Do(s: State, step: Step, limit: int): State
    requires Enabled(s, step)
  {
    match step
    case Start(id, ip) =>
      var v := Count(s, ip) + 1;
      State(s.counts[ip := v], s.live[id := Request(ip, if v > limit then Rejected else Admitted)])
    case Leave(id) =>
      var ip := s.live[id].ip;
      State(s.counts[ip := Count(s, ip) - 1], s.live - {id})
  }

  predicate Legal(s: State, steps: seq<Step>, limit: int)
    decreases |steps|
  {
    steps == [] || (Enabled(s, steps[0]) && Legal(Do(s, steps[0], limit), steps[1..], limit))
  }

  function Exec(s: State, steps: seq<Step>, limit: int): State
    requires Legal(s, steps, limit)
    decreases |steps|
  {
    if steps == [] then s else Exec(Do(s, steps[0], limit), steps[1..], limit)
  }

  /** Requests of an address in a phase. */
  function In(s: State, ip: string, phase: Phase): set<nat> {
    set id | id in s.live && s.live[id] == Request(ip, phase)
  }

  ghost predicate Counted(s: State, ip: string, limit: int) {
    && Count(s, ip) == |In(s, ip, Admitted)| + |In(s, ip, Rejected)|
    && |In(s, ip, Admitted)| <= limit
  }

  ghost predicate Inv(s: State, limit: int) {
    forall ip :: Counted(s, ip, limit)
  }

  lemma InAfterStart(s: State, id: nat, ip: string, limit: int, a: string, p: Phase)
    requires id !in s.live
    ensures var t := Do(s, Start(id, ip), limit);
            In(t, a, p) == if t.live[id] == Request(a, p) then In(s, a, p) + {id} else In(s, a, p)
  {
  }

  lemma InAfterLeave(s: State, id: nat, limit: int, a: string, p: Phase)
    requires id in s.live
    ensures In(Do(s, Leave(id), limit), a, p) == if s.live[id] == Request(a, p) then In(s, a, p) - {id} else In(s, a, p)
  {
  }

  lemma OneLess(ids: set<nat>, id: nat)
    requires id in ids
    ensures |ids - {id}| == |ids| - 1
  {
  }

  lemma StartCounts(s: State, id: nat, ip: string, limit: int, a: string)
    requires id !in s.live && Counted(s, a, limit)
    ensures Counted(Do(s, Start(id, ip), limit), a, limit)
  {
    InAfterStart(s, id, ip, limit, a, Admitted);
    InAfterStart(s, id, ip, limit, a, Rejected);
    assert id !in In(s, a, Admitted) && id !in In(s, a, Rejected);
  }

  lemma LeaveCounts(s: State, id: nat, limit: int, a: string)
    requires id in s.live && Counted(s, a, limit)
    ensures Counted(Do(s, Leave(id), limit), a, limit)
  {
    InAfterLeave(s, id, limit, a, Admitted);
    InAfterLeave(s, id, limit, a, Rejected);
    var r := s.live[id];
    if r.ip == a {
      match r.phase
      case Admitted => assert r == Request(a, Admitted); OneLess(In(s, a, Admitted), id);
      case Rejected => assert r == Request(a, Rejected); OneLess(In(s, a, Rejected), id);
    }
  }

  lemma {:induction false} InvKept(s: State, steps: seq<Step>, limit: int)
    requires Inv(s, limit) && Legal(s, steps, limit)
    ensures Inv(Exec(s, steps, limit), limit)
    decreases |steps|
  {
    if steps != [] {
      forall a ensures Counted(Do(s, steps[0], limit), a, limit) {
        assert Counted(s, a, limit);
        match steps[0]
        case Start(id, ip) => StartCounts(s, id, ip, limit, a);
        case Leave(id) => LeaveCounts(s, id, limit, a);
      }
      InvKept(Do(s, steps[0], limit), steps[1..], limit);
    }
  }

  /**
   * In every reachable state the counter is the number of admitted handlers plus the number
   * of requests being rejected, no address has more admitted streams than the cap, and the
   * counter is back at zero once everybody has left.
   */
  lemma CapHolds(steps: seq<Step>, limit: int, ip: string)
    requires limit > 0 && Legal(Fresh(), steps, limit)
    ensures var s := Exec(Fresh(), steps, limit);
            && |In(s, ip, Admitted)| <= limit
            && Count(s, ip) == |In(s, ip, Admitted)| + |In(s, ip, Rejected)| >= 0
            && ((forall id :: id in s.live ==> s.live[id].ip != ip) ==> Count(s, ip) == 0)
  {
    forall a ensures Counted(Fresh(), a, limit) {
      assert In(Fresh(), a, Admitted) == {} && In(Fresh(), a, Rejected) == {};
    }
    InvKept(Fresh(), steps, limit);
    var s := Exec(Fresh(), steps, limit);
    assert Counted(s, ip, limit);
    if forall id :: id in s.live ==> s.live[id].ip != ip {
      assert In(s, ip, Admitted) == {} && In(s, ip, Rejected) == {};
    }
  }

  /**
   * When is a request let in? Exactly when the streams already open and the requests still
   * being rejected leave room together; so with nobody being rejected, exactly when fewer
   * than the cap are open.
   */
  lemma AdmittedIffRoom(steps: seq<Step>, limit: int, id: nat, ip: string)
    requires limit > 0 && Legal(Fresh(), steps, limit) && id !in Exec(Fresh(), steps, limit).live
    ensures var s := Exec(Fresh(), steps, limit);
            id in In(Do(s, Start(id, ip), limit), ip, Admitted)
            <==> |In(s, ip, Admitted)| + |In(s, ip, Rejected)| < limit
  {
    CapHolds(steps, limit, ip);
  }

  /** A rejection still under way can turn away a request although no stream is open. */
  lemma RejectedWithNoStreamOpen(ip: string)
    ensures var steps := [Start(0, ip), Start(1, ip), Leave(0)];
            && Legal(Fresh(), steps, 1)
            && var s := Exec(Fresh(), steps, 1);
               In(s, ip, Admitted) == {} && 2 !in s.live && 2 in In(Do(s, Start(2, ip), 1), ip, Rejected)
  {
    var s1 := Do(Fresh(), Start(0, ip), 1);
    var s2 := Do(s1, Start(1, ip), 1);
    var s3 := Do(s2, Leave(0), 1);
    var steps := [Start(0, ip), Start(1, ip), Leave(0)];
    assert steps[1..] == [Start(1, ip), Leave(0)] && steps[1..][1..] == [Leave(0)] && steps[1..][1..][1..] == [];
    assert Legal(s3, [], 1) && Legal(s2, [Leave(0)], 1) && Legal(s1, steps[1..], 1);
    assert Exec(s2, [Leave(0)], 1) == s3;
    assert Exec(s1, steps[1..], 1) == s3;
  }
}
