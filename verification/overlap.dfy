/** Which runs the overlap policy counts, and what it makes of them. */
module Overlap {
  import opened Schema

  /** Another run of the schedule is pending or running. */
  ghost predicate AnotherActive(runs: Runs, sid: ScheduleId, self: RunId) {
    exists rid :: rid in runs && rid != self && runs[rid].sid == sid
                  && (runs[rid].status == Pending || runs[rid].status == Running)
  }

  lemma CountedIfAnother(runs: Runs, sid: ScheduleId, self: RunId)
    ensures |OtherActive(runs, sid, self)| > 0 <==> AnotherActive(runs, sid, self)
  {
    var others := OtherActive(runs, sid, self);
    if AnotherActive(runs, sid, self) {
      var rid :| rid in runs && rid != self && runs[rid].sid == sid
                 && (runs[rid].status == Pending || runs[rid].status == Running);
      assert rid in others;
    }
    if |others| > 0 {
      var rid :| rid in others;
      assert AnotherActive(runs, sid, self);
    }
  }

  /** The decision, over the rows of the schedule itself. */
  lemma DecisionOverRows(runs: Runs, sid: ScheduleId, self: RunId, policy: Policy)
    ensures var d := Decide(policy, |OtherActive(runs, sid, self)|);
            && (d == DispatchIt <==> policy == Concurrent || !AnotherActive(runs, sid, self))
            && (d == QueueIt <==> policy == Queue && AnotherActive(runs, sid, self))
            && (d == SkipIt <==> (policy == Skip || policy == Unknown) && AnotherActive(runs, sid, self))
  {
    CountedIfAnother(runs, sid, self);
  }

  /** Whatever other schedules have running makes no difference. */
  lemma OtherSchedulesDoNotMatter(a: Runs, b: Runs, sid: ScheduleId, self: RunId, policy: Policy)
    requires forall rid :: rid in a && a[rid].sid == sid ==> rid in b && b[rid] == a[rid]
    requires forall rid :: rid in b && b[rid].sid == sid ==> rid in a && a[rid] == b[rid]
    ensures Decide(policy, |OtherActive(a, sid, self)|) == Decide(policy, |OtherActive(b, sid, self)|)
  {
    assert AnotherActive(a, sid, self) <==> AnotherActive(b, sid, self);
    DecisionOverRows(a, sid, self, policy);
    DecisionOverRows(b, sid, self, policy);
  }

  /** ListActiveRunsForSchedule, and the loop that counts the rows but for the new one. */
  method CountOthers(runs: Runs, sid: ScheduleId, self: RunId) returns (n: nat)
    ensures n == |OtherActive(runs, sid, self)|
  {
    n := 0;
    var rest := runs.Keys;
    ghost var counted: set<RunId> := {};
    while rest != {}
      invariant rest <= runs.Keys && n == |counted|
      invariant counted == set rid | rid in OtherActive(runs, sid, self) && rid !in rest
      decreases rest
    {
      var rid :| rid in rest;
      rest := rest - {rid};
      if runs[rid].sid == sid && (runs[rid].status == Pending || runs[rid].status == Running) {
        if rid != self {
          n := n + 1;
          counted := counted + {rid};
        }
      }
    }
    assert counted == OtherActive(runs, sid, self);
  }
}
