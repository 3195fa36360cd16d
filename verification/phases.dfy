/** The runner's phase events, and the timeline the web UI rebuilds from them. */
module Phases {
  import opened Options

  datatype Phase = Boot | Secrets | Exec | Publish | Fail

  /** The phases of a run that gets all the way, in order. */
  function Course(): seq<Phase> { [Boot, Secrets, Exec, Publish] }

  /** EventPhaseEnter carries a phase and, on the failure path, the phase it interrupts. */
  datatype Event = PhaseEnter(phase: Phase, prev: Option<Phase>) | Other(kind: string)

  // ----- internal/runner -----

  /** What a run meets on its way: the fallible steps of each phase and the events between. */
  datatype Script = Script(
    boot: seq<bool>,           // the checks before the secrets phase, in order
    provider: bool,            // ProviderFactory
    noise: seq<string>,        // tool and server events while executing
    exec: bool,                // the chat call or the tool loop
    dryRun: bool)

  function PhasesOf(events: seq<Event>): seq<Event> {
    if events == [] then []
    else PhasesOf(events[..|events| - 1])
         + if events[|events| - 1].PhaseEnter? then [events[|events| - 1]] else []
  }

  lemma PhasesOfMore(events: seq<Event>, e: Event)
    ensures PhasesOf(events + [e]) == PhasesOf(events) + if e.PhaseEnter? then [e] else []
  {
    assert (events + [e])[..|events|] == events;
  }

  /** The first n phases of the course, entered one after the other. */
  function Entered(n: nat): (r: seq<Event>)
    requires n <= 4
    ensures |r| == n && forall i :: 0 <= i < n ==> r[i] == PhaseEnter(Course()[i], None)
  {
    if n == 0 then [] else Entered(n - 1) + [PhaseEnter(Course()[n - 1], None)]
  }

  /** A non-empty stretch of the course and, exactly on error, one fail naming its last phase. */
  ghost predicate OnCourse(phases: seq<Event>, reached: nat, failed: bool) {
    && 1 <= reached <= 4
    && phases == Entered(reached) + if failed then [PhaseEnter(Fail, Some(Course()[reached - 1]))] else []
  }

  /** Run's control flow, as far as its events go. */
  method Run(s: Script) returns (events: seq<Event>, err: bool, reached: nat)
    ensures OnCourse(PhasesOf(events), reached, err)
    ensures err ==> reached <= 3
    ensures !err ==> reached == if s.dryRun then 3 else 4
    ensures err <==> (exists i :: 0 <= i < |s.boot| && !s.boot[i]) || !s.provider || !s.exec
  {
    events, reached := [], 0;
    events, reached := Enter(events, reached, Boot);
    for i := 0 to |s.boot|
      invariant PhasesOf(events) == Entered(1) && reached == 1
      invariant forall k :: 0 <= k < i ==> s.boot[k]
    {
      if !s.boot[i] {
        events := FailRun(events, reached);
        return events, true, reached;
      }
    }
    events, reached := Enter(events, reached, Secrets);
    if !s.provider {
      events := FailRun(events, reached);
      return events, true, reached;
    }
    events, reached := Enter(events, reached, Exec);
    events := Emit(events, s.noise);
    if !s.exec {
      events := FailRun(events, reached);
      return events, true, reached;
    }
    err := false;
    if !s.dryRun {
      events, reached := Enter(events, reached, Publish);
    }
  }

  method Enter(events: seq<Event>, reached: nat, phase: Phase) returns (more: seq<Event>, now: nat)
    requires reached < 4 && PhasesOf(events) == Entered(reached) && phase == Course()[reached]
    ensures now == reached + 1 && PhasesOf(more) == Entered(now)
  {
    PhasesOfMore(events, PhaseEnter(phase, None));
    more, now := events + [PhaseEnter(phase, None)], reached + 1;
  }

  method FailRun(events: seq<Event>, reached: nat) returns (more: seq<Event>)
    requires 1 <= reached <= 4 && PhasesOf(events) == Entered(reached)
    ensures OnCourse(PhasesOf(more), reached, true)
  {
    PhasesOfMore(events, PhaseEnter(Fail, Some(Course()[reached - 1])));
    more := events + [PhaseEnter(Fail, Some(Course()[reached - 1]))];
  }

  method Emit(events: seq<Event>, kinds: seq<string>) returns (more: seq<Event>)
    ensures PhasesOf(more) == PhasesOf(events)
  {
    more := events;
    for i := 0 to |kinds|
      invariant PhasesOf(more) == PhasesOf(events)
    {
      PhasesOfMore(more, Other(kinds[i]));
      more := more + [Other(kinds[i])];
    }
  }

  // ----- web/src/lib/timeline.ts -----

  type Stamp = int

  datatype Logged = Logged(ts: Stamp, event: Event)

  datatype Segment = Segment(phase: Phase, start: Stamp, end: Stamp, failed: bool)

  /** `.filter(...).map(...)`: the phase boundaries of the log. */
  function Boundaries(log: seq<Logged>): (r: seq<Logged>)
    ensures forall i :: 0 <= i < |r| ==> r[i] in log && r[i].event.PhaseEnter?
  {
    if log == [] then []
    else Boundaries(log[..|log| - 1]) + if log[|log| - 1].event.PhaseEnter? then [log[|log| - 1]] else []
  }

  /** The segment boundary i opens, if it opens one. */
  function SegmentAt(bs: seq<Logged>, i: nat, last: Stamp): Segment
    requires i < |bs| && forall k :: 0 <= k < |bs| ==> bs[k].event.PhaseEnter?
  {
    var b := bs[i];
    if i + 1 < |bs| then
      var next := bs[i + 1];
      Segment(b.event.phase, b.ts, next.ts, next.event.phase == Fail && next.event.prev == Some(b.event.phase))
    else Segment(b.event.phase, b.ts, last, false)
  }

  /** The indices of the boundaries that open a segment, in order. */
  function Openers(bs: seq<Logged>, n: nat): (r: seq<nat>)
    requires n <= |bs| && forall k :: 0 <= k < |bs| ==> bs[k].event.PhaseEnter?
    ensures forall k :: 0 <= k < |r| ==> r[k] < n && bs[r[k]].event.phase != Fail
  {
    if n == 0 then []
    else Openers(bs, n - 1) + if bs[n - 1].event.phase != Fail then [n - 1] else []
  }

  /** The segments opened by the first `n` boundaries. */
  ghost predicate AreSegments(segments: seq<Segment>, bs: seq<Logged>, n: nat, last: Stamp)
    requires n <= |bs| && forall k :: 0 <= k < |bs| ==> bs[k].event.PhaseEnter?
  {
    && |segments| == |Openers(bs, n)|
    && forall k :: 0 <= k < |segments| ==> segments[k] == SegmentAt(bs, Openers(bs, n)[k], last)
  }

  lemma OneMoreSegment(segments: seq<Segment>, bs: seq<Logged>, n: nat, last: Stamp)
    requires n < |bs| && forall k :: 0 <= k < |bs| ==> bs[k].event.PhaseEnter?
    requires AreSegments(segments, bs, n, last)
    ensures AreSegments(if bs[n].event.phase != Fail then segments + [SegmentAt(bs, n, last)] else segments, bs,
                        n + 1, last)
  {
  }

  method OpenSegment(bs: seq<Logged>, i: nat, last: Stamp) returns (seg: Segment)
    requires i < |bs| && forall k :: 0 <= k < |bs| ==> bs[k].event.PhaseEnter?
    ensures seg == SegmentAt(bs, i, last)
  {
    var b := bs[i];
    var end := if i + 1 < |bs| then bs[i + 1].ts else last;
    var failed := i + 1 < |bs| && bs[i + 1].event.phase == Fail && bs[i + 1].event.prev == Some(b.event.phase);
    return Segment(b.event.phase, b.ts, end, failed);
  }

  method Reduce(bs: seq<Logged>, last: Stamp) returns (segments: seq<Segment>)
    requires forall k :: 0 <= k < |bs| ==> bs[k].event.PhaseEnter?
    ensures AreSegments(segments, bs, |bs|, last)
  {
    segments := [];
    for i := 0 to |bs|
      invariant AreSegments(segments, bs, i, last)
    {
      OneMoreSegment(segments, bs, i, last);
      if bs[i].event.phase != Fail {
        var seg := OpenSegment(bs, i, last);
        segments := segments + [seg];
      }
    }
  }

  method ReduceTimeline(log: seq<Logged>, finished: Option<Stamp>, now: Stamp) returns (segments: seq<Segment>)
    ensures var bs := Boundaries(log);
            AreSegments(segments, bs, |bs|, if finished.Some? then finished.value else now)
  {
    segments := Reduce(Boundaries(log), if finished.Some? then finished.value else now);
  }

  // ----- the two together -----

  function EventsOf(log: seq<Logged>): (r: seq<Event>)
    ensures |r| == |log| && forall i :: 0 <= i < |log| ==> r[i] == log[i].event
  {
    if log == [] then [] else EventsOf(log[..|log| - 1]) + [log[|log| - 1].event]
  }

  lemma {:induction false} BoundariesArePhases(log: seq<Logged>)
    ensures EventsOf(Boundaries(log)) == PhasesOf(EventsOf(log))
  {
    if log != [] {
      var rest, e := log[..|log| - 1], log[|log| - 1];
      BoundariesArePhases(rest);
      PhasesOfMore(EventsOf(rest), e.event);
      if e.event.PhaseEnter? {
        var bs := Boundaries(rest);
        assert (bs + [e])[..|bs|] == bs;
      }
    }
  }

  lemma {:induction false} OpenersOnCourse(bs: seq<Logged>, n: nat, reached: nat)
    requires n <= reached <= |bs| && forall k :: 0 <= k < |bs| ==> bs[k].event.PhaseEnter?
    requires reached <= 4 && forall k :: 0 <= k < reached ==> bs[k].event.phase == Course()[k]
    ensures |Openers(bs, n)| == n && forall k :: 0 <= k < n ==> Openers(bs, n)[k] == k
  {
    if n > 0 { OpenersOnCourse(bs, n - 1, reached); }
  }

  /** The boundaries of a run's log are the phases it entered. */
  ghost predicate Bounds(bs: seq<Logged>, reached: nat, failed: bool) {
    && 1 <= reached <= 4
    && |bs| == reached + (if failed then 1 else 0)
    && (forall k :: 0 <= k < reached ==> bs[k].event == PhaseEnter(Course()[k], None))
    && (failed ==> bs[reached].event == PhaseEnter(Fail, Some(Course()[reached - 1])))
  }

  lemma BoundsOfARun(log: seq<Logged>, reached: nat, failed: bool)
    requires OnCourse(PhasesOf(EventsOf(log)), reached, failed)
    ensures Bounds(Boundaries(log), reached, failed)
  {
    BoundariesArePhases(log);
    var bs := Boundaries(log);
    var phases := EventsOf(bs);
    assert |phases| == |Entered(reached)| + if failed then 1 else 0;
    forall k | 0 <= k < reached ensures bs[k].event == PhaseEnter(Course()[k], None) {
      assert phases[k] == Entered(reached)[k];
    }
  }

  lemma OpenersOfARun(bs: seq<Logged>, reached: nat, failed: bool)
    requires Bounds(bs, reached, failed) && forall k :: 0 <= k < |bs| ==> bs[k].event.PhaseEnter?
    ensures |Openers(bs, |bs|)| == reached && forall k :: 0 <= k < reached ==> Openers(bs, |bs|)[k] == k
  {
    OpenersOnCourse(bs, reached, reached);
    if failed { assert Openers(bs, |bs|) == Openers(bs, reached); }
  }

  /** The timeline of a run: one segment per phase reached, in order, without gaps. */
  ghost predicate IsTimeline(segments: seq<Segment>, bs: seq<Logged>, reached: nat, failed: bool, last: Stamp) {
    && |segments| == reached <= |bs| && 1 <= reached <= 4
    && segments[0].start == bs[0].ts
    && (forall k :: 0 <= k < reached ==> segments[k].phase == Course()[k])
    && (forall k :: 0 <= k < reached - 1 ==> segments[k].end == segments[k + 1].start)
    && segments[reached - 1].end == (if failed then bs[|bs| - 1].ts else last)
    && (forall k :: 0 <= k < reached ==> (segments[k].failed <==> failed && k == reached - 1))
  }

  /**
   * Whatever other events are interleaved: the log of a run that reached n phases gives
   * n contiguous segments from boot to fail, finish or now, and only the last can be
   * failed, exactly when the run returned an error.
   */
  lemma TimelineOfARun(log: seq<Logged>, reached: nat, failed: bool, last: Stamp, segments: seq<Segment>)
    requires OnCourse(PhasesOf(EventsOf(log)), reached, failed)
    requires AreSegments(segments, Boundaries(log), |Boundaries(log)|, last)
    ensures IsTimeline(segments, Boundaries(log), reached, failed, last)
  {
    BoundsOfARun(log, reached, failed);
    OpenersOfARun(Boundaries(log), reached, failed);
    SegmentsOfBounds(Boundaries(log), reached, failed, last, segments);
  }

  lemma SegmentsOfBounds(bs: seq<Logged>, reached: nat, failed: bool, last: Stamp, segments: seq<Segment>)
    requires Bounds(bs, reached, failed) && forall k :: 0 <= k < |bs| ==> bs[k].event.PhaseEnter?
    requires |segments| == reached && forall k :: 0 <= k < reached ==> segments[k] == SegmentAt(bs, k, last)
    ensures IsTimeline(segments, bs, reached, failed, last)
  {
    forall k | 0 <= k < reached ensures segments[k].failed <==> failed && k == reached - 1 {
      if k + 1 < reached { assert bs[k + 1].event == PhaseEnter(Course()[k + 1], None); }
    }
  }
}
