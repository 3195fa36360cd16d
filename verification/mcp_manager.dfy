/** The MCP manager: parallel tool dispatch, tool names and the stderr ring buffer. */
module McpManager {
  import opened Options

  // ----- splitToolName -----

  predicate SepAt(name: string, i: nat) {
    i + 2 <= |name| && name[i] == '_' && name[i + 1] == '_'
  }

  /** strings.Index(name, "__"). */
  method IndexOfSep(name: string) returns (i: int)
    ensures i == -1 <==> forall k: nat :: !SepAt(name, k)
    ensures i != -1 ==> 0 <= i && SepAt(name, i) && forall k: nat :: k < i ==> !SepAt(name, k)
  {
    i := 0;
    while i + 2 <= |name|
      invariant 0 <= i
      invariant forall k: nat :: k < i ==> !SepAt(name, k)
    {
      if SepAt(name, i) { return; }
      i := i + 1;
    }
    i := -1;
  }

  datatype ToolName = ToolName(server: string, tool: string)

  /** `n` is a reading of `name` as "<server>__<tool>" with the shortest possible server. */
  ghost predicate Reads(name: string, n: ToolName) {
    && n.server != "" && n.tool != ""
    && name == n.server + "__" + n.tool
    && forall k: nat :: k < |n.server| ==> !SepAt(name, k)
  }

  method SplitToolName(name: string) returns (r: Option<ToolName>)
    ensures r.Some? ==> Reads(name, r.value)
    ensures r.None? ==> forall n :: !Reads(name, n)
  {
    var i := IndexOfSep(name);
    if i <= 0 || i == |name| - 2 {
      forall n | Reads(name, n) ensures false { NoReading(name, i, n); }
      return None;
    }
    r := Some(ToolName(name[..i], name[i + 2..]));
    assert name == name[..i] + "__" + name[i + 2..];
  }

  lemma NoReading(name: string, i: int, n: ToolName)
    requires i == -1 <==> forall k: nat :: !SepAt(name, k)
    requires i != -1 ==> 0 <= i && SepAt(name, i) && forall k: nat :: k < i ==> !SepAt(name, k)
    requires i <= 0 || i == |name| - 2
    ensures !Reads(name, n)
  {
    if Reads(name, n) {
      assert SepAt(name, |n.server|);
    }
  }

  /** A name has at most one reading, so SplitToolName's answer is the only one. */
  lemma ReadingIsUnique(name: string, a: ToolName, b: ToolName)
    requires Reads(name, a) && Reads(name, b)
    ensures a == b
  {
    assert SepAt(name, |a.server|) && SepAt(name, |b.server|);
    assert |a.server| == |b.server|;
    assert a.server == name[..|a.server|] && a.tool == name[|a.server| + 2..];
    assert b.server == name[..|b.server|] && b.tool == name[|b.server| + 2..];
  }

  /**
   * The runner offers each tool as server + "__" + tool. That name comes back as the
   * same pair exactly when both parts are non-empty, the server holds no "__" and does
   * not end in '_'.
   */
  lemma OfferedNameComesBack(server: string, tool: string)
    ensures Reads(server + "__" + tool, ToolName(server, tool)) <==>
              && server != "" && tool != ""
              && (forall k: nat :: !SepAt(server, k))
              && server[|server| - 1] != '_'
  {
    var name := server + "__" + tool;
    forall k: nat | k + 2 <= |server| ensures SepAt(name, k) <==> SepAt(server, k) {}
    if server != "" {
      assert SepAt(name, |server| - 1) <==> server[|server| - 1] == '_';
      if server[|server| - 1] == '_' {
        assert SepAt(name, |server| - 1);
      }
      if k: nat :| SepAt(server, k) {
        assert SepAt(name, k);
      }
    }
  }

  // ----- DispatchAll -----

  datatype ToolUse = ToolUse(id: string, name: string, input: string)

  datatype CallResult = CallResult(id: string, result: string, isError: bool)

  datatype FatalKind = ServerCrashed | ToolTimeout | InvalidName | CallCancelled

  /** What callTool comes back with. The first fatal failure cancels the calls still under way. */
  datatype Reply = Replied(result: string, isError: bool) | TimedOut | Cancelled | Broken

  /** How the goroutine of one call ends: a tool result, or a failure the run cannot survive. */
  datatype Ending = Finished(result: string, isError: bool) | Fatal(kind: FatalKind)

  function AfterCall(reply: Reply): Ending {
    match reply
    case Replied(result, isError) => Finished(result, isError)
    case TimedOut => Fatal(ToolTimeout)
    case Cancelled => Fatal(CallCancelled)
    case Broken => Fatal(ServerCrashed)
  }

  /** A name that has no reading, or names no server that was started, is fatal before any call is made. */
  ghost function EndingOf(call: ToolUse, servers: set<string>, reply: Reply): Ending {
    if exists n :: Reads(call.name, n) && n.server in servers then AfterCall(reply) else Fatal(InvalidName)
  }

  function ResultOf(call: ToolUse, e: Ending): CallResult {
    match e
    case Finished(result, isError) => CallResult(call.id, result, isError)
    case Fatal(_) => CallResult(call.id, "", true)
  }

  /** One goroutine. */
  method RunCall(call: ToolUse, servers: set<string>, reply: Reply) returns (r: CallResult, fatal: Option<FatalKind>)
    ensures var e := EndingOf(call, servers, reply);
            r == ResultOf(call, e) && fatal == if e.Fatal? then Some(e.kind) else None
  {
    var name := SplitToolName(call.name);
    if name.None? { return CallResult(call.id, "", true), Some(InvalidName); }
    ServerIsUnique(call.name, name.value, servers);
    if name.value.server !in servers { return CallResult(call.id, "", true), Some(InvalidName); }
    match reply
    case Replied(result, isError) => return CallResult(call.id, result, isError), None;
    case TimedOut => return CallResult(call.id, "", true), Some(ToolTimeout);
    case Cancelled => return CallResult(call.id, "", true), Some(CallCancelled);
    case Broken => return CallResult(call.id, "", true), Some(ServerCrashed);
  }

  lemma ServerIsUnique(name: string, n: ToolName, servers: set<string>)
    requires Reads(name, n)
    ensures (exists m :: Reads(name, m) && m.server in servers) <==> n.server in servers
  {
    forall m | Reads(name, m) ensures m == n { ReadingIsUnique(name, m, n); }
  }

  /** `order` schedules the goroutines: every index once. */
  ghost predicate IsOrder(order: seq<nat>, n: nat) {
    && |order| == n
    && (forall i :: 0 <= i < n ==> order[i] < n)
    && (forall i, j :: 0 <= i < j < n ==> order[i] != order[j])
  }

  /** Pigeonhole: an injective schedule of n indices below n reaches all of them. */
  lemma OrderCovers(order: seq<nat>, n: nat, k: nat)
    requires IsOrder(order, n) && k < n
    ensures k in order
  {
    var reached := set i | 0 <= i < n :: order[i];
    DistinctCount(order, n);
    if k !in order {
      SubsetCount(reached, Below(n) - {k});
    }
  }

  function Below(n: nat): (s: set<nat>)
    ensures |s| == n && forall i: nat :: i in s <==> i < n
  {
    if n == 0 then {} else Below(n - 1) + {n - 1}
  }

  lemma {:induction false} DistinctCount(order: seq<nat>, n: nat)
    requires n <= |order| && forall i, j :: 0 <= i < j < |order| ==> order[i] != order[j]
    ensures |set i | 0 <= i < n :: order[i]| == n
  {
    if n > 0 {
      DistinctCount(order, n - 1);
      assert (set i | 0 <= i < n :: order[i]) == (set i | 0 <= i < n - 1 :: order[i]) + {order[n - 1]};
    }
  }

  lemma {:induction false} SubsetCount(a: set<nat>, b: set<nat>)
    requires a <= b
    ensures |a| <= |b|
    decreases |a|
  {
    if a != {} {
      var x :| x in a;
      SubsetCount(a - {x}, b - {x});
    }
  }

  /** The endings of all calls. */
  ghost function Endings(calls: seq<ToolUse>, servers: set<string>, replies: seq<Reply>): (es: seq<Ending>)
    requires |replies| == |calls|
    ensures |es| == |calls| && forall i :: 0 <= i < |calls| ==> es[i] == EndingOf(calls[i], servers, replies[i])
  {
    seq(|calls|, i requires 0 <= i < |calls| => EndingOf(calls[i], servers, replies[i]))
  }

  /** The first fatal ending in the order of the goroutines. */
  ghost predicate FirstFatal(endings: seq<Ending>, order: seq<nat>, j: int, kind: FatalKind)
    requires IsOrder(order, |endings|)
  {
    && 0 <= j < |order| && endings[order[j]] == Fatal(kind)
    && forall k :: 0 <= k < j ==> endings[order[k]].Finished?
  }

  /**
   * All goroutines run, in whatever order, each filling its own slot and reporting the
   * first fatal failure. Whatever the order, slot i holds the result of call i under
   * call i's id; a fatal error is reported exactly when some call had one, and it is the
   * one that came first.
   */
  method DispatchAll(calls: seq<ToolUse>, servers: set<string>, order: seq<nat>, replies: seq<Reply>)
    returns (results: array<CallResult>, fatal: Option<FatalKind>)
    requires IsOrder(order, |calls|) && |replies| == |calls|
    ensures fresh(results) && results.Length == |calls|
    ensures forall i :: 0 <= i < |calls| ==>
              results[i] == ResultOf(calls[i], EndingOf(calls[i], servers, replies[i])) && results[i].id == calls[i].id
    ensures var es := Endings(calls, servers, replies);
            && (fatal.None? <==> forall i :: 0 <= i < |calls| ==> es[i].Finished?)
            && (fatal.Some? ==> exists j :: FirstFatal(es, order, j, fatal.value))
  {
    results := new CallResult[|calls|](_ => CallResult("", "", false));
    fatal := None;
    ghost var es := Endings(calls, servers, replies);
    for j := 0 to |order|
      invariant results.Length == |calls|
      invariant forall k :: 0 <= k < j ==> results[order[k]] == ResultOf(calls[order[k]], es[order[k]])
      invariant fatal.None? ==> forall k :: 0 <= k < j ==> es[order[k]].Finished?
      invariant fatal.Some? ==> exists i :: i < j && FirstFatal(es, order, i, fatal.value)
    {
      var i := order[j];
      var r, f := RunCall(calls[i], servers, replies[i]);
      results[i] := r;
      if f.Some? && fatal.None? {
        fatal := f;
        assert FirstFatal(es, order, j, fatal.value);
      }
    }
    forall i | 0 <= i < |calls|
      ensures results[i] == ResultOf(calls[i], es[i]) && (fatal.None? ==> es[i].Finished?)
    {
      OrderCovers(order, |calls|, i);
      var k :| 0 <= k < |order| && order[k] == i;
    }
  }

  // ----- ringBuf -----

  type byte = x: int | 0 <= x < 256

  /** The last `n` elements, or all of them if there are fewer. */
  function Last<T>(s: seq<T>, n: nat): (r: seq<T>)
    ensures |r| == if |s| < n then |s| else n
  {
    if |s| <= n then s else s[|s| - n..]
  }

  lemma LastSlides<T>(s: seq<T>, x: T, n: nat)
    requires n > 0
    ensures Last(s + [x], n) == (if |s| < n then Last(s, n) else Last(s, n)[1..]) + [x]
  {
  }

  /** What a ring of this state holds, oldest byte first. */
  function Held(ring: seq<byte>, pos: nat, len: nat): seq<byte>
    requires pos <= |ring| && len <= |ring|
  {
    if len < |ring| then ring[..len] else ring[pos..] + ring[..pos]
  }

  lemma OneByteMore(ring: seq<byte>, pos: nat, len: nat, written: seq<byte>, b: byte)
    requires pos < |ring| && len <= |ring| && (len < |ring| ==> pos == len)
    requires len == (if |written| < |ring| then |written| else |ring|) && Held(ring, pos, len) == Last(written, |ring|)
    ensures var pos' := if pos + 1 == |ring| then 0 else pos + 1;
            var len' := if len < |ring| then len + 1 else len;
            Held(ring[pos := b], pos', len') == Last(written + [b], |ring|)
  {
    LastSlides(written, b, |ring|);
  }

  class RingBuf {
    const buf: array<byte>
    var pos: nat
    var len: nat
    ghost var written: seq<byte>

    /** What the buffer holds, oldest byte first. */
    ghost function Contents(): seq<byte>
      reads this, buf
      requires pos <= buf.Length && len <= buf.Length
    {
      Held(buf[..], pos, len)
    }

    ghost predicate Valid()
      reads this, buf
    {
      && pos < buf.Length && len <= buf.Length
      && (len < buf.Length ==> pos == len)
      && len == (if |written| < buf.Length then |written| else buf.Length)
      && Contents() == Last(written, buf.Length)
    }

    constructor (capacity: nat)
      requires capacity > 0
      ensures Valid() && fresh(buf) && buf.Length == capacity && written == []
    {
      buf := new byte[capacity](_ => 0);
      pos, len, written := 0, 0, [];
    }

    /** Any number of bytes, at any wrap-around position. */
    method Write(data: seq<byte>)
      requires Valid()
      modifies this, buf
      ensures Valid() && written == old(written) + data
    {
      for k := 0 to |data|
        invariant Valid() && written == old(written) + data[..k]
      {
        WriteByte(data[k]);
        assert data[..k + 1] == data[..k] + [data[k]];
      }
      assert data[..|data|] == data;
    }

    method WriteByte(b: byte)
      requires Valid()
      modifies this, buf
      ensures Valid() && written == old(written) + [b]
    {
      OneByteMore(buf[..], pos, len, written, b);
      buf[pos] := b;
      Wraps(pos + 1, buf.Length);
      pos := (pos + 1) % buf.Length;
      if len < buf.Length { len := len + 1; }
      written := written + [b];
    }

    /** The last min(total written, capacity) bytes, in the order they were written. */
    method Snapshot() returns (out: seq<byte>)
      requires Valid()
      ensures out == Last(written, buf.Length)
      ensures |out| == (if |written| < buf.Length then |written| else buf.Length)
              && out == written[|written| - |out|..]
    {
      if len == 0 { return []; }
      Wraps(pos - len + buf.Length, buf.Length);
      var start := (pos - len + buf.Length) % buf.Length;
      if start + len <= buf.Length {
        out := buf[start..start + len];
      } else {
        var first := buf.Length - start;
        out := buf[start..] + buf[..len - first];
      }
    }
  }

  lemma Wraps(x: nat, n: nat)
    requires x <= n && n > 0
    ensures x % n == if x == n then 0 else x
  {
  }
}
