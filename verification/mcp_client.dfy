/**
 * The MCP stdio client: one reader, many senders, a pending map under a mutex and one
 * buffered channel per call. Every critical section and channel operation is a step;
 * sending on or closing a closed channel sets `panicked`, as the Go runtime would.
 */
module McpClient {
  import opened Options

  /** A decoded response line; section 5 of the JSON-RPC 2.0 Specification ties `id` to the request. */
  datatype Response = Response(id: int, body: string)

  datatype Outcome =
    | Answered(resp: Response)
    | MarshalError
    | ClosedBefore        // "mcp client closed"
    | ClosedWhileWaiting  // the channel was closed
    | WriteError
    | ContextDone
    | StreamEnded         // c.done

  /** Where one call of send stands. */
  datatype Call =
    | Started
    | Registered
    | WriteFailed
    | Waiting
    | Cancelled
    | Returned(outcome: Outcome)

  /** make(chan jsonrpcResponse, 1): what was ever sent on it, and how much of that was taken. */
  datatype Channel = Channel(sent: seq<Response>, taken: nat, closed: bool) {
    predicate Untouched() {
      sent == [] && taken == 0 && !closed
    }
    predicate HasRoom() {
      |sent| - taken < 1
    }
  }

  datatype Reader = Reading | Delivering(to: nat, resp: Response) | Closing | Stopped

  datatype Client = Client(
    nextId: nat,
    pending: map<int, nat>,       // request id to the call whose channel waits for it
    closed: bool,
    done: bool,
    reader: Reader,
    calls: map<nat, Call>,
    channels: map<nat, Channel>,
    panicked: bool)

  datatype Step =
    | Begin
    | MarshalFails(id: nat)
    | Register(id: nat)
    | WriteOk(id: nat)
    | WriteFails(id: nat)
    | ForgetWrite(id: nat)
    | Receive(id: nat)
    | SeeClosed(id: nat)
    | ContextEnds(id: nat)
    | ForgetContext(id: nat)
    | SeeDone(id: nat)
    | ReadJunk
    | ReadLine(resp: Response)
    | Deliver
    | ReadEnds
    | CloseDone

  predicate At(c: Client, id: nat, p: Call) {
    id in c.calls && c.calls[id] == p
  }

  predicate Guard(c: Client, s: Step) {
    match s
    case Begin => true
    case MarshalFails(id) => At(c, id, Started)
    case Register(id) => At(c, id, Started)
    case WriteOk(id) => At(c, id, Registered)
    case WriteFails(id) => At(c, id, Registered)
    case ForgetWrite(id) => At(c, id, WriteFailed)
    case Receive(id) => At(c, id, Waiting) && id in c.channels && c.channels[id].taken < |c.channels[id].sent|
    case SeeClosed(id) =>
      At(c, id, Waiting) && id in c.channels && c.channels[id].closed && c.channels[id].taken >= |c.channels[id].sent|
    case ContextEnds(id) => At(c, id, Waiting)
    case ForgetContext(id) => At(c, id, Cancelled)
    case SeeDone(id) => At(c, id, Waiting) && c.done
    case ReadJunk => c.reader.Reading?
    case ReadLine(resp) => c.reader.Reading?
    case Deliver =>
      c.reader.Delivering? && c.reader.to in c.channels
      && (c.channels[c.reader.to].closed || c.channels[c.reader.to].HasRoom())
    case ReadEnds => c.reader.Reading?
    case CloseDone => c.reader.Closing?
  }

  /** Some pending request waits on this call's channel. */
  predicate IsPending(c: Client, k: nat) {
    exists id :: id in c.pending && c.pending[id] == k
  }

  function Finish(c: Client, id: nat, o: Outcome): Client {
    c.(calls := c.calls[id := Returned(o)])
  }

  function Do(c: Client, s: Step): Client
    requires Guard(c, s)
  {
    match s
    case Begin => c.(nextId := c.nextId + 1, calls := c.calls[c.nextId + 1 := Started])
    case MarshalFails(id) => Finish(c, id, MarshalError)
    case Register(id) =>
      if c.closed then Finish(c, id, ClosedBefore)
      else c.(pending := c.pending[id := id],
              channels := c.channels[id := Channel([], 0, false)],
              calls := c.calls[id := Registered])
    case WriteOk(id) => c.(calls := c.calls[id := Waiting])
    case WriteFails(id) => c.(calls := c.calls[id := WriteFailed])
    case ForgetWrite(id) => Finish(c.(pending := c.pending - {id}), id, WriteError)
    case Receive(id) =>
      var ch := c.channels[id];
      Finish(c.(channels := c.channels[id := ch.(taken := ch.taken + 1)]), id, Answered(ch.sent[ch.taken]))
    case SeeClosed(id) => Finish(c, id, ClosedWhileWaiting)
    case ContextEnds(id) => c.(calls := c.calls[id := Cancelled])
    case ForgetContext(id) => Finish(c.(pending := c.pending - {id}), id, ContextDone)
    case SeeDone(id) => Finish(c, id, StreamEnded)
    case ReadJunk => c
    case ReadLine(resp) =>
      if resp.id in c.pending
      then c.(pending := c.pending - {resp.id}, reader := Delivering(c.pending[resp.id], resp))
      else c
    case Deliver =>
      var ch := c.channels[c.reader.to];
      if ch.closed then c.(panicked := true)
      else c.(channels := c.channels[c.reader.to := ch.(sent := ch.sent + [c.reader.resp])], reader := Reading)
    case ReadEnds =>
      c.(closed := true,
         reader := Closing,
         panicked := c.panicked || exists k :: k in c.channels && IsPending(c, k) && c.channels[k].closed,
         channels := map k | k in c.channels ::
           if IsPending(c, k) then c.channels[k].(closed := true) else c.channels[k],
         pending := map[])
    case CloseDone => c.(done := true, reader := Stopped)
  }

  predicate Init(c: Client) {
    c == Client(0, map[], false, false, Reading, map[], map[], false)
  }

  predicate Legal(c: Client, steps: seq<Step>)
    decreases |steps|
  {
    steps == [] || (Guard(c, steps[0]) && Legal(Do(c, steps[0]), steps[1..]))
  }

  function Exec(c: Client, steps: seq<Step>): Client
    requires Legal(c, steps)
    decreases |steps|
  {
    if steps == [] then c else Exec(Do(c, steps[0]), steps[1..])
  }

  // ----- the invariant -----

  /** A call that has registered its channel and not returned yet. */
  predicate Live(p: Call) {
    p == Registered || p == WriteFailed || p == Waiting || p == Cancelled
  }

  ghost predicate IdsOk(c: Client) {
    && (forall id :: id in c.calls ==> 1 <= id <= c.nextId)
    && (forall id :: id in c.channels ==> id in c.calls && c.calls[id] != Started)
    && (forall id :: id in c.calls && Live(c.calls[id]) ==> id in c.channels)
  }

  /** A pending channel has seen nothing yet, and belongs to the call with that id. */
  ghost predicate PendingOk(c: Client) {
    forall id :: id in c.pending ==>
      id >= 0 && c.pending[id] == id && id in c.channels && c.channels[id].Untouched()
      && id in c.calls && Live(c.calls[id])
  }

  /** A channel is used once: one response with its own id, or one close. */
  ghost predicate ChannelsOk(c: Client) {
    forall id :: id in c.channels ==>
      var ch := c.channels[id];
      && |ch.sent| + (if ch.closed then 1 else 0) <= 1
      && ch.taken <= |ch.sent|
      && (ch.taken > 0 ==> id in c.calls && c.calls[id].Returned?)
      && (forall i :: 0 <= i < |ch.sent| ==> ch.sent[i].id == id)
  }

  /** What the reader is about to deliver goes to an untouched channel nobody else can reach. */
  ghost predicate ReaderOk(c: Client) {
    && (c.reader.Delivering? ==>
          && c.reader.to in c.channels && c.channels[c.reader.to].Untouched()
          && c.reader.to !in c.pending && c.reader.resp.id == c.reader.to)
    && (c.closed <==> c.reader.Closing? || c.reader.Stopped?)
    && (c.done <==> c.reader.Stopped?)
    && (c.closed ==> c.pending == map[])
  }

  /** No waiting call is forgotten. */
  ghost predicate NoneForgotten(c: Client) {
    forall id :: id in c.calls && (c.calls[id] == Waiting || c.calls[id] == Registered) ==>
      || id in c.pending
      || (id in c.channels && (|c.channels[id].sent| == 1 || c.channels[id].closed))
      || (c.reader.Delivering? && c.reader.to == id)
  }

  ghost predicate AnswersOk(c: Client) {
    forall id :: id in c.calls && c.calls[id].Returned? && c.calls[id].outcome.Answered? ==>
      c.calls[id].outcome.resp.id == id
  }

  ghost predicate Inv(c: Client) {
    !c.panicked && IdsOk(c) && PendingOk(c) && ChannelsOk(c) && ReaderOk(c) && NoneForgotten(c) && AnswersOk(c)
  }

  lemma BeginKeeps(c: Client)
    requires Inv(c)
    ensures Inv(Do(c, Begin))
  {
  }

  /** A call may move on by itself as long as it does not return while still pending. */
  lemma MoveCall(c: Client, id: nat, p: Call)
    requires Inv(c) && id in c.calls && p != Started && p != Registered
    requires p == Waiting ==> c.calls[id] == Registered
    requires Live(p) ==> Live(c.calls[id])
    requires p.Returned? ==> id !in c.pending && !p.outcome.Answered?
    ensures Inv(c.(calls := c.calls[id := p]))
  {
  }

  lemma MoveAlongKeeps(c: Client, s: Step)
    requires Inv(c) && Guard(c, s)
    requires s.WriteOk? || s.WriteFails? || s.ContextEnds? || s.MarshalFails? || s.SeeClosed? || s.SeeDone?
    ensures Inv(Do(c, s))
  {
    MoveCall(c, s.id, Do(c, s).calls[s.id]);
  }

  /** An open client takes a new call with a channel nobody has touched. */
  lemma Enters(c: Client, id: nat)
    requires Inv(c) && At(c, id, Started) && !c.closed
    ensures Inv(c.(pending := c.pending[id := id], channels := c.channels[id := Channel([], 0, false)],
                   calls := c.calls[id := Registered]))
  {
    assert id !in c.channels && id !in c.pending;
  }

  lemma RegisterKeeps(c: Client, id: nat)
    requires Inv(c) && Guard(c, Register(id))
    ensures Inv(Do(c, Register(id)))
  {
    if c.closed { MoveCall(c, id, Returned(ClosedBefore)); } else { Enters(c, id); }
  }

  /** A call that no longer waits may leave the pending map. */
  lemma Leaves(c: Client, id: nat)
    requires Inv(c) && (At(c, id, WriteFailed) || At(c, id, Cancelled))
    ensures Inv(c.(pending := c.pending - {id}))
  {
  }

  lemma ForgetKeeps(c: Client, s: Step)
    requires Inv(c) && Guard(c, s) && (s.ForgetWrite? || s.ForgetContext?)
    ensures Inv(Do(c, s))
  {
    Leaves(c, s.id);
    MoveCall(c.(pending := c.pending - {s.id}), s.id, Do(c, s).calls[s.id]);
  }

  /** The one response a channel ever held, taken by its call. */
  lemma Takes(c: Client, id: nat, ch: Channel)
    requires Inv(c) && At(c, id, Waiting) && id in c.channels && ch == c.channels[id] && ch.taken < |ch.sent|
    ensures |ch.sent| == 1 && ch.taken == 0
    ensures Inv(c.(channels := c.channels[id := ch.(taken := 1)],
                   calls := c.calls[id := Returned(Answered(ch.sent[0]))]))
  {
    assert |ch.sent| == 1 && ch.taken == 0;
    assert id !in c.pending;
  }

  lemma ReceiveKeeps(c: Client, id: nat)
    requires Inv(c) && Guard(c, Receive(id))
    ensures Inv(Do(c, Receive(id)))
  {
    var ch := c.channels[id];
    Takes(c, id, ch);
    assert Do(c, Receive(id)) == c.(channels := c.channels[id := ch.(taken := 1)],
                                    calls := c.calls[id := Returned(Answered(ch.sent[0]))]);
  }

  lemma ReadLineKeeps(c: Client, resp: Response)
    requires Inv(c) && Guard(c, ReadLine(resp))
    ensures Inv(Do(c, ReadLine(resp)))
  {
  }

  lemma DeliverKeeps(c: Client)
    requires Inv(c) && Guard(c, Deliver)
    ensures Inv(Do(c, Deliver))
  {
  }

  /** Closing every pending channel closes none twice. */
  lemma ReadEndsKeeps(c: Client)
    requires Inv(c) && Guard(c, ReadEnds)
    ensures Inv(Do(c, ReadEnds))
  {
    var d := Do(c, ReadEnds);
    assert forall k :: IsPending(c, k) ==> k in c.pending && c.channels[k].Untouched();
    forall id | id in c.calls && (c.calls[id] == Waiting || c.calls[id] == Registered)
      ensures |d.channels[id].sent| == 1 || d.channels[id].closed
    {
      assert id in c.pending ==> IsPending(c, id);
    }
  }

  lemma InvKept(c: Client, s: Step)
    requires Inv(c) && Guard(c, s)
    ensures Inv(Do(c, s))
  {
    match s {
      case Begin => BeginKeeps(c);
      case Register(id) => RegisterKeeps(c, id);
      case Receive(id) => ReceiveKeeps(c, id);
      case ForgetWrite(_) => ForgetKeeps(c, s);
      case ForgetContext(_) => ForgetKeeps(c, s);
      case ReadJunk =>
      case ReadLine(resp) => ReadLineKeeps(c, resp);
      case Deliver => DeliverKeeps(c);
      case ReadEnds => ReadEndsKeeps(c);
      case CloseDone =>
      case _ => MoveAlongKeeps(c, s);
    }
  }

  lemma {:induction false} InvAlways(c: Client, steps: seq<Step>)
    requires Inv(c) && Legal(c, steps)
    ensures Inv(Exec(c, steps))
    decreases |steps|
  {
    if steps != [] {
      InvKept(c, steps[0]);
      InvAlways(Do(c, steps[0]), steps[1..]);
    }
  }

  // ----- what this means -----

  /**
   * Under every interleaving of senders, cancellations, write errors, duplicate or
   * unknown ids and stream end: no channel is sent on twice, closed twice or sent on
   * after its close (nothing panics), and the reader is never stuck on a delivery.
   */
  lemma NeverPanicsNorBlocks(c: Client, steps: seq<Step>)
    requires Init(c) && Legal(c, steps)
    ensures var d := Exec(c, steps);
            && !d.panicked
            && (forall id :: id in d.channels ==>
                  |d.channels[id].sent| + (if d.channels[id].closed then 1 else 0) <= 1)
            && (d.reader.Delivering? ==> Guard(d, Deliver) && !Do(d, Deliver).panicked)
  {
    InvAlways(c, steps);
    var d := Exec(c, steps);
    if d.reader.Delivering? { InvKept(d, Deliver); }
  }

  /** Every response a call returns carries that call's own request id. */
  lemma AnswersMatchRequests(c: Client, steps: seq<Step>, id: nat)
    requires Init(c) && Legal(c, steps)
    requires id in Exec(c, steps).calls && Exec(c, steps).calls[id].Returned?
    requires Exec(c, steps).calls[id].outcome.Answered?
    ensures Exec(c, steps).calls[id].outcome.resp.id == id
  {
    InvAlways(c, steps);
  }

  /** Once the reader has stopped, the pending map is empty and stays so. */
  lemma {:induction false} PendingStaysEmpty(c: Client, steps: seq<Step>)
    requires Inv(c) && c.closed && Legal(c, steps)
    ensures Exec(c, steps).closed && Exec(c, steps).pending == map[]
    decreases |steps|
  {
    if steps != [] {
      InvKept(c, steps[0]);
      assert Do(c, steps[0]).closed;
      PendingStaysEmpty(Do(c, steps[0]), steps[1..]);
    }
  }

  lemma EmptyOnceStopped(c: Client, before: seq<Step>, after: seq<Step>)
    requires Init(c) && Legal(c, before) && Exec(c, before).reader.Stopped?
    requires Legal(Exec(c, before), after)
    ensures Exec(Exec(c, before), after).pending == map[]
  {
    InvAlways(c, before);
    PendingStaysEmpty(Exec(c, before), after);
  }

  /** The step a call can take of its own accord, given where it stands. */
  function Way(c: Client, id: nat): Option<Step>
    requires id in c.calls
  {
    match c.calls[id]
    case Started => Some(Register(id))
    case Registered => Some(WriteOk(id))
    case WriteFailed => Some(ForgetWrite(id))
    case Cancelled => Some(ForgetContext(id))
    case Waiting =>
      if id in c.channels && c.channels[id].taken < |c.channels[id].sent| then Some(Receive(id))
      else if id in c.channels && c.channels[id].closed then Some(SeeClosed(id))
      else None
    case Returned(_) => None
  }

  /**
   * No lost wake-up: a waiting call whose request is no longer pending, and that the
   * reader is not just serving, can return at once. So nobody waits for ever on a
   * stream that has ended.
   */
  lemma NobodyIsForgotten(c: Client, steps: seq<Step>, id: nat)
    requires Init(c) && Legal(c, steps)
    requires var d := Exec(c, steps);
             && At(d, id, Waiting) && id !in d.pending && !(d.reader.Delivering? && d.reader.to == id)
    ensures var d := Exec(c, steps); Way(d, id).Some? && Guard(d, Way(d, id).value)
  {
    InvAlways(c, steps);
  }

  // ----- what a call gets back was read, and gets back what was read -----

  /** The responses the reader has read. */
  function ReadIn(steps: seq<Step>): set<Response>
    decreases |steps|
  {
    if steps == [] then {}
    else (if steps[0].ReadLine? then {steps[0].resp} else {}) + ReadIn(steps[1..])
  }

  /** Nothing is under way or returned but what was read. */
  ghost predicate OnlyRead(c: Client, read: set<Response>) {
    && (forall id, i :: id in c.channels && 0 <= i < |c.channels[id].sent| ==> c.channels[id].sent[i] in read)
    && (c.reader.Delivering? ==> c.reader.resp in read)
    && (forall id :: id in c.calls && c.calls[id].Returned? && c.calls[id].outcome.Answered? ==>
          c.calls[id].outcome.resp in read)
  }

  lemma OnlyReadKept(c: Client, s: Step, read: set<Response>)
    requires Guard(c, s) && OnlyRead(c, read)
    ensures OnlyRead(Do(c, s), if s.ReadLine? then read + {s.resp} else read)
  {
  }

  lemma {:induction false} OnlyReadAlways(c: Client, steps: seq<Step>, read: set<Response>)
    requires Legal(c, steps) && OnlyRead(c, read)
    ensures OnlyRead(Exec(c, steps), read + ReadIn(steps))
    decreases |steps|
  {
    if steps != [] {
      var more := if steps[0].ReadLine? then read + {steps[0].resp} else read;
      OnlyReadKept(c, steps[0], read);
      OnlyReadAlways(Do(c, steps[0]), steps[1..], more);
      assert more + ReadIn(steps[1..]) == read + ReadIn(steps);
    } else {
      assert read + ReadIn(steps) == read;
    }
  }

  lemma {:induction false} ReadInSteps(steps: seq<Step>, resp: Response)
    requires resp in ReadIn(steps)
    ensures ReadLine(resp) in steps
    decreases |steps|
  {
    if !(steps[0].ReadLine? && steps[0].resp == resp) {
      ReadInSteps(steps[1..], resp);
      assert steps == [steps[0]] + steps[1..];
    }
  }

  /** What a call returns is a response the server sent, word for word. */
  lemma AnswersWereRead(c: Client, steps: seq<Step>, id: nat)
    requires Init(c) && Legal(c, steps)
    requires id in Exec(c, steps).calls && Exec(c, steps).calls[id].Returned?
    requires Exec(c, steps).calls[id].outcome.Answered?
    ensures ReadLine(Exec(c, steps).calls[id].outcome.resp) in steps
  {
    OnlyReadAlways(c, steps, {});
    assert {} + ReadIn(steps) == ReadIn(steps);
    ReadInSteps(steps, Exec(c, steps).calls[id].outcome.resp);
  }

  /** And a response to a request that is pending comes to its caller. */
  lemma AnswerArrives(c: Client, steps: seq<Step>, id: nat, body: string)
    requires Init(c) && Legal(c, steps)
    requires var d := Exec(c, steps); d.reader.Reading? && At(d, id, Waiting) && id in d.pending
    ensures var d, way := Exec(c, steps), [ReadLine(Response(id, body)), Deliver, Receive(id)];
            Legal(d, way) && At(Exec(d, way), id, Returned(Answered(Response(id, body))))
  {
    InvAlways(c, steps);
    var d, resp := Exec(c, steps), Response(id, body);
    var d1 := Do(d, ReadLine(resp));
    assert d1.reader == Delivering(id, resp) && d1.channels[id] == Channel([], 0, false);
    var d2 := Do(d1, Deliver);
    assert d2.channels[id] == Channel([resp], 0, false) && At(d2, id, Waiting);
    ThreeSteps(d, ReadLine(resp), d1, Deliver, d2, Receive(id));
  }

  lemma ThreeSteps(c: Client, s: Step, c1: Client, s1: Step, c2: Client, s2: Step)
    requires Guard(c, s) && c1 == Do(c, s) && Guard(c1, s1) && c2 == Do(c1, s1) && Guard(c2, s2)
    ensures Legal(c, [s, s1, s2]) && Exec(c, [s, s1, s2]) == Do(c2, s2)
  {
    var way, end := [s, s1, s2], Do(c2, s2);
    assert way[1..] == [s1, s2] && way[1..][1..] == [s2] && way[1..][1..][1..] == [];
    assert Legal(end, []) && Exec(end, []) == end;
    assert Legal(c2, [s2]) && Exec(c2, [s2]) == end;
    assert Legal(c1, [s1, s2]) && Exec(c1, [s1, s2]) == end;
  }
}
