/** The multi-turn tool loops of the runner and of the chat assistant. */
module AgentLoop {
  import opened Options
  import opened McpManager

  datatype Role = System | User | Assistant | Tool

  datatype Message = Message(role: Role, content: string, uses: seq<ToolUse>, useId: string)

  datatype Usage = Usage(input: int, output: int)

  datatype Turn = Turn(text: string, uses: seq<ToolUse>, usage: Usage)

  // ----- what a provider accepts -----

  /** The assistant message at i is followed by one tool message per use, same ids, same order. */
  ghost predicate AnsweredAt(ms: seq<Message>, i: nat)
    requires i < |ms|
  {
    var n := |ms[i].uses|;
    && i + n < |ms|
    && (forall t :: i < t <= i + n ==> ms[t].role == Tool && ms[t].useId == ms[i].uses[t - i - 1].id)
    && (i + 1 + n < |ms| ==> ms[i + 1 + n].role != Tool)
  }

  /** The tool message at t answers some assistant message before it. */
  ghost predicate OwnedAt(ms: seq<Message>, t: nat)
    requires t < |ms|
  {
    exists i :: 0 <= i < t && ms[i].role == Assistant && t <= i + |ms[i].uses|
  }

  ghost predicate WellFormed(ms: seq<Message>) {
    && (forall i :: 0 <= i < |ms| && ms[i].role == Assistant ==> AnsweredAt(ms, i))
    && (forall t :: 0 <= t < |ms| && ms[t].role == Tool ==> OwnedAt(ms, t))
  }

  function Said(t: Turn): Message {
    Message(Assistant, t.text, t.uses, "")
  }

  /** `replies` answers `uses`, one tool message each. */
  ghost predicate Replies(uses: seq<ToolUse>, replies: seq<Message>) {
    |replies| == |uses| && forall j :: 0 <= j < |uses| ==> replies[j].role == Tool && replies[j].useId == uses[j].id
  }

  /** A finished turn may be appended to a well-formed transcript. */
  lemma TurnExtends(ms: seq<Message>, turn: Turn, replies: seq<Message>)
    requires WellFormed(ms) && Replies(turn.uses, replies)
    ensures WellFormed(ms + [Said(turn)] + replies)
  {
    var all := ms + [Said(turn)] + replies;
    forall i | 0 <= i < |all| && all[i].role == Assistant ensures AnsweredAt(all, i) {
      if i < |ms| {
        assert AnsweredAt(ms, i);
      } else {
        assert i == |ms|;
        assert forall t :: i < t < |all| ==> all[t] == replies[t - i - 1];
      }
    }
    forall t | 0 <= t < |all| && all[t].role == Tool ensures OwnedAt(all, t) {
      if t < |ms| {
        assert OwnedAt(ms, t);
        var i :| 0 <= i < t && ms[i].role == Assistant && t <= i + |ms[i].uses|;
        assert all[i] == ms[i];
      } else {
        assert all[|ms|] == Said(turn);
      }
    }
  }

  /** So may a message that is neither a tool reply nor a turn with tool uses. */
  lemma PlainExtends(ms: seq<Message>, m: Message)
    requires WellFormed(ms) && m.role != Tool && (m.role == Assistant ==> m.uses == [])
    ensures WellFormed(ms + [m])
  {
    var all := ms + [m];
    forall i | 0 <= i < |all| && all[i].role == Assistant ensures AnsweredAt(all, i) {
      if i < |ms| { assert AnsweredAt(ms, i); }
    }
    forall t | 0 <= t < |all| && all[t].role == Tool ensures OwnedAt(all, t) {
      assert OwnedAt(ms, t);
      var i :| 0 <= i < t && ms[i].role == Assistant && t <= i + |ms[i].uses|;
      assert all[i] == ms[i];
    }
  }

  // ----- what a loop reports -----

  /** The provider: what it answers to the n-th call with this transcript; None is an error. */
  type Provider = (nat, seq<Message>) -> Option<Turn>

  function Total(p: Provider, calls: seq<seq<Message>>): Usage {
    if calls == [] then Usage(0, 0)
    else
      var last := |calls| - 1;
      var before := Total(p, calls[..last]);
      match p(last, calls[last])
      case None => before
      case Some(t) => Usage(before.input + t.usage.input, before.output + t.usage.output)
  }

  lemma TotalGrows(p: Provider, calls: seq<seq<Message>>, ms: seq<Message>)
    ensures Total(p, calls + [ms]) ==
            match p(|calls|, ms)
            case None => Total(p, calls)
            case Some(t) => Usage(Total(p, calls).input + t.usage.input, Total(p, calls).output + t.usage.output)
  {
    assert (calls + [ms])[..|calls|] == calls;
  }

  /** What the tools say to the j-th of the uses of a turn. */
  type Contents = (nat, seq<ToolUse>, nat) -> string

  /** `next` is `ms` with the answered turn appended: the turn as it was said, then what each tool says to its use. */
  ghost predicate Grown(ms: seq<Message>, turn: nat, answer: Option<Turn>, next: seq<Message>, c: Contents) {
    && answer.Some? && answer.value.uses != []
    && ms + [Message(Assistant, answer.value.text, answer.value.uses, "")] <= next
    && |next| == |ms| + 1 + |answer.value.uses|
    && forall j :: 0 <= j < |answer.value.uses| ==>
         next[|ms| + 1 + j] == Message(Tool, c(turn, answer.value.uses, j), [], answer.value.uses[j].id)
  }

  /** `ms` is what the loop sends next after `calls`. */
  ghost predicate Continues(initial: seq<Message>, p: Provider, calls: seq<seq<Message>>, ms: seq<Message>,
                            c: Contents)
  {
    && WellFormed(ms) && initial <= ms
    && if calls == [] then ms == initial
       else Grown(calls[|calls| - 1], |calls| - 1, p(|calls| - 1, calls[|calls| - 1]), ms, c)
  }

  /** What the loop showed the provider, call by call. */
  ghost predicate CallsOk(initial: seq<Message>, p: Provider, calls: seq<seq<Message>>, c: Contents) {
    && (forall i :: 0 <= i < |calls| ==> WellFormed(calls[i]) && initial <= calls[i])
    && (calls != [] ==> calls[0] == initial)
    && (forall i :: 0 <= i < |calls| - 1 ==> Grown(calls[i], i, p(i, calls[i]), calls[i + 1], c))
  }

  lemma CallsGrow(initial: seq<Message>, p: Provider, calls: seq<seq<Message>>, ms: seq<Message>, c: Contents)
    requires CallsOk(initial, p, calls, c) && Continues(initial, p, calls, ms, c)
    ensures CallsOk(initial, p, calls + [ms], c)
  {
    var all := calls + [ms];
    forall i | 0 <= i < |all| - 1 ensures Grown(all[i], i, p(i, all[i]), all[i + 1], c) {
      assert all[i] == calls[i];
      if i + 1 < |calls| { assert Grown(calls[i], i, p(i, calls[i]), calls[i + 1], c); }
    }
  }

  /** After a turn with tools, its replies appended are what the loop sends next. */
  lemma NextContinues(initial: seq<Message>, p: Provider, calls: seq<seq<Message>>, ms: seq<Message>, t: Turn,
                      replies: seq<Message>, c: Contents)
    requires WellFormed(ms) && initial <= ms && p(|calls|, ms) == Some(t) && t.uses != [] && |replies| == |t.uses|
    requires forall j :: 0 <= j < |t.uses| ==> replies[j] == Message(Tool, c(|calls|, t.uses, j), [], t.uses[j].id)
    ensures Continues(initial, p, calls + [ms], ms + [Message(Assistant, t.text, t.uses, "")] + replies, c)
  {
    TurnExtends(ms, t, replies);
  }

  /** What the provider said last. */
  function LastAnswer(p: Provider, calls: seq<seq<Message>>): Option<Turn>
    requires calls != []
  {
    p(|calls| - 1, calls[|calls| - 1])
  }

  function AtLeast0(n: int): nat {
    if n < 0 then 0 else n
  }

  // ----- internal/runner -----

  const DEFAULT_MAX_TURNS: int := 20

  function ResolveMaxTurns(fromSchedule: int, fromSkill: int): (n: int)
    ensures n >= 1
    ensures n == fromSchedule || (fromSchedule <= 0 && (n == fromSkill || (fromSkill <= 0 && n == 20)))
  {
    if fromSchedule > 0 then fromSchedule else if fromSkill > 0 then fromSkill else DEFAULT_MAX_TURNS
  }

  datatype LoopEnd = Succeeded(text: string) | LlmError | FatalTool(kind: FatalKind) | MaxTurnsExceeded

  /** How the tools of turn n behave: the servers, the goroutines' order and what each call comes back with. */
  datatype World = World(servers: set<string>, order: (nat, nat) -> seq<nat>, reply: (nat, nat) -> Reply)

  /** How the call for the i-th use of a turn ends. */
  ghost function EndingIn(w: World, turn: nat, uses: seq<ToolUse>, i: nat): Ending
    requires i < |uses|
  {
    EndingOf(uses[i], w.servers, w.reply(turn, i))
  }

  ghost function RunnerSays(w: World): Contents {
    (turn: nat, uses: seq<ToolUse>, j: nat) =>
      if j < |uses| && EndingIn(w, turn, uses, j).Finished? then EndingIn(w, turn, uses, j).result else ""
  }

  ghost predicate FairWorld(w: World) {
    forall turn: nat, n: nat :: IsOrder(w.order(turn, n), n)
  }

  /** One of the calls of the turn ended in this fatal failure. */
  ghost predicate FatalIn(w: World, turn: nat, uses: seq<ToolUse>, kind: FatalKind) {
    exists i: nat :: i < |uses| && EndingIn(w, turn, uses, i) == Fatal(kind)
  }

  /** Dispatch the uses of one turn and turn the results into tool messages. */
  method Answer(turn: nat, uses: seq<ToolUse>, w: World) returns (replies: seq<Message>, fatal: Option<FatalKind>)
    requires FairWorld(w)
    ensures fatal.None? ==> Replies(uses, replies)
    ensures fatal.None? ==> forall i :: 0 <= i < |uses| ==>
              EndingIn(w, turn, uses, i).Finished?
              && replies[i] == Message(Tool, EndingIn(w, turn, uses, i).result, [], uses[i].id)
    ensures fatal.None? <==> forall i :: 0 <= i < |uses| ==> EndingIn(w, turn, uses, i).Finished?
    ensures fatal.Some? ==> FatalIn(w, turn, uses, fatal.value)
  {
    var answers := seq(|uses|, i requires i >= 0 => w.reply(turn, i));
    var order := w.order(turn, |uses|);
    var results;
    results, fatal := DispatchAll(uses, w.servers, order, answers);
    ghost var es := Endings(uses, w.servers, answers);
    replies := [];
    if fatal.Some? {
      ghost var j :| FirstFatal(es, order, j, fatal.value);
      assert EndingIn(w, turn, uses, order[j]) == Fatal(fatal.value);
      return;
    }
    for i := 0 to |uses|
      invariant |replies| == i
      invariant forall j :: 0 <= j < i ==>
        replies[j] == Message(Tool, EndingIn(w, turn, uses, j).result, [], uses[j].id)
    {
      assert es[i] == EndingIn(w, turn, uses, i) && es[i].Finished?;
      replies := replies + [Message(Tool, results[i].result, [], results[i].id)];
    }
  }

  /** How the loop's end follows from what the provider said last. */
  ghost predicate EndOk(end: LoopEnd, p: Provider, w: World, calls: seq<seq<Message>>, maxTurns: int) {
    match end
    case Succeeded(text) =>
      calls != [] && LastAnswer(p, calls).Some? && LastAnswer(p, calls).value.uses == []
      && text == LastAnswer(p, calls).value.text
    case LlmError => calls != [] && LastAnswer(p, calls).None?
    case FatalTool(kind) =>
      calls != [] && LastAnswer(p, calls).Some?
      && FatalIn(w, |calls| - 1, LastAnswer(p, calls).value.uses, kind)
    case MaxTurnsExceeded =>
      |calls| == AtLeast0(maxTurns)
      && (calls != [] ==> LastAnswer(p, calls).Some? && LastAnswer(p, calls).value.uses != [])
  }

  /**
   * The runner's tool loop. Every transcript it sends is well formed, at most maxTurns
   * are sent, usage is the sum over the turns answered, and it succeeds only on a turn
   * without tool uses; each way of failing is told apart.
   */
  method RunnerLoop(initial: seq<Message>, maxTurns: int, p: Provider, w: World)
    returns (end: LoopEnd, usage: Usage, calls: seq<seq<Message>>)
    requires WellFormed(initial) && FairWorld(w)
    ensures CallsOk(initial, p, calls, RunnerSays(w)) && |calls| <= AtLeast0(maxTurns)
    ensures usage == Total(p, calls)
    ensures EndOk(end, p, w, calls, maxTurns)
  {
    var messages := initial;
    usage, calls, end := Usage(0, 0), [], MaxTurnsExceeded;
    for turn := 0 to AtLeast0(maxTurns)
      invariant |calls| == turn && CallsOk(initial, p, calls, RunnerSays(w))
      invariant Continues(initial, p, calls, messages, RunnerSays(w))
      invariant usage == Total(p, calls)
      invariant end == MaxTurnsExceeded
    {
      CallsGrow(initial, p, calls, messages, RunnerSays(w));
      TotalGrows(p, calls, messages);
      calls := calls + [messages];
      var answer := p(turn, messages);
      if answer.None? { return LlmError, usage, calls; }
      var tr := answer.value;
      usage := Usage(usage.input + tr.usage.input, usage.output + tr.usage.output);
      if tr.uses == [] { return Succeeded(tr.text), usage, calls; }
      var replies, fatal := Answer(turn, tr.uses, w);
      if fatal.Some? { return FatalTool(fatal.value), usage, calls; }
      NextContinues(initial, p, calls[..turn], messages, tr, replies, RunnerSays(w));
      assert calls[..turn] + [messages] == calls;
      messages := messages + [Message(Assistant, tr.text, tr.uses, "")] + replies;
    }
  }

  // ----- internal/chat -----

  const OUT_OF_TURNS: string :=
    "I ran out of turns before reaching an answer. Try rephrasing or breaking the request into smaller steps."

  datatype HistoryEntry = HistoryEntry(role: string, content: string)

  /** The user and assistant entries of the history, in order; others are dropped. */
  function Heard(history: seq<HistoryEntry>): seq<Message> {
    if history == [] then []
    else
      var front, h := Heard(history[..|history| - 1]), history[|history| - 1];
      if h.role == "user" then front + [Message(User, h.content, [], "")]
      else if h.role == "assistant" then front + [Message(Assistant, h.content, [], "")]
      else front
  }

  /** The opening transcript: the system prompt and the history. */
  method Opening(systemPrompt: string, history: seq<HistoryEntry>) returns (ms: seq<Message>)
    ensures WellFormed(ms) && ms == [Message(System, systemPrompt, [], "")] + Heard(history)
  {
    ms := [Message(System, systemPrompt, [], "")];
    for i := 0 to |history|
      invariant WellFormed(ms) && ms == [Message(System, systemPrompt, [], "")] + Heard(history[..i])
    {
      var h := history[i];
      assert history[..i + 1][..i] == history[..i];
      if h.role == "user" || h.role == "assistant" {
        var m := Message(if h.role == "user" then User else Assistant, h.content, [], "");
        PlainExtends(ms, m);
        ms := ms + [m];
      }
    }
    assert history[..|history|] == history;
  }

  /** One tool call of the chat: its result, or an error the model gets to read. */
  datatype ToolReply = Result(text: string) | Error(text: string)

  type Toolbox = (nat, ToolUse) -> ToolReply

  function ChatSays(tools: Toolbox): Contents {
    (turn: nat, uses: seq<ToolUse>, j: nat) => if j < |uses| then tools(turn, uses[j]).text else ""
  }

  /** Serial dispatch; a failing tool is reported to the model and the loop goes on. */
  method CallTools(turn: nat, uses: seq<ToolUse>, tools: Toolbox) returns (replies: seq<Message>)
    ensures Replies(uses, replies)
    ensures forall j :: 0 <= j < |uses| ==> replies[j] == Message(Tool, tools(turn, uses[j]).text, [], uses[j].id)
  {
    replies := [];
    for i := 0 to |uses|
      invariant |replies| == i
      invariant forall j :: 0 <= j < i ==>
        replies[j] == Message(Tool, tools(turn, uses[j]).text, [], uses[j].id)
    {
      replies := replies + [Message(Tool, tools(turn, uses[i]).text, [], uses[i].id)];
    }
  }

  /** None stands for the error of a failed provider call. */
  ghost predicate ChatEndOk(text: Option<string>, p: Provider, calls: seq<seq<Message>>, limit: nat) {
    match text
    case None => calls != [] && LastAnswer(p, calls).None?
    case Some(said) =>
      && (calls != [] ==> LastAnswer(p, calls).Some?)
      && (if calls != [] && LastAnswer(p, calls).value.uses == []
          then said == if LastAnswer(p, calls).value.text == "" then OUT_OF_TURNS else LastAnswer(p, calls).value.text
          else |calls| == limit && said == OUT_OF_TURNS)
  }

  /**
   * The chat loop: the same discipline towards the provider, but tool errors are replies
   * and running out of turns is an apology, not an error. An empty final answer gets the
   * same apology.
   */
  method ChatLoop(initial: seq<Message>, maxTurns: int, p: Provider, tools: Toolbox)
    returns (text: Option<string>, usage: Usage, calls: seq<seq<Message>>)
    requires WellFormed(initial)
    ensures CallsOk(initial, p, calls, ChatSays(tools)) && |calls| <= (if maxTurns <= 0 then 6 else maxTurns)
    ensures usage == Total(p, calls)
    ensures ChatEndOk(text, p, calls, if maxTurns <= 0 then 6 else maxTurns)
  {
    var limit := if maxTurns <= 0 then 6 else maxTurns;
    var msgs := initial;
    var finalText := "";
    usage, calls := Usage(0, 0), [];
    for turn := 0 to limit
      invariant |calls| == turn && CallsOk(initial, p, calls, ChatSays(tools))
      invariant Continues(initial, p, calls, msgs, ChatSays(tools))
      invariant usage == Total(p, calls) && finalText == ""
    {
      CallsGrow(initial, p, calls, msgs, ChatSays(tools));
      TotalGrows(p, calls, msgs);
      calls := calls + [msgs];
      var answer := p(turn, msgs);
      if answer.None? { return None, usage, calls; }
      var tr := answer.value;
      usage := Usage(usage.input + tr.usage.input, usage.output + tr.usage.output);
      if tr.uses == [] {
        finalText := tr.text;
        break;
      }
      var replies := CallTools(turn, tr.uses, tools);
      NextContinues(initial, p, calls[..turn], msgs, tr, replies, ChatSays(tools));
      assert calls[..turn] + [msgs] == calls;
      msgs := msgs + [Message(Assistant, tr.text, tr.uses, "")] + replies;
    }
    text := Some(if finalText == "" then OUT_OF_TURNS else finalText);
  }
}
