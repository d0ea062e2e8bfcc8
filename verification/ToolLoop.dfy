/**
 src/ai/llm-client.ts, runWithTools: a conversation with a model that may ask for
 tools. The model's replies and the tools' answers are arbitrary.
 */
module ToolLoop {
  import opened Basics
  import Q = Quantity

  datatype Block =
    | Text(text: string)
    | ToolUse(id: string, name: string, input: string)
    | ToolResult(toolUseId: string, content: string, isError: bool)

  datatype Role = User | Assistant

  datatype Message = Message(role: Role, content: seq<Block>)

  datatype Usage = Usage(inputTokens: nat, outputTokens: nat)

  datatype Response = Response(text: string, model: string, usage: Usage, stopReason: string, content: seq<Block>)

  /** How a call of the model or of a tool settles. */
  datatype Answer = Answered(content: string, isError: bool) | Threw(message: string)

  type Client = nat -> Option<Response>        // by round trip; None: the request is rejected
  type Handler = (nat, Block) -> Answer        // by call number

  datatype Result = Result(
    text: string,
    model: string,
    usage: Usage,
    iterations: nat,
    toolCallCount: nat,
    capExceeded: bool,
    droppedToolCalls: nat,
    stopReason: string)

  datatype Params = Params(model: string, messages: seq<Message>, maxIterations: int, maxToolUsesPerTurn: int)

  // ---------------------------------------------------------------------
  // One turn

  function ToolUses(content: seq<Block>): (uses: seq<Block>)
    ensures forall b | b in uses :: b.ToolUse?
    ensures |uses| <= |content|
  {
    if content == [] then []
    else (if content[0].ToolUse? then [content[0]] else []) + ToolUses(content[1..])
  }

  /** Where `slice(0, cap)` ends and `slice(cap)` begins: a negative index counts
      from the end. */
  function SplitAt(n: nat, cap: int): (k: nat)
    ensures k <= n
  {
    if cap >= 0 then (if cap < n then cap else n)
    else if n + cap > 0 then n + cap else 0
  }

  function DroppedText(cap: int): string {
    "dropped: per-turn tool fan-out cap of "
    + (if cap > 0 then Q.Decimal(cap) else if cap == 0 then "0" else "-" + Q.Decimal(-cap))
    + " exceeded; pick the most useful tools and try again on the next turn"
  }

  /** The answer to a dispatched tool_use block. */
  function Executed(use: Block, answer: Answer): (b: Block)
    requires use.ToolUse?
    ensures b.ToolResult? && b.toolUseId == use.id
  {
    match answer
    case Answered(content, isError) => ToolResult(use.id, content, isError)
    case Threw(message) => ToolResult(use.id, "Tool execution failed: " + message, true)
  }

  /** The user turn that answers `uses`: the first ones executed, the calls
      numbered from `first`, and the others turned down. */
  ghost function TurnResults(uses: seq<Block>, cap: int, handler: Handler, first: nat): seq<Block>
    requires forall b | b in uses :: b.ToolUse?
  {
    seq(|uses|, j requires 0 <= j < |uses| =>
      if j < SplitAt(|uses|, cap) then Executed(uses[j], handler(first + j, uses[j]))
      else ToolResult(uses[j].id, DroppedText(cap), true))
  }

  /** What `uses[j]` is answered with: by the tool, if it is among the first `cap`
      of the turn, or for a negative cap not among the last `-cap`. */
  ghost predicate AnsweredAs(b: Block, use: Block, j: nat, n: nat, cap: int, answer: Answer)
    requires use.ToolUse?
  {
    if (if cap >= 0 then j < cap else j < n + cap) then
      b == match answer
           case Answered(content, isError) => ToolResult(use.id, content, isError)
           case Threw(message) => ToolResult(use.id, "Tool execution failed: " + message, true)
    else
      var shown := if cap > 0 then Q.Decimal(cap) else if cap == 0 then "0" else "-" + Q.Decimal(-cap);
      b == ToolResult(use.id, "dropped: per-turn tool fan-out cap of " + shown
                              + " exceeded; pick the most useful tools and try again on the next turn", true)
  }

  lemma TurnAnswers(uses: seq<Block>, cap: int, handler: Handler, first: nat)
    requires forall b | b in uses :: b.ToolUse?
    ensures var results := TurnResults(uses, cap, handler, first);
      && |results| == |uses|
      && forall j :: 0 <= j < |uses| ==>
           uses[j].ToolUse? && AnsweredAs(results[j], uses[j], j, |uses|, cap, handler(first + j, uses[j]))
  {
  }

  // ---------------------------------------------------------------------
  // The blocks of a turn

  lemma {:induction false} ToolUsesOfConcat(a: seq<Block>, b: seq<Block>)
    ensures ToolUses(a + b) == ToolUses(a) + ToolUses(b)
  {
    if a == [] {
      assert a + b == b;
    } else {
      assert (a + b)[1..] == a[1..] + b;
      ToolUsesOfConcat(a[1..], b);
    }
  }

  lemma ToolUsesOfOneMore(content: seq<Block>)
    requires content != []
    ensures var init, last := content[..|content| - 1], content[|content| - 1];
            ToolUses(content) == ToolUses(init) + (if last.ToolUse? then [last] else [])
  {
    var init, last := content[..|content| - 1], content[|content| - 1];
    assert content == init + [last];
    ToolUsesOfConcat(init, [last]);
  }

  lemma {:induction false} ToolUsesKeepMultiplicity(content: seq<Block>, b: Block)
    ensures multiset(ToolUses(content))[b] == if b.ToolUse? then multiset(content)[b] else 0
  {
    if content != [] {
      var init, last := content[..|content| - 1], content[|content| - 1];
      assert content == init + [last];
      ToolUsesOfOneMore(content);
      ToolUsesKeepMultiplicity(init, b);
    }
  }

  /** `at` lists the positions of all tool_use blocks of `content`, in order. */
  ghost predicate AreToolUses(at: seq<nat>, content: seq<Block>)
  {
    && (forall j :: 0 <= j < |at| ==> at[j] < |content| && content[at[j]].ToolUse?)
    && (forall i, j :: 0 <= i < j < |at| ==> at[i] < at[j])
    && (forall k :: 0 <= k < |content| && content[k].ToolUse? ==> k in at)
  }

  lemma PlacesOneMore(before: seq<nat>, init: seq<Block>, last: Block)
    requires AreToolUses(before, init)
    ensures AreToolUses(before + (if last.ToolUse? then [|init|] else []), init + [last])
  {
    var content, at := init + [last], before + if last.ToolUse? then [|init|] else [];
    forall k | 0 <= k < |content| && content[k].ToolUse? ensures k in at {
      if k < |init| {
        assert init[k].ToolUse? && k in before;
      } else {
        assert at[|before|] == k;
      }
    }
  }

  lemma {:induction false} ToolUsesAreAt(content: seq<Block>) returns (at: seq<nat>)
    ensures AreToolUses(at, content) && |at| == |ToolUses(content)|
    ensures forall j :: 0 <= j < |at| ==> content[at[j]] == ToolUses(content)[j]
  {
    if content == [] {
      at := [];
    } else {
      var init, last := content[..|content| - 1], content[|content| - 1];
      assert content == init + [last];
      var before := ToolUsesAreAt(init);
      PlacesOneMore(before, init, last);
      ToolUsesOfOneMore(content);
      hide ToolUses;
      at := before + if last.ToolUse? then [|init|] else [];
      forall j | 0 <= j < |at| ensures content[at[j]] == ToolUses(content)[j] {
        if j < |before| {
          assert at[j] == before[j] && content[at[j]] == init[before[j]];
        }
      }
    }
  }

  /** How many tool_use blocks a turn has. */
  ghost function CountToolUses(content: seq<Block>): nat {
    |set k | 0 <= k < |content| && content[k].ToolUse?|
  }

  lemma CountOneMore(init: seq<Block>, last: Block)
    ensures CountToolUses(init + [last]) == CountToolUses(init) + if last.ToolUse? then 1 else 0
  {
    var content, n := init + [last], |init|;
    var before := set k | 0 <= k < n && init[k].ToolUse?;
    var places := set k | 0 <= k < |content| && content[k].ToolUse?;
    if last.ToolUse? {
      assert n !in before;
      assert places == before + {n};
    } else {
      assert places == before;
    }
  }

  lemma {:induction false} ToolUsesAreCounted(content: seq<Block>)
    ensures |ToolUses(content)| == CountToolUses(content)
  {
    if content != [] {
      var init, last := content[..|content| - 1], content[|content| - 1];
      assert content == init + [last];
      ToolUsesAreCounted(init);
      ToolUsesOfOneMore(content);
      CountOneMore(init, last);
    } else {
      NoBlocks();
    }
  }

  lemma NoBlocks()
    ensures CountToolUses([]) == 0
  {
  }

  // ---------------------------------------------------------------------
  // The whole conversation

  /** Round trip `k` asks for tools, with at least one tool_use block. */
  ghost predicate Asks(client: Client, k: nat) {
    && client(k).Some? && client(k).value.stopReason == "tool_use"
    && exists b :: b in client(k).value.content && b.ToolUse?
  }

  lemma {:induction false} SomeToolUse(content: seq<Block>)
    ensures ToolUses(content) != [] <==> exists b :: b in content && b.ToolUse?
  {
    if content != [] {
      SomeToolUse(content[1..]);
      assert content == [content[0]] + content[1..];
    }
  }

  ghost predicate AllAsk(client: Client, n: int) {
    forall k: nat | k < n :: Asks(client, k)
  }

  function UsesAt(client: Client, k: nat): (uses: seq<Block>)
    ensures forall b | b in uses :: b.ToolUse?
  {
    if client(k).Some? then ToolUses(client(k).value.content) else []
  }

  /** The tool_use blocks of the first `n` round trips. */
  ghost function Requested(client: Client, n: nat): nat {
    if n == 0 then 0
    else Requested(client, n - 1) + if client(n - 1).Some? then CountToolUses(client(n - 1).value.content) else 0
  }

  /** Those of them a tool was called for, `cap` of each turn at most. */
  ghost function Dispatched(client: Client, cap: int, n: nat): nat {
    if n == 0 then 0
    else
      var uses := if client(n - 1).Some? then CountToolUses(client(n - 1).value.content) else 0;
      Dispatched(client, cap, n - 1) +
      if 0 <= cap < uses then cap else if 0 <= cap then uses else if uses + cap > 0 then uses + cap else 0
  }

  function TotalUsage(client: Client, n: nat): Usage {
    if n == 0 then Usage(0, 0)
    else
      var before := TotalUsage(client, n - 1);
      var last := if client(n - 1).Some? then client(n - 1).value.usage else Usage(0, 0);
      Usage(before.inputTokens + last.inputTokens, before.outputTokens + last.outputTokens)
  }

  /** The messages once `n` round trips have asked for tools and been answered. */
  ghost function History(p: Params, client: Client, handler: Handler, n: nat): seq<Message>
    requires AllAsk(client, n)
  {
    if n == 0 then p.messages
    else
      assert Asks(client, n - 1);
      History(p, client, handler, n - 1)
      + [Message(Assistant, client(n - 1).value.content)]
      + [Message(User, TurnResults(UsesAt(client, n - 1), p.maxToolUsesPerTurn, handler,
                                   Dispatched(client, p.maxToolUsesPerTurn, n - 1)))]
  }

  /** One tool_result for each tool_use block of `content`, in order and for its id:
      what the tool answered, the calls numbered from `first`, or that it was dropped. */
  ghost predicate Answers(results: seq<Block>, content: seq<Block>, cap: int, handler: Handler, first: nat)
  {
    exists at :: AreToolUses(at, content) && |results| == |at| &&
      forall j :: 0 <= j < |at| ==>
        AnsweredAs(results[j], content[at[j]], j, |at|, cap, handler(first + j, content[at[j]]))
  }

  lemma ResultsAnswer(content: seq<Block>, cap: int, handler: Handler, first: nat)
    ensures Answers(TurnResults(ToolUses(content), cap, handler, first), content, cap, handler, first)
  {
    var at := ToolUsesAreAt(content);
    TurnAnswers(ToolUses(content), cap, handler, first);
    hide ToolUses, TurnResults, AnsweredAs;
  }

  /** `h` is `initial` and then, for each of `n` round trips, the model's turn and
      its answer. */
  ghost predicate Paired(h: seq<Message>, p: Params, client: Client, handler: Handler, n: nat) {
    var m, cap := |p.messages|, p.maxToolUsesPerTurn;
    && |h| == m + 2 * n && h[..m] == p.messages
    && forall k: nat | k < n ::
         && Asks(client, k)
         && h[m + 2 * k] == Message(Assistant, client(k).value.content)
         && h[m + 2 * k + 1].role == User
         && Answers(h[m + 2 * k + 1].content, client(k).value.content, cap, handler, Dispatched(client, cap, k))
  }

  lemma PairedAtFirst(p: Params, client: Client, handler: Handler)
    requires AllAsk(client, 0)
    ensures Paired(History(p, client, handler, 0), p, client, handler, 0)
  {
    assert p.messages[..|p.messages|] == p.messages;
  }

  lemma LastAsks(client: Client, n: nat)
    requires n > 0 && AllAsk(client, n)
    ensures Asks(client, n - 1) && AllAsk(client, n - 1) && client(n - 1).Some?
  {
    assert Asks(client, n - 1);
  }

  /** Every turn the loop appended that asked for tools is followed by its answer,
      and what was there before is untouched. */
  lemma {:induction false} HistoryIsPaired(p: Params, client: Client, handler: Handler, n: nat)
    requires AllAsk(client, n)
    ensures Paired(History(p, client, handler, n), p, client, handler, n)
  {
    hide History, Dispatched, ToolUses, TurnResults, Answers, Paired, AllAsk, Asks;
    if n > 0 {
      LastAsks(client, n);
      HistoryIsPaired(p, client, handler, n - 1);
      HistoryGrows(p, client, handler, n - 1);
      var content, first := client(n - 1).value.content, Dispatched(client, p.maxToolUsesPerTurn, n - 1);
      ResultsAnswer(content, p.maxToolUsesPerTurn, handler, first);
      PairAppended(History(p, client, handler, n - 1), p, client, handler, n - 1,
                   Message(Assistant, content),
                   Message(User, TurnResults(ToolUses(content), p.maxToolUsesPerTurn, handler, first)));
    } else {
      PairedAtFirst(p, client, handler);
    }
  }

  lemma PairAppended(g: seq<Message>, p: Params, client: Client, handler: Handler, n: nat, asked: Message, answer: Message)
    requires Paired(g, p, client, handler, n)
    requires Asks(client, n) && asked == Message(Assistant, client(n).value.content) && answer.role == User
    requires Answers(answer.content, asked.content, p.maxToolUsesPerTurn, handler, Dispatched(client, p.maxToolUsesPerTurn, n))
    ensures Paired(g + [asked] + [answer], p, client, handler, n + 1)
  {
    hide Answers, Dispatched;
    var h, m := g + [asked] + [answer], |p.messages|;
    assert h[..m] == g[..m];
    assert h[m + 2 * n] == asked && h[m + 2 * n + 1] == answer;
    forall k: nat | k < n ensures h[m + 2 * k] == g[m + 2 * k] && h[m + 2 * k + 1] == g[m + 2 * k + 1] {
    }
  }

  /** What was dispatched is no more than the cap allows, exactly for caps that are
      not negative: a negative one counts from the end of each turn. */
  lemma DispatchIsBounded(client: Client, cap: int, n: nat)
    ensures Dispatched(client, cap, n) <= n * cap <==> cap >= 0 || n == 0
  {
    if cap >= 0 {
      DispatchBelow(client, cap, n);
    } else if n > 0 {
      NegativeProduct(n, cap);
    }
  }

  lemma NegativeProduct(n: nat, cap: int)
    requires n > 0 && cap < 0
    ensures n * cap < 0
  {
  }

  lemma {:induction false} DispatchBelow(client: Client, cap: nat, n: nat)
    ensures Dispatched(client, cap, n) <= n * cap
  {
    if n > 0 {
      DispatchBelow(client, cap, n - 1);
      assert n * cap == (n - 1) * cap + cap;
    }
  }

  /** The counters account for every tool_use block that was answered. */
  lemma {:induction false} DispatchIsPartOfRequested(client: Client, cap: int, n: nat)
    ensures Dispatched(client, cap, n) <= Requested(client, n)
  {
    if n > 0 {
      DispatchIsPartOfRequested(client, cap, n - 1);
    }
  }

  // ---------------------------------------------------------------------
  // The loop

  /** What the caller is told after `iterations` round trips of which `asked` asked
      for tools. */
  ghost predicate Reports(r: Result, p: Params, client: Client, iterations: nat, asked: nat) {
    && r.iterations == iterations
    && r.usage == TotalUsage(client, iterations)
    && r.toolCallCount == Dispatched(client, p.maxToolUsesPerTurn, asked)
    && r.toolCallCount + r.droppedToolCalls == Requested(client, asked)
    && (if iterations == 0 then r.text == "" && r.model == p.model && r.stopReason == "unknown"
        else client(iterations - 1).Some? && var last := client(iterations - 1).value;
             r.text == last.text && r.model == last.model && r.stopReason == last.stopReason)
  }

  /** The request for round trip `n` was rejected. */
  ghost predicate RejectedAt(n: nat, messages: seq<Message>, p: Params, client: Client, handler: Handler) {
    && n < p.maxIterations && AllAsk(client, n) && client(n).None?
    && Paired(messages, p, client, handler, n)
  }

  /** Round trip `n` was the first not to ask for tools. */
  ghost predicate EndedAt(n: nat, r: Result, messages: seq<Message>, p: Params, client: Client, handler: Handler) {
    && n < p.maxIterations && AllAsk(client, n) && client(n).Some? && !Asks(client, n)
    && messages != [] && messages[|messages| - 1] == Message(Assistant, client(n).value.content)
    && Paired(messages[..|messages| - 1], p, client, handler, n)
    && Reports(r, p, client, n + 1, n)
  }

  /** `n` round trips asked for tools, and no more were allowed. */
  ghost predicate CappedAt(n: nat, r: Result, messages: seq<Message>, p: Params, client: Client, handler: Handler) {
    && n == (if p.maxIterations > 0 then p.maxIterations else 0) && AllAsk(client, n)
    && Paired(messages, p, client, handler, n)
    && Reports(r, p, client, n, n)
  }

  /** runWithTools. `None` is a rejected request to the model. */
  method RunWithTools(p: Params, client: Client, handler: Handler) returns (out: Option<Result>, messages: seq<Message>)
    ensures out.None? ==> exists n: nat :: RejectedAt(n, messages, p, client, handler)
    ensures out.Some? ==> (out.value.capExceeded <==> AllAsk(client, p.maxIterations))
    ensures out.Some? && out.value.capExceeded ==> exists n: nat :: CappedAt(n, out.value, messages, p, client, handler)
    ensures out.Some? && !out.value.capExceeded ==> exists n: nat :: EndedAt(n, out.value, messages, p, client, handler)
  {
    hide History, ToolUses, TurnResults, SplitAt, Asks, Dispatched, Requested, TotalUsage;
    hide Reports, RejectedAt, EndedAt, CappedAt;
    messages := p.messages;
    var iterations, toolCallCount, droppedToolCalls, totalIn: nat, totalOut: nat := 0, 0, 0, 0, 0;
    var lastResponse: Option<Response> := None;
    NoneYet(p, client, handler);
    while iterations < p.maxIterations
      invariant 0 <= iterations && (iterations > 0 ==> iterations <= p.maxIterations)
      invariant AllAsk(client, iterations)
      invariant messages == History(p, client, handler, iterations)
      invariant toolCallCount == Dispatched(client, p.maxToolUsesPerTurn, iterations)
      invariant toolCallCount + droppedToolCalls == Requested(client, iterations)
      invariant TotalUsage(client, iterations) == Usage(totalIn, totalOut)
      invariant lastResponse == if iterations == 0 then None else client(iterations - 1)
    {
      ghost var n := iterations;
      iterations := iterations + 1;
      if client(iterations - 1).None? {
        Rejected(n, messages, p, client, handler);
        return None, messages;
      }
      var response := client(iterations - 1).value;
      lastResponse := Some(response);
      UsageGrows(client, n);
      totalIn := totalIn + response.usage.inputTokens;
      totalOut := totalOut + response.usage.outputTokens;
      messages := messages + [Message(Assistant, response.content)];
      var allToolUses := ToolUses(response.content);
      AsksWhen(client, n);
      if response.stopReason != "tool_use" || |allToolUses| == 0 {
        out := Some(Result(response.text, response.model, Usage(totalIn, totalOut), iterations, toolCallCount, false,
                           droppedToolCalls, response.stopReason));
        Ended(n, out.value, messages, p, client, handler);
        return out, messages;
      }
      var toolResults, calls, drops := AnswerTurn(allToolUses, p.maxToolUsesPerTurn, handler, toolCallCount);
      toolCallCount := toolCallCount + calls;
      droppedToolCalls := droppedToolCalls + drops;
      messages := messages + [Message(User, toolResults)];
      HistoryGrows(p, client, handler, n);
      CountersGrow(client, p.maxToolUsesPerTurn, n);
    }
    if iterations > 0 {
      LastAsks(client, iterations);
    }
    if lastResponse.None? {
      out := Some(Result("", p.model, Usage(totalIn, totalOut), iterations, toolCallCount, true, droppedToolCalls,
                         "unknown"));
    } else {
      var last := lastResponse.value;
      out := Some(Result(last.text, last.model, Usage(totalIn, totalOut), iterations, toolCallCount, true,
                         droppedToolCalls, last.stopReason));
    }
    Capped(iterations, out.value, messages, p, client, handler);
  }

  lemma Rejected(n: nat, messages: seq<Message>, p: Params, client: Client, handler: Handler)
    requires n < p.maxIterations && AllAsk(client, n) && client(n).None? && messages == History(p, client, handler, n)
    ensures RejectedAt(n, messages, p, client, handler)
  {
    hide Paired, AllAsk, History;
    HistoryIsPaired(p, client, handler, n);
  }

  lemma Ended(n: nat, r: Result, messages: seq<Message>, p: Params, client: Client, handler: Handler)
    requires n < p.maxIterations && AllAsk(client, n) && client(n).Some? && !Asks(client, n)
    requires messages == History(p, client, handler, n) + [Message(Assistant, client(n).value.content)]
    requires r.iterations == n + 1 && r.usage == TotalUsage(client, n + 1)
    requires r.toolCallCount == Dispatched(client, p.maxToolUsesPerTurn, n)
    requires r.toolCallCount + r.droppedToolCalls == Requested(client, n)
    requires var last := client(n).value; r.text == last.text && r.model == last.model && r.stopReason == last.stopReason
    ensures EndedAt(n, r, messages, p, client, handler)
  {
    hide Paired, AllAsk, Asks, History, Dispatched, Requested, TotalUsage;
    HistoryIsPaired(p, client, handler, n);
    assert messages[..|messages| - 1] == History(p, client, handler, n);
  }

  lemma Capped(n: nat, r: Result, messages: seq<Message>, p: Params, client: Client, handler: Handler)
    requires n == (if p.maxIterations > 0 then p.maxIterations else 0) && AllAsk(client, n)
    requires messages == History(p, client, handler, n)
    requires r.iterations == n && r.usage == TotalUsage(client, n)
    requires r.toolCallCount == Dispatched(client, p.maxToolUsesPerTurn, n)
    requires r.toolCallCount + r.droppedToolCalls == Requested(client, n)
    requires if n == 0 then r.text == "" && r.model == p.model && r.stopReason == "unknown"
             else client(n - 1).Some? && var last := client(n - 1).value;
                  r.text == last.text && r.model == last.model && r.stopReason == last.stopReason
    ensures CappedAt(n, r, messages, p, client, handler)
  {
    hide Paired, AllAsk, Asks, History, Dispatched, Requested, TotalUsage;
    HistoryIsPaired(p, client, handler, n);
  }

  lemma NoneYet(p: Params, client: Client, handler: Handler)
    ensures AllAsk(client, 0) && History(p, client, handler, 0) == p.messages && TotalUsage(client, 0) == Usage(0, 0)
    ensures Dispatched(client, p.maxToolUsesPerTurn, 0) == 0 && Requested(client, 0) == 0
  {
  }

  lemma UsageGrows(client: Client, n: nat)
    requires client(n).Some?
    ensures var before, last := TotalUsage(client, n), client(n).value.usage;
            TotalUsage(client, n + 1) == Usage(before.inputTokens + last.inputTokens, before.outputTokens + last.outputTokens)
  {
  }

  /** The loop goes on exactly when the round trip asks. */
  lemma AsksWhen(client: Client, n: nat)
    requires client(n).Some?
    ensures Asks(client, n) <==> client(n).value.stopReason == "tool_use" && |ToolUses(client(n).value.content)| != 0
  {
    SomeToolUse(client(n).value.content);
  }

  lemma CountersGrow(client: Client, cap: int, n: nat)
    requires client(n).Some?
    ensures var uses := ToolUses(client(n).value.content);
      && Dispatched(client, cap, n + 1) == Dispatched(client, cap, n) + SplitAt(|uses|, cap)
      && Requested(client, n + 1) == Requested(client, n) + |uses|
  {
    ToolUsesAreCounted(client(n).value.content);
  }

  lemma HistoryGrows(p: Params, client: Client, handler: Handler, n: nat)
    requires AllAsk(client, n + 1)
    ensures Asks(client, n)
    ensures History(p, client, handler, n + 1) ==
            History(p, client, handler, n) + [Message(Assistant, client(n).value.content)]
            + [Message(User, TurnResults(ToolUses(client(n).value.content), p.maxToolUsesPerTurn, handler,
                                         Dispatched(client, p.maxToolUsesPerTurn, n)))]
  {
    assert Asks(client, n);
  }

  /** The two loops over dispatched and dropped blocks. */
  method AnswerTurn(uses: seq<Block>, cap: int, handler: Handler, toolCallCount: nat)
    returns (toolResults: seq<Block>, calls: nat, drops: nat)
    requires forall b | b in uses :: b.ToolUse?
    ensures toolResults == TurnResults(uses, cap, handler, toolCallCount)
    ensures calls == SplitAt(|uses|, cap) && calls + drops == |uses|
  {
    hide DroppedText, Executed;
    var split := SplitAt(|uses|, cap);
    var dispatchable, dropped := uses[..split], uses[split..];
    toolResults, calls, drops := [], 0, |dropped|;
    for i := 0 to |dispatchable|
      invariant calls == i && toolResults == TurnResults(uses, cap, handler, toolCallCount)[..i]
    {
      var use := dispatchable[i];
      assert use == uses[i];
      var answer := handler(toolCallCount + calls, use);
      calls := calls + 1;
      toolResults := toolResults + [Executed(use, answer)];
    }
    for i := 0 to |dropped|
      invariant toolResults == TurnResults(uses, cap, handler, toolCallCount)[..split + i]
    {
      assert dropped[i] == uses[split + i];
      toolResults := toolResults + [ToolResult(dropped[i].id, DroppedText(cap), true)];
    }
  }
}
