/**
 The tool-use loop between the assistant's model and the tools: at most five
 model calls, each seeing the transcript that the earlier calls and their tools
 produced. What the model answers, what the tools return and which sends fail
 are left open.
 */
module AgenticLoop {
  import opened Wrappers

  const MAX_ITERATIONS := 5

  // ---- Messages ----

  /** A content block of a model response; blocks of other types are ignored by the loop. */
  datatype Block = Text(text: string) | ToolUse(id: string, name: string, input: string) | Other(kind: string)

  datatype ToolResult = ToolResult(toolUseId: string, summary: string)

  datatype Message = Earlier(text: string) | Assistant(content: seq<Block>) | Answers(results: seq<ToolResult>)

  /** The usage object of a response: absent keys count as zero, an object without keys counts as none. */
  datatype RawUsage = RawUsage(input: Option<int>, output: Option<int>, cost: Option<int>, otherKeys: bool)

  datatype Response = Response(content: seq<Block>, usage: Option<RawUsage>, model: Option<string>)

  datatype Usage = Usage(input: int, output: int, cost: int, provider: string, model: string)

  /** The model's answer to the `n`-th call, given its messages; `None` when the call raises. */
  type Llm = (nat, seq<Message>) -> Option<Response>

  /** The summary of the `n`-th execution of a tool with an input; `None` when it raises. */
  type Tools = (nat, string, string) -> Option<string>

  // ---- What the first `n` blocks of a response contribute ----

  function TextOf(blocks: seq<Block>, n: nat): string
    requires n <= |blocks|
  {
    if n == 0 then ""
    else if blocks[n - 1].Text? then TextOf(blocks, n - 1) + blocks[n - 1].text
    else TextOf(blocks, n - 1)
  }

  /** Without the blocks of unknown type. */
  function Kept(blocks: seq<Block>, n: nat): seq<Block>
    requires n <= |blocks|
  {
    if n == 0 then []
    else if blocks[n - 1].Other? then Kept(blocks, n - 1)
    else Kept(blocks, n - 1) + [blocks[n - 1]]
  }

  function ToolUses(blocks: seq<Block>, n: nat): seq<Block>
    requires n <= |blocks|
  {
    if n == 0 then []
    else if blocks[n - 1].ToolUse? then ToolUses(blocks, n - 1) + [blocks[n - 1]]
    else ToolUses(blocks, n - 1)
  }

  /** The tools' answers, the first of them from the `from`-th execution. */
  function Results(tools: Tools, from: nat, blocks: seq<Block>, n: nat): seq<ToolResult>
    requires n <= |blocks|
  {
    if n == 0 then []
    else
      var before := Results(tools, from, blocks, n - 1);
      if blocks[n - 1].ToolUse? then before + [Answer(tools, from + |before|, blocks[n - 1])] else before
  }

  function Answer(tools: Tools, n: nat, use: Block): ToolResult
    requires use.ToolUse?
  {
    var summary := tools(n, use.name, use.input);
    ToolResult(use.id, if summary.Some? then summary.value else "")
  }

  /** How many chunks are sent: an empty text is not. */
  function Chunks(blocks: seq<Block>, n: nat): nat
    requires n <= |blocks|
  {
    if n == 0 then 0 else Chunks(blocks, n - 1) + if blocks[n - 1].Text? && blocks[n - 1].text != "" then 1 else 0
  }

  /** The browser has been shown `text` since `before`. */
  predicate Shows(shown: string, before: string, text: string) { shown == before + text }

  lemma ShowMore(shown: string, before: string, text: string, t: string)
    requires shown == before + text + t
    ensures Shows(shown, before, text + t)
  {
  }

  /** What the first `n` blocks have contributed. */
  predicate Gathered(tools: Tools, from: nat, blocks: seq<Block>, n: nat, text: string, content: seq<Block>,
                     results: seq<ToolResult>, chunks: int)
    requires n <= |blocks|
  {
    && text == TextOf(blocks, n) && content == Kept(blocks, n)
    && results == Results(tools, from, blocks, n) && |results| == |ToolUses(blocks, n)|
    && chunks == Chunks(blocks, n)
  }

  lemma GatherNext(tools: Tools, from: nat, blocks: seq<Block>, n: nat, text: string, content: seq<Block>,
                   results: seq<ToolResult>, chunks: int)
    requires n < |blocks| && Gathered(tools, from, blocks, n, text, content, results, chunks)
    ensures match blocks[n]
            case Text(t) =>
              && Gathered(tools, from, blocks, n + 1, text + t, content + [blocks[n]], results,
                          if t == "" then chunks else chunks + 1)
              && (t == "" ==> text + t == text)
            case ToolUse(_, _, _) =>
              Gathered(tools, from, blocks, n + 1, text, content + [blocks[n]],
                       results + [Answer(tools, from + |results|, blocks[n])], chunks)
            case Other(_) => Gathered(tools, from, blocks, n + 1, text, content, results, chunks)
  {
  }

  /** All of the first `n` blocks get through: every chunk is accepted and no tool raises. */
  predicate Completes(tools: Tools, accepts: nat -> bool, from: nat, sent: nat, blocks: seq<Block>, n: nat)
    requires n <= |blocks|
  {
    n == 0
    || (&& Completes(tools, accepts, from, sent, blocks, n - 1)
        && match blocks[n - 1]
           case Text(t) => t != "" ==> accepts(sent + Chunks(blocks, n - 1))
           case ToolUse(_, name, input) => tools(from + |ToolUses(blocks, n - 1)|, name, input).Some?
           case Other(_) => true)
  }

  lemma {:induction false} FailsForGood(tools: Tools, accepts: nat -> bool, from: nat, sent: nat,
                                        blocks: seq<Block>, m: nat)
    requires m <= |blocks| && !Completes(tools, accepts, from, sent, blocks, m)
    ensures !Completes(tools, accepts, from, sent, blocks, |blocks|)
    decreases |blocks| - m
  {
    if m < |blocks| {
      FailsForGood(tools, accepts, from, sent, blocks, m + 1);
    }
  }

  predicate UsesTools(r: Response) { ToolUses(r.content, |r.content|) != [] }

  predicate AllUseTools(seen: seq<Response>, n: nat)
    requires n <= |seen|
  {
    forall i :: 0 <= i < n ==> UsesTools(seen[i])
  }

  // ---- What the first `n` responses contribute ----

  function Executions(seen: seq<Response>, n: nat): nat
    requires n <= |seen|
  {
    if n == 0 then 0
    else Executions(seen, n - 1) + |ToolUses(seen[n - 1].content, |seen[n - 1].content|)|
  }

  /** The two messages that follow an answered response. */
  function Turn(tools: Tools, from: nat, r: Response): seq<Message> {
    [Assistant(Kept(r.content, |r.content|)), Answers(Results(tools, from, r.content, |r.content|))]
  }

  function Turns(tools: Tools, seen: seq<Response>, n: nat): (t: seq<Message>)
    requires n <= |seen|
    ensures |t| == 2 * n
  {
    if n == 0 then [] else Turns(tools, seen, n - 1) + Turn(tools, Executions(seen, n - 1), seen[n - 1])
  }

  function AllText(seen: seq<Response>, n: nat): string
    requires n <= |seen|
  {
    if n == 0 then "" else AllText(seen, n - 1) + TextOf(seen[n - 1].content, |seen[n - 1].content|)
  }

  function AllChunks(seen: seq<Response>, n: nat): nat
    requires n <= |seen|
  {
    if n == 0 then 0 else AllChunks(seen, n - 1) + Chunks(seen[n - 1].content, |seen[n - 1].content|)
  }

  // ---- Usage ----

  function OrZero(o: Option<int>): int { if o.Some? then o.value else 0 }

  predicate HasUsage(r: Response) {
    r.usage.Some? && (r.usage.value.input.Some? || r.usage.value.output.Some?
                        || r.usage.value.cost.Some? || r.usage.value.otherKeys)
  }

  function ModelOf(r: Response): string { if r.model.Some? then r.model.value else "unknown" }

  function MergeUsage(existing: Option<Usage>, u: RawUsage, model: string): Usage {
    match existing
    case Some(e) => Usage(e.input + OrZero(u.input), e.output + OrZero(u.output), e.cost + OrZero(u.cost),
                          e.provider, e.model)
    case None => Usage(OrZero(u.input), OrZero(u.output), OrZero(u.cost), "anthropic", model)
  }

  function TotalUsage(seen: seq<Response>, n: nat): Option<Usage>
    requires n <= |seen|
  {
    if n == 0 then None
    else if HasUsage(seen[n - 1]) then
      Some(MergeUsage(TotalUsage(seen, n - 1), seen[n - 1].usage.value, ModelOf(seen[n - 1])))
    else TotalUsage(seen, n - 1)
  }

  function InputOf(u: RawUsage): Option<int> { u.input }

  function OutputOf(u: RawUsage): Option<int> { u.output }

  function CostOf(u: RawUsage): Option<int> { u.cost }

  /** The sum of one number over the first `n` responses, as far as they name it. */
  function SumOver(seen: seq<Response>, n: nat, number: RawUsage -> Option<int>): int
    requires n <= |seen|
  {
    if n == 0 then 0
    else
      SumOver(seen, n - 1, number)
      + match seen[n - 1].usage
        case None => 0
        case Some(u) => match number(u) case Some(x) => x case None => 0
  }

  // ---- Later responses change nothing about earlier ones ----

  lemma {:induction false} EarlierStays(tools: Tools, seen: seq<Response>, r: Response, n: nat)
    requires n <= |seen|
    ensures Executions(seen + [r], n) == Executions(seen, n)
    ensures Turns(tools, seen + [r], n) == Turns(tools, seen, n)
    ensures AllText(seen + [r], n) == AllText(seen, n)
    ensures AllChunks(seen + [r], n) == AllChunks(seen, n)
    ensures TotalUsage(seen + [r], n) == TotalUsage(seen, n)
  {
    if n > 0 {
      EarlierStays(tools, seen, r, n - 1);
    }
  }

  /** The `i`-th call was made on the transcript the earlier ones had built, and answered by the `i`-th response. */
  ghost predicate AnswersCalls(llm: Llm, tools: Tools, start: seq<Message>, seen: seq<Response>) {
    forall i: nat :: i < |seen| ==> AnswersCall(llm, tools, start, seen, i)
  }

  ghost predicate AnswersCall(llm: Llm, tools: Tools, start: seq<Message>, seen: seq<Response>, i: nat)
    requires i < |seen|
  {
    llm(i, start + Turns(tools, seen, i)) == Some(seen[i])
  }

  lemma CallsExtend(llm: Llm, tools: Tools, start: seq<Message>, seen: seq<Response>, r: Response)
    requires AnswersCalls(llm, tools, start, seen)
    requires llm(|seen|, start + Turns(tools, seen, |seen|)) == Some(r)
    ensures AnswersCalls(llm, tools, start, seen + [r])
  {
    forall i: nat | i < |seen + [r]|
      ensures AnswersCall(llm, tools, start, seen + [r], i)
    {
      EarlierStays(tools, seen, r, i);
      assert i < |seen| ==> AnswersCall(llm, tools, start, seen, i);
    }
  }

  /** A response gets through after the earlier ones have been processed. */
  predicate CompletesAfter(tools: Tools, accepts: nat -> bool, sent: nat, seen: seq<Response>, r: Response) {
    Completes(tools, accepts, Executions(seen, |seen|), sent + AllChunks(seen, |seen|), r.content, |r.content|)
  }

  /** What the loop has made of the responses so far, all of which use tools. */
  ghost predicate Processed(llm: Llm, tools: Tools, start: seq<Message>, seen: seq<Response>, executed: nat,
                            messages: seq<Message>, text: string, usage: Option<Usage>, chunks: int)
  {
    && AnswersCalls(llm, tools, start, seen)
    && AllUseTools(seen, |seen|)
    && executed == Executions(seen, |seen|)
    && messages == start + Turns(tools, seen, |seen|)
    && text == AllText(seen, |seen|)
    && usage == TotalUsage(seen, |seen|)
    && chunks == AllChunks(seen, |seen|)
  }

  function UsageAfter(usage: Option<Usage>, r: Response): Option<Usage> {
    if HasUsage(r) then Some(MergeUsage(usage, r.usage.value, ModelOf(r))) else usage
  }

  /** One response more. */
  lemma Advance(llm: Llm, tools: Tools, start: seq<Message>, seen: seq<Response>, executed: nat,
                messages: seq<Message>, text: string, usage: Option<Usage>, chunks: int, r: Response)
    returns (longer: seq<Response>)
    requires Processed(llm, tools, start, seen, executed, messages, text, usage, chunks)
    requires llm(|seen|, messages) == Some(r)
    ensures longer == seen + [r]
    ensures AnswersCalls(llm, tools, start, longer) && AllUseTools(longer, |seen|)
    ensures messages == start + Turns(tools, longer, |seen|)
    ensures text + TextOf(r.content, |r.content|) == AllText(longer, |longer|)
    ensures UsageAfter(usage, r) == TotalUsage(longer, |longer|)
    ensures UsesTools(r) ==>
              Processed(llm, tools, start, longer, executed + |ToolUses(r.content, |r.content|)|,
                        messages + Turn(tools, executed, r), text + TextOf(r.content, |r.content|),
                        UsageAfter(usage, r), chunks + Chunks(r.content, |r.content|))
  {
    CallsExtend(llm, tools, start, seen, r);
    EarlierStays(tools, seen, r, |seen|);
    longer := seen + [r];
    assert start + Turns(tools, seen, |seen|) + Turn(tools, executed, r) == start + Turns(tools, longer, |longer|);
  }

  lemma Associative(a: string, b: string, c: string)
    ensures (a + b) + c == a + (b + c)
  {
  }

  // ---- The loop ----

  datatype Outcome = Done(text: string, usage: Option<Usage>) | Raised

  class Conversation {
    var messages: seq<Message>

    constructor (messages: seq<Message>)
      ensures this.messages == messages
    {
      this.messages := messages;
    }
  }

  /** The connection to the browser: how many chunks were sent, and all their text. */
  class Frontend {
    const accepts: nat -> bool
    var sent: nat
    ghost var shown: string

    constructor (accepts: nat -> bool)
      ensures shown == "" && this.accepts == accepts
    {
      this.accepts := accepts;
      sent, shown := 0, "";
    }

    method SendChunk(text: string) returns (ok: bool)
      modifies this
      ensures ok == accepts(old(sent))
      ensures shown == if ok then old(shown) + text else old(shown)
      ensures sent == if ok then old(sent) + 1 else old(sent)
    {
      ok := accepts(sent);
      if ok {
        shown := shown + text;
        sent := sent + 1;
      }
    }

    /** The text of a block; an empty one is not sent. */
    method Stream(text: string) returns (ok: bool)
      modifies this
      ensures ok == (text == "" || accepts(old(sent)))
      ensures ok ==> shown == old(shown) + text && sent == if text == "" then old(sent) else old(sent) + 1
    {
      ok := true;
      if text != "" {
        ok := SendChunk(text);
      } else {
        assert shown == shown + text;
      }
    }
  }

  class AgenticAllieProvider {
    const llm: Llm
    const tools: Tools

    constructor (llm: Llm, tools: Tools)
      ensures this.llm == llm && this.tools == tools
    {
      this.llm, this.tools := llm, tools;
    }

    /** Streams the text of one response and runs its tools, block by block. */
    method ProcessBlocks(blocks: seq<Block>, from: nat, front: Frontend)
      returns (ok: bool, text: string, content: seq<Block>, results: seq<ToolResult>)
      modifies front
      ensures ok ==> text == TextOf(blocks, |blocks|) && content == Kept(blocks, |blocks|)
      ensures ok ==> results == Results(tools, from, blocks, |blocks|)
      ensures ok ==> front.shown == old(front.shown) + text
      ensures ok <==> Completes(tools, front.accepts, from, old(front.sent), blocks, |blocks|)
      ensures ok ==> front.sent == old(front.sent) + Chunks(blocks, |blocks|)
    {
      ghost var before, start := front.shown, front.sent;
      text, content, results := "", [], [];
      var i := 0;
      while i < |blocks|
        invariant 0 <= i <= |blocks|
        invariant Gathered(tools, from, blocks, i, text, content, results, front.sent - start)
        invariant Shows(front.shown, before, text)
        invariant Completes(tools, front.accepts, from, start, blocks, i)
      {
        var block := blocks[i];
        GatherNext(tools, from, blocks, i, text, content, results, front.sent - start);
        match block {
          case Text(t) =>
            var sent := front.Stream(t);
            if !sent {
              FailsForGood(tools, front.accepts, from, start, blocks, i + 1);
              return false, text, content, results;
            }
            ShowMore(front.shown, before, text, t);
            text := text + t;
            content := content + [block];
          case ToolUse(id, name, input) =>
            content := content + [block];
            var summary := tools(from + |results|, name, input);
            if summary.None? {
              FailsForGood(tools, front.accepts, from, start, blocks, i + 1);
              return false, text, content, results;
            }
            results := results + [ToolResult(id, summary.value)];
          case Other(_) =>
        }
        i := i + 1;
      }
      ok := true;
    }

    /**
     The loop. `seen` are the responses that were processed to their end, and the
     first `answered` of them were followed up with tool results: all of them, or
     all but a last one that used no tool and ended the loop.
     */
    method RunAgenticLoop(conversation: Conversation, front: Frontend)
      returns (outcome: Outcome, ghost seen: seq<Response>, ghost answered: nat)
      modifies conversation, front
      ensures answered <= |seen| <= answered + 1 && |seen| <= 5
      ensures AnswersCalls(llm, tools, old(conversation.messages), seen)
      ensures AllUseTools(seen, answered) && (answered < |seen| ==> !UsesTools(seen[answered]))
      ensures conversation.messages == old(conversation.messages) + Turns(tools, seen, answered)
      ensures outcome.Done? ==> answered == 5 || answered + 1 == |seen|
      ensures outcome.Done? ==> outcome.text == AllText(seen, |seen|) && outcome.usage == TotalUsage(seen, |seen|)
      ensures outcome.Done? ==> front.shown == old(front.shown) + outcome.text
      ensures outcome.Raised? ==> answered == |seen| < 5
      ensures outcome.Raised? ==>
                var response := llm(|seen|, conversation.messages);
                response.Some? ==> !CompletesAfter(tools, front.accepts, old(front.sent), seen, response.value)
    {
      ghost var start, before, sent := conversation.messages, front.shown, front.sent;
      var iteration, executed: nat := 0, 0;
      var usage: Option<Usage>, fullText := None, "";
      seen, answered := [], 0;
      while iteration < MAX_ITERATIONS
        invariant 0 <= iteration == |seen| == answered <= MAX_ITERATIONS
        invariant Processed(llm, tools, start, seen, executed, conversation.messages, fullText, usage,
                            front.sent - sent)
        invariant front.shown == before + fullText
      {
        var answer := llm(iteration, conversation.messages);
        iteration := iteration + 1;
        if answer.None? { return Raised, seen, answered; }
        var response := answer.value;
        ghost var earlier, usageBefore, textBefore, chunks := seen, usage, fullText, front.sent - sent;
        if HasUsage(response) {
          usage := Some(MergeUsage(usage, response.usage.value, ModelOf(response)));
        }
        var ok, text, content, results := ProcessBlocks(response.content, executed, front);
        if !ok { return Raised, seen, answered; }
        Associative(before, fullText, text);
        fullText := fullText + text;
        ResultsAnswerToolUses(tools, executed, response.content, |response.content|);
        seen := Advance(llm, tools, start, earlier, executed, conversation.messages, textBefore, usageBefore, chunks,
                        response);
        if results == [] {
          break;
        }
        conversation.messages := conversation.messages + [Assistant(content), Answers(results)];
        executed := executed + |results|;
        answered := answered + 1;
      }
      outcome := Done(fullText, usage);
    }
  }

  // ---- What the transcript is ----

  /** One answer per tool use, in order. */
  lemma {:induction false} ResultsAnswerToolUses(tools: Tools, from: nat, blocks: seq<Block>, n: nat)
    requires n <= |blocks|
    ensures var uses, results := ToolUses(blocks, n), Results(tools, from, blocks, n);
            && |results| == |uses|
            && (forall k :: 0 <= k < |uses| ==> uses[k].ToolUse? && results[k].toolUseId == uses[k].id)
            && forall k :: 0 <= k < |uses| ==>
                 match tools(from + k, uses[k].name, uses[k].input)
                 case Some(summary) => results[k].summary == summary
                 case None => true
  {
    if n > 0 {
      ResultsAnswerToolUses(tools, from, blocks, n - 1);
    }
  }

  lemma {:induction false} ToolUsesOfPrefix(blocks: seq<Block>, more: seq<Block>, n: nat)
    requires n <= |blocks|
    ensures ToolUses(blocks + more, n) == ToolUses(blocks, n)
  {
    if n > 0 {
      ToolUsesOfPrefix(blocks, more, n - 1);
    }
  }

  /** The places of the blocks that are not of an unknown type. */
  ghost function Known(blocks: seq<Block>, n: nat): seq<nat>
    requires n <= |blocks|
  {
    if n == 0 then [] else if blocks[n - 1].Other? then Known(blocks, n - 1) else Known(blocks, n - 1) + [n - 1]
  }

  ghost predicate InOrder(places: seq<nat>, n: nat) {
    && (forall i :: 0 <= i < |places| ==> places[i] < n)
    && forall i, j :: 0 <= i < j < |places| ==> places[i] < places[j]
  }

  lemma {:induction false} KnownInOrder(blocks: seq<Block>, n: nat)
    requires n <= |blocks|
    ensures InOrder(Known(blocks, n), n)
    ensures forall i: nat :: i < n ==> (i in Known(blocks, n) <==> blocks[i].Text? || blocks[i].ToolUse?)
  {
    if n > 0 {
      KnownInOrder(blocks, n - 1);
      assert forall i: nat :: i in Known(blocks, n) <==> i in Known(blocks, n - 1) || (i == n - 1 && !blocks[i].Other?);
    }
  }

  /** The blocks that are stored: all texts and tool uses, each once and in order, and nothing else. */
  lemma KeptAreTheKnown(blocks: seq<Block>) returns (places: seq<nat>)
    ensures InOrder(places, |blocks|)
    ensures forall i: nat :: i < |blocks| ==> (i in places <==> blocks[i].Text? || blocks[i].ToolUse?)
    ensures Picks(Kept(blocks, |blocks|), blocks, places)
  {
    places := Known(blocks, |blocks|);
    KnownInOrder(blocks, |blocks|);
    KeptPicksKnown(blocks, |blocks|);
  }

  predicate Picks(kept: seq<Block>, blocks: seq<Block>, places: seq<nat>) {
    |kept| == |places| && forall i :: 0 <= i < |places| ==> places[i] < |blocks| && kept[i] == blocks[places[i]]
  }

  lemma OneMorePicked(kept: seq<Block>, blocks: seq<Block>, places: seq<nat>, i: nat)
    requires i < |blocks| && Picks(kept, blocks, places)
    ensures Picks(kept + [blocks[i]], blocks, places + [i])
  {
  }

  lemma {:induction false} KeptPicksKnown(blocks: seq<Block>, n: nat)
    requires n <= |blocks|
    ensures Picks(Kept(blocks, n), blocks, Known(blocks, n))
  {
    if n > 0 {
      KeptPicksKnown(blocks, n - 1);
      OneMorePicked(Kept(blocks, n - 1), blocks, Known(blocks, n - 1), n - 1);
    }
  }

  /** The streamed text, piece by piece: each text block adds its text, and no other block adds any. */
  lemma {:induction false} TextIsConcatenation(a: seq<Block>, b: seq<Block>, n: nat)
    requires n <= |b|
    ensures TextOf(a + b, |a| + n) == TextOf(a, |a|) + TextOf(b, n)
  {
    if n > 0 {
      TextIsConcatenation(a, b, n - 1);
      assert (a + b)[|a| + n - 1] == b[n - 1];
      if b[n - 1].Text? {
        Associative(TextOf(a, |a|), TextOf(b, n - 1), b[n - 1].text);
      }
    } else {
      TextOfPrefix(a, b, |a|);
    }
  }

  lemma {:induction false} TextOfPrefix(a: seq<Block>, b: seq<Block>, n: nat)
    requires n <= |a|
    ensures TextOf(a + b, n) == TextOf(a, n)
  {
    if n > 0 {
      TextOfPrefix(a, b, n - 1);
    }
  }

  lemma TextOfOne(block: Block)
    ensures TextOf([block], 1) == if block.Text? then block.text else ""
  {
    assert TextOf([block], 0) == "";
  }

  /** All blocks of the first `n` responses. */
  function AllBlocks(seen: seq<Response>, n: nat): seq<Block>
    requires n <= |seen|
  {
    if n == 0 then [] else AllBlocks(seen, n - 1) + seen[n - 1].content
  }

  /** The whole text is that of all blocks of all responses, in order. */
  lemma {:induction false} AllTextIsOfAllBlocks(seen: seq<Response>, n: nat)
    requires n <= |seen|
    ensures AllText(seen, n) == TextOf(AllBlocks(seen, n), |AllBlocks(seen, n)|)
  {
    if n > 0 {
      AllTextIsOfAllBlocks(seen, n - 1);
      TextIsConcatenation(AllBlocks(seen, n - 1), seen[n - 1].content, |seen[n - 1].content|);
    }
  }

  /** Dropping unknown blocks loses no tool use. */
  lemma {:induction false} ToolUsesOfKept(blocks: seq<Block>, n: nat)
    requires n <= |blocks|
    ensures ToolUses(Kept(blocks, n), |Kept(blocks, n)|) == ToolUses(blocks, n)
  {
    if n > 0 {
      var before := Kept(blocks, n - 1);
      ToolUsesOfKept(blocks, n - 1);
      ToolUsesOfPrefix(before, [blocks[n - 1]], |before|);
    }
  }

  /** Whether the user message answers every tool use of the assistant message, each once and in order. */
  predicate Pairs(assistant: Message, user: Message) {
    && assistant.Assistant? && user.Answers?
    && var uses := ToolUses(assistant.content, |assistant.content|);
    && |user.results| == |uses| > 0
    && forall k :: 0 <= k < |uses| ==> uses[k].ToolUse? && user.results[k].toolUseId == uses[k].id
  }

  /** The transcript grows by well-formed pairs and nothing else. */
  lemma {:induction false} TurnsArePairs(tools: Tools, seen: seq<Response>, n: nat, i: nat)
    requires i < n <= |seen| && AllUseTools(seen, n)
    ensures Pairs(Turns(tools, seen, n)[2 * i], Turns(tools, seen, n)[2 * i + 1])
    ensures var blocks := seen[i].content;
            && Turns(tools, seen, n)[2 * i] == Assistant(Kept(blocks, |blocks|))
            && Turns(tools, seen, n)[2 * i + 1] == Answers(Results(tools, Executions(seen, i), blocks, |blocks|))
    decreases n
  {
    if i < n - 1 {
      TurnsArePairs(tools, seen, n - 1, i);
      assert Turns(tools, seen, n)[2 * i] == Turns(tools, seen, n - 1)[2 * i];
      assert Turns(tools, seen, n)[2 * i + 1] == Turns(tools, seen, n - 1)[2 * i + 1];
    } else {
      var r, from := seen[i], Executions(seen, i);
      ToolUsesOfKept(r.content, |r.content|);
      ResultsAnswerToolUses(tools, from, r.content, |r.content|);
      assert Turns(tools, seen, n)[2 * i] == Turn(tools, from, r)[0];
      assert Turns(tools, seen, n)[2 * i + 1] == Turn(tools, from, r)[1];
    }
  }

  // ---- Totals ----

  /** Token and cost totals are the sums over all responses. */
  lemma {:induction false} TotalsAreSums(seen: seq<Response>, n: nat)
    requires n <= |seen|
    ensures match TotalUsage(seen, n)
            case None =>
              && SumOver(seen, n, InputOf) == 0 && SumOver(seen, n, OutputOf) == 0 && SumOver(seen, n, CostOf) == 0
            case Some(t) =>
              && t.input == SumOver(seen, n, InputOf)
              && t.output == SumOver(seen, n, OutputOf)
              && t.cost == SumOver(seen, n, CostOf)
  {
    if n > 0 {
      TotalsAreSums(seen, n - 1);
    }
  }

  /** The response has no usage object, or one without any key. */
  predicate NoUsage(r: Response) { r.usage == None || r.usage == Some(RawUsage(None, None, None, false)) }

  predicate FirstWithUsage(seen: seq<Response>, i: int) {
    0 <= i < |seen| && !NoUsage(seen[i]) && forall j :: 0 <= j < i ==> NoUsage(seen[j])
  }

  /** There is a total exactly if some response carries usage, and it names the model of the first that does. */
  lemma {:induction false} TotalNamesFirstModel(seen: seq<Response>, n: nat)
    requires n <= |seen|
    ensures match TotalUsage(seen, n)
            case None => forall i :: 0 <= i < n ==> NoUsage(seen[i])
            case Some(t) => exists i ::
                 && i < n && FirstWithUsage(seen, i) && t.provider == "anthropic"
                 && t.model == match seen[i].model case Some(model) => model case None => "unknown"
  {
    if n > 0 {
      TotalNamesFirstModel(seen, n - 1);
      if TotalUsage(seen, n - 1).None? && HasUsage(seen[n - 1]) {
        assert FirstWithUsage(seen, n - 1);
      }
    }
  }
}
