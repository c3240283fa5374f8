/**
 * How deep JSON may nest before a reader refuses it, and what that means for the
 * conversation: a reply can be too deep to send back, an output never is.
 */
module Nesting {
  import opened Basics
  import opened JsonValues
  import opened Abi
  import opened Rereading
  import opened Outside
  import opened Host
  import opened Agent
  import opened Calls
  import opened Turns
  import opened AgentRuns
  import Policies

  predicate BlocksWithin(content: seq<Content>, depth: nat) {
    forall c | c in content :: Within(ContentToJson(c), depth)
  }

  /** The guest can read a reply as long as its blocks stay within three levels of the reader's limit. */
  lemma ReplyReadable(r: LlmResponse)
    ensures Within(EnvelopeToJson(LlmResponseToJson, Ok(r)), MAX_DEPTH) <==> BlocksWithin(r.content, MAX_DEPTH - 3)
  {
    OkWithin(LlmResponseToJson, r, MAX_DEPTH - 1);
    ResponseWithin(r, MAX_DEPTH - 3);
  }

  lemma OkWithin<T>(to: T -> Json, v: T, depth: nat)
    ensures Within(EnvelopeToJson(to, Ok(v)), depth + 1) <==> Within(to(v), depth)
  {
    hide Within;
    WithinOne("ok", to(v), depth);
  }

  lemma WithinOne(name: string, j: Json, depth: nat)
    ensures Within(JObject(map[name := j]), depth + 1) <==> Within(j, depth)
  {
    assert map[name := j][name] == j;
  }

  lemma UsageWithin(u: Usage, depth: nat)
    requires depth > 0
    ensures Within(UsageToJson(u), depth)
  {
  }

  lemma ResponseWithin(r: LlmResponse, depth: nat)
    ensures Within(LlmResponseToJson(r), depth + 2) <==> BlocksWithin(r.content, depth)
  {
    hide ContentToJson, UsageToJson, BlocksWithin;
    ItemsWithin(r.content, depth);
    UsageWithin(r.usage, depth + 1);
    assert LlmResponseToJson(r).fields["content"] == JArray(MapSeq(ContentToJson, r.content));
  }

  lemma ItemsWithin(content: seq<Content>, depth: nat)
    ensures Within(JArray(MapSeq(ContentToJson, content)), depth + 1) <==> BlocksWithin(content, depth)
  {
    hide ContentToJson;
    var items := MapSeq(ContentToJson, content);
    if BlocksWithin(content, depth) {
      assert forall i | 0 <= i < |items| :: items[i] == ContentToJson(content[i]) && content[i] in content;
    }
  }

  lemma MessageWithin(m: Message, depth: nat)
    ensures Within(MessageToJson(m), depth + 2) <==> BlocksWithin(m.content, depth)
  {
    ItemsWithin(m.content, depth);
    assert MessageToJson(m).fields["content"] == JArray(MapSeq(ContentToJson, m.content));
  }

  /** Sent back in a request, the same blocks sit one level deeper. */
  lemma RequestReadable(r: LlmRequest)
    ensures Within(LlmRequestToJson(r), MAX_DEPTH) <==>
              && (forall m | m in r.messages :: BlocksWithin(m.content, MAX_DEPTH - 4))
              && (forall t | t in r.tools :: Within(ToolSpecToJson(t), MAX_DEPTH - 2))
  {
    hide MessageToJson, ToolSpecToJson, BlocksWithin;
    var j, messages, tools := LlmRequestToJson(r), MapSeq(MessageToJson, r.messages), MapSeq(ToolSpecToJson, r.tools);
    assert j.fields["messages"] == JArray(messages) && j.fields["tools"] == JArray(tools);
    assert Within(j, MAX_DEPTH) <==> Within(JArray(messages), MAX_DEPTH - 1) && Within(JArray(tools), MAX_DEPTH - 1);
    forall i | 0 <= i < |r.messages|
      ensures Within(messages[i], MAX_DEPTH - 2) <==> BlocksWithin(r.messages[i].content, MAX_DEPTH - 4)
    {
      MessageWithin(r.messages[i], MAX_DEPTH - 4);
    }
  }

  /** The request of the next turn: the reply goes back, and with it its tool results. */
  function NextRequest(request: LlmRequest, reply: seq<Content>, results: seq<Content>): LlmRequest {
    request.(messages := request.messages + [Message(Assistant, reply), Message(User, results)])
  }

  /**
   * A reply that was heard can be sent back exactly if none of its blocks nests as
   * deep as the guest could still read.
   */
  lemma EchoLimit(request: LlmRequest, reply: LlmResponse, results: seq<Content>)
    requires Within(LlmRequestToJson(request), MAX_DEPTH)
    requires Within(EnvelopeToJson(LlmResponseToJson, Ok(reply)), MAX_DEPTH)
    requires forall c | c in results :: c.Known? && c.block.ToolResult?
    ensures Within(LlmRequestToJson(NextRequest(request, reply.content, results)), MAX_DEPTH) <==>
              BlocksWithin(reply.content, MAX_DEPTH - 4)
  {
    hide LlmRequestToJson, EnvelopeToJson, Within;
    var next := NextRequest(request, reply.content, results);
    RequestReadable(request);
    RequestReadable(next);
    ReplyReadable(reply);
    ResultsAreShallow(results);
    var n := |request.messages|;
    assert next.messages[n].content == reply.content && next.messages[n + 1].content == results;
    forall m | m in next.messages
      ensures m in request.messages || m == next.messages[n] || m == next.messages[n + 1]
    {
    }
  }

  lemma ResultsAreShallow(results: seq<Content>)
    requires forall c | c in results :: c.Known? && c.block.ToolResult?
    ensures BlocksWithin(results, MAX_DEPTH - 4)
  {
  }

  /** `n` arrays, one in the other. */
  function Nest(n: nat): Json { if n == 0 then JNull else JArray([Nest(n - 1)]) }

  lemma {:induction false} NestWithin(n: nat, depth: nat)
    ensures Within(Nest(n), depth) <==> n <= depth
  {
    if n > 0 && depth > 0 {
      NestWithin(n - 1, depth - 1);
      assert Nest(n).items[0] == Nest(n - 1);
    }
  }

  /** Of arrays in arrays a lossless codec takes 127, and no more. */
  lemma ReaderDepth(w: Wire, n: nat)
    requires Lossless(w)
    ensures w.dec(w.enc(Nest(n))).Some? <==> n <= 127
  {
    hide Within, Nest, Reread;
    NestWithin(n, MAX_DEPTH);
  }

  /** A tool call whose argument nests 123 deep is heard, but the conversation cannot go on from it. */
  lemma DeepReplyIsADeadEnd(request: LlmRequest, results: seq<Content>)
    requires Within(LlmRequestToJson(request), MAX_DEPTH)
    requires forall c | c in results :: c.Known? && c.block.ToolResult?
    ensures var reply := LlmResponse("tool_use", [Known(ToolUse("id", "now", Nest(MAX_DEPTH - 4)))], NO_USAGE);
            && Within(EnvelopeToJson(LlmResponseToJson, Ok(reply)), MAX_DEPTH)
            && !Within(LlmRequestToJson(NextRequest(request, reply.content, results)), MAX_DEPTH)
  {
    hide LlmRequestToJson, EnvelopeToJson, Nest;
    var block := Known(ToolUse("id", "now", Nest(MAX_DEPTH - 4)));
    var reply := LlmResponse("tool_use", [block], NO_USAGE);
    NestWithin(MAX_DEPTH - 4, MAX_DEPTH - 4);
    NestWithin(MAX_DEPTH - 4, MAX_DEPTH - 5);
    assert ContentToJson(block).fields["input"] == Nest(MAX_DEPTH - 4);
    assert Within(ContentToJson(block), MAX_DEPTH - 3) && !Within(ContentToJson(block), MAX_DEPTH - 4);
    assert block in reply.content;
    ReplyReadable(reply);
    EchoLimit(request, reply, results);
  }

  /**
   * The dead end as a property of runs: once a block of the conversation nests as
   * deep as the guest could still read, the run ends in an error with that turn.
   */
  lemma DeepRunFails(g: Imports, s: Setup, ws: nat -> World, requested: AgentInput, n: u32, m: Message)
    requires Policies.Valid(s.policy) && Lossless(s.wire) && Linked(g, s, ws)
    requires n < Clamped(s.policy, requested).maxSteps
    requires var p := After(g, FRESH, Clamped(s.policy, requested), n);
             p.Running? && m in p.st.messages && !BlocksWithin(m.content, MAX_DEPTH - 4)
    ensures var out := AgentRun(g, FRESH, Clamped(s.policy, requested)).out;
            out.stop == StopReason.Error && out.steps == n
  {
    hide After, AgentRun, AnswerTo, LlmRequestToJson, BlocksWithin, Within, Serve;
    var st := After(g, FRESH, Clamped(s.policy, requested), n).st;
    ErrorIff(g, s, ws, requested);
    RequestReadable(RequestOf(st));
    assert FailsAt(g, s, ws, Clamped(s.policy, requested), n);
  }

  /** Such a request is refused as malformed, and the provider is not asked. */
  lemma UnreadableRequest(s: Setup, w: World, h: State, request: LlmRequest)
    requires Lossless(s.wire) && h.llmCalls < s.policy.limits.maxSteps
    requires forall m | m in request.messages :: StableMessage(m)
    requires !Within(LlmRequestToJson(request), MAX_DEPTH)
    requires |s.wire.enc(LlmRequestToJson(request))| <= s.policy.limits.maxRequestBytes
    requires |RespondError(s.wire, Invalid("malformed"))| < TWO_31
    ensures AskModel(s, w, h, request) == (h.(pending := []), Err(Invalid("malformed")))
  {
    hide RespondError, Respond, Understand, LlmRequestToJson, TooLarge, Within, Handled, Commutes, RereadResponse;
    DispatchModel(s, w, h, request);
    ResponseReread(s.wire.again);
    ErrorHeard(s, LlmResponseFromJson, RereadResponse(s.wire.again), Invalid("malformed"));
  }

  // --------------------------------------------------------------------------
  // The output of a run
  // --------------------------------------------------------------------------

  lemma {:induction false} DecodedWithin(items: seq<Json>, depth: nat)
    requires forall i | 0 <= i < |items| :: Within(items[i], depth)
    ensures var content := DecodeItems(ContentItem, items);
            content.Some? && forall c | c in content.value && c.Known? && c.block.ToolUse? ::
              depth > 0 && Within(c.block.input, depth - 1)
  {
    if items != [] {
      DecodedWithin(items[1..], depth);
      var c := ContentFromJson(items[0]);
      if c.Known? && c.block.ToolUse? {
        assert c.block.input == items[0].fields["input"];
      }
    }
  }

  predicate UsesWithin(uses: seq<Use>, depth: nat) { forall u | u in uses :: Within(u.input, depth) }

  lemma {:induction false} ToolUsesWithin(content: seq<Content>, depth: nat)
    requires forall c | c in content && c.Known? && c.block.ToolUse? :: Within(c.block.input, depth)
    ensures UsesWithin(ToolUses(content), depth)
  {
    hide Within;
    if content != [] {
      assert content[0] in content;
      ToolUsesWithin(content[1..], depth);
    }
  }

  /** Tool arguments in a reply that was read leave room for the levels around them. */
  lemma HeardUsesWithin(wire: Wire, response: seq<byte>)
    requires Lossless(wire)
    ensures var r := Understand(wire, LlmResponseFromJson, response);
            r.Ok? ==> UsesWithin(ToolUses(r.value.content), MAX_DEPTH - 4)
  {
    hide ContentItem, ToolUses;
    var r := Understand(wire, LlmResponseFromJson, response);
    if r.Ok? {
      var ok := wire.dec(response).value.fields["ok"];
      var items := ok.fields["content"].items;
      assert Within(ok, MAX_DEPTH - 1) && Within(ok.fields["content"], MAX_DEPTH - 2);
      DecodedWithin(items, MAX_DEPTH - 3);
      ToolUsesWithin(r.value.content, MAX_DEPTH - 4);
    }
  }

  predicate RecordWithin(record: seq<ToolCallRecord>) { forall r | r in record :: Within(r.input, MAX_DEPTH - 4) }

  lemma StepRecordWithin(g: Imports, s: Setup, ws: nat -> World, st: Loop, step: u32)
    requires Lossless(s.wire) && Linked(g, s, ws) && step >= 1 && RecordWithin(st.record)
    ensures match OneStep(g, st, step)
            case Running(st') => RecordWithin(st'.record)
            case Done(st', out) => out.toolCalls == st.record
  {
    hide Serve, Understand, ToolUses, RunUses, JoinedText, Emit, Within;
    var served := Serve(s, ws(st.clock), st.h, LlmComplete, s.wire.enc(LlmRequestToJson(RequestOf(st))));
    HeardUsesWithin(s.wire, served.1);
    assert g.complete(st.clock, st.h, RequestOf(st)) == AskModel(s, ws(st.clock), st.h, RequestOf(st));
  }

  lemma StartHasNoRecord(g: Imports, h: State, input: AgentInput)
    ensures Start(g, h, input).record == []
  {
  }

  lemma {:induction false} LoopRecordWithin(g: Imports, s: Setup, ws: nat -> World, h: State, input: AgentInput, n: u32)
    requires Lossless(s.wire) && Linked(g, s, ws)
    ensures match After(g, h, input, n)
            case Running(st) => RecordWithin(st.record)
            case Done(_, out) => RecordWithin(out.toolCalls)
  {
    hide OneStep, Start, AskModel, AskList, AskTool, Emit, Within;
    if n == 0 {
      StartHasNoRecord(g, h, input);
    } else {
      LoopRecordWithin(g, s, ws, h, input, n - 1);
      match After(g, h, input, n - 1) {
        case Running(st) => StepRecordWithin(g, s, ws, st, n);
        case Done(_, _) =>
      }
    }
  }

  lemma CallsWithin(record: seq<ToolCallRecord>, depth: nat)
    requires forall r | r in record :: Within(r.input, depth)
    ensures Within(JArray(MapSeq(RecordToJson, record)), depth + 2)
  {
    hide RecordToJson;
    var calls := MapSeq(RecordToJson, record);
    forall i | 0 <= i < |calls| ensures Within(calls[i], depth + 1) {
      RecordJsonWithin(record[i], depth);
    }
  }

  lemma OutputWithin(o: AgentOutput, depth: nat)
    requires forall r | r in o.toolCalls :: Within(r.input, depth)
    ensures Within(AgentOutputToJson(o), depth + 3)
  {
    hide RecordToJson, StopReasonText, UsageToJson;
    CallsWithin(o.toolCalls, depth);
    UsageWithin(o.usage, depth + 2);
  }

  lemma RecordJsonWithin(r: ToolCallRecord, depth: nat)
    requires Within(r.input, depth)
    ensures Within(RecordToJson(r), depth + 1)
  {
  }

  lemma {:induction false} WithinMore(j: Json, depth: nat)
    requires Within(j, depth)
    ensures Within(j, depth + 1)
    decreases depth
  {
    match j
    case JArray(items) =>
      forall i | 0 <= i < |items| ensures Within(items[i], depth) {
        WithinMore(items[i], depth - 1);
      }
    case JObject(fields) =>
      forall k | k in fields ensures Within(fields[k], depth) {
        WithinMore(fields[k], depth - 1);
      }
    case _ =>
  }

  /** Whatever the provider answers, the host can read the output of the run. */
  lemma OutputReadable(g: Imports, s: Setup, ws: nat -> World, h: State, input: AgentInput)
    requires Lossless(s.wire) && Linked(g, s, ws)
    ensures var out := AgentRun(g, h, input).out;
            Parse(s.wire, AgentOutputFromJson, s.wire.enc(AgentOutputToJson(out))) ==
              Some(RereadOutput(s.wire.again)(out))
  {
    hide After, AgentOutputToJson, AgentOutputFromJson, AskModel, AskList, AskTool, Emit, Within, RereadOutput;
    LoopRecordWithin(g, s, ws, h, input, StepCap(input));
    var out := AgentRun(g, h, input).out;
    OutputWithin(out, MAX_DEPTH - 4);
    WithinMore(AgentOutputToJson(out), MAX_DEPTH - 1);
    AgentOutputRoundTrip(out);
    OutputReread(s.wire.again);
  }

  lemma InputWithin(input: AgentInput)
    ensures Within(AgentInputToJson(input), MAX_DEPTH)
  {
  }

  /** The input of a run is always short of the limit, and holds no floats. */
  lemma InputReadable(wire: Wire, input: AgentInput)
    requires Lossless(wire)
    ensures Parse(wire, AgentInputFromJson, wire.enc(AgentInputToJson(input))) == Some(input)
  {
    hide AgentInputToJson, AgentInputFromJson, Reread;
    AgentInputRoundTrip(input);
    InputReread(wire.again);
    InputWithin(input);
  }
}
