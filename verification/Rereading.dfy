/**
 * What becomes of the shared types when their text is read: floats may come back
 * as other floats, everything else as it was.
 */
module Rereading {
  import opened Basics
  import opened JsonValues
  import opened Abi

  // What reading floats again does to each type: only JSON carried as it is can hold any.

  function RereadKnown(again: Float -> Float, k: KnownContent): KnownContent {
    if k.ToolUse? then k.(input := Reread(again, k.input)) else k
  }

  function RereadContent(again: Float -> Float): Content -> Content {
    (c: Content) => match c case Known(k) => Known(RereadKnown(again, k)) case Raw(j) => Raw(Reread(again, j))
  }

  function RereadMessage(again: Float -> Float): Message -> Message {
    (m: Message) => m.(content := MapSeq(RereadContent(again), m.content))
  }

  function RereadTool(again: Float -> Float): ToolSpec -> ToolSpec {
    (t: ToolSpec) => t.(inputSchema := Reread(again, t.inputSchema))
  }

  function RereadTools(again: Float -> Float): seq<ToolSpec> -> seq<ToolSpec> {
    (tools: seq<ToolSpec>) => MapSeq(RereadTool(again), tools)
  }

  function RereadRequest(again: Float -> Float): LlmRequest -> LlmRequest {
    (r: LlmRequest) =>
      r.(messages := MapSeq(RereadMessage(again), r.messages), tools := MapSeq(RereadTool(again), r.tools))
  }

  function RereadResponse(again: Float -> Float): LlmResponse -> LlmResponse {
    (r: LlmResponse) => r.(content := MapSeq(RereadContent(again), r.content))
  }

  function RereadInvocation(again: Float -> Float): ToolInvokeRequest -> ToolInvokeRequest {
    (r: ToolInvokeRequest) => r.(input := Reread(again, r.input))
  }

  function RereadRecord(again: Float -> Float): ToolCallRecord -> ToolCallRecord {
    (r: ToolCallRecord) => r.(input := Reread(again, r.input))
  }

  function RereadOutput(again: Float -> Float): AgentOutput -> AgentOutput {
    (o: AgentOutput) => o.(toolCalls := MapSeq(RereadRecord(again), o.toolCalls))
  }

  function Same<T>(): T -> T { (x: T) => x }

  /** A text, flag or optional text field reads the same again. */
  lemma LeafReread(again: Float -> Float, j: Json, name: string)
    ensures var x, y := Field(Reread(again, j), name), Field(j, name);
            AsText(x) == AsText(y) && AsOptionalText(x) == AsOptionalText(y) && AsBool(x) == AsBool(y)
            && (x.None? <==> y.None?)
  {
    FieldReread(again, j, name);
    LeavesReread(again, Field(j, name));
  }

  lemma KnownReread(again: Float -> Float, j: Json)
    ensures KnownFromJson(Reread(again, j)) ==
              if KnownFromJson(j).None? then None else Some(RereadKnown(again, KnownFromJson(j).value))
  {
    hide Field, Reread, AsText, AsOptionalText, AsBool;
    LeafReread(again, j, "type");
    match AsText(Field(j, "type"))
    case Some("text") => LeafReread(again, j, "text");
    case Some("thinking") =>
      LeafReread(again, j, "thinking");
      LeafReread(again, j, "signature");
    case Some("redacted_thinking") => LeafReread(again, j, "data");
    case Some("tool_use") =>
      LeafReread(again, j, "id");
      LeafReread(again, j, "name");
      FieldReread(again, j, "input");
    case Some("tool_result") =>
      LeafReread(again, j, "tool_use_id");
      LeafReread(again, j, "content");
      LeafReread(again, j, "is_error");
    case _ =>
  }

  lemma ContentReread(again: Float -> Float)
    ensures Commutes(again, ContentItem, RereadContent(again))
  {
    hide KnownFromJson, Reread;
    forall j ensures ContentItem(Reread(again, j)) == Mapped(RereadContent(again), ContentItem(j)) {
      KnownReread(again, j);
    }
  }

  /** Reading again does not give JSON a known shape, nor take it away. */
  lemma RereadStable(again: Float -> Float, c: Content)
    ensures Stable(RereadContent(again)(c)) <==> Stable(c)
  {
    hide KnownFromJson, Reread, KnownShape;
    if c.Raw? {
      KnownReread(again, c.json);
      KnownShapeDecodes(c.json);
      KnownShapeDecodes(Reread(again, c.json));
    }
  }

  lemma MessageRereadAt(again: Float -> Float, j: Json)
    ensures MessageFromJson(Reread(again, j)) == Mapped(RereadMessage(again), MessageFromJson(j))
  {
    hide Field, Reread, ContentItem, AsText, DecodeArray, RereadContent, RereadOption, Commutes;
    ContentReread(again);
    FieldReread(again, j, "role");
    FieldReread(again, j, "content");
    LeavesReread(again, Field(j, "role"));
    ArrayReread(again, ContentItem, RereadContent(again), Field(j, "content"));
  }

  lemma MessageReread(again: Float -> Float)
    ensures Commutes(again, MessageFromJson, RereadMessage(again))
  {
    hide MessageFromJson, Reread, RereadMessage;
    forall j ensures MessageFromJson(Reread(again, j)) == Mapped(RereadMessage(again), MessageFromJson(j)) {
      MessageRereadAt(again, j);
    }
  }

  lemma ToolReread(again: Float -> Float)
    ensures Commutes(again, ToolSpecFromJson, RereadTool(again))
  {
    hide Field, Reread, AsText;
    forall j ensures ToolSpecFromJson(Reread(again, j)) == Mapped(RereadTool(again), ToolSpecFromJson(j)) {
      FieldReread(again, j, "name");
      FieldReread(again, j, "description");
      FieldReread(again, j, "input_schema");
      LeavesReread(again, Field(j, "name"));
      LeavesReread(again, Field(j, "description"));
    }
  }

  lemma ToolsReread(again: Float -> Float)
    ensures Commutes(again, ToolsListFromJson, RereadTools(again))
  {
    hide Field, Reread, ToolSpecFromJson, DecodeArray, RereadTool, RereadOption;
    ToolReread(again);
    forall j ensures ToolsListFromJson(Reread(again, j)) == Mapped(RereadTools(again), ToolsListFromJson(j)) {
      FieldReread(again, j, "tools");
      ArrayReread(again, ToolSpecFromJson, RereadTool(again), Field(j, "tools"));
    }
  }

  lemma RequestRereadAt(again: Float -> Float, j: Json)
    ensures LlmRequestFromJson(Reread(again, j)) == Mapped(RereadRequest(again), LlmRequestFromJson(j))
  {
    hide Field, ToolSpecFromJson, MessageFromJson, AsOptionalText, DecodeArray, RereadMessage, RereadTool, Commutes;
    MessageReread(again);
    ToolReread(again);
    FieldReread(again, j, "system");
    FieldReread(again, j, "messages");
    FieldReread(again, j, "tools");
    LeavesReread(again, Field(j, "system"));
    ArrayReread(again, MessageFromJson, RereadMessage(again), Field(j, "messages"));
    ArrayReread(again, ToolSpecFromJson, RereadTool(again), Field(j, "tools"));
    KindReread(again, j);
  }

  lemma RequestReread(again: Float -> Float)
    ensures Commutes(again, LlmRequestFromJson, RereadRequest(again))
  {
    hide LlmRequestFromJson, Reread, RereadRequest;
    forall j ensures LlmRequestFromJson(Reread(again, j)) == Mapped(RereadRequest(again), LlmRequestFromJson(j)) {
      RequestRereadAt(again, j);
    }
  }

  lemma KindReread(again: Float -> Float, j: Json)
    ensures Reread(again, j).JObject? <==> j.JObject?
    ensures j.JObject? ==> Reread(again, j).fields.Keys == j.fields.Keys
  {
  }

  lemma UsageReread(again: Float -> Float, j: Json)
    ensures UsageFromJson(Reread(again, j)) == UsageFromJson(j)
  {
    hide AsU64, Reread;
    KindReread(again, j);
    FieldReread(again, j, "input_tokens");
    FieldReread(again, j, "output_tokens");
    LeavesReread(again, Field(j, "input_tokens"));
    LeavesReread(again, Field(j, "output_tokens"));
  }

  lemma ResponseRereadAt(again: Float -> Float, j: Json)
    ensures LlmResponseFromJson(Reread(again, j)) == Mapped(RereadResponse(again), LlmResponseFromJson(j))
  {
    hide Field, Reread, ContentItem, AsText, DecodeArray, UsageFromJson, RereadContent, Commutes;
    ContentReread(again);
    FieldReread(again, j, "stop_reason");
    FieldReread(again, j, "content");
    FieldReread(again, j, "usage");
    LeavesReread(again, Field(j, "stop_reason"));
    ArrayReread(again, ContentItem, RereadContent(again), Field(j, "content"));
    if Field(j, "usage").Some? {
      UsageReread(again, Field(j, "usage").value);
    }
  }

  lemma ResponseReread(again: Float -> Float)
    ensures Commutes(again, LlmResponseFromJson, RereadResponse(again))
  {
    hide LlmResponseFromJson, Reread, RereadResponse;
    forall j ensures LlmResponseFromJson(Reread(again, j)) == Mapped(RereadResponse(again), LlmResponseFromJson(j)) {
      ResponseRereadAt(again, j);
    }
  }

  lemma InvocationReread(again: Float -> Float)
    ensures Commutes(again, ToolInvokeRequestFromJson, RereadInvocation(again))
  {
    hide Field, Reread, AsText;
    forall j
      ensures ToolInvokeRequestFromJson(Reread(again, j)) ==
                Mapped(RereadInvocation(again), ToolInvokeRequestFromJson(j))
    {
      FieldReread(again, j, "name");
      FieldReread(again, j, "input");
      LeavesReread(again, Field(j, "name"));
    }
  }

  lemma ToolTextReread(again: Float -> Float)
    ensures Commutes(again, ToolTextFromJson, Same())
  {
    hide Field, Reread, AsText;
    forall j ensures ToolTextFromJson(Reread(again, j)) == Mapped(Same(), ToolTextFromJson(j)) {
      FieldReread(again, j, "content");
      LeavesReread(again, Field(j, "content"));
    }
  }

  lemma InputReread(again: Float -> Float)
    ensures Commutes(again, AgentInputFromJson, Same())
  {
    hide Field, Reread, AsText, AsOptionalText, AsU32;
    forall j ensures AgentInputFromJson(Reread(again, j)) == Mapped(Same(), AgentInputFromJson(j)) {
      FieldReread(again, j, "task");
      FieldReread(again, j, "context");
      FieldReread(again, j, "max_steps");
      LeavesReread(again, Field(j, "task"));
      LeavesReread(again, Field(j, "context"));
      LeavesReread(again, Field(j, "max_steps"));
    }
  }

  lemma RecordReread(again: Float -> Float)
    ensures Commutes(again, RecordFromJson, RereadRecord(again))
  {
    hide Field, Reread, AsText, AsBool, AsU32;
    forall j ensures RecordFromJson(Reread(again, j)) == Mapped(RereadRecord(again), RecordFromJson(j)) {
      FieldReread(again, j, "step");
      FieldReread(again, j, "name");
      FieldReread(again, j, "input");
      FieldReread(again, j, "ok");
      FieldReread(again, j, "result");
      LeavesReread(again, Field(j, "step"));
      LeavesReread(again, Field(j, "name"));
      LeavesReread(again, Field(j, "ok"));
      LeavesReread(again, Field(j, "result"));
    }
  }

  lemma OutputRereadAt(again: Float -> Float, j: Json)
    ensures AgentOutputFromJson(Reread(again, j)) == Mapped(RereadOutput(again), AgentOutputFromJson(j))
  {
    hide Field, Reread, AsText, AsU32, UsageFromJson, RecordFromJson, DecodeArray, StopReasonFromText;
    hide RereadRecord, Commutes;
    RecordReread(again);
    FieldReread(again, j, "answer");
    FieldReread(again, j, "steps");
    FieldReread(again, j, "stop");
    FieldReread(again, j, "tool_calls");
    FieldReread(again, j, "usage");
    LeavesReread(again, Field(j, "answer"));
    LeavesReread(again, Field(j, "steps"));
    LeavesReread(again, Field(j, "stop"));
    ArrayReread(again, RecordFromJson, RereadRecord(again), Field(j, "tool_calls"));
    if Field(j, "usage").Some? {
      UsageReread(again, Field(j, "usage").value);
    }
  }

  lemma OutputReread(again: Float -> Float)
    ensures Commutes(again, AgentOutputFromJson, RereadOutput(again))
  {
    hide AgentOutputFromJson, Reread, RereadOutput;
    forall j ensures AgentOutputFromJson(Reread(again, j)) == Mapped(RereadOutput(again), AgentOutputFromJson(j)) {
      OutputRereadAt(again, j);
    }
  }

  function SeenAs<T>(g: T -> T, r: Cap<T>): Cap<T> {
    match r
    case Ok(v) => Ok(g(v))
    case Err(e) => Err(e)
  }

  lemma ErrorReread(again: Float -> Float, j: Json)
    ensures CapErrorFromJson(Reread(again, j)) == CapErrorFromJson(j)
  {
    hide Field, Reread, AsText;
    FieldReread(again, j, "kind");
    FieldReread(again, j, "message");
    LeavesReread(again, Field(j, "kind"));
    LeavesReread(again, Field(j, "message"));
  }

  lemma KeysDiffer()
    ensures {"ok"} != {"err"}
  {
    assert "ok" !in {"err"};
  }

  lemma OkReread<T(!new)>(again: Float -> Float, from: Json -> Option<T>, g: T -> T, j: Json)
    requires Commutes(again, from, g) && j.JObject? && j.fields.Keys == {"ok"}
    ensures EnvelopeFromJson(from, Reread(again, j)) ==
              var r := EnvelopeFromJson(from, j); if r.None? then None else Some(SeenAs(g, r.value))
  {
    hide CapErrorFromJson, Reread;
    KindReread(again, j);
    ObjectReread(again, j, "ok");
    assert from(Reread(again, j.fields["ok"])) == Mapped(g, from(j.fields["ok"]));
  }

  lemma ErrReread<T(!new)>(again: Float -> Float, from: Json -> Option<T>, g: T -> T, j: Json)
    requires j.JObject? && j.fields.Keys == {"err"}
    ensures EnvelopeFromJson(from, Reread(again, j)) ==
              var r := EnvelopeFromJson(from, j); if r.None? then None else Some(SeenAs(g, r.value))
  {
    hide CapErrorFromJson, Reread;
    KeysDiffer();
    KindReread(again, j);
    ObjectReread(again, j, "err");
    ErrorReread(again, j.fields["err"]);
  }

  lemma ObjectReread(again: Float -> Float, j: Json, name: string)
    requires j.JObject? && name in j.fields
    ensures var r := Reread(again, j);
            r.JObject? && name in r.fields && r.fields[name] == Reread(again, j.fields[name])
  {
  }

  lemma EnvelopeReread<T(!new)>(again: Float -> Float, from: Json -> Option<T>, g: T -> T, j: Json)
    requires Commutes(again, from, g)
    ensures EnvelopeFromJson(from, Reread(again, j)) ==
              var r := EnvelopeFromJson(from, j); if r.None? then None else Some(SeenAs(g, r.value))
  {
    hide CapErrorFromJson, Reread, Commutes, SeenAs;
    KindReread(again, j);
    if j.JObject? {
      if j.fields.Keys == {"ok"} {
        OkReread(again, from, g, j);
      } else if j.fields.Keys == {"err"} {
        ErrReread(again, from, g, j);
      }
    }
  }
}
