/** The types host and guest share, and the JSON shape of each (`tds-abi`). */
module Abi {
  import opened Basics
  import opened JsonValues

  // --------------------------------------------------------------------------
  // Packed pointers
  // --------------------------------------------------------------------------

  /** `pack_ptr_len`, with the shift and the or of disjoint halves as arithmetic; see `PackOnBits`. */
  function PackPtrLen(ptr: u32, len: u32): u64 { ptr * TWO_32 + len }

  function UnpackPtrLen(packed: u64): (u32, u32) { (packed / TWO_32, packed % TWO_32) }

  /** Pairs of 32-bit words and 64-bit words correspond one to one. */
  lemma PackBijective(ptr: u32, len: u32, packed: u64)
    ensures UnpackPtrLen(PackPtrLen(ptr, len)) == (ptr, len)
    ensures PackPtrLen(UnpackPtrLen(packed).0, UnpackPtrLen(packed).1) == packed
  {
    assert (ptr * TWO_32 + len) / TWO_32 == ptr;
  }

  /** On machine words the shifts, mask and or of the code are this arithmetic. */
  lemma PackOnBits(ptr: bv32, len: bv32, packed: bv64)
    ensures ((ptr as bv64) << 32) | (len as bv64) == (ptr as bv64) * 0x1_0000_0000 + (len as bv64)
    ensures packed >> 32 == packed / 0x1_0000_0000 && packed & 0xffff_ffff == packed % 0x1_0000_0000
  {
  }

  // --------------------------------------------------------------------------
  // Capability envelope
  // --------------------------------------------------------------------------

  const BAD_POINTER := -1
  const BAD_REQUEST := -2
  const INTERNAL := -3

  datatype LogLevel = Debug | Info | Warn | Error

  /** `LogLevel::from_i32`: anything unknown is `Info`. */
  function LevelFromCode(v: int): LogLevel {
    match v
    case 0 => Debug
    case 2 => Warn
    case 3 => LogLevel.Error
    case _ => Info
  }

  function LevelCode(l: LogLevel): int {
    match l
    case Debug => 0
    case Info => 1
    case Warn => 2
    case Error => 3
  }

  datatype Capability = ToolsList | ToolInvoke | LlmComplete

  /** The names of `tds_abi::cap`. */
  function CapabilityName(c: Capability): string {
    match c
    case ToolsList => "tools.list"
    case ToolInvoke => "tool.invoke"
    case LlmComplete => "llm.complete"
  }

  function CapabilityOf(name: string): Option<Capability> {
    match name
    case "tools.list" => Some(ToolsList)
    case "tool.invoke" => Some(ToolInvoke)
    case "llm.complete" => Some(LlmComplete)
    case _ => None
  }

  lemma CapabilityNamed(c: Capability, name: string)
    ensures CapabilityOf(name) == Some(c) <==> name == CapabilityName(c)
  {
  }

  datatype CapError = CapError(kind: string, message: string) {
    /** `Display`. */
    function Show(): string { kind + ": " + message }
  }

  function Denied(message: string): CapError { CapError("denied", message) }
  function NotFound(message: string): CapError { CapError("not_found", message) }
  function Upstream(message: string): CapError { CapError("upstream", message) }
  function Invalid(message: string): CapError { CapError("invalid", message) }

  type Cap<T> = Result<T, CapError>

  function CapErrorToJson(e: CapError): Json {
    JObject(map["kind" := JStr(e.kind), "message" := JStr(e.message)])
  }

  function CapErrorFromJson(j: Json): Option<CapError> {
    var kind, message := AsText(Field(j, "kind")), AsText(Field(j, "message"));
    if kind.None? || message.None? then None else Some(CapError(kind.value, message.value))
  }

  /** `CapResponse`: an object with the one key `ok` or the one key `err`. */
  function EnvelopeToJson<T>(to: T -> Json, r: Cap<T>): Json {
    match r
    case Ok(v) => JObject(map["ok" := to(v)])
    case Err(e) => JObject(map["err" := CapErrorToJson(e)])
  }

  function EnvelopeFromJson<T>(from: Json -> Option<T>, j: Json): Option<Cap<T>> {
    if j.JObject? && j.fields.Keys == {"ok"} then
      var v := from(j.fields["ok"]);
      if v.None? then None else Some(Ok(v.value))
    else if j.JObject? && j.fields.Keys == {"err"} then
      var e := CapErrorFromJson(j.fields["err"]);
      if e.None? then None else Some(Err(e.value))
    else None
  }

  lemma EnvelopeRoundTrip<S, T>(to: S -> Json, from: Json -> Option<T>, r: Cap<S>, seen: Cap<T>)
    requires r.Ok? ==> seen.Ok? && from(to(r.value)) == Some(seen.value)
    requires r.Err? ==> seen == Err(r.error)
    ensures EnvelopeFromJson(from, EnvelopeToJson(to, r)) == Some(seen)
  {
  }

  // --------------------------------------------------------------------------
  // Content blocks
  // --------------------------------------------------------------------------

  datatype KnownContent =
    | Text(text: string)
    | Thinking(thinking: string, signature: Option<string>)
    | RedactedThinking(data: string)
    | ToolUse(id: string, name: string, input: Json)
    | ToolResult(toolUseId: string, content: string, isError: bool)

  datatype Content = Known(block: KnownContent) | Raw(json: Json)

  function KnownToJson(k: KnownContent): Json {
    match k
    case Text(text) =>
      JObject(map["type" := JStr("text"), "text" := JStr(text)])
    case Thinking(thinking, signature) =>
      var fields := map["type" := JStr("thinking"), "thinking" := JStr(thinking)];
      JObject(if signature.None? then fields else fields["signature" := JStr(signature.value)])
    case RedactedThinking(data) =>
      JObject(map["type" := JStr("redacted_thinking"), "data" := JStr(data)])
    case ToolUse(id, name, input) =>
      JObject(map["type" := JStr("tool_use"), "id" := JStr(id), "name" := JStr(name), "input" := input])
    case ToolResult(id, content, isError) =>
      var fields := map["type" := JStr("tool_result"), "tool_use_id" := JStr(id), "content" := JStr(content)];
      JObject(if isError then fields["is_error" := JBool(true)] else fields)
  }

  /** The internally tagged decoder: extra fields are ignored, defaults filled in. */
  function KnownFromJson(j: Json): Option<KnownContent> {
    match AsText(Field(j, "type"))
    case None => None
    case Some("text") =>
      var text := AsText(Field(j, "text"));
      if text.None? then None else Some(Text(text.value))
    case Some("thinking") =>
      var thinking, signature := AsText(Field(j, "thinking")), AsOptionalText(Field(j, "signature"));
      if thinking.None? || signature.None? then None else Some(Thinking(thinking.value, signature.value))
    case Some("redacted_thinking") =>
      var data := AsText(Field(j, "data"));
      if data.None? then None else Some(RedactedThinking(data.value))
    case Some("tool_use") =>
      var id, name, input := AsText(Field(j, "id")), AsText(Field(j, "name")), Field(j, "input");
      if id.None? || name.None? || input.None? then None else Some(ToolUse(id.value, name.value, input.value))
    case Some("tool_result") =>
      var id, content := AsText(Field(j, "tool_use_id")), AsText(Field(j, "content"));
      var isError := if Field(j, "is_error").None? then Some(false) else AsBool(Field(j, "is_error"));
      if id.None? || content.None? || isError.None? then None
      else Some(ToolResult(id.value, content.value, isError.value))
    case Some(_) => None
  }

  function ContentToJson(c: Content): Json {
    match c
    case Known(k) => KnownToJson(k)
    case Raw(j) => j
  }

  /** The untagged decoder: a known shape if there is one, otherwise the value itself. */
  function ContentFromJson(j: Json): Content {
    match KnownFromJson(j)
    case Some(k) => Known(k)
    case None => Raw(j)
  }

  /** `j` has the fields, of the types, that one of the five known blocks requires. */
  predicate KnownShape(j: Json) {
    && j.JObject?
    && (
      || (HasText(j, "type", "text") && IsText(j, "text"))
      || (HasText(j, "type", "thinking") && IsText(j, "thinking")
          && ("signature" in j.fields ==> j.fields["signature"].JNull? || j.fields["signature"].JStr?))
      || (HasText(j, "type", "redacted_thinking") && IsText(j, "data"))
      || (HasText(j, "type", "tool_use") && IsText(j, "id") && IsText(j, "name") && "input" in j.fields)
      || (HasText(j, "type", "tool_result") && IsText(j, "tool_use_id") && IsText(j, "content")
          && ("is_error" in j.fields ==> j.fields["is_error"].JBool?))
    )
  }

  predicate IsText(j: Json, name: string)
    requires j.JObject?
  {
    name in j.fields && j.fields[name].JStr?
  }

  predicate HasText(j: Json, name: string, value: string)
    requires j.JObject?
  {
    name in j.fields && j.fields[name] == JStr(value)
  }

  /** A known block with no field beyond its own and no optional field spelled out needlessly. */
  predicate Canonical(j: Json)
    requires KnownShape(j)
  {
    var keys := j.fields.Keys;
    if HasText(j, "type", "text") then keys == {"type", "text"}
    else if HasText(j, "type", "thinking") then
      || keys == {"type", "thinking"}
      || (keys == {"type", "thinking", "signature"} && j.fields["signature"].JStr?)
    else if HasText(j, "type", "redacted_thinking") then keys == {"type", "data"}
    else if HasText(j, "type", "tool_use") then keys == {"type", "id", "name", "input"}
    else
      || keys == {"type", "tool_use_id", "content"}
      || (keys == {"type", "tool_use_id", "content", "is_error"} && j.fields["is_error"] == JBool(true))
  }

  lemma KnownShapeDecodes(j: Json)
    ensures KnownFromJson(j).Some? <==> KnownShape(j)
  {
  }

  lemma KnownRoundTrip(k: KnownContent)
    ensures KnownFromJson(KnownToJson(k)) == Some(k)
  {
  }

  /** A block comes back as itself unless it is raw JSON that has a known shape. */
  lemma ContentRoundTrip(c: Content)
    ensures ContentFromJson(ContentToJson(c)) == c <==> (c.Raw? ==> !KnownShape(c.json))
  {
    if c.Known? {
      KnownRoundTrip(c.block);
    } else {
      KnownShapeDecodes(c.json);
    }
  }

  /** A JSON block is re-emitted unchanged exactly when it is unknown or canonical. */
  lemma JsonRoundTrip(j: Json)
    ensures ContentToJson(ContentFromJson(j)) == j <==> (KnownShape(j) ==> Canonical(j))
  {
    hide KnownFromJson, KnownToJson, Canonical, KnownShape;
    KnownShapeDecodes(j);
    if KnownShape(j) {
      CanonicalKeys(j);
      var again := KnownToJson(KnownFromJson(j).value);
      forall name | name in again.fields ensures name in j.fields && again.fields[name] == j.fields[name] {
        ReencodingOnlyDrops(j, name);
      }
      assert again.fields.Keys == j.fields.Keys ==> again.fields == j.fields;
    }
  }

  /** Canonical blocks are those that lose no field. */
  lemma CanonicalKeys(j: Json)
    requires KnownShape(j)
    ensures j.JObject? && KnownFromJson(j).Some?
    ensures var again := KnownToJson(KnownFromJson(j).value);
            again.JObject? && (again.fields.Keys == j.fields.Keys <==> Canonical(j))
  {
  }

  /** "Echoed back verbatim" fails for a known block with a field of its own beyond the five shapes. */
  lemma NotAlwaysVerbatim()
    ensures var j := JObject(map["type" := JStr("text"), "text" := JStr("hi"), "citations" := JArray([])]);
            KnownShape(j) && !Canonical(j) && ContentToJson(ContentFromJson(j)) != j
  {
    var j := JObject(map["type" := JStr("text"), "text" := JStr("hi"), "citations" := JArray([])]);
    assert "citations" in j.fields;
    JsonRoundTrip(j);
  }

  /** Re-emitting a block invents nothing: every field that comes out went in, unchanged. */
  lemma ReencodingOnlyDrops(j: Json, name: string)
    requires j.JObject?
    ensures var again := ContentToJson(ContentFromJson(j));
            again.JObject? && (name in again.fields ==> name in j.fields && again.fields[name] == j.fields[name])
    ensures KnownShape(j) && HasText(j, "type", "thinking") && IsText(j, "signature") ==>
              var again := ContentToJson(ContentFromJson(j));
              HasText(again, "type", "thinking") && again.fields["signature"] == j.fields["signature"]
              && again.fields["thinking"] == j.fields["thinking"]
  {
    KnownShapeDecodes(j);
  }

  /** One crossing of the sandbox boundary: encoded on one side, decoded on the other. */
  function Cross(c: Content): Content { ContentFromJson(ContentToJson(c)) }

  function Crossings(c: Content, n: nat): Content {
    if n == 0 then c else Cross(Crossings(c, n - 1))
  }

  predicate Stable(c: Content) { c.Raw? ==> !KnownShape(c.json) }

  lemma ReceivedIsStable(j: Json)
    ensures Stable(ContentFromJson(j))
    ensures Cross(ContentFromJson(j)) == ContentFromJson(j)
  {
    KnownShapeDecodes(j);
    ContentRoundTrip(ContentFromJson(j));
  }

  /** A block once received is the same after any number of further crossings; so is any block after one. */
  lemma {:induction false} CrossingsSettle(c: Content, n: nat)
    ensures Stable(c) ==> Crossings(c, n) == c
    ensures n >= 1 ==> Crossings(c, n) == Cross(c) && Stable(Cross(c))
  {
    ContentRoundTrip(c);
    ReceivedIsStable(ContentToJson(c));
    if n > 0 {
      CrossingsSettle(c, n - 1);
    }
  }

  // --------------------------------------------------------------------------
  // Messages
  // --------------------------------------------------------------------------

  datatype Role = User | Assistant

  datatype Message = Message(role: Role, content: seq<Content>)

  /** Decoding a block never fails. */
  function ContentItem(j: Json): Option<Content> { Some(ContentFromJson(j)) }

  function MessageToJson(m: Message): Json {
    JObject(map["role" := JStr(if m.role.User? then "user" else "assistant"),
                "content" := JArray(MapSeq(ContentToJson, m.content))])
  }

  function MessageFromJson(j: Json): Option<Message> {
    var role := AsText(Field(j, "role"));
    var content := DecodeArray(ContentItem, Field(j, "content"));
    if content.None? then None
    else if role == Some("user") then Some(Message(User, content.value))
    else if role == Some("assistant") then Some(Message(Assistant, content.value))
    else None
  }

  predicate StableMessage(m: Message) { forall c | c in m.content :: Stable(c) }

  lemma ContentsRoundTrip(content: seq<Content>)
    ensures DecodeItems(ContentItem, MapSeq(ContentToJson, content)) == Some(MapSeq(Cross, content))
  {
    ItemsRoundTrip(ContentToJson, ContentItem, content, MapSeq(Cross, content));
  }

  lemma StableCrossing(content: seq<Content>)
    requires forall c | c in content :: Stable(c)
    ensures MapSeq(Cross, content) == content
  {
    forall i | 0 <= i < |content| ensures Cross(content[i]) == content[i] {
      assert Stable(content[i]);
      ContentRoundTrip(content[i]);
    }
  }

  lemma MessageRoundTrip(m: Message)
    requires StableMessage(m)
    ensures MessageFromJson(MessageToJson(m)) == Some(m)
  {
    ContentsRoundTrip(m.content);
    StableCrossing(m.content);
  }

  datatype ToolSpec = ToolSpec(name: string, description: string, inputSchema: Json)

  function ToolSpecToJson(t: ToolSpec): Json {
    JObject(map["name" := JStr(t.name), "description" := JStr(t.description), "input_schema" := t.inputSchema])
  }

  function ToolSpecFromJson(j: Json): Option<ToolSpec> {
    var name, description := AsText(Field(j, "name")), AsText(Field(j, "description"));
    var schema := Field(j, "input_schema");
    if name.None? || description.None? || schema.None? then None
    else Some(ToolSpec(name.value, description.value, schema.value))
  }

  lemma ToolSpecsRoundTrip(tools: seq<ToolSpec>)
    ensures DecodeItems(ToolSpecFromJson, MapSeq(ToolSpecToJson, tools)) == Some(tools)
  {
    ItemsRoundTrip(ToolSpecToJson, ToolSpecFromJson, tools, tools);
  }

  function ToolsListToJson(tools: seq<ToolSpec>): Json {
    JObject(map["tools" := JArray(MapSeq(ToolSpecToJson, tools))])
  }

  function ToolsListFromJson(j: Json): Option<seq<ToolSpec>> {
    DecodeArray(ToolSpecFromJson, Field(j, "tools"))
  }

  datatype LlmRequest = LlmRequest(system: Option<string>, messages: seq<Message>, tools: seq<ToolSpec>)

  function LlmRequestToJson(r: LlmRequest): Json {
    var fields := map["messages" := JArray(MapSeq(MessageToJson, r.messages)),
                      "tools" := JArray(MapSeq(ToolSpecToJson, r.tools))];
    JObject(if r.system.None? then fields else fields["system" := JStr(r.system.value)])
  }

  function LlmRequestFromJson(j: Json): Option<LlmRequest> {
    var system := AsOptionalText(Field(j, "system"));
    var messages := DecodeArray(MessageFromJson, Field(j, "messages"));
    var tools := if Field(j, "tools").None? && j.JObject? then Some([])
                 else DecodeArray(ToolSpecFromJson, Field(j, "tools"));
    if system.None? || messages.None? || tools.None? then None
    else Some(LlmRequest(system.value, messages.value, tools.value))
  }

  /** A request built from stable blocks reaches the provider exactly as the guest wrote it. */
  lemma LlmRequestRoundTrip(r: LlmRequest)
    requires forall m | m in r.messages :: StableMessage(m)
    ensures LlmRequestFromJson(LlmRequestToJson(r)) == Some(r)
  {
    hide MessageToJson, MessageFromJson, ToolSpecToJson, ToolSpecFromJson, StableMessage;
    forall i | 0 <= i < |r.messages| ensures MessageFromJson(MessageToJson(r.messages[i])) == Some(r.messages[i]) {
      assert r.messages[i] in r.messages;
      MessageRoundTrip(r.messages[i]);
    }
    ItemsRoundTrip(MessageToJson, MessageFromJson, r.messages, r.messages);
    ToolSpecsRoundTrip(r.tools);
  }

  datatype Usage = Usage(inputTokens: u64, outputTokens: u64)

  const NO_USAGE := Usage(0, 0)

  /** `Usage::add`: 64-bit addition, which wraps in the release build. */
  function AddUsage(a: Usage, b: Usage): Usage {
    Usage((a.inputTokens + b.inputTokens) % TWO_64, (a.outputTokens + b.outputTokens) % TWO_64)
  }

  /** The sum is not always the sum: a counter at its limit starts over. */
  lemma UsageCanWrap()
    ensures AddUsage(Usage(0xffff_ffff_ffff_ffff, 0), Usage(1, 0)) == NO_USAGE
  {
  }

  function UsageToJson(u: Usage): Json {
    JObject(map["input_tokens" := JInt(u.inputTokens), "output_tokens" := JInt(u.outputTokens)])
  }

  function UsageFromJson(j: Json): Option<Usage> {
    if !j.JObject? then None
    else
      var i := if "input_tokens" in j.fields then AsU64(Field(j, "input_tokens")) else Some(0);
      var o := if "output_tokens" in j.fields then AsU64(Field(j, "output_tokens")) else Some(0);
      if i.None? || o.None? then None else Some(Usage(i.value, o.value))
  }

  lemma UsageRoundTrip(u: Usage)
    ensures UsageFromJson(UsageToJson(u)) == Some(u)
  {
  }

  datatype LlmResponse = LlmResponse(stopReason: string, content: seq<Content>, usage: Usage)

  function LlmResponseToJson(r: LlmResponse): Json {
    JObject(map["stop_reason" := JStr(r.stopReason),
                "content" := JArray(MapSeq(ContentToJson, r.content)),
                "usage" := UsageToJson(r.usage)])
  }

  function LlmResponseFromJson(j: Json): Option<LlmResponse> {
    var stop := AsText(Field(j, "stop_reason"));
    var content := DecodeArray(ContentItem, Field(j, "content"));
    var usage := if Field(j, "usage").None? then Some(NO_USAGE) else UsageFromJson(Field(j, "usage").value);
    if stop.None? || content.None? || usage.None? then None
    else Some(LlmResponse(stop.value, content.value, usage.value))
  }

  /** The response as the guest sees it: every block has crossed once, nothing else changes. */
  function Received(r: LlmResponse): LlmResponse { r.(content := MapSeq(Cross, r.content)) }

  lemma LlmResponseRoundTrip(r: LlmResponse)
    ensures LlmResponseFromJson(LlmResponseToJson(r)) == Some(Received(r))
    ensures forall c | c in Received(r).content :: Stable(c)
    ensures (forall c | c in r.content :: Stable(c)) ==> Received(r) == r
  {
    hide UsageToJson, UsageFromJson, ContentToJson, ContentFromJson, Stable;
    UsageRoundTrip(r.usage);
    ContentsRoundTrip(r.content);
    forall c | c in Received(r).content ensures Stable(c) {
      var i :| 0 <= i < |r.content| && c == Cross(r.content[i]);
      ReceivedIsStable(ContentToJson(r.content[i]));
    }
    if forall c | c in r.content :: Stable(c) {
      StableCrossing(r.content);
    }
  }

  // --------------------------------------------------------------------------
  // Tool invocation
  // --------------------------------------------------------------------------

  datatype ToolInvokeRequest = ToolInvokeRequest(name: string, input: Json)

  function ToolInvokeRequestToJson(r: ToolInvokeRequest): Json {
    JObject(map["name" := JStr(r.name), "input" := r.input])
  }

  function ToolInvokeRequestFromJson(j: Json): Option<ToolInvokeRequest> {
    var name, input := AsText(Field(j, "name")), Field(j, "input");
    if name.None? || input.None? then None else Some(ToolInvokeRequest(name.value, input.value))
  }

  /** `ToolInvokeResponse`: the text handed back to the model. */
  function ToolTextToJson(content: string): Json { JObject(map["content" := JStr(content)]) }

  function ToolTextFromJson(j: Json): Option<string> { AsText(Field(j, "content")) }

  // --------------------------------------------------------------------------
  // Agent invocation
  // --------------------------------------------------------------------------

  datatype AgentInput = AgentInput(task: string, context: Option<string>, maxSteps: u32)

  function AgentInputToJson(i: AgentInput): Json {
    var fields := map["task" := JStr(i.task), "max_steps" := JInt(i.maxSteps)];
    JObject(if i.context.None? then fields else fields["context" := JStr(i.context.value)])
  }

  function AgentInputFromJson(j: Json): Option<AgentInput> {
    var task, context := AsText(Field(j, "task")), AsOptionalText(Field(j, "context"));
    var maxSteps := AsU32(Field(j, "max_steps"));
    if task.None? || context.None? || maxSteps.None? then None
    else Some(AgentInput(task.value, context.value, maxSteps.value))
  }

  lemma AgentInputRoundTrip(i: AgentInput)
    ensures AgentInputFromJson(AgentInputToJson(i)) == Some(i)
  {
  }

  datatype StopReason = Completed | StepLimit | Refusal | Error

  function StopReasonText(s: StopReason): string {
    match s
    case Completed => "completed"
    case StepLimit => "step_limit"
    case Refusal => "refusal"
    case Error => "error"
  }

  function StopReasonFromText(s: Option<string>): Option<StopReason> {
    match s
    case Some("completed") => Some(Completed)
    case Some("step_limit") => Some(StepLimit)
    case Some("refusal") => Some(Refusal)
    case Some("error") => Some(StopReason.Error)
    case _ => None
  }

  datatype ToolCallRecord = ToolCallRecord(step: u32, name: string, input: Json, ok: bool, result: string)

  function RecordToJson(r: ToolCallRecord): Json {
    JObject(map["step" := JInt(r.step), "name" := JStr(r.name), "input" := r.input,
                "ok" := JBool(r.ok), "result" := JStr(r.result)])
  }

  function RecordFromJson(j: Json): Option<ToolCallRecord> {
    var step, name, input := AsU32(Field(j, "step")), AsText(Field(j, "name")), Field(j, "input");
    var ok, result := AsBool(Field(j, "ok")), AsText(Field(j, "result"));
    if step.None? || name.None? || input.None? || ok.None? || result.None? then None
    else Some(ToolCallRecord(step.value, name.value, input.value, ok.value, result.value))
  }

  datatype AgentOutput = AgentOutput(answer: string, steps: u32, stop: StopReason,
                                     toolCalls: seq<ToolCallRecord>, usage: Usage)

  function AgentOutputToJson(o: AgentOutput): Json {
    JObject(map["answer" := JStr(o.answer), "steps" := JInt(o.steps), "stop" := JStr(StopReasonText(o.stop)),
                "tool_calls" := JArray(MapSeq(RecordToJson, o.toolCalls)), "usage" := UsageToJson(o.usage)])
  }

  function AgentOutputFromJson(j: Json): Option<AgentOutput> {
    var answer, steps := AsText(Field(j, "answer")), AsU32(Field(j, "steps"));
    var stop := StopReasonFromText(AsText(Field(j, "stop")));
    var calls := if Field(j, "tool_calls").None? then Some([]) else DecodeArray(RecordFromJson, Field(j, "tool_calls"));
    var usage := if Field(j, "usage").None? then Some(NO_USAGE) else UsageFromJson(Field(j, "usage").value);
    if answer.None? || steps.None? || stop.None? || calls.None? || usage.None? then None
    else Some(AgentOutput(answer.value, steps.value, stop.value, calls.value, usage.value))
  }

  lemma RecordRoundTrip(r: ToolCallRecord)
    ensures RecordFromJson(RecordToJson(r)) == Some(r)
  {
  }

  lemma StopReasonRoundTrip(s: StopReason)
    ensures StopReasonFromText(Some(StopReasonText(s))) == Some(s)
  {
  }

  lemma AgentOutputRoundTrip(o: AgentOutput)
    ensures AgentOutputFromJson(AgentOutputToJson(o)) == Some(o)
  {
    hide RecordToJson, RecordFromJson, UsageToJson, UsageFromJson, StopReasonText, StopReasonFromText;
    forall i | 0 <= i < |o.toolCalls| ensures RecordFromJson(RecordToJson(o.toolCalls[i])) == Some(o.toolCalls[i]) {
      RecordRoundTrip(o.toolCalls[i]);
    }
    ItemsRoundTrip(RecordToJson, RecordFromJson, o.toolCalls, o.toolCalls);
    UsageRoundTrip(o.usage);
    StopReasonRoundTrip(o.stop);
  }
}
