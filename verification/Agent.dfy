/** The agent loop as a function: what a run of `tds-agent` computes from the answers it gets. */
module Agent {
  import opened Basics
  import opened JsonValues
  import opened Abi
  import opened Host
  import Llm
  import Str = Text
  import Utf8

  const SYSTEM_PROMPT := "agent"

  /**
   * What the agent can do besides computing: its imports, capability by
   * capability. Each takes the host's state and returns the next one; `k` counts
   * the model and tool calls, since the world may differ at each. The loop is
   * defined for any imports whatever; `Calls` links it to this host's.
   */
  datatype Imports = Imports(
    list: State -> (State, Cap<seq<ToolSpec>>),
    complete: (nat, State, LlmRequest) -> (State, Cap<LlmResponse>),
    invoke: (nat, State, Use) -> (State, Cap<string>),
    emit: (State, LogLevel, string) -> State)

  // --------------------------------------------------------------------------
  // One turn
  // --------------------------------------------------------------------------

  datatype Use = Use(id: string, name: string, input: Json)

  /** The tool-use blocks of a turn, in order. */
  function ToolUses(content: seq<Content>): seq<Use> {
    if content == [] then []
    else
      var rest := ToolUses(content[1..]);
      if content[0].Known? && content[0].block.ToolUse?
      then [Use(content[0].block.id, content[0].block.name, content[0].block.input)] + rest
      else rest
  }

  predicate IsToolUse(c: Content) { c.Known? && c.block.ToolUse? }

  predicate AsksForTools(content: seq<Content>) { exists c | c in content :: IsToolUse(c) }

  predicate UsePlaces(at: seq<nat>, content: seq<Content>) { Places(IsToolUse, at, content, 0) }

  predicate IsUse(c: Content, use: Use) { c == Known(ToolUse(use.id, use.name, use.input)) }

  lemma UsesStep(content: seq<Content>, from: nat)
    requires from < |content|
    ensures var rest := ToolUses(content[from + 1..]);
            if IsToolUse(content[from]) then
              |ToolUses(content[from..])| == 1 + |rest| && ToolUses(content[from..])[1..] == rest
              && IsUse(content[from], ToolUses(content[from..])[0])
            else ToolUses(content[from..]) == rest
  {
    assert content[from..][1..] == content[from + 1..] && content[from..][0] == content[from];
  }

  lemma {:induction false} UsesFrom(content: seq<Content>, from: nat) returns (at: seq<nat>)
    requires from <= |content|
    ensures Places(IsToolUse, at, content, from) && |at| == |ToolUses(content[from..])|
    ensures forall i | 0 <= i < |at| :: at[i] < |content| && IsUse(content[at[i]], ToolUses(content[from..])[i])
    decreases |content| - from
  {
    hide Places, IsToolUse, IsUse;
    if from == |content| {
      at := [];
      NoPlaces(IsToolUse, content);
    } else {
      var rest := UsesFrom(content, from + 1);
      PlacesMore(IsToolUse, content, from, rest);
      UsesStep(content, from);
      at := if IsToolUse(content[from]) then [from] + rest else rest;
    }
  }

  /** `ToolUses` reads the tool-use blocks of a reply, all of them and in order. */
  lemma ToolUsesAreBlocks(content: seq<Content>) returns (at: seq<nat>)
    ensures UsePlaces(at, content) && |at| == |ToolUses(content)|
    ensures forall i | 0 <= i < |at| :: at[i] < |content| && IsUse(content[at[i]], ToolUses(content)[i])
  {
    at := UsesFrom(content, 0);
    assert content[0..] == content;
  }

  lemma AsksIff(content: seq<Content>)
    ensures AsksForTools(content) <==> ToolUses(content) != []
  {
    var at := ToolUsesAreBlocks(content);
    if AsksForTools(content) {
      var k :| 0 <= k < |content| && IsToolUse(content[k]);
      assert k in at;
    }
  }

  /** `LlmResponse::joined_text`. */
  function JoinedText(r: LlmResponse): string { Str.Trim(Str.Join(Llm.Texts(r.content), "\n")) }

  predicate IsText(c: Content) { c.Known? && c.block.Text? }

  predicate TextPlaces(at: seq<nat>, content: seq<Content>) { Places(IsText, at, content, 0) }

  lemma {:induction false} TextsFrom(content: seq<Content>, from: nat) returns (at: seq<nat>)
    requires from <= |content|
    ensures Places(IsText, at, content, from) && |at| == |Llm.Texts(content[from..])|
    ensures forall i | 0 <= i < |at| ::
              at[i] < |content| && content[at[i]] == Known(Text(Llm.Texts(content[from..])[i]))
    decreases |content| - from
  {
    hide Places, IsText;
    if from == |content| {
      at := [];
      NoPlaces(IsText, content);
    } else {
      var rest := TextsFrom(content, from + 1);
      PlacesMore(IsText, content, from, rest);
      TextsStep(content, from);
      at := if IsText(content[from]) then [from] + rest else rest;
    }
  }

  lemma TextsStep(content: seq<Content>, from: nat)
    requires from < |content|
    ensures var rest := Llm.Texts(content[from + 1..]);
            if IsText(content[from]) then
              Llm.Texts(content[from..]) == [content[from].block.text] + rest
            else Llm.Texts(content[from..]) == rest
  {
    assert content[from..][1..] == content[from + 1..] && content[from..][0] == content[from];
  }

  /** A reply is read as its text blocks, all of them and in order, on lines of their own. */
  lemma AnswerIsTexts(r: LlmResponse) returns (at: seq<nat>, texts: seq<string>)
    ensures TextPlaces(at, r.content) && |texts| == |at|
    ensures forall i | 0 <= i < |at| :: at[i] < |r.content| && r.content[at[i]] == Known(Text(texts[i]))
    ensures JoinedText(r) == Str.Trim(Str.Join(texts, "\n"))
  {
    at := TextsFrom(r.content, 0);
    texts := Llm.Texts(r.content);
    assert r.content[0..] == r.content;
  }

  /** What one tool call came to: the text the model is shown, and whether it is a result or an error. */
  datatype Reply = Reply(text: string, ok: bool)

  function ReplyOf(r: Cap<string>): Reply {
    match r
    case Ok(text) => Reply(text, true)
    case Err(e) => Reply(e.Show(), false)
  }

  /** The model is told the tool's own text, or kind and message of the error. */
  predicate Tells(reply: Reply, result: Cap<string>) {
    match result
    case Ok(text) => reply.ok && reply.text == text
    case Err(e) => !reply.ok && reply.text == e.kind + ": " + e.message
  }

  datatype Tooled = Tooled(h: State, replies: seq<Reply>)

  /** The tool calls of one turn, made one after another from call number `clock` on. */
  function RunUses(g: Imports, clock: nat, h: State, step: u32, uses: seq<Use>): (t: Tooled)
    ensures |t.replies| == |uses|
  {
    if uses == [] then Tooled(h, [])
    else
      var n := |uses| - 1;
      var before := RunUses(g, clock, h, step, uses[..n]);
      var one := RunUse(g, clock + n, before.h, step, uses[n]);
      Tooled(one.0, before.replies + [one.1])
  }

  function RunUse(g: Imports, k: nat, h: State, step: u32, use: Use): (State, Reply) {
    var asked := g.invoke(k, g.emit(h, Info, CallingTool(step, use.name)), use);
    (asked.0, ReplyOf(asked.1))
  }

  function CallingTool(step: u32, name: string): string { Decimal(step) + ": tool " + name }

  const RECORD_BYTES := 512

  function RecordOf(step: u32, use: Use, reply: Reply): ToolCallRecord {
    ToolCallRecord(step, use.name, use.input, reply.ok, Utf8.Truncated(reply.text, RECORD_BYTES))
  }

  function ResultOf(use: Use, reply: Reply): Content { Known(ToolResult(use.id, reply.text, !reply.ok)) }

  function RecordsOf(step: u32, uses: seq<Use>, replies: seq<Reply>): seq<ToolCallRecord>
    requires |replies| == |uses|
  {
    seq(|uses|, i requires 0 <= i < |uses| => RecordOf(step, uses[i], replies[i]))
  }

  function ResultsOf(uses: seq<Use>, replies: seq<Reply>): seq<Content>
    requires |replies| == |uses|
  {
    seq(|uses|, i requires 0 <= i < |uses| => ResultOf(uses[i], replies[i]))
  }

  // --------------------------------------------------------------------------
  // The loop
  // --------------------------------------------------------------------------

  /** A successful model turn and what its tool calls came to. */
  datatype Turn = Turn(response: LlmResponse, replies: seq<Reply>)

  /** The variables of the loop; `turns` is its history. */
  datatype Loop = Loop(h: State, clock: nat, tools: seq<ToolSpec>, messages: seq<Message>,
                       record: seq<ToolCallRecord>, usage: Usage, turns: seq<Turn>)

  datatype Progress = Running(st: Loop) | Done(st: Loop, out: AgentOutput)

  function BaseMessages(input: AgentInput): seq<Message> {
    var task := [Message(User, [Known(Text(input.task))])];
    if input.context.Some? && Str.Trim(input.context.value) != "" then
      [Message(User, [Known(Text("Background context:\n" + input.context.value))])] + task
    else task
  }

  function StartingWith(n: nat): string { Decimal(n) + " tools" }
  function NoTools(e: CapError): string { "no tools: " + e.Show() }
  function TurnFailed(step: u32, e: CapError): string { "turn " + Decimal(step) + ": " + e.Show() }
  const AT_LIMIT := "limit"

  function Start(g: Imports, h: State, input: AgentInput): Loop {
    var listed := g.list(h);
    var h1, r := listed.0, listed.1;
    var tools := if r.Ok? then r.value else [];
    var h2 := if r.Ok? then h1 else g.emit(h1, Warn, NoTools(r.error));
    Loop(g.emit(h2, Info, StartingWith(|tools|)), 1, tools, BaseMessages(input), [], NO_USAGE, [])
  }

  function RequestOf(st: Loop): LlmRequest { LlmRequest(Some(SYSTEM_PROMPT), st.messages, st.tools) }

  predicate IsRefusal(r: LlmResponse) { r.stopReason == "refusal" }

  /** One iteration of the loop. */
  function OneStep(g: Imports, st: Loop, step: u32): Progress
    requires step >= 1
  {
    var asked := g.complete(st.clock, st.h, RequestOf(st));
    var h1 := asked.0;
    match asked.1
    case Err(e) =>
      Done(st.(h := g.emit(h1, LogLevel.Error, TurnFailed(step, e)), clock := st.clock + 1),
           AgentOutput("failed at " + Decimal(step) + ": " + e.Show(), step - 1, StopReason.Error, st.record, st.usage))
    case Ok(response) =>
      var usage := AddUsage(st.usage, response.usage);
      var uses := ToolUses(response.content);
      var messages := st.messages + [Message(Assistant, response.content)];
      if IsRefusal(response) then
        Done(st.(h := h1, clock := st.clock + 1, usage := usage, turns := st.turns + [Turn(response, [])]),
             AgentOutput(JoinedText(response), step, Refusal, st.record, usage))
      else if uses == [] then
        Done(st.(h := h1, clock := st.clock + 1, usage := usage, messages := messages,
                 turns := st.turns + [Turn(response, [])]),
             AgentOutput(JoinedText(response), step, Completed, st.record, usage))
      else
        var t := RunUses(g, st.clock + 1, h1, step, uses);
        Running(Loop(t.h, st.clock + 1 + |uses|, st.tools,
                     messages + [Message(User, ResultsOf(uses, t.replies))],
                     st.record + RecordsOf(step, uses, t.replies), usage,
                     st.turns + [Turn(response, t.replies)]))
  }

  /** The loop after `n` iterations, or where it ended before that. */
  function After(g: Imports, h: State, input: AgentInput, n: u32): Progress {
    if n == 0 then Running(Start(g, h, input))
    else
      match After(g, h, input, n - 1)
      case Done(st, out) => Done(st, out)
      case Running(st) => OneStep(g, st, n)
  }

  /** Once the loop has ended it stays as it ended. */
  lemma {:induction false} AfterDone(g: Imports, h: State, input: AgentInput, m: u32, n: u32)
    requires m <= n && After(g, h, input, m).Done?
    ensures After(g, h, input, n) == After(g, h, input, m)
    decreases n - m
  {
    hide OneStep, Start;
    if m < n {
      AfterDone(g, h, input, m, n - 1);
    }
  }

  function StepCap(input: AgentInput): u32 { if input.maxSteps < 1 then 1 else input.maxSteps }

  /** `run_agent`: the final loop variables and the output. */
  function AgentRun(g: Imports, h: State, input: AgentInput): (r: Progress)
    ensures r.Done?
  {
    match After(g, h, input, StepCap(input))
    case Done(st, out) => Done(st, out)
    case Running(st) =>
      Done(st.(h := g.emit(st.h, Warn, AT_LIMIT)),
           AgentOutput("stopped", StepCap(input), StepLimit, st.record, st.usage))
  }
}
