/** The agent loop with the mock provider answering: what a directive-driven run comes to. */
module MockRuns {
  import opened Basics
  import opened JsonValues
  import opened Abi
  import opened Rereading
  import opened Outside
  import opened Policies
  import opened Tools
  import opened Host
  import opened Agent
  import opened Calls
  import opened Turns
  import opened AgentRuns
  import opened ToolRuns
  import opened Llm
  import Str = Text
  import Utf8

  /** The provider is the mock, at every call. */
  ghost predicate MockedBy(wire: Wire, ws: nat -> World) {
    forall k: nat, r :: ws(k).complete(r) == Completion(Ok(MockComplete(wire, r)), 0)
  }

  function Background(input: AgentInput): string {
    if input.context.Some? && Str.Trim(input.context.value) != "" then input.context.value else ""
  }

  /** The directives of the context and the task whose tool is enabled, in order. */
  function Wanted(s: Setup, input: AgentInput): seq<Directive> {
    Offered(ParseDirectives(s.wire, Background(input)) + ParseDirectives(s.wire, input.task), s.policy.tools.enabled)
  }

  // --------------------------------------------------------------------------
  // The first answer
  // --------------------------------------------------------------------------

  const HEADING := "Background context:"

  lemma ProseSaysNothing(wire: Wire, text: string)
    requires '\n' !in text && Str.Trimmed(text) && !Str.StartsWith(text, MARK)
    ensures ParseDirectives(wire, text) == []
  {
    hide ParseDirectives, Means;
    var lines := [Prose(text)];
    Str.TrimOfTrimmed(text);
    assert lines[1..] == [] && MapSeq(Print, lines) == [text];
    assert ToolLines(lines) == [];
    PrintParse(wire, lines);
  }

  lemma MessageTexts(a: string, b: string)
    ensures Blocks([Message(User, [Known(Text(a))])]) == [Known(Text(a))]
    ensures Blocks([Message(User, [Known(Text(a))]), Message(User, [Known(Text(b))])]) ==
              [Known(Text(a)), Known(Text(b))]
    ensures Texts([Known(Text(a))]) == [a] && Texts([Known(Text(a)), Known(Text(b))]) == [a, b]
    ensures Str.Join([a, b], "\n") == a + "\n" + b
  {
    var first, second := Message(User, [Known(Text(a))]), Message(User, [Known(Text(b))]);
    BlocksAppend([], first);
    BlocksAppend([first], second);
    assert [] + [first] == [first] && [first] + [second] == [first, second];
    assert [Known(Text(a)), Known(Text(b))][1..] == [Known(Text(b))];
    assert [Known(Text(b))][1..] == [] && [Known(Text(a))][1..] == [];
    assert [a, b][1..] == [b];
  }

  /** The text the mock reads is the context under its heading, then the task. */
  lemma OpeningText(wire: Wire, input: AgentInput)
    ensures var blocks := Blocks(BaseMessages(input));
            && (forall b | b in blocks :: b.Known? && b.block.Text?)
            && ParseDirectives(wire, Str.Join(Texts(blocks), "\n")) ==
                 ParseDirectives(wire, Background(input)) + ParseDirectives(wire, input.task)
  {
    hide ParseDirectives, Blocks, Texts;
    if input.context.Some? && Str.Trim(input.context.value) != "" {
      var first := "Background context:\n" + input.context.value;
      assert first == HEADING + "\n" + input.context.value;
      assert BaseMessages(input) == [Message(User, [Known(Text(first))]), Message(User, [Known(Text(input.task))])];
      MessageTexts(first, input.task);
      ParseHomomorphism(wire, first, input.task);
      ParseHomomorphism(wire, HEADING, input.context.value);
      assert HEADING[0] == 'B' && MARK[0] == '!';
      ProseSaysNothing(wire, HEADING);
    } else {
      MessageTexts(input.task, input.task);
      ProseSaysNothing(wire, "");
    }
  }

  lemma NamesOfSpecs(enabled: seq<string>)
    requires forall name | name in enabled :: name in KNOWN_TOOLS
    ensures ToolNames(Specs(enabled)) == enabled
  {
    SpecsAreTheEnabledTools(enabled);
  }

  /** A final answer in text. */
  predicate Spoken(r: LlmResponse) {
    r.stopReason == "end_turn" && |r.content| == 1 && r.content[0].Known? && r.content[0].block.Text?
  }

  lemma SpokenHasNoUses(r: LlmResponse)
    requires Spoken(r)
    ensures ToolUses(r.content) == [] && JoinedText(r) == Str.Trim(r.content[0].block.text)
  {
    assert r.content[1..] == [] && Texts(r.content) == [r.content[0].block.text];
  }

  /** The mock's first answer: one call per wanted directive, or a final text if there is none. */
  lemma FirstAnswer(s: Setup, input: AgentInput)
    requires Valid(s.policy)
    ensures var request := LlmRequest(Some(SYSTEM_PROMPT), BaseMessages(input), Specs(s.policy.tools.enabled));
            var answer := MockComplete(s.wire, request);
            if Wanted(s, input) == [] then
              && Spoken(answer) && answer.usage == Usage(120, 30)
              && answer.content[0].block.text ==
                   "no tools: " + FirstLine(Str.Join(Texts(Blocks(BaseMessages(input))), "\n"))
            else
              && answer.content == MockCalls(Wanted(s, input)) && answer.stopReason == "tool_use"
              && answer.usage == Usage(100, 20)
  {
    hide Specs, BaseMessages, ParseDirectives;
    OpeningText(s.wire, input);
    NamesOfSpecs(s.policy.tools.enabled);
    var blocks := Blocks(BaseMessages(input));
    assert forall i | 0 <= i < |blocks| :: blocks[i] in blocks;
    NoResultTexts(blocks);
  }

  /** The first line of a text, without the white space around it. */
  lemma FirstLineIs(a: string, b: string)
    requires '\n' !in a
    ensures FirstLine(a) == Str.Trim(a) && FirstLine(a + "\n" + b) == Str.Trim(a)
  {
    hide Str.Trim, Str.Split, Str.IsWhitespace;
    Str.SplitNoSeparator(a, '\n');
    Str.SplitAppend(a, b, '\n');
    assert a + "\n" + b == a + ['\n'] + b;
    if a == "" {
      TrimOfNothing();
    } else if a[|a| - 1] == '\r' {
      CarriageReturnTrimmed(a);
    }
  }

  lemma TrimOfNothing()
    ensures Str.Trim("") == ""
  {
  }

  lemma CarriageReturnTrimmed(a: string)
    requires a != "" && a[|a| - 1] == '\r'
    ensures Str.Trim(a[..|a| - 1]) == Str.Trim(a)
  {
    Str.TrimIgnoresTrailing(a[..|a| - 1], '\r');
    assert a == a[..|a| - 1] + ['\r'];
  }

  lemma {:induction false} UsesOfCalls(content: seq<Content>)
    requires forall c | c in content :: c.Known? && c.block.ToolUse?
    ensures |ToolUses(content)| == |content|
    ensures forall i | 0 <= i < |content| ::
              ToolUses(content)[i] == Use(content[i].block.id, content[i].block.name, content[i].block.input)
  {
    if content != [] {
      assert content[0] in content;
      UsesOfCalls(content[1..]);
    }
  }

  /** The mock's calls as the guest hears them. */
  function HeardCalls(again: Float -> Float, wanted: seq<Directive>): seq<Content> {
    MapSeq(RereadContent(again), MockCalls(wanted))
  }

  /** The guest reads the calls back as written: same tools, same arguments but for their floats, no id twice. */
  lemma MockUses(again: Float -> Float, wanted: seq<Directive>)
    ensures var uses := ToolUses(HeardCalls(again, wanted));
            && |uses| == |wanted|
            && (forall i | 0 <= i < |uses| ::
                  uses[i] == Use(MockId(i), wanted[i].name, Reread(again, wanted[i].input)))
            && (forall i, j | 0 <= i < j < |uses| :: uses[i].id != uses[j].id)
  {
    hide Reread, ToolUses;
    UsesOfCalls(HeardCalls(again, wanted));
    forall i, j | 0 <= i < j < |wanted| ensures MockId(i) != MockId(j) {
      if MockId(i) == MockId(j) {
        DecimalInjective("toolu_mock_", i, j);
      }
    }
  }

  /** `Offered` keeps the directives whose tool is available: all of them, in order, as they are. */
  lemma {:induction false} OfferedFrom(directives: seq<Directive>, available: seq<string>, from: nat)
    returns (at: seq<nat>)
    requires from <= |directives|
    ensures Places((d: Directive) => d.name in available, at, directives, from)
    ensures |at| == |Offered(directives[from..], available)|
    ensures forall i | 0 <= i < |at| ::
              at[i] < |directives| && Offered(directives[from..], available)[i] == directives[at[i]]
    decreases |directives| - from
  {
    hide Places;
    var p := (d: Directive) => d.name in available;
    if from == |directives| {
      at := [];
      NoPlaces(p, directives);
    } else {
      var rest := OfferedFrom(directives, available, from + 1);
      PlacesMore(p, directives, from, rest);
      assert directives[from..][1..] == directives[from + 1..] && directives[from..][0] == directives[from];
      at := if p(directives[from]) then [from] + rest else rest;
    }
  }

  /** The wanted calls are the directives of context and task whose tool is enabled. */
  lemma WantedAreDirectives(s: Setup, input: AgentInput) returns (at: seq<nat>)
    ensures var all := ParseDirectives(s.wire, Background(input)) + ParseDirectives(s.wire, input.task);
            && Places((d: Directive) => d.name in s.policy.tools.enabled, at, all, 0)
            && |at| == |Wanted(s, input)|
            && forall i | 0 <= i < |at| :: at[i] < |all| && Wanted(s, input)[i] == all[at[i]]
  {
    hide ParseDirectives, Background;
    var all := ParseDirectives(s.wire, Background(input)) + ParseDirectives(s.wire, input.task);
    at := OfferedFrom(all, s.policy.tools.enabled, 0);
    assert all[0..] == all;
  }

  lemma {:induction false} OfferedAreAvailable(directives: seq<Directive>, available: seq<string>)
    ensures forall d | d in Offered(directives, available) :: d.name in available
  {
    if directives != [] {
      OfferedAreAvailable(directives[1..], available);
    }
  }

  // --------------------------------------------------------------------------
  // The second answer
  // --------------------------------------------------------------------------

  lemma {:induction false} BlocksAppend(a: seq<Message>, m: Message)
    ensures Blocks(a + [m]) == Blocks(a) + m.content
  {
    if a == [] {
      assert (a + [m])[1..] == [];
    } else {
      BlocksAppend(a[1..], m);
      assert (a + [m])[1..] == a[1..] + [m];
    }
  }

  /** The conversation so far ends with tool results. */
  predicate EndsWithResults(messages: seq<Message>) {
    && messages != []
    && var last := messages[|messages| - 1].content;
       last != [] && last[0].Known? && last[0].block.ToolResult?
  }

  lemma {:induction false} ResultTextsAppend(a: seq<Content>, b: seq<Content>)
    ensures ResultTexts(a + b) == ResultTexts(a) + ResultTexts(b)
  {
    if a == [] {
      assert a + b == b;
    } else {
      ResultTextsAppend(a[1..], b);
      assert (a + b)[1..] == a[1..] + b;
    }
  }

  lemma {:induction false} NoResultTexts(content: seq<Content>)
    requires forall c | c in content :: c.Known? && !c.block.ToolResult?
    ensures ResultTexts(content) == []
  {
    if content != [] {
      assert content[0] in content;
      NoResultTexts(content[1..]);
    }
  }

  /** What the mock says of the tool results in a conversation. */
  function Summary(messages: seq<Message>): string { "results: " + Str.Join(ResultTexts(Blocks(messages)), " | ") }

  /** Once a request carries tool results the mock asks for no tool, and sums the results up. */
  lemma AnswerAfterResults(wire: Wire, request: LlmRequest)
    requires EndsWithResults(request.messages)
    ensures var answer := MockComplete(wire, request);
            && Spoken(answer) && answer.usage == Usage(120, 30)
            && answer.content[0].block.text == Summary(request.messages)
  {
    hide ParseDirectives, Texts;
    var n := |request.messages| - 1;
    var before, last := request.messages[..n], request.messages[n];
    assert request.messages == before + [last];
    BlocksAppend(before, last);
    assert Blocks(request.messages)[|Blocks(before)|] == last.content[0];
    ResultTextsAppend(Blocks(before), last.content);
    assert ResultTexts(last.content) != [];
  }

  function TextsOf(replies: seq<Reply>): seq<string> { MapSeq((r: Reply) => r.text, replies) }

  lemma {:induction false} TextsOfResults(uses: seq<Use>, replies: seq<Reply>)
    requires |uses| == |replies|
    ensures ResultTexts(ResultsOf(uses, replies)) == TextsOf(replies)
  {
    var all := ResultsOf(uses, replies);
    if uses != [] {
      TextsOfResults(uses[1..], replies[1..]);
      assert all[1..] == ResultsOf(uses[1..], replies[1..]);
      assert TextsOf(replies) == [replies[0].text] + TextsOf(replies[1..]);
    } else {
      assert all == [];
    }
  }

  /** After one turn of calls the results in the conversation are the replies to them. */
  lemma ConversationTexts(input: AgentInput, calls: seq<Content>, uses: seq<Use>, replies: seq<Reply>)
    requires |uses| == |replies| && forall c | c in calls :: c.Known? && c.block.ToolUse?
    ensures var turn := [Message(Assistant, calls), Message(User, ResultsOf(uses, replies))];
            ResultTexts(Blocks(BaseMessages(input) + turn)) == TextsOf(replies)
  {
    hide ResultTexts, Blocks, BaseMessages;
    var base, first, second := BaseMessages(input), Message(Assistant, calls), Message(User, ResultsOf(uses, replies));
    BlocksAppend(base, first);
    BlocksAppend(base + [first], second);
    assert base + [first] + [second] == base + [first, second];
    BaseTexts(input);
    ResultTextsAppend(Blocks(base), calls);
    ResultTextsAppend(Blocks(base) + calls, second.content);
    NoResultTexts(Blocks(base));
    NoResultTexts(calls);
    TextsOfResults(uses, replies);
  }

  lemma BaseTexts(input: AgentInput)
    ensures forall c | c in Blocks(BaseMessages(input)) :: c.Known? && !c.block.ToolResult?
  {
    if |BaseMessages(input)| == 1 {
      MessageTexts(input.task, "");
    } else {
      MessageTexts(BaseMessages(input)[0].content[0].block.text, input.task);
    }
  }

  // --------------------------------------------------------------------------
  // The run
  // --------------------------------------------------------------------------

  /** The next model turn of this state, if there is one, fits both size limits. */
  predicate TurnFits(s: Setup, ws: nat -> World, p: Progress) {
    p.Running? ==> Fits(s, ws(p.st.clock), p.st.h, LlmComplete, LlmRequestToJson(RequestOf(p.st)))
  }

  /** The tool list and the first two model turns of this run fit; a mock run has no more. */
  predicate RunFits(g: Imports, s: Setup, ws: nat -> World, input: AgentInput) {
    && Fits(s, ws(0), FRESH, ToolsList, JObject(map[]))
    && TurnFits(s, ws, After(g, FRESH, input, 0))
    && TurnFits(s, ws, After(g, FRESH, input, 1))
  }

  /** What the guest hears from the mock. */
  function MockHeard(wire: Wire, request: LlmRequest): LlmResponse {
    RereadResponse(wire.again)(MockComplete(wire, Arriving(wire, request)))
  }

  lemma MockedTurn(g: Imports, s: Setup, ws: nat -> World, st: Loop)
    requires Lossless(s.wire) && Linked(g, s, ws) && MockedBy(s.wire, ws) && st.h.llmCalls < s.policy.limits.maxSteps
    requires AllStable(st.messages) && TurnFits(s, ws, Running(st))
    ensures g.complete(st.clock, st.h, RequestOf(st)).1 == Ok(MockHeard(s.wire, RequestOf(st)))
  {
    hide AskModel, MockComplete, Received, LlmRequestToJson, Fits, RereadResponse, Arriving;
    ModelAnswer(s, ws(st.clock), st.h, RequestOf(st));
    MockAnswersAreStable(s.wire, Arriving(s.wire, RequestOf(st)));
  }

  lemma MockAnswersAreStable(wire: Wire, request: LlmRequest)
    ensures Received(MockComplete(wire, request)) == MockComplete(wire, request)
  {
    hide ParseDirectives, Texts, ResultTexts, Offered, Blocks;
    LlmResponseRoundTrip(MockComplete(wire, request));
  }

  lemma SpokenReread(again: Float -> Float, r: LlmResponse)
    requires Spoken(r)
    ensures RereadResponse(again)(r) == r
  {
    assert MapSeq(RereadContent(again), r.content) == r.content;
  }

  /** The tool calls the mock asks for, as the guest reads them. */
  function WantedUses(s: Setup, input: AgentInput): seq<Use> { ToolUses(HeardCalls(s.wire.again, Wanted(s, input))) }

  /** The loop after the mock has asked for `uses` and been answered. */
  predicate CalledOnce(st: Loop, uses: seq<Use>) {
    && |st.turns| >= 1 && ToolUses(st.turns[0].response.content) == uses && |st.turns[0].replies| == |uses|
    && st.record == RecordsOf(1, uses, st.turns[0].replies)
  }

  /** What the guest hears first. */
  lemma FirstHeard(s: Setup, input: AgentInput)
    requires Valid(s.policy)
    ensures var request := LlmRequest(Some(SYSTEM_PROMPT), BaseMessages(input), Specs(s.policy.tools.enabled));
            var heard := MockHeard(s.wire, request);
            && (if Wanted(s, input) == [] then Spoken(heard)
                else heard.content == HeardCalls(s.wire.again, Wanted(s, input)) && heard.stopReason == "tool_use")
  {
    hide MockComplete, Wanted, BaseMessages, Specs, MockCalls;
    var request := LlmRequest(Some(SYSTEM_PROMPT), BaseMessages(input), Specs(s.policy.tools.enabled));
    BaseReread(s.wire.again, input);
    SpecsReread(s.wire.again, s.policy.tools.enabled);
    assert Arriving(s.wire, request) == request;
    FirstAnswer(s, input);
    if Wanted(s, input) == [] {
      SpokenReread(s.wire.again, MockComplete(s.wire, request));
    }
  }

  lemma FirstStep(g: Imports, s: Setup, ws: nat -> World, input: AgentInput)
    requires Valid(s.policy) && Lossless(s.wire) && Linked(g, s, ws) && MockedBy(s.wire, ws)
    requires Fits(s, ws(0), FRESH, ToolsList, JObject(map[])) && TurnFits(s, ws, After(g, FRESH, input, 0))
    ensures var p, uses := After(g, FRESH, input, 1), WantedUses(s, input);
            if Wanted(s, input) == [] then
              p.Done? && p.out.stop == Completed && p.out.steps == 1 && |p.st.turns| == 1 && CalledOnce(p.st, uses)
              && p.out.toolCalls == p.st.record
            else
              && p.Running? && |p.st.turns| == 1 && CalledOnce(p.st, uses) && EndsWithResults(p.st.messages)
              && p.st.turns[0].response.content == HeardCalls(s.wire.again, Wanted(s, input))
  {
    hide Start, OneStep, MockHeard, Wanted, Emit, AskModel, AskTool, AskList, Fits, ToolUses, HeardCalls, Spoken;
    var st := Start(g, FRESH, input);
    assert After(g, FRESH, input, 0) == Running(st);
    LoopBacked(g, s, ws, input, 0);
    StartOffers(g, s, ws, input);
    MockedTurn(g, s, ws, st);
    FirstHeard(s, input);
    MockUses(s.wire.again, Wanted(s, input));
    if Wanted(s, input) == [] {
      SpokenHasNoUses(MockHeard(s.wire, RequestOf(st)));
      FinishingStep(g, st, 1, MockHeard(s.wire, RequestOf(st)));
    } else {
      CallingStep(g, st, MockHeard(s.wire, RequestOf(st)), WantedUses(s, input));
    }
  }

  lemma StartOffers(g: Imports, s: Setup, ws: nat -> World, input: AgentInput)
    requires Lossless(s.wire) && Linked(g, s, ws) && Fits(s, ws(0), FRESH, ToolsList, JObject(map[]))
    ensures var st := Start(g, FRESH, input);
            && RequestOf(st) == LlmRequest(Some(SYSTEM_PROMPT), BaseMessages(input), Specs(s.policy.tools.enabled))
            && st.record == [] && st.turns == []
  {
    hide AskList, Emit, Specs, BaseMessages, Fits;
    ListAnswer(s, ws(0), FRESH);
  }

  /** A final answer ends the run. */
  lemma FinishingStep(g: Imports, st: Loop, step: u32, answer: LlmResponse)
    requires step >= 1 && g.complete(st.clock, st.h, RequestOf(st)).1 == Ok(answer) && Spoken(answer)
    ensures var p := OneStep(g, st, step);
            && p.Done? && p.out.stop == Completed && p.out.steps == step && p.out.toolCalls == st.record
            && p.out.answer == Str.Trim(answer.content[0].block.text)
            && p.st.record == st.record && p.st.turns == st.turns + [Turn(answer, [])]
  {
    hide RunUses, JoinedText, ToolUses;
    SpokenHasNoUses(answer);
  }

  /** A turn of tool calls is carried out and the run goes on. */
  lemma CallingStep(g: Imports, st: Loop, answer: LlmResponse, uses: seq<Use>)
    requires g.complete(st.clock, st.h, RequestOf(st)).1 == Ok(answer) && st.record == [] && st.turns == []
    requires answer.stopReason == "tool_use" && ToolUses(answer.content) == uses != []
    ensures var p := OneStep(g, st, 1);
            && p.Running? && |p.st.turns| == 1 && CalledOnce(p.st, uses) && EndsWithResults(p.st.messages)
            && p.st.turns[0].response == answer
  {
    hide RunUses, JoinedText, ToolUses;
  }

  /** What the guest hears once there are results: the replies its own tool calls got. */
  lemma SecondHeard(wire: Wire, input: AgentInput, request: LlmRequest, wanted: seq<Directive>, uses: seq<Use>,
                    replies: seq<Reply>)
    requires |uses| == |replies| && uses != []
    requires request.messages == BaseMessages(input) +
               [Message(Assistant, HeardCalls(wire.again, wanted)), Message(User, ResultsOf(uses, replies))]
    ensures var heard := MockHeard(wire, request);
            && Spoken(heard)
            && heard.content[0].block.text == "results: " + Str.Join(TextsOf(replies), " | ")
  {
    hide MockComplete, BaseMessages, Spoken, Str.Join, ResultTexts, Blocks;
    var calls := MapSeq(RereadContent(wire.again), HeardCalls(wire.again, wanted));
    BaseReread(wire.again, input);
    ResultsReread(wire.again, ResultsOf(uses, replies));
    var arriving := Arriving(wire, request);
    assert arriving.messages ==
           BaseMessages(input) + [Message(Assistant, calls), Message(User, ResultsOf(uses, replies))];
    ConversationTexts(input, calls, uses, replies);
    AnswerAfterResults(wire, arriving);
    SpokenReread(wire.again, MockComplete(wire, arriving));
  }

  lemma SecondStep(g: Imports, s: Setup, ws: nat -> World, input: AgentInput, st: Loop)
    requires Valid(s.policy) && Lossless(s.wire) && Linked(g, s, ws) && MockedBy(s.wire, ws)
    requires s.policy.limits.maxSteps >= 2 && Wanted(s, input) != []
    requires After(g, FRESH, input, 1) == Running(st) && TurnFits(s, ws, Running(st))
    requires |st.turns| == 1 && CalledOnce(st, WantedUses(s, input))
    requires st.turns[0].response.content == HeardCalls(s.wire.again, Wanted(s, input))
    ensures var p := After(g, FRESH, input, 2);
            && p.Done? && p.out.stop == Completed && p.out.steps == 2 && p.out.toolCalls == st.record
            && p.out.answer == Str.Trim("results: " + Str.Join(TextsOf(st.turns[0].replies), " | "))
            && p.st.record == st.record && |p.st.turns| == 2 && p.st.turns[0] == st.turns[0]
            && p.st.turns[1].replies == []
  {
    hide OneStep, MockHeard, Start, Emit, AskModel, AskTool, AskList, Fits, Backed, ToolUses, Wanted, HeardCalls;
    hide Spoken, Str.Join, Str.Trim, TextsOf, BaseMessages, ResultsOf;
    LoopBacked(g, s, ws, input, 1);
    LoopTallies(g, FRESH, input, 1);
    BackedCalls(s.wire, input, st);
    MockedTurn(g, s, ws, st);
    MockUses(s.wire.again, Wanted(s, input));
    OneTurn(st.turns);
    SecondHeard(s.wire, input, RequestOf(st), Wanted(s, input), WantedUses(s, input), st.turns[0].replies);
    FinishingStep(g, st, 2, MockHeard(s.wire, RequestOf(st)));
    assert After(g, FRESH, input, 2) == OneStep(g, st, 2);
  }

  lemma OneTurn(turns: seq<Turn>)
    requires |turns| == 1 && AllActed(turns)
    ensures Transcript(turns) == Pair(turns[0])
  {
    assert turns[..0] == [];
  }

  lemma BackedCalls(wire: Wire, input: AgentInput, st: Loop)
    requires Backed(wire, input, st)
    ensures st.h.llmCalls == |st.h.asked|
  {
  }

  lemma CalledOnceStays(st: Loop, st': Loop, uses: seq<Use>)
    requires CalledOnce(st, uses)
    requires st'.record == st.record && |st'.turns| >= 1 && st'.turns[0] == st.turns[0]
    ensures CalledOnce(st', uses)
  {
  }

  /** How such a run goes. */
  lemma MockShape(g: Imports, s: Setup, ws: nat -> World, requested: AgentInput)
    requires Valid(s.policy) && Lossless(s.wire) && Linked(g, s, ws) && MockedBy(s.wire, ws)
    requires RunFits(g, s, ws, Clamped(s.policy, requested))
    ensures var input, wanted := Clamped(s.policy, requested), Wanted(s, requested);
            var run := AgentRun(g, FRESH, input);
            && CalledOnce(run.st, WantedUses(s, requested)) && run.out.toolCalls == run.st.record
            && (run.out.stop == StepLimit <==> wanted != [] && input.maxSteps == 1)
            && (run.out.stop == Completed <==> wanted == [] || input.maxSteps >= 2)
            && run.out.steps == |run.st.turns| == (if wanted == [] || input.maxSteps == 1 then 1 else 2)
            && (|run.st.turns| == 2 ==> run.st.turns[1].replies == [])
            && (wanted != [] && input.maxSteps >= 2 ==>
                  run.out.answer == Str.Trim("results: " + Str.Join(TextsOf(run.st.turns[0].replies), " | ")))
  {
    hide After, Emit, AskModel, AskTool, AskList, Specs, Fits, CalledOnce, EndsWithResults, Offered, ParseDirectives;
    hide HeardCalls, TextsOf, Str.Join, Str.Trim;
    var input, wanted := Clamped(s.policy, requested), Wanted(s, requested);
    assert Wanted(s, input) == wanted;
    FirstStep(g, s, ws, input);
    var p, run := After(g, FRESH, input, 1), AgentRun(g, FRESH, input);
    if wanted == [] {
      AfterDone(g, FRESH, input, 1, StepCap(input));
    } else if input.maxSteps >= 2 {
      SecondStep(g, s, ws, input, p.st);
      AfterDone(g, FRESH, input, 2, StepCap(input));
      CalledOnceStays(p.st, run.st, WantedUses(s, requested));
    } else {
      CalledOnceStays(p.st, run.st, WantedUses(s, requested));
    }
  }

  /** The tool call of directive `i`: call 0 of a run lists the tools, call 1 asks the model. */
  function WantedCalls(s: Setup, ws: nat -> World, wanted: seq<Directive>): seq<ToolCall> {
    seq(|wanted|, i requires 0 <= i < |wanted| =>
      ToolCall(ws(2 + i), wanted[i].name, Reread(s.wire.again, wanted[i].input)))
  }

  /**
   * Record `i` is about directive `i` and says what its tool answered, as the
   * earlier directives had left the scratchpad; the tool was enabled and exists.
   */
  predicate RecordTrue(s: Setup, ws: nat -> World, uses: seq<Use>, i: nat, r: ToolCallRecord)
    requires i < |uses|
  {
    var result := ResultAt(s, ws, 2, [], uses, i);
    && r.step == 1 && r.name == uses[i].name && r.input == uses[i].input
    && (Reaches(s, InvocationOf(uses[i])) && |Respond(s.wire, ToolTextToJson, result)| < TWO_31 ==>
          match result
          case Ok(text) => r.ok && r.result == Utf8.Truncated(text, 512)
          case Err(e) => !r.ok && r.result == Utf8.Truncated(e.kind + ": " + e.message, 512))
    && (!Reaches(s, InvocationOf(uses[i])) ==> !r.ok)
    && (result.Err? ==> result != Err(NotEnabled(r.name)) && result.error.kind in ["invalid", "denied", "upstream"])
  }

  lemma LedgerOfMock(s: Setup, ws: nat -> World, h: State, turns: seq<Turn>, uses: seq<Use>)
    requires Ledger(s, ws, h, turns) && 1 <= |turns| <= 2
    requires ToolUses(turns[0].response.content) == uses && |turns[0].replies| == |uses|
    requires |turns| == 2 ==> turns[1].replies == []
    ensures Worked(s, h, Reached(s, ws, 2, uses))
    ensures forall i | 0 <= i < |uses| :: Told(s, ws, 2, [], uses, i, turns[0].replies[i])
  {
    hide Worked, Told, ToolUses;
    assert turns[..1][..0] == [] && turns[..1][0] == turns[0];
    assert CallsOf(s, ws, []) == [] && ClockAfter([]) == 1;
    assert UsesOf(turns[0]) == uses;
    assert CallsOf(s, ws, turns[..1]) == [] + Reached(s, ws, 2, uses) == Reached(s, ws, 2, uses);
    assert TurnTold(s, ws, turns, 0) && turns[..0] == [];
    if |turns| == 2 {
      assert UsesOf(turns[1]) == [] && Reached(s, ws, ClockAfter(turns[..1]) + 1, []) == [];
      assert CallsOf(s, ws, turns) == CallsOf(s, ws, turns[..1]) + [] == CallsOf(s, ws, turns[..1]);
    } else {
      assert turns[..1] == turns;
    }
  }

  lemma RecordsAreTrue(s: Setup, ws: nat -> World, input: AgentInput, replies: seq<Reply>)
    requires Valid(s.policy)
    requires var uses := WantedUses(s, input);
             |replies| == |uses| && forall i | 0 <= i < |uses| :: Told(s, ws, 2, [], uses, i, replies[i])
    ensures var uses := WantedUses(s, input);
            forall i | 0 <= i < |uses| :: RecordTrue(s, ws, uses, i, RecordOf(1, uses[i], replies[i]))
  {
    hide Reaches, InvocationOf, Respond, Wanted, Tools.RunTool, StoreAfter, NotEnabled;
    var uses, wanted := WantedUses(s, input), Wanted(s, input);
    MockUses(s.wire.again, wanted);
    WantedAreEnabled(s, input);
    forall i | 0 <= i < |uses| ensures RecordTrue(s, ws, uses, i, RecordOf(1, uses[i], replies[i])) {
      assert Told(s, ws, 2, [], uses, i, replies[i]);
      assert wanted[i] in wanted;
      ResultOfEnabled(s, ws, uses, i);
    }
  }

  lemma WantedAreEnabled(s: Setup, input: AgentInput)
    ensures forall d | d in Wanted(s, input) :: d.name in s.policy.tools.enabled
  {
    hide ParseDirectives, Background;
    OfferedAreAvailable(ParseDirectives(s.wire, Background(input)) + ParseDirectives(s.wire, input.task),
                        s.policy.tools.enabled);
  }

  /** A tool that is enabled and exists is not reported as disabled or missing. */
  lemma ResultOfEnabled(s: Setup, ws: nat -> World, uses: seq<Use>, i: nat)
    requires Valid(s.policy) && i < |uses| && uses[i].name in s.policy.tools.enabled
    ensures var result := ResultAt(s, ws, 2, [], uses, i);
            result != Err(NotEnabled(uses[i].name))
            && (result.Err? ==> result.error.kind in ["invalid", "denied", "upstream"])
  {
    hide Tools.RunTool, StoreAfter, NotEnabled, Reached;
    var cfg, before, call := s.policy.tools, [] + Reached(s, ws, 2, uses[..i]), CallOf(ws(2 + i), uses[i]);
    assert (before + [call])[..|before|] == before;
    KnownToolsExist(cfg, s.wire, call.w, StoreAfter(cfg, s.wire, before), call.name, call.input);
    EnabledOrDenied(cfg, s.wire, call.w, StoreAfter(cfg, s.wire, before), call.name, call.input);
  }

  /** All directives reach the host. */
  predicate AllReach(s: Setup, wanted: seq<Directive>) {
    forall d | d in wanted ::
      Reaches(s, ToolInvokeRequestToJson(ToolInvokeRequest(d.name, Reread(s.wire.again, d.input))))
  }

  lemma AllCalls(s: Setup, ws: nat -> World, input: AgentInput)
    requires AllReach(s, Wanted(s, input))
    ensures Reached(s, ws, 2, WantedUses(s, input)) == WantedCalls(s, ws, Wanted(s, input))
  {
    hide Reaches, Wanted, HeardCalls, ToolUses, Reread;
    var uses, wanted := WantedUses(s, input), Wanted(s, input);
    MockUses(s.wire.again, wanted);
    forall i | 0 <= i < |uses| ensures Reaches(s, InvocationOf(uses[i])) {
      assert wanted[i] in wanted;
    }
    AllReached(s, ws, 2, uses);
  }

  /**
   * A run driven by directives, if its model turns fit. It makes the enabled tool
   * calls the text asks for, in order, all in the first step; the record tells
   * what each of them answered; scratchpad and fetched URLs are those of these
   * calls; and then it answers with the results, in one step if there was nothing
   * to call and two otherwise, unless it was allowed one only.
   */
  lemma MockRun(g: Imports, s: Setup, ws: nat -> World, requested: AgentInput)
    requires Valid(s.policy) && Lossless(s.wire) && Linked(g, s, ws) && MockedBy(s.wire, ws)
    ensures var input, wanted := Clamped(s.policy, requested), Wanted(s, requested);
            var uses, run := WantedUses(s, requested), AgentRun(g, FRESH, input);
            RunFits(g, s, ws, input) ==>
            && |run.out.toolCalls| == |uses| == |wanted|
            && (forall i | 0 <= i < |uses| ::
                  && uses[i] == Use(MockId(i), wanted[i].name, Reread(s.wire.again, wanted[i].input))
                  && RecordTrue(s, ws, uses, i, run.out.toolCalls[i]))
            && |run.st.turns| >= 1 && |run.st.turns[0].replies| == |uses|
            && (forall i | 0 <= i < |uses| :: Told(s, ws, 2, [], uses, i, run.st.turns[0].replies[i]))
            && (run.out.stop == Completed && wanted != [] ==>
                  run.out.answer == Str.Trim("results: " + Str.Join(TextsOf(run.st.turns[0].replies), " | ")))
            && Worked(s, run.st.h, Reached(s, ws, 2, uses))
            && (AllReach(s, wanted) ==> Worked(s, run.st.h, WantedCalls(s, ws, wanted)))
            && (run.out.stop == StepLimit <==> wanted != [] && input.maxSteps == 1)
            && (run.out.stop == Completed <==> wanted == [] || input.maxSteps >= 2)
            && run.out.steps == if wanted == [] || input.maxSteps == 1 then 1 else 2
  {
    hide AgentRun, RunFits, Wanted, Worked, Ledger, RecordTrue, Told, Reached, ToolUses, HeardCalls, AllReach, Reaches;
    hide Str.Join, Str.Trim, TextsOf, Reread;
    if !RunFits(g, s, ws, Clamped(s.policy, requested)) {
      return;
    }
    var run := AgentRun(g, FRESH, Clamped(s.policy, requested));
    var uses := WantedUses(s, requested);
    MockShape(g, s, ws, requested);
    MockUses(s.wire.again, Wanted(s, requested));
    ToolsOfRun(g, s, ws, Clamped(s.policy, requested));
    LedgerOfMock(s, ws, run.st.h, run.st.turns, uses);
    RecordsAreTrue(s, ws, requested, run.st.turns[0].replies);
    if AllReach(s, Wanted(s, requested)) {
      AllCalls(s, ws, requested);
    }
  }
}
