/**
 * What the agent loop keeps over a whole run: its transcript, audit record and
 * token totals are functions of the turns taken, and its model requests are the
 * provider calls the host made.
 */
module AgentRuns {
  import opened Basics
  import opened JsonValues
  import opened Abi
  import opened Rereading
  import opened Outside
  import opened Policies
  import opened Tools
  import opened Host
  import opened Agent
  import opened Calls
  import opened Turns
  import Utf8

  // --------------------------------------------------------------------------
  // What the turns alone determine
  // --------------------------------------------------------------------------

  /** A turn after which the loop goes on: not refused, and every tool call it asks for answered. */
  predicate Acted(t: Turn) {
    !IsRefusal(t.response) && AsksForTools(t.response.content) && |t.replies| == |ToolUses(t.response.content)|
  }

  /** A turn that ends the run: refused, or without a tool call. No tool is run for it. */
  predicate Final(t: Turn) {
    (IsRefusal(t.response) || !AsksForTools(t.response.content)) && t.replies == []
  }

  predicate AllActed(turns: seq<Turn>) { forall t | t in turns :: Acted(t) }

  /** The pair of messages an acted turn adds to the conversation. */
  function Pair(t: Turn): seq<Message>
    requires Acted(t)
  {
    [Message(Assistant, t.response.content), Message(User, ResultsOf(ToolUses(t.response.content), t.replies))]
  }

  function Transcript(turns: seq<Turn>): seq<Message>
    requires AllActed(turns)
  {
    if turns == [] then []
    else Transcript(turns[..|turns| - 1]) + Pair(turns[|turns| - 1])
  }

  /** The tool-use blocks of a turn with what became of each; none if it was refused. */
  function TurnRecords(t: Turn, step: u32): seq<ToolCallRecord>
    requires Acted(t) || Final(t)
  {
    if IsRefusal(t.response) || t.replies == [] then [] else RecordsOf(step, ToolUses(t.response.content), t.replies)
  }

  /** The records of all turns, in order. */
  function Audit(turns: seq<Turn>): seq<ToolCallRecord>
    requires |turns| < TWO_32 && forall t | t in turns :: Acted(t) || Final(t)
  {
    if turns == [] then []
    else Audit(turns[..|turns| - 1]) + TurnRecords(turns[|turns| - 1], |turns|)
  }

  /** Token totals of all turns, the last one included even if it was refused. */
  function Tokens(turns: seq<Turn>): (nat, nat) {
    if turns == [] then (0, 0)
    else
      var n := |turns| - 1;
      var before, u := Tokens(turns[..n]), turns[n].response.usage;
      (before.0 + u.inputTokens, before.1 + u.outputTokens)
  }

  function Wrapped(tokens: (nat, nat)): Usage { Usage(tokens.0 % TWO_64, tokens.1 % TWO_64) }

  lemma TokensStep(turns: seq<Turn>, t: Turn)
    ensures Wrapped(Tokens(turns + [t])) == AddUsage(Wrapped(Tokens(turns)), t.response.usage)
  {
    assert (turns + [t])[..|turns|] == turns;
    ModAdd(Tokens(turns).0, t.response.usage.inputTokens);
    ModAdd(Tokens(turns).1, t.response.usage.outputTokens);
  }

  lemma ModAdd(a: nat, b: nat)
    ensures (a + b) % TWO_64 == (a % TWO_64 + b) % TWO_64
  {
    assert a == TWO_64 * (a / TWO_64) + a % TWO_64;
  }

  // --------------------------------------------------------------------------
  // The loop invariant
  // --------------------------------------------------------------------------

  /** The loop's variables after `n` turns that all went on. */
  predicate Tallied(input: AgentInput, st: Loop, n: u32) {
    && |st.turns| == n && AllActed(st.turns)
    && st.messages == BaseMessages(input) + Transcript(st.turns)
    && st.record == Audit(st.turns)
    && st.usage == Wrapped(Tokens(st.turns))
  }

  /** How a run can have ended within `n` turns. */
  predicate Ended(input: AgentInput, st: Loop, out: AgentOutput, n: u32) {
    && |st.turns| == out.steps <= n && (out.stop == StopReason.Error ==> out.steps < n)
    && (forall t | t in st.turns :: Acted(t) || Final(t))
    && out.toolCalls == Audit(st.turns)
    && out.usage == Wrapped(Tokens(st.turns))
    && (out.stop == StopReason.Error || out.stop == StepLimit ==> AllActed(st.turns))
    && (out.stop == Completed || out.stop == Refusal ==>
          && st.turns != [] && AllActed(st.turns[..|st.turns| - 1])
          && var last := st.turns[|st.turns| - 1];
             && Final(last) && (out.stop == Refusal <==> IsRefusal(last.response))
             && out.answer == JoinedText(last.response))
  }

  lemma OneMoreTurn(turns: seq<Turn>, t: Turn)
    requires |turns| + 1 < TWO_32 && AllActed(turns) && (Acted(t) || Final(t))
    ensures Audit(turns + [t]) == Audit(turns) + TurnRecords(t, |turns| + 1)
    ensures Acted(t) ==> AllActed(turns + [t]) && Transcript(turns + [t]) == Transcript(turns) + Pair(t)
    ensures Wrapped(Tokens(turns + [t])) == AddUsage(Wrapped(Tokens(turns)), t.response.usage)
    ensures (turns + [t])[..|turns|] == turns
  {
    hide Tokens, Wrapped, AddUsage, TurnRecords, Pair, Acted, Final;
    assert (turns + [t])[..|turns|] == turns;
    TokensStep(turns, t);
  }

  /** A failed turn ends the run and leaves everything else as it was. */
  lemma FailedEnd(input: AgentInput, st: Loop, st': Loop, out: AgentOutput, step: u32)
    requires step >= 1 && Tallied(input, st, step - 1)
    requires st'.turns == st.turns && out.stop == StopReason.Error && out.steps == step - 1
    requires out.toolCalls == st.record && out.usage == st.usage
    ensures Ended(input, st', out, step)
  {
    hide Acted, Final, Audit, Tokens, Wrapped, JoinedText;
  }

  /** So does a final one, which adds to the token totals only. */
  lemma FinalEnd(input: AgentInput, st: Loop, st': Loop, t: Turn, out: AgentOutput, step: u32)
    requires step >= 1 && Tallied(input, st, step - 1) && Final(t)
    requires st'.turns == st.turns + [t] && out.steps == step
    requires out.stop == (if IsRefusal(t.response) then Refusal else Completed) && out.answer == JoinedText(t.response)
    requires out.toolCalls == st.record && out.usage == AddUsage(st.usage, t.response.usage)
    ensures Ended(input, st', out, step)
  {
    hide Acted, IsRefusal, Audit, Transcript, Tokens, Wrapped, AddUsage, JoinedText, ToolUses;
    OneMoreTurn(st.turns, t);
    assert TurnRecords(t, step) == [];
  }

  /** A turn that is acted on adds its pair of messages, its records and its tokens. */
  lemma GoesOn(input: AgentInput, st: Loop, st': Loop, t: Turn, step: u32)
    requires step >= 1 && Tallied(input, st, step - 1) && Acted(t)
    requires st'.turns == st.turns + [t] && st'.messages == st.messages + Pair(t)
    requires st'.record == st.record + RecordsOf(step, ToolUses(t.response.content), t.replies)
    requires st'.usage == AddUsage(st.usage, t.response.usage)
    ensures Tallied(input, st', step)
  {
    hide IsRefusal, Audit, Transcript, Tokens, Wrapped, AddUsage, ToolUses, BaseMessages, Pair;
    OneMoreTurn(st.turns, t);
  }

  lemma StepTallies(g: Imports, input: AgentInput, st: Loop, step: u32)
    requires step >= 1 && Tallied(input, st, step - 1)
    ensures match OneStep(g, st, step)
            case Running(st') => Tallied(input, st', step)
            case Done(st', out) => Ended(input, st', out, step) && out.stop != StepLimit
  {
    hide RunUses, JoinedText, ToolUses, AddUsage, Tallied, Ended, RecordsOf, ResultsOf, AsksForTools;
    var p, asked := OneStep(g, st, step), g.complete(st.clock, st.h, RequestOf(st));
    match asked.1
    case Err(e) => FailedEnd(input, st, p.st, p.out, step);
    case Ok(response) =>
      var uses := ToolUses(response.content);
      AsksIff(response.content);
      if IsRefusal(response) || uses == [] {
        FinalEnd(input, st, p.st, Turn(response, []), p.out, step);
      } else {
        var t := Turn(response, RunUses(g, st.clock + 1, asked.0, step, uses).replies);
        assert p.st.messages == st.messages + Pair(t);
        GoesOn(input, st, p.st, t, step);
      }
  }

  lemma StartTallied(g: Imports, h: State, input: AgentInput)
    ensures Tallied(input, Start(g, h, input), 0)
  {
  }

  lemma EndedLater(input: AgentInput, st: Loop, out: AgentOutput, n: u32)
    requires n >= 1 && Ended(input, st, out, n - 1)
    ensures Ended(input, st, out, n)
  {
    hide Acted, Final, Audit, Tokens, Wrapped, JoinedText;
  }

  lemma {:induction false} LoopTallies(g: Imports, h: State, input: AgentInput, n: u32)
    ensures match After(g, h, input, n)
            case Running(st) => Tallied(input, st, n)
            case Done(st, out) => Ended(input, st, out, n) && out.stop != StepLimit
  {
    hide OneStep, Tallied, Ended, Start;
    if n == 0 {
      StartTallied(g, h, input);
    } else {
      LoopTallies(g, h, input, n - 1);
      match After(g, h, input, n - 1) {
        case Running(st) => StepTallies(g, input, st, n);
        case Done(st, out) => EndedLater(input, st, out, n);
      }
    }
  }

  /**
   * At every exit the record, the token totals and the number of steps are those
   * of the turns taken; only the turn that ends a run by itself is not acted on.
   */
  lemma RunTallies(g: Imports, h: State, input: AgentInput)
    ensures var run := AgentRun(g, h, input);
            && Ended(input, run.st, run.out, StepCap(input))
            && (run.out.stop == StepLimit ==> |run.st.turns| == StepCap(input))
  {
    hide After, Transcript, Audit, Tokens;
    LoopTallies(g, h, input, StepCap(input));
  }

  /** Totals are exact as long as they fit 64 bits, and only then. */
  lemma UsageExact(g: Imports, h: State, input: AgentInput)
    ensures var run := AgentRun(g, h, input);
            var total := Tokens(run.st.turns);
            (run.out.usage.inputTokens, run.out.usage.outputTokens) == total <==> total.0 < TWO_64 && total.1 < TWO_64
  {
    hide AgentRun, Tokens;
    RunTallies(g, h, input);
  }

  // --------------------------------------------------------------------------
  // The loop over a host of its own
  // --------------------------------------------------------------------------

  /** The request that precedes turn `k`: the base messages and the pairs of all earlier turns. */
  function RequestBefore(input: AgentInput, tools: seq<ToolSpec>, turns: seq<Turn>, k: nat): LlmRequest
    requires k <= |turns| && AllActed(turns[..k])
  {
    LlmRequest(Some(SYSTEM_PROMPT), BaseMessages(input) + Transcript(turns[..k]), tools)
  }

  /** Turn `k` is this exchange with the provider: the right request, and its answer as heard. */
  predicate IsTurn(wire: Wire, e: Exchange, input: AgentInput, tools: seq<ToolSpec>, turns: seq<Turn>, k: nat)
    requires k < |turns|
  {
    && AllActed(turns[..k])
    && e.request == Arriving(wire, RequestBefore(input, tools, turns, k))
    && e.answer.Ok? && turns[k].response == Arrived(wire, e.answer.value)
  }

  /** The host's own books agree with the turns the guest took. */
  predicate Backed(wire: Wire, input: AgentInput, st: Loop) {
    && st.h.denials == 0 && st.h.llmCalls == |st.h.asked| && |st.turns| <= |st.h.asked|
    && forall k | 0 <= k < |st.turns| :: IsTurn(wire, st.h.asked[k], input, st.tools, st.turns, k)
  }

  predicate AllStable(messages: seq<Message>) { forall m | m in messages :: StableMessage(m) }

  lemma BaseStable(input: AgentInput)
    ensures AllStable(BaseMessages(input))
  {
  }

  lemma PairStable(wire: Wire, t: Turn, r: LlmResponse)
    requires Acted(t) && t.response == Arrived(wire, r)
    ensures AllStable(Pair(t))
  {
    hide Arrived;
    ArrivedIsStable(wire, r);
  }

  lemma {:induction false} ToolsLeaveTurnsAlone(g: Imports, s: Setup, ws: nat -> World, clock: nat, h: State,
                                                step: u32, uses: seq<Use>)
    requires Lossless(s.wire) && Linked(g, s, ws)
    ensures var h' := RunUses(g, clock, h, step, uses).h;
            h'.asked == h.asked && h'.llmCalls == h.llmCalls && h'.denials == h.denials
  {
    hide AskTool, Emit, Fits, Reaches, Tools.RunTool;
    if uses != [] {
      var n := |uses| - 1;
      ToolsLeaveTurnsAlone(g, s, ws, clock, h, step, uses[..n]);
      var before := RunUses(g, clock, h, step, uses[..n]).h;
      EmitKeepsBooks(s, before, Info, CallingTool(step, uses[n].name));
      ToolAnswer(s, ws(clock + n), Emit(s, before, Info, CallingTool(step, uses[n].name)), uses[n]);
    }
  }

  /** What a turn adds to the host's books. */
  lemma BackedStep(wire: Wire, input: AgentInput, st: Loop, st': Loop, t: Turn, e: Exchange)
    requires Backed(wire, input, st) && |st.h.asked| == |st.turns| && AllActed(st.turns)
    requires st.messages == BaseMessages(input) + Transcript(st.turns)
    requires st'.tools == st.tools && st'.turns == st.turns + [t]
    requires st'.h.asked == st.h.asked + [e] && st'.h.llmCalls == st.h.llmCalls + 1 && st'.h.denials == 0
    requires e.request == Arriving(wire, RequestOf(st)) && e.answer.Ok? && t.response == Arrived(wire, e.answer.value)
    ensures Backed(wire, input, st')
  {
    hide Transcript, BaseMessages, Arrived, Arriving, Acted;
    assert st'.turns[..|st.turns|] == st.turns;
    forall k | 0 <= k < |st.turns| ensures IsTurn(wire, st'.h.asked[k], input, st'.tools, st'.turns, k) {
      assert st'.turns[..k] == st.turns[..k];
      assert IsTurn(wire, st.h.asked[k], input, st.tools, st.turns, k);
    }
  }

  /** Each exchange took place, in some world. */
  ghost predicate TookPlace(ws: nat -> World, asked: seq<Exchange>) {
    forall e | e in asked :: exists k :: e == Asking(ws(k), e.request)
  }

  lemma OneMoreTookPlace(ws: nat -> World, asked: seq<Exchange>, k: nat, request: LlmRequest)
    requires TookPlace(ws, asked)
    ensures TookPlace(ws, asked + [Asking(ws(k), request)])
  {
  }

  lemma StepBacked(g: Imports, s: Setup, ws: nat -> World, input: AgentInput, st: Loop, step: u32)
    requires Lossless(s.wire) && Linked(g, s, ws) && step >= 1 && Tallied(input, st, step - 1)
    requires Backed(s.wire, input, st) && AllStable(st.messages) && TookPlace(ws, st.h.asked)
    requires |st.h.asked| == step - 1 < s.policy.limits.maxSteps
    ensures var p := OneStep(g, st, step);
            && p.st.tools == st.tools && Backed(s.wire, input, p.st) && TookPlace(ws, p.st.h.asked)
            && (p.Running? ==> |p.st.h.asked| == step && AllStable(p.st.messages))
            && (p.Done? ==> EndsBacked(s.wire, input, p.st, p.out))
  {
    hide AskModel, RunUses, Emit, AskList, AskTool, ToolUses, Arrived, Arriving, Transcript, BaseMessages;
    hide JoinedText, Tokens, Audit, TookPlace, Fits;
    var p := OneStep(g, st, step);
    var w, request := ws(st.clock), RequestOf(st);
    ModelAnswer(s, w, st.h, request);
    var heard := AskModel(s, w, st.h, request);
    var e := Asking(w, Arriving(s.wire, request));
    OneMoreTookPlace(ws, st.h.asked, st.clock, e.request);
    assert st.turns[..|st.turns|] == st.turns;
    if heard.1.Err? {
      EmitKeepsBooks(s, heard.0, LogLevel.Error, TurnFailed(step, heard.1.error));
      BackedAnyway(s.wire, input, st, p.st);
    } else {
      var uses := ToolUses(heard.1.value.content);
      AsksIff(heard.1.value.content);
      if !IsRefusal(heard.1.value) && uses != [] {
        ToolsLeaveTurnsAlone(g, s, ws, st.clock + 1, heard.0, step, uses);
        PairStable(s.wire, p.st.turns[|st.turns|], e.answer.value);
        assert p.st.messages == st.messages + Pair(p.st.turns[|st.turns|]);
      }
      BackedStep(s.wire, input, st, p.st, p.st.turns[|st.turns|], e);
    }
  }

  lemma EmitKeepsBooks(s: Setup, h: State, level: LogLevel, message: string)
    ensures var h' := Emit(s, h, level, message);
            h'.asked == h.asked && h'.llmCalls == h.llmCalls && h'.denials == h.denials
  {
  }

  /** How the books stand at the end: one provider call per turn, and at most one more for a turn that failed. */
  predicate EndsBacked(wire: Wire, input: AgentInput, st: Loop, out: AgentOutput) {
    && (out.stop != StopReason.Error ==> |st.h.asked| == |st.turns|)
    && |st.turns| <= |st.h.asked| <= |st.turns| + 1
    && (|st.h.asked| == |st.turns| + 1 ==>
          AllActed(st.turns) && st.h.asked[|st.turns|].request ==
            Arriving(wire, RequestBefore(input, st.tools, st.turns, |st.turns|)))
  }

  lemma BackedAnyway(wire: Wire, input: AgentInput, st: Loop, st': Loop)
    requires Backed(wire, input, st) && st'.tools == st.tools && st'.turns == st.turns
    requires st'.h.denials == 0 && st'.h.llmCalls == |st'.h.asked| && st.h.asked <= st'.h.asked
    ensures Backed(wire, input, st')
  {
    hide Transcript, BaseMessages, Arrived, Arriving, Acted;
    forall k | 0 <= k < |st.turns| ensures IsTurn(wire, st'.h.asked[k], input, st'.tools, st'.turns, k) {
      assert IsTurn(wire, st.h.asked[k], input, st.tools, st.turns, k);
      assert st'.h.asked[k] == st.h.asked[k];
    }
  }

  /** `Runtime::run` clamps the requested steps to what the policy allows. */
  function Clamped(policy: Policy, input: AgentInput): (r: AgentInput)
    requires policy.limits.maxSteps >= 1
    ensures 1 <= r.maxSteps <= policy.limits.maxSteps && r.task == input.task && r.context == input.context
    ensures r == input <==> 1 <= input.maxSteps <= policy.limits.maxSteps
    ensures input.maxSteps == 0 ==> r.maxSteps == 1
    ensures input.maxSteps > policy.limits.maxSteps ==> r.maxSteps == policy.limits.maxSteps
  {
    var most := policy.limits.maxSteps;
    input.(maxSteps := if input.maxSteps < 1 then 1 else if input.maxSteps > most then most else input.maxSteps)
  }

  lemma StartBacked(g: Imports, s: Setup, ws: nat -> World, input: AgentInput)
    requires Lossless(s.wire) && Linked(g, s, ws)
    ensures var st := Start(g, FRESH, input);
            Backed(s.wire, input, st) && st.h.asked == [] && AllStable(st.messages) && TookPlace(ws, st.h.asked)
  {
    hide AskList, Emit;
    ListAnswer(s, ws(0), FRESH);
    BaseStable(input);
    var st, listed := Start(g, FRESH, input), AskList(s, ws(0), FRESH);
    if listed.1.Err? {
      EmitKeepsBooks(s, listed.0, Warn, NoTools(listed.1.error));
      EmitKeepsBooks(s, Emit(s, listed.0, Warn, NoTools(listed.1.error)), Info, StartingWith(|st.tools|));
    } else {
      EmitKeepsBooks(s, listed.0, Info, StartingWith(|st.tools|));
    }
  }

  lemma {:induction false} LoopBacked(g: Imports, s: Setup, ws: nat -> World, input: AgentInput, n: u32)
    requires Lossless(s.wire) && Linked(g, s, ws) && n <= s.policy.limits.maxSteps
    ensures match After(g, FRESH, input, n)
            case Running(st) =>
              Backed(s.wire, input, st) && |st.h.asked| == n && AllStable(st.messages) && TookPlace(ws, st.h.asked)
            case Done(st, out) =>
              Backed(s.wire, input, st) && EndsBacked(s.wire, input, st, out) && TookPlace(ws, st.h.asked)
  {
    hide OneStep, Start, Backed, EndsBacked, AllStable, TookPlace, Tallied, Ended, AskModel, AskList, AskTool, Emit;
    if n == 0 {
      StartBacked(g, s, ws, input);
    } else {
      LoopBacked(g, s, ws, input, n - 1);
      LoopTallies(g, FRESH, input, n - 1);
      match After(g, FRESH, input, n - 1) {
        case Running(st) => StepBacked(g, s, ws, input, st, n);
        case Done(_, _) =>
      }
    }
  }

  /**
   * A whole run under a fresh host with a validated policy, whatever the provider
   * answers and however many steps were asked for. The guest is never told that
   * its turns are used up; the provider is called at most as often as the clamped
   * limit; and the steps reported are the calls made, short of one only when the
   * last call is the one that failed.
   */
  lemma WholeRun(g: Imports, s: Setup, ws: nat -> World, requested: AgentInput)
    requires Valid(s.policy) && Lossless(s.wire) && Linked(g, s, ws)
    ensures var input := Clamped(s.policy, requested);
            var run := AgentRun(g, FRESH, input);
            && Backed(s.wire, input, run.st) && EndsBacked(s.wire, input, run.st, run.out)
            && run.st.h.denials == 0 && TookPlace(ws, run.st.h.asked)
            && |run.st.h.asked| == run.st.h.llmCalls <= input.maxSteps <= s.policy.limits.maxSteps
            && (run.out.stop != StopReason.Error ==> run.out.steps == run.st.h.llmCalls)
            && (run.out.stop == StopReason.Error ==> run.out.steps <= run.st.h.llmCalls <= run.out.steps + 1)
  {
    hide After, OneStep, IsTurn, TookPlace, Emit, AskModel, AskList, AskTool, Audit, Tokens, Transcript;
    var input := Clamped(s.policy, requested);
    LoopBacked(g, s, ws, input, StepCap(input));
    LoopTallies(g, FRESH, input, StepCap(input));
    var run, end := AgentRun(g, FRESH, input), After(g, FRESH, input, StepCap(input));
    if end.Running? {
      EmitKeepsBooks(s, end.st.h, Warn, AT_LIMIT);
      BackedAnyway(s.wire, input, end.st, run.st);
    }
    RunTallies(g, FRESH, input);
  }

  // --------------------------------------------------------------------------
  // When a run fails
  // --------------------------------------------------------------------------

  /** The model turn that comes next gets across both ways, and the provider has an answer. */
  predicate TurnSucceeds(s: Setup, ws: nat -> World, st: Loop) {
    && Fits(s, ws(st.clock), st.h, LlmComplete, LlmRequestToJson(RequestOf(st)))
    && AnswerTo(s.wire, ws(st.clock), RequestOf(st)).Ok?
  }

  /** The loop is still running after `n` iterations, and the next turn fails. */
  predicate FailsAt(g: Imports, s: Setup, ws: nat -> World, input: AgentInput, n: u32) {
    var p := After(g, FRESH, input, n);
    p.Running? && !TurnSucceeds(s, ws, p.st)
  }

  lemma StepFails(g: Imports, s: Setup, ws: nat -> World, st: Loop, step: u32)
    requires Lossless(s.wire) && Linked(g, s, ws) && step >= 1
    requires AllStable(st.messages) && st.h.llmCalls < s.policy.limits.maxSteps
    ensures var p := OneStep(g, st, step);
            && (p.Done? && p.out.stop == StopReason.Error <==> !TurnSucceeds(s, ws, st))
            && (!TurnSucceeds(s, ws, st) ==> p.out.steps == step - 1)
  {
    hide AskModel, RunUses, Emit, ToolUses, Arriving, JoinedText, Fits, LlmRequestToJson;
    ModelAnswer(s, ws(st.clock), st.h, RequestOf(st));
  }

  lemma {:induction false} LoopFails(g: Imports, s: Setup, ws: nat -> World, input: AgentInput, n: u32)
    requires Lossless(s.wire) && Linked(g, s, ws) && n <= s.policy.limits.maxSteps
    ensures var p := After(g, FRESH, input, n);
            && (p.Done? && p.out.stop == StopReason.Error <==> exists m | 0 <= m < n :: FailsAt(g, s, ws, input, m))
            && (forall m | 0 <= m < n && FailsAt(g, s, ws, input, m) :: p.Done? && p.out.steps == m)
  {
    hide OneStep, Start, TurnSucceeds, AllStable, AskModel, AskList, AskTool, Emit;
    if n > 0 {
      LoopFails(g, s, ws, input, n - 1);
      LoopBacked(g, s, ws, input, n - 1);
      var before := After(g, FRESH, input, n - 1);
      if before.Running? {
        StepFails(g, s, ws, before.st, n);
        assert FailsAt(g, s, ws, input, n - 1) <==> !TurnSucceeds(s, ws, before.st);
      }
    }
  }

  /**
   * A run ends in an error exactly when at some point a model turn does not get
   * across or is not answered; the steps it reports are those before that turn.
   */
  lemma ErrorIff(g: Imports, s: Setup, ws: nat -> World, requested: AgentInput)
    requires Valid(s.policy) && Lossless(s.wire) && Linked(g, s, ws)
    ensures var input := Clamped(s.policy, requested);
            var out := AgentRun(g, FRESH, input).out;
            && (out.stop == StopReason.Error <==>
                  exists n | 0 <= n < input.maxSteps :: FailsAt(g, s, ws, input, n))
            && (forall n | 0 <= n < input.maxSteps && FailsAt(g, s, ws, input, n) :: out.steps == n)
  {
    hide After, FailsAt;
    var input := Clamped(s.policy, requested);
    LoopFails(g, s, ws, input, StepCap(input));
  }

  // --------------------------------------------------------------------------
  // The conversation
  // --------------------------------------------------------------------------

  /** The result answers this tool-use block. */
  predicate Answer(result: Content, c: Content) {
    && IsToolUse(c) && result.Known? && result.block.ToolResult?
    && result.block.toolUseId == c.block.id
  }

  /** There is one result for each tool-use block of the reply, by id and in order, and no other. */
  ghost predicate Answers(results: seq<Content>, reply: seq<Content>) {
    exists at: seq<nat> ::
      && UsePlaces(at, reply) && |results| == |at|
      && forall i | 0 <= i < |at| :: Answer(results[i], reply[at[i]])
  }

  lemma ResultsAnswer(content: seq<Content>, replies: seq<Reply>)
    requires |replies| == |ToolUses(content)|
    ensures Answers(ResultsOf(ToolUses(content), replies), content)
  {
    hide ToolUses, UsePlaces;
    var uses, results := ToolUses(content), ResultsOf(ToolUses(content), replies);
    var at := ToolUsesAreBlocks(content);
    forall i | 0 <= i < |at| ensures at[i] < |content| && Answer(results[i], content[at[i]]) {
      assert IsUse(content[at[i]], uses[i]);
    }
    assert UsePlaces(at, content);
  }

  /** These blocks are the same after any reading: none of them changes in a crossing, and their floats survive. */
  ghost predicate Kept(wire: Wire, content: seq<Content>) {
    forall c | c in content :: Stable(c) && RereadContent(wire.again)(c) == c
  }

  /** How one model request leads to the next: the reply goes back as it was heard, with its tool results. */
  ghost predicate Continues(wire: Wire, e: Exchange, next: Exchange)
    requires e.answer.Ok?
  {
    var a, n := e.request.messages, next.request.messages;
    var reply := Arrived(wire, e.answer.value).content;
    && |n| == |a| + 2 && n[..|a|] == a
    && n[|a|] == RereadMessage(wire.again)(Message(Assistant, reply))
    && (Kept(wire, e.answer.value.content) ==> n[|a|] == Message(Assistant, e.answer.value.content))
    && n[|a| + 1].role == User && Answers(n[|a| + 1].content, reply)
    && next.request.tools == e.request.tools && next.request.system == e.request.system
  }

  lemma KeptContent(wire: Wire, r: LlmResponse)
    requires Kept(wire, r.content)
    ensures Arrived(wire, r) == r && MapSeq(RereadContent(wire.again), r.content) == r.content
  {
    hide RereadContent, Received;
    LlmResponseRoundTrip(r);
    assert MapSeq(RereadContent(wire.again), r.content) == r.content;
  }

  /** Tool results hold no floats. */
  lemma ResultsReread(again: Float -> Float, results: seq<Content>)
    requires forall c | c in results :: c.Known? && c.block.ToolResult?
    ensures MapSeq(RereadContent(again), results) == results
  {
  }

  lemma PairContinues(wire: Wire, input: AgentInput, tools: seq<ToolSpec>, turns: seq<Turn>, k: nat,
                      e: Exchange, next: Exchange)
    requires k < |turns| && IsTurn(wire, e, input, tools, turns, k)
    requires AllActed(turns[..k + 1]) && next.request == Arriving(wire, RequestBefore(input, tools, turns, k + 1))
    ensures Continues(wire, e, next)
  {
    hide Arrived, RereadContent, Kept, BaseMessages, Answers;
    var t := turns[k];
    assert turns[..k + 1][..k] == turns[..k];
    assert t == turns[..k + 1][k];
    assert Acted(t);
    var reply, uses := e.answer.value, ToolUses(t.response.content);
    if Kept(wire, reply.content) {
      KeptContent(wire, reply);
    }
    ResultsReread(wire.again, ResultsOf(uses, t.replies));
    ResultsAnswer(t.response.content, t.replies);
    var a := BaseMessages(input) + Transcript(turns[..k]);
    assert BaseMessages(input) + (Transcript(turns[..k]) + Pair(t)) == a + Pair(t);
  }

  /**
   * The conversation the provider sees over a whole run: it opens with the base
   * messages, and each request extends the one before by exactly one exchange.
   */
  lemma ConversationGrows(g: Imports, s: Setup, ws: nat -> World, requested: AgentInput, k: nat)
    requires Valid(s.policy) && Lossless(s.wire) && Linked(g, s, ws)
    ensures var asked := AgentRun(g, FRESH, Clamped(s.policy, requested)).st.h.asked;
            && (k == 0 < |asked| ==> asked[0].request.messages == BaseMessages(requested))
            && (k + 1 < |asked| ==> asked[k].answer.Ok? && Continues(s.wire, asked[k], asked[k + 1]))
  {
    hide AgentRun, Continues, Transcript, Acted, Arrived, Arriving, AskModel, AskList, AskTool, Emit;
    WholeRun(g, s, ws, requested);
    var input := Clamped(s.policy, requested);
    var st := AgentRun(g, FRESH, input).st;
    if k < |st.turns| {
      assert IsTurn(s.wire, st.h.asked[k], input, st.tools, st.turns, k);
    }
    if k + 1 < |st.turns| {
      assert IsTurn(s.wire, st.h.asked[k + 1], input, st.tools, st.turns, k + 1);
    }
    if k + 1 < |st.h.asked| {
      assert st.turns[..|st.turns|] == st.turns;
      PairContinues(s.wire, input, st.tools, st.turns, k, st.h.asked[k], st.h.asked[k + 1]);
    }
    if k == 0 < |st.h.asked| {
      OpeningRequest(s.wire, input, st.tools, st.turns);
    }
  }

  lemma OpeningRequest(wire: Wire, input: AgentInput, tools: seq<ToolSpec>, turns: seq<Turn>)
    ensures AllActed(turns[..0])
    ensures Arriving(wire, RequestBefore(input, tools, turns, 0)).messages == BaseMessages(input)
  {
    hide BaseMessages;
    BaseReread(wire.again, input);
    assert BaseMessages(input) + [] == BaseMessages(input);
  }

  lemma BaseReread(again: Float -> Float, input: AgentInput)
    ensures MapSeq(RereadMessage(again), BaseMessages(input)) == BaseMessages(input)
  {
    forall m | m in BaseMessages(input) ensures RereadMessage(again)(m) == m {
      assert MapSeq(RereadContent(again), m.content) == m.content;
    }
  }

  // --------------------------------------------------------------------------
  // The audit record
  // --------------------------------------------------------------------------

  /** The tool results shown to the model, read off the conversation: every second message. */
  function Shown(messages: seq<Message>): seq<Content> {
    if |messages| < 2 then [] else Shown(messages[..|messages| - 2]) + messages[|messages| - 1].content
  }

  /** A record tells the truth about a result: same success, and the text cut to size. */
  predicate Documents(r: ToolCallRecord, shown: Content) {
    && shown.Known? && shown.block.ToolResult?
    && (r.ok <==> !shown.block.isError)
    && r.result == Utf8.Truncated(shown.block.content, RECORD_BYTES)
  }

  /** The record and the conversation match entry for entry, and its steps never go back. */
  lemma {:induction false} AuditTracksConversation(turns: seq<Turn>)
    requires |turns| < TWO_32 && AllActed(turns)
    ensures var record, shown := Audit(turns), Shown(Transcript(turns));
            && |record| == |shown|
            && (forall i | 0 <= i < |record| :: Documents(record[i], shown[i]))
            && (forall i | 0 <= i < |record| :: 1 <= record[i].step <= |turns|)
            && (forall i, j | 0 <= i < j < |record| :: record[i].step <= record[j].step)
  {
    hide TurnRecords, Documents, Final, IsRefusal, ToolUses;
    if turns != [] {
      var n := |turns| - 1;
      AuditTracksConversation(turns[..n]);
      assert Transcript(turns)[..|Transcript(turns)| - 2] == Transcript(turns[..n]);
      TurnRecordsDocument(turns[n], |turns|);
    }
  }

  lemma TurnRecordsDocument(t: Turn, step: u32)
    requires Acted(t)
    ensures var record, shown := TurnRecords(t, step), Pair(t)[1].content;
            && |record| == |shown|
            && forall i | 0 <= i < |record| :: Documents(record[i], shown[i]) && record[i].step == step
  {
  }

  /** The turns the guest acted on: all of them but a final one. */
  function ActedOn(turns: seq<Turn>): (acted: seq<Turn>)
    ensures |acted| <= |turns|
  {
    if turns != [] && Final(turns[|turns| - 1]) then turns[..|turns| - 1] else turns
  }

  lemma FinalTurnAddsNothing(input: AgentInput, st: Loop, out: AgentOutput, n: u32)
    requires Ended(input, st, out, n)
    ensures AllActed(ActedOn(st.turns)) && out.toolCalls == Audit(ActedOn(st.turns))
    ensures |ActedOn(st.turns)| <= out.steps
  {
    hide Wrapped, Tokens, JoinedText, ToolUses;
    if st.turns != [] && Final(st.turns[|st.turns| - 1]) {
      assert st.turns[|st.turns| - 1] in st.turns;
    }
  }

  /** The record over a whole run, at every exit: a final turn adds nothing to it. */
  lemma RecordOfRun(g: Imports, h: State, input: AgentInput)
    ensures var run := AgentRun(g, h, input);
            var acted := ActedOn(run.st.turns);
            && |acted| <= run.out.steps && AllActed(acted)
            && run.out.toolCalls == Audit(acted)
            && |run.out.toolCalls| == |Shown(Transcript(acted))|
            && forall i | 0 <= i < |run.out.toolCalls| ::
                 Documents(run.out.toolCalls[i], Shown(Transcript(acted))[i])
                 && run.out.toolCalls[i].step <= run.out.steps
  {
    hide AgentRun, Documents, Audit, Transcript, Shown, AllActed, ActedOn, Ended;
    var run := AgentRun(g, h, input);
    RunTallies(g, h, input);
    FinalTurnAddsNothing(input, run.st, run.out, StepCap(input));
    AuditTracksConversation(ActedOn(run.st.turns));
  }
}
