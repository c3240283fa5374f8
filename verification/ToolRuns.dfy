/**
 * What the tools did over a whole run of the agent: the host's scratchpad and the
 * requests it sent are those of the tool calls the model asked for, and what the
 * model is told is what the tools answered.
 */
module ToolRuns {
  import opened Basics
  import opened JsonValues
  import opened Abi
  import opened Rereading
  import opened Outside
  import opened Tools
  import opened Host
  import opened Agent
  import opened Calls
  import opened Turns

  function CallOf(w: World, use: Use): ToolCall { ToolCall(w, use.name, use.input) }

  /** Of the tool calls of a turn those that reach the host; the first is made in world `clock`. */
  function Reached(s: Setup, ws: nat -> World, clock: nat, uses: seq<Use>): seq<ToolCall> {
    if uses == [] then []
    else
      var n := |uses| - 1;
      var before := Reached(s, ws, clock, uses[..n]);
      if Reaches(s, InvocationOf(uses[n])) then before + [CallOf(ws(clock + n), uses[n])] else before
  }

  function CallsOfUses(ws: nat -> World, clock: nat, uses: seq<Use>): seq<ToolCall> {
    seq(|uses|, i requires 0 <= i < |uses| => CallOf(ws(clock + i), uses[i]))
  }

  lemma {:induction false} AllReached(s: Setup, ws: nat -> World, clock: nat, uses: seq<Use>)
    requires forall i | 0 <= i < |uses| :: Reaches(s, InvocationOf(uses[i]))
    ensures Reached(s, ws, clock, uses) == CallsOfUses(ws, clock, uses)
  {
    hide Reaches, InvocationOf;
    if uses != [] {
      AllReached(s, ws, clock, uses[..|uses| - 1]);
    }
  }

  /** What the tools answer to call `i` of a turn, after `calls` in earlier turns. */
  function ResultAt(s: Setup, ws: nat -> World, clock: nat, calls: seq<ToolCall>, uses: seq<Use>, i: nat): Cap<string>
    requires i < |uses|
  {
    var before := calls + Reached(s, ws, clock, uses[..i]);
    Last(s.policy.tools, s.wire, before + [CallOf(ws(clock + i), uses[i])]).result
  }

  /** The model is told that answer, if question and answer get across; and if not, that the call failed. */
  predicate Told(s: Setup, ws: nat -> World, clock: nat, calls: seq<ToolCall>, uses: seq<Use>, i: nat, reply: Reply)
    requires i < |uses|
  {
    var result := ResultAt(s, ws, clock, calls, uses, i);
    && (Reaches(s, InvocationOf(uses[i])) && |Respond(s.wire, ToolTextToJson, result)| < TWO_31 ==>
          Tells(reply, result))
    && (!Reaches(s, InvocationOf(uses[i])) ==> !reply.ok)
  }

  /** The tools of the host are as `calls` leave them. */
  predicate Worked(s: Setup, h: State, calls: seq<ToolCall>) {
    && h.store == StoreAfter(s.policy.tools, s.wire, calls)
    && h.sent == SentBy(s.policy.tools, s.wire, calls)
  }

  lemma WorkedOn(s: Setup, h: State, calls: seq<ToolCall>, call: ToolCall)
    requires Worked(s, h, calls)
    ensures var i := RunTool(s.policy.tools, s.wire, call.w, h.store, call.name, call.input);
            && Last(s.policy.tools, s.wire, calls + [call]) == i
            && StoreAfter(s.policy.tools, s.wire, calls + [call]) == i.store
            && SentBy(s.policy.tools, s.wire, calls + [call]) == h.sent + i.sent
  {
    hide RunTool;
    assert (calls + [call])[..|calls|] == calls;
  }

  lemma EmitKeepsTools(s: Setup, h: State, level: LogLevel, message: string)
    ensures var h' := Emit(s, h, level, message);
            h'.store == h.store && h'.sent == h.sent
  {
  }

  /** One tool call of the agent. */
  lemma UseTold(g: Imports, s: Setup, ws: nat -> World, k: nat, h: State, step: u32, use: Use, calls: seq<ToolCall>)
    requires Lossless(s.wire) && Linked(g, s, ws) && Worked(s, h, calls)
    ensures var (h', reply) := RunUse(g, k, h, step, use);
            var call := CallOf(ws(k), use);
            var result := Last(s.policy.tools, s.wire, calls + [call]).result;
            && Worked(s, h', if Reaches(s, InvocationOf(use)) then calls + [call] else calls)
            && (Reaches(s, InvocationOf(use)) && |Respond(s.wire, ToolTextToJson, result)| < TWO_31 ==>
                  Tells(reply, result))
            && (!Reaches(s, InvocationOf(use)) ==> !reply.ok)
  {
    hide RunTool, AskTool, Emit, Reaches, InvocationOf, Fits, StoreAfter, SentBy, Last, Respond;
    var message := CallingTool(step, use.name);
    var h1 := Emit(s, h, Info, message);
    EmitKeepsTools(s, h, Info, message);
    ToolAnswer(s, ws(k), h1, use);
    WorkedOn(s, h, calls, CallOf(ws(k), use));
    if Reaches(s, InvocationOf(use)) {
      ToolFits(s, ws(k), h1, use);
    }
  }

  /** A tool's response is read as long as it is short enough. */
  lemma ToolFits(s: Setup, w: World, h: State, use: Use)
    requires Lossless(s.wire) && Reaches(s, InvocationOf(use))
    ensures var r := RunTool(s.policy.tools, s.wire, w, h.store, use.name, use.input).result;
            |Respond(s.wire, ToolTextToJson, r)| < TWO_31 ==> Fits(s, w, h, ToolInvoke, InvocationOf(use))
  {
    hide RunTool, Handled, Respond, Commutes;
    ToolTextReread(s.wire.again);
    var r := RunTool(s.policy.tools, s.wire, w, h.store, use.name, use.input).result;
    DispatchTool(s, w, h, ToolInvokeRequest(use.name, use.input));
    AnswerHeard(s.wire, ToolTextToJson, ToolTextFromJson, Same(), r, r);
    ToolTextShallow(r);
  }

  lemma ToolTextShallow(r: Cap<string>)
    ensures Within(EnvelopeToJson(ToolTextToJson, r), MAX_DEPTH)
  {
  }

  /** The tool calls of one turn, after `calls` in earlier ones. */
  lemma {:induction false} PhaseTold(g: Imports, s: Setup, ws: nat -> World, clock: nat, h: State,
                                     step: u32, uses: seq<Use>, calls: seq<ToolCall>)
    requires Lossless(s.wire) && Linked(g, s, ws) && Worked(s, h, calls)
    ensures var t := RunUses(g, clock, h, step, uses);
            && Worked(s, t.h, calls + Reached(s, ws, clock, uses))
            && forall i | 0 <= i < |uses| :: Told(s, ws, clock, calls, uses, i, t.replies[i])
  {
    hide RunUse, Reaches, InvocationOf, Worked, Last, Respond;
    if uses == [] {
      assert calls + [] == calls;
    } else {
      hide InvocationOf, RunTool;
      var n := |uses| - 1;
      var first := uses[..n];
      PhaseTold(g, s, ws, clock, h, step, first, calls);
      var t, before := RunUses(g, clock, h, step, first), calls + Reached(s, ws, clock, first);
      UseTold(g, s, ws, clock + n, t.h, step, uses[n], before);
      assert before + [CallOf(ws(clock + n), uses[n])] ==
             calls + (Reached(s, ws, clock, first) + [CallOf(ws(clock + n), uses[n])]);
      var all := RunUses(g, clock, h, step, uses).replies;
      forall i | 0 <= i < |uses| ensures Told(s, ws, clock, calls, uses, i, all[i]) {
        if i < n {
          assert Told(s, ws, clock, calls, first, i, t.replies[i]);
          assert first[..i] == uses[..i];
        }
      }
    }
  }

  // --------------------------------------------------------------------------
  // Over a whole run
  // --------------------------------------------------------------------------

  /** The tool calls the agent made for a turn: none if it was refused. */
  function UsesOf(t: Turn): (uses: seq<Use>)
    ensures |uses| == |t.replies| || uses == []
  {
    if |ToolUses(t.response.content)| == |t.replies| then ToolUses(t.response.content) else []
  }

  /** The number of the first call after these turns; call 0 lists the tools. */
  function ClockAfter(turns: seq<Turn>): nat {
    if turns == [] then 1 else ClockAfter(turns[..|turns| - 1]) + 1 + |turns[|turns| - 1].replies|
  }

  /** All tool calls of a run that reached the host. */
  function CallsOf(s: Setup, ws: nat -> World, turns: seq<Turn>): seq<ToolCall> {
    if turns == [] then []
    else
      var before := turns[..|turns| - 1];
      CallsOf(s, ws, before) + Reached(s, ws, ClockAfter(before) + 1, UsesOf(turns[|turns| - 1]))
  }

  /** Every reply shown to the model in turn `k` is true. */
  predicate TurnTold(s: Setup, ws: nat -> World, turns: seq<Turn>, k: nat)
    requires k < |turns|
  {
    var before, uses := turns[..k], UsesOf(turns[k]);
    forall i | 0 <= i < |uses| ::
      Told(s, ws, ClockAfter(before) + 1, CallsOf(s, ws, before), uses, i, turns[k].replies[i])
  }

  /** The tools have done what the turns say, and the model was told so. */
  predicate Ledger(s: Setup, ws: nat -> World, h: State, turns: seq<Turn>) {
    Worked(s, h, CallsOf(s, ws, turns)) && forall k | 0 <= k < |turns| :: TurnTold(s, ws, turns, k)
  }

  lemma TurnToldStays(s: Setup, ws: nat -> World, turns: seq<Turn>, t: Turn, k: nat)
    requires k < |turns| && TurnTold(s, ws, turns, k)
    ensures TurnTold(s, ws, turns + [t], k)
  {
    hide Told, Reached, UsesOf, CallsOf, ClockAfter;
    assert (turns + [t])[..k] == turns[..k];
  }

  lemma LastTurnTold(s: Setup, ws: nat -> World, turns: seq<Turn>, t: Turn)
    requires var clock, calls, uses := ClockAfter(turns) + 1, CallsOf(s, ws, turns), UsesOf(t);
             forall i | 0 <= i < |uses| :: Told(s, ws, clock, calls, uses, i, t.replies[i])
    ensures TurnTold(s, ws, turns + [t], |turns|)
  {
    hide Told, Reached, UsesOf, CallsOf, ClockAfter;
    assert (turns + [t])[..|turns|] == turns && (turns + [t])[|turns|] == t;
  }

  lemma CallsAfter(s: Setup, ws: nat -> World, turns: seq<Turn>, t: Turn)
    ensures CallsOf(s, ws, turns + [t]) ==
              CallsOf(s, ws, turns) + Reached(s, ws, ClockAfter(turns) + 1, UsesOf(t))
  {
    hide Reached, UsesOf, ClockAfter;
    assert (turns + [t])[..|turns|] == turns && (turns + [t])[|turns|] == t;
  }

  lemma LedgerStep(s: Setup, ws: nat -> World, h: State, h': State, turns: seq<Turn>, t: Turn)
    requires Ledger(s, ws, h, turns)
    requires var clock, calls, uses := ClockAfter(turns) + 1, CallsOf(s, ws, turns), UsesOf(t);
             && Worked(s, h', calls + Reached(s, ws, clock, uses))
             && forall i | 0 <= i < |uses| :: Told(s, ws, clock, calls, uses, i, t.replies[i])
    ensures Ledger(s, ws, h', turns + [t])
  {
    hide Worked, Told, Reached, UsesOf, TurnTold, CallsOf, ClockAfter;
    CallsAfter(s, ws, turns, t);
    LastTurnTold(s, ws, turns, t);
    forall k | 0 <= k < |turns| + 1 ensures TurnTold(s, ws, turns + [t], k) {
      if k < |turns| {
        TurnToldStays(s, ws, turns, t, k);
      }
    }
  }

  lemma ModelLeavesTools(s: Setup, w: World, h: State, request: LlmRequest)
    ensures AskModel(s, w, h, request).0.store == h.store && AskModel(s, w, h, request).0.sent == h.sent
  {
    hide Respond, RespondError, Parse, LlmRequestToJson;
  }

  /** A turn without tool calls does nothing to the tools. */
  lemma QuietTurn(s: Setup, ws: nat -> World, h: State, h': State, turns: seq<Turn>, t: Turn)
    requires Ledger(s, ws, h, turns) && h'.store == h.store && h'.sent == h.sent && t.replies == []
    ensures Ledger(s, ws, h', turns + [t])
  {
    hide Told, StoreAfter, SentBy;
    assert UsesOf(t) == [];
    assert CallsOf(s, ws, turns) + [] == CallsOf(s, ws, turns);
    LedgerStep(s, ws, h, h', turns, t);
  }

  /** The loop while it runs: its call counter is that of its turns, and the ledger is kept. */
  predicate Accounted(s: Setup, ws: nat -> World, p: Progress) {
    Ledger(s, ws, p.st.h, p.st.turns) && (p.Running? ==> p.st.clock == ClockAfter(p.st.turns))
  }

  lemma ClockStep(turns: seq<Turn>, t: Turn)
    ensures ClockAfter(turns + [t]) == ClockAfter(turns) + 1 + |t.replies|
  {
    assert (turns + [t])[..|turns|] == turns;
  }

  lemma StepAccounted(g: Imports, s: Setup, ws: nat -> World, st: Loop, step: u32)
    requires Lossless(s.wire) && Linked(g, s, ws) && step >= 1 && Accounted(s, ws, Running(st))
    ensures Accounted(s, ws, OneStep(g, st, step))
  {
    hide AskModel, AskTool, AskList, Emit, RunUses, ToolUses, JoinedText, Told, Worked, ClockAfter, Reached, CallsOf;
    hide TurnTold;
    var heard := AskModel(s, ws(st.clock), st.h, RequestOf(st));
    ModelLeavesTools(s, ws(st.clock), st.h, RequestOf(st));
    var p := OneStep(g, st, step);
    match heard.1
    case Err(e) => LoggedLine(s, ws, st.h, heard.0, LogLevel.Error, TurnFailed(step, e), st.turns);
    case Ok(response) =>
      var uses := ToolUses(response.content);
      if IsRefusal(response) || uses == [] {
        QuietTurn(s, ws, st.h, heard.0, st.turns, Turn(response, []));
      } else {
        SameTools(s, st.h, heard.0, CallsOf(s, ws, st.turns));
        PhaseTold(g, s, ws, st.clock + 1, heard.0, step, uses, CallsOf(s, ws, st.turns));
        var t := Turn(response, RunUses(g, st.clock + 1, heard.0, step, uses).replies);
        assert UsesOf(t) == uses;
        LedgerStep(s, ws, st.h, p.st.h, st.turns, t);
        ClockStep(st.turns, t);
      }
  }

  lemma SameTools(s: Setup, h: State, h': State, calls: seq<ToolCall>)
    requires h'.store == h.store && h'.sent == h.sent && Worked(s, h, calls)
    ensures Worked(s, h', calls)
  {
  }

  /** Neither does a log line. */
  lemma LoggedLine(s: Setup, ws: nat -> World, h: State, h': State, level: LogLevel, message: string, turns: seq<Turn>)
    requires Ledger(s, ws, h, turns) && h'.store == h.store && h'.sent == h.sent
    ensures Ledger(s, ws, Emit(s, h', level, message), turns)
  {
    hide Emit, TurnTold, StoreAfter, SentBy;
    EmitKeepsTools(s, h', level, message);
  }

  lemma EmptyLedger(s: Setup, ws: nat -> World)
    ensures Ledger(s, ws, FRESH, [])
  {
  }

  lemma StartAccounted(g: Imports, s: Setup, ws: nat -> World, input: AgentInput)
    requires Lossless(s.wire) && Linked(g, s, ws)
    ensures Accounted(s, ws, Running(Start(g, FRESH, input)))
  {
    hide AskList, Emit, Ledger, BaseMessages;
    ListAnswer(s, ws(0), FRESH);
    EmptyLedger(s, ws);
    var listed, st := AskList(s, ws(0), FRESH), Start(g, FRESH, input);
    var h := if listed.1.Err? then Emit(s, listed.0, Warn, NoTools(listed.1.error)) else listed.0;
    if listed.1.Err? {
      EmitKeepsTools(s, listed.0, Warn, NoTools(listed.1.error));
    }
    LoggedLine(s, ws, FRESH, h, Info, StartingWith(|st.tools|), []);
    assert ClockAfter([]) == 1;
  }

  lemma {:induction false} LoopAccounted(g: Imports, s: Setup, ws: nat -> World, input: AgentInput, n: u32)
    requires Lossless(s.wire) && Linked(g, s, ws)
    ensures Accounted(s, ws, After(g, FRESH, input, n))
  {
    hide OneStep, Start, Ledger, ClockAfter, AskModel, AskList, AskTool, Emit;
    if n == 0 {
      StartAccounted(g, s, ws, input);
    } else {
      LoopAccounted(g, s, ws, input, n - 1);
      match After(g, FRESH, input, n - 1) {
        case Running(st) => StepAccounted(g, s, ws, st, n);
        case Done(_, _) =>
      }
    }
  }

  /**
   * Over a whole run, whatever the provider answers, scratchpad and fetched URLs
   * are those of the tool calls of its turns, in order; and each reply shown to
   * the model is what the tool answered at that moment, if it got across.
   */
  lemma ToolsOfRun(g: Imports, s: Setup, ws: nat -> World, input: AgentInput)
    requires Lossless(s.wire) && Linked(g, s, ws)
    ensures var st := AgentRun(g, FRESH, input).st;
            Ledger(s, ws, st.h, st.turns)
  {
    hide After, Ledger, ClockAfter, Emit, AskModel, AskList, AskTool;
    LoopAccounted(g, s, ws, input, StepCap(input));
    var end := After(g, FRESH, input, StepCap(input));
    LoggedLine(s, ws, end.st.h, end.st.h, Warn, AT_LIMIT, end.st.turns);
  }
}
