/**
 * How large the texts are that a run of the agent puts into its memory: names,
 * requests, responses and log lines, from the input to the output.
 */
module Sizes {
  import opened Basics
  import opened JsonValues
  import opened Abi
  import opened Outside
  import opened Host
  import opened Agent
  import opened Calls
  import opened Turns
  import Utf8

  predicate LineSmall(message: string, max: nat) { |Utf8.Encode(message)| <= max }

  /** Name, request and response of one host call. */
  predicate CallSmall(s: Setup, w: World, h: State, c: Capability, body: Json, max: nat) {
    && LineSmall(CapabilityName(c), max) && |s.wire.enc(body)| <= max
    && |Serve(s, w, h, c, s.wire.enc(body)).1| <= max
  }

  predicate UseSmall(s: Setup, w: World, h: State, step: u32, use: Use, max: nat) {
    var message := CallingTool(step, use.name);
    LineSmall(message, max) && CallSmall(s, w, Emit(s, h, Info, message), ToolInvoke, InvocationOf(use), max)
  }

  predicate UsesSmall(g: Imports, s: Setup, ws: nat -> World, clock: nat, h: State, step: u32, uses: seq<Use>,
                      max: nat)
  {
    uses == [] ||
    var n := |uses| - 1;
    && UsesSmall(g, s, ws, clock, h, step, uses[..n], max)
    && UseSmall(s, ws(clock + n), RunUses(g, clock, h, step, uses[..n]).h, step, uses[n], max)
  }

  predicate StartSmall(g: Imports, s: Setup, ws: nat -> World, h: State, max: nat) {
    var heard := g.list(h).1;
    && CallSmall(s, ws(0), h, ToolsList, JObject(map[]), max)
    && (heard.Err? ==> LineSmall(NoTools(heard.error), max))
    && LineSmall(StartingWith(if heard.Ok? then |heard.value| else 0), max)
  }

  predicate StepSmall(g: Imports, s: Setup, ws: nat -> World, st: Loop, step: u32, max: nat) {
    var asked := g.complete(st.clock, st.h, RequestOf(st));
    && CallSmall(s, ws(st.clock), st.h, LlmComplete, LlmRequestToJson(RequestOf(st)), max)
    && match asked.1
       case Err(e) => LineSmall(TurnFailed(step, e), max)
       case Ok(r) => IsRefusal(r) || UsesSmall(g, s, ws, st.clock + 1, asked.0, step, ToolUses(r.content), max)
  }

  /** Every text of the loop. */
  predicate LoopSmall(g: Imports, s: Setup, ws: nat -> World, h: State, input: AgentInput, max: nat) {
    && StartSmall(g, s, ws, h, max) && LineSmall(AT_LIMIT, max)
    && forall n | 0 <= n < StepCap(input) ::
         After(g, h, input, n).Running? ==> StepSmall(g, s, ws, After(g, h, input, n).st, n + 1, max)
  }

  /** Every text of a run: none of them is longer than `max`. */
  predicate RunSmall(s: Setup, ws: nat -> World, h: State, input: AgentInput, max: nat) {
    && max < TWO_31
    && |s.wire.enc(AgentInputToJson(input))| <= max
    && LoopSmall(Link(s, ws), s, ws, h, input, max)
    && |s.wire.enc(AgentOutputToJson(AgentRun(Link(s, ws), h, input).out))| <= max
  }
}
