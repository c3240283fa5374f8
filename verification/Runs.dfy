/** `Runtime::run`: one run from the requested input to the report. */
module Runs {
  import opened JsonValues
  import opened Abi
  import opened Rereading
  import opened Outside
  import opened Policies
  import opened Tools
  import opened Host
  import opened Sandbox
  import opened Agent
  import opened Calls
  import opened AgentRuns
  import opened Heap
  import opened Sizes
  import opened Guest

  /** What the caller gets back; `completed` is false if the guest trapped or its result was lost. */
  datatype RunReport = RunReport(output: AgentOutput, logs: seq<LogLine>, completed: bool)

  const STOPPED := AgentOutput("trapped", 0, StopReason.Error, [], NO_USAGE)

  /** The host has stayed inside the policy. */
  predicate WithinPolicy(s: Setup, end: State) {
    && |end.logs| <= 512
    && |end.asked| == end.llmCalls <= s.policy.limits.maxSteps
    && (forall url | url in end.sent :: Permitted(s.policy.tools, url))
    && |end.store| <= s.policy.tools.kv.maxKeys
  }

  lemma HistoryWithinPolicy(s: Setup, acts: seq<Act>)
    ensures WithinPolicy(s, Run(s, FRESH, acts))
  {
    hide Run, Permitted, Refines;
    AnyGuestIsContained(s, acts);
    TurnCeiling(s, acts);
  }

  /** Output and host are those of the agent loop; every provider call is a step or the one that failed. */
  ghost predicate AsTheLoop(s: Setup, ws: nat -> World, requested: AgentInput, output: AgentOutput, end: State)
    requires Valid(s.policy)
  {
    var run := AgentRun(Link(s, ws), FRESH, Clamped(s.policy, requested));
    && output == RereadOutput(s.wire.again)(run.out) && end == run.st.h && end.denials == 0
    && (output.stop != StopReason.Error ==> output.steps == end.llmCalls)
    && (output.stop == StopReason.Error ==> output.steps <= end.llmCalls <= output.steps + 1)
  }

  lemma LoopCounts(s: Setup, ws: nat -> World, requested: AgentInput, output: AgentOutput, end: State)
    requires Valid(s.policy) && Lossless(s.wire)
    requires var run := AgentRun(Link(s, ws), FRESH, Clamped(s.policy, requested));
             output == RereadOutput(s.wire.again)(run.out) && end == run.st.h
    ensures AsTheLoop(s, ws, requested, output, end)
  {
    hide AgentRun, Link, Linked, Lossless;
    LinkLinks(s, ws);
    WholeRun(Link(s, ws), s, ws, requested);
  }

  /**
   * A run of the agent module in a fresh instance. However it ends, the host has
   * stayed inside the policy. It completes unless the guest was refused memory or
   * the input is 2^32 bytes or longer; and then the output is the loop's, and its
   * steps are the calls made to the provider. It does complete if no text of the
   * run is longer than `max` bytes and the allocator has room for three blocks of
   * that length and one more.
   */
  method Execute(s: Setup, ws: nat -> World, requested: AgentInput, heap: GuestHeap, ghost max: nat)
    returns (report: RunReport, host: HostState)
    requires Valid(s.policy) && Lossless(s.wire) && heap.Valid()
    modifies heap`live, heap`ticks, heap`refusals, heap.data
    ensures fresh(host) && fresh(host.tools) && host.Valid() && host.s == s
    ensures WithinPolicy(s, host.View()) && report.logs == host.View().logs
    ensures heap.refusals == old(heap.refusals) && InputFits(s.wire, Clamped(s.policy, requested)) ==> report.completed
    ensures old(heap.HasRoom(max, 3)) && RunSmall(s, ws, FRESH, Clamped(s.policy, requested), max) ==> report.completed
    ensures report.completed ==> AsTheLoop(s, ws, requested, report.output, host.View())
    ensures !report.completed ==>
              && report.output.stop == StopReason.Error && report.output.steps == 0
              && report.output.toolCalls == [] && report.output.usage == Usage(0, 0)
    ensures heap.Valid() && (report.completed ==> heap.Contents() == old(heap.Contents()))
  {
    hide AgentRun, Run, ContentsOf, Link, Lossless, RereadOutput, AsTheLoop, WithinPolicy, Room, LoopSmall;
    var input := Clamped(s.policy, requested);
    host := new HostState(s);
    var normal, r := InvokeAgent(heap, max, host, ws, input);
    HistoryWithinPolicy(s, host.acts);
    if normal && r.Ok? {
      LoopCounts(s, ws, requested, r.value, host.View());
      report := RunReport(r.value, host.logs, true);
    } else {
      report := RunReport(STOPPED, host.logs, false);
    }
  }
}
