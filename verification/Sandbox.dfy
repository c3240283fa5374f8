/**
 * What holds of the host after any sequence of calls by any guest: the acts
 * carry arbitrary arguments and arbitrary memory contents.
 */
module Sandbox {
  import opened Basics
  import opened Abi
  import opened Outside
  import opened Tools
  import opened Host
  import opened Llm
  import Utf8

  /** What act number `i` does. */
  function EffectAt(s: Setup, h: State, acts: seq<Act>, i: nat): Effect
    requires i < |acts|
  {
    Step(s, Run(s, h, acts[..i]), acts[i])
  }

  // --------------------------------------------------------------------------
  // Guest memory
  // --------------------------------------------------------------------------

  /**
   * Only `response_read` writes to the guest, only the range it was given, and
   * only the response that was waiting.
   */
  lemma MemoryFrame(s: Setup, h: State, act: Act)
    ensures var e := Step(s, h, act);
            && |e.mem| == |act.mem|
            && (!act.ResponseRead? ==> e.mem == act.mem)
            && (act.ResponseRead? && (|h.pending| != act.len || act.ptr + act.len > |act.mem|) ==> e.mem == act.mem)
            && (act.ResponseRead? && |h.pending| == act.len && act.ptr + act.len <= |act.mem| ==>
                  && e.mem[act.ptr..act.ptr + act.len] == h.pending
                  && forall i | 0 <= i < |act.mem| && !(act.ptr <= i < act.ptr + act.len) :: e.mem[i] == act.mem[i])
            && (act.ResponseRead? ==>
                  e.code == if |h.pending| != act.len then -2
                            else if act.ptr + act.len > |act.mem| then -1
                            else AsI32(act.len))
  {
  }

  /**
   * A `call` that is turned away changes nothing at all. As long as responses are
   * shorter than 2^31 bytes those are exactly the calls that return a negative
   * code: -1 if name or request lie outside the memory, and otherwise -2, for a
   * name that is not UTF-8. So `INTERNAL` is never returned.
   */
  lemma RefusalChangesNothing(s: Setup, h: State, act: Act)
    requires act.Call?
    ensures var e := Step(s, h, act);
            var c := CallOutcome(s, act.w, h, act.mem, act.namePtr, act.nameLen, act.reqPtr, act.reqLen);
            && (c.Refused? ==>
                  && e.h == h
                  && e.code == if act.namePtr + act.nameLen > |act.mem| || act.reqPtr + act.reqLen > |act.mem| then -1
                               else -2)
            && (c.Served? && |c.response| < TWO_31 ==> e.code == |c.response| && e.h.pending == c.response)
  {
  }

  // --------------------------------------------------------------------------
  // The pending response
  // --------------------------------------------------------------------------

  /** The response that act `i` left to be read, if it was a `call` that was served. */
  function ResponseAt(s: Setup, acts: seq<Act>, i: nat): Option<seq<byte>>
    requires i < |acts|
  {
    if !acts[i].Call? then None
    else
      var a := acts[i];
      match CallOutcome(s, a.w, Run(s, FRESH, acts[..i]), a.mem, a.namePtr, a.nameLen, a.reqPtr, a.reqLen)
      case Refused(_) => None
      case Served(_, response) => Some(response)
  }

  lemma ResponsesOfPrefix(s: Setup, acts: seq<Act>, n: nat)
    requires n <= |acts|
    ensures forall i | 0 <= i < n :: ResponseAt(s, acts[..n], i) == ResponseAt(s, acts, i)
  {
    forall i | 0 <= i < n ensures ResponseAt(s, acts[..n], i) == ResponseAt(s, acts, i) {
      assert acts[..n][..i] == acts[..i];
    }
  }

  /** The latest served call, or -1. */
  function LastServed(s: Setup, acts: seq<Act>): (k: int)
    ensures -1 <= k < |acts|
    ensures k >= 0 ==> ResponseAt(s, acts, k).Some?
    ensures forall j | k < j < |acts| :: ResponseAt(s, acts, j).None?
  {
    if acts == [] then -1
    else
      var n := |acts| - 1;
      if ResponseAt(s, acts, n).Some? then n
      else
        ResponsesOfPrefix(s, acts, n);
        LastServed(s, acts[..n])
  }

  /** A read of the right length has been made since act `k`, whether or not its write succeeded. */
  predicate Claimed(s: Setup, acts: seq<Act>, k: nat)
    requires k < |acts| && ResponseAt(s, acts, k).Some?
  {
    exists j | k < j < |acts| :: acts[j].ResponseRead? && acts[j].len == |ResponseAt(s, acts, k).value|
  }

  /** What one act does to the mailbox. */
  lemma MailboxStep(s: Setup, acts: seq<Act>)
    requires acts != []
    ensures var n := |acts| - 1;
            var before := Run(s, FRESH, acts[..n]).pending;
            Run(s, FRESH, acts).pending ==
              if ResponseAt(s, acts, n).Some? then ResponseAt(s, acts, n).value
              else if acts[n].ResponseRead? && acts[n].len == |before| then [] else before
  {
    hide CallOutcome, LineOf;
  }

  /** The mailbox holds the response to the latest served call until it is claimed, and nothing else. */
  lemma {:induction false} Mailbox(s: Setup, acts: seq<Act>)
    ensures var k := LastServed(s, acts);
            Run(s, FRESH, acts).pending ==
              if k < 0 || Claimed(s, acts, k) then [] else ResponseAt(s, acts, k).value
  {
    hide LastServed, Run, ResponseAt;
    if acts == [] {
      NothingRun(s);
    } else {
      var n := |acts| - 1;
      Mailbox(s, acts[..n]);
      MailboxStep(s, acts);
      ResponsesOfPrefix(s, acts, n);
      var k := LastServed(s, acts);
      if ResponseAt(s, acts, n).None? {
        SameLast(s, acts);
        if k >= 0 {
          assert ResponseAt(s, acts, k) == ResponseAt(s, acts[..n], k);
          ClaimedStep(s, acts, k);
        }
      }
    }
  }

  lemma NothingRun(s: Setup)
    ensures Run(s, FRESH, []).pending == []
  {
  }

  lemma SameLast(s: Setup, acts: seq<Act>)
    requires acts != [] && ResponseAt(s, acts, |acts| - 1).None?
    ensures LastServed(s, acts) == LastServed(s, acts[..|acts| - 1])
  {
    hide ResponseAt;
    ResponsesOfPrefix(s, acts, |acts| - 1);
  }

  lemma ClaimedStep(s: Setup, acts: seq<Act>, k: nat)
    requires k < |acts| - 1 && ResponseAt(s, acts, k).Some?
    requires ResponseAt(s, acts[..|acts| - 1], k) == ResponseAt(s, acts, k)
    ensures var n := |acts| - 1;
            Claimed(s, acts, k) <==>
              Claimed(s, acts[..n], k) || (acts[n].ResponseRead? && acts[n].len == |ResponseAt(s, acts, k).value|)
  {
    hide ResponseAt;
    var n := |acts| - 1;
    assert forall j | 0 <= j < n :: acts[..n][j] == acts[j];
    if Claimed(s, acts, k) {
      var j :| k < j < |acts| && acts[j].ResponseRead? && acts[j].len == |ResponseAt(s, acts, k).value|;
      if j < n {
        assert acts[..n][j].ResponseRead?;
      }
    }
  }

  /** Act `i` hands a non-empty response over to the guest. */
  predicate Delivers(s: Setup, acts: seq<Act>, i: nat)
    requires i < |acts|
  {
    && acts[i].ResponseRead? && acts[i].len > 0
    && |Run(s, FRESH, acts[..i]).pending| == acts[i].len
    && acts[i].ptr + acts[i].len <= |acts[i].mem|
  }

  /** What is delivered is the response to the latest served call before it. */
  lemma DeliveryIsLatest(s: Setup, acts: seq<Act>, i: nat)
    requires i < |acts| && Delivers(s, acts, i)
    ensures var k := LastServed(s, acts[..i]);
            && 0 <= k < i
            && ResponseAt(s, acts, k) == Some(EffectAt(s, FRESH, acts, i).mem[acts[i].ptr..acts[i].ptr + acts[i].len])
  {
    hide Run, ResponseAt, LastServed;
    Mailbox(s, acts[..i]);
    MemoryFrame(s, Run(s, FRESH, acts[..i]), acts[i]);
    ResponsesOfPrefix(s, acts, i);
  }

  lemma ReadsServeNothing(s: Setup, acts: seq<Act>, i: nat)
    requires i < |acts| && acts[i].ResponseRead?
    ensures ResponseAt(s, acts, i).None?
  {
  }

  /** No response is delivered twice: between two deliveries there is another served call. */
  lemma DeliveredOnce(s: Setup, acts: seq<Act>, i: nat, j: nat)
    requires i < j < |acts| && Delivers(s, acts, i) && Delivers(s, acts, j)
    ensures exists k | i < k < j :: ResponseAt(s, acts, k).Some?
  {
    hide Run, ResponseAt, LastServed;
    var k := LastServed(s, acts[..j]);
    Mailbox(s, acts[..i]);
    Mailbox(s, acts[..j]);
    ResponsesOfPrefix(s, acts, i);
    ResponsesOfPrefix(s, acts, j);
    ReadsServeNothing(s, acts, i);
    assert acts[..j][i] == acts[i];
    if k < i {
      LastServedPrefix(s, acts, i, j);
    }
  }

  lemma LastServedPrefix(s: Setup, acts: seq<Act>, i: nat, j: nat)
    requires i <= j <= |acts| && LastServed(s, acts[..j]) < i
    ensures LastServed(s, acts[..i]) == LastServed(s, acts[..j])
  {
    hide Run, ResponseAt, LastServed;
    ResponsesOfPrefix(s, acts, i);
    ResponsesOfPrefix(s, acts, j);
    var a, b := LastServed(s, acts[..i]), LastServed(s, acts[..j]);
    assert b >= 0 ==> ResponseAt(s, acts, b).Some?;
    assert a >= 0 ==> ResponseAt(s, acts, a).Some?;
    assert b >= 0 ==> ResponseAt(s, acts[..i], b).Some?;
    assert a >= 0 ==> ResponseAt(s, acts[..j], a).Some?;
  }

  // --------------------------------------------------------------------------
  // Logs
  // --------------------------------------------------------------------------

  /** What a `log` call puts down: at most 8192 bytes, under the level its number stands for. */
  function Logged(s: Setup, act: Act): Option<LogLine>
    requires act.Log?
  {
    var n := if act.len < 8192 then act.len else 8192;
    if act.ptr + n > |act.mem| then None
    else
      var level := if act.level == 0 then Debug else if act.level == 2 then Warn
                   else if act.level == 3 then LogLevel.Error else Info;
      Some(LogLine(level, s.wire.lossy(act.mem[act.ptr..act.ptr + n])))
  }

  /** The line of every readable `log` call, in order. */
  function LinesLogged(s: Setup, acts: seq<Act>): seq<LogLine> {
    if acts == [] then []
    else
      var n := |acts| - 1;
      var before := LinesLogged(s, acts[..n]);
      if !acts[n].Log? || Logged(s, acts[n]).None? then before else before + [Logged(s, acts[n]).value]
  }

  lemma StepLogs(s: Setup, h: State, act: Act)
    ensures var line := if act.Log? then Logged(s, act) else None;
            Step(s, h, act).h.logs ==
              if line.Some? && |h.logs| < 512 then h.logs + [line.value] else h.logs
  {
    hide Utf8.Decode, RespondError, Respond, RunTool, Parse;
  }

  /** The log is the first 512 of them. */
  lemma {:induction false} LogIsPrefix(s: Setup, acts: seq<Act>)
    ensures var lines := LinesLogged(s, acts);
            Run(s, FRESH, acts).logs == lines[..if |lines| < 512 then |lines| else 512]
  {
    hide Step, Logged;
    if acts != [] {
      var n := |acts| - 1;
      LogIsPrefix(s, acts[..n]);
      StepLogs(s, Run(s, FRESH, acts[..n]), acts[n]);
    }
  }

  // --------------------------------------------------------------------------
  // Capabilities over a whole run
  // --------------------------------------------------------------------------

  /** The capability and request that a `call` names, if it gets as far as being dispatched. */
  function Request(s: Setup, act: Act): Option<(string, seq<byte>)> {
    if !act.Call? || act.reqLen > s.policy.limits.maxRequestBytes || act.nameLen > MAX_NAME_BYTES then None
    else
      var name, req := ReadGuest(act.mem, act.namePtr, act.nameLen), ReadGuest(act.mem, act.reqPtr, act.reqLen);
      if name.None? || req.None? || Utf8.Decode(name.value).None? then None
      else Some((Utf8.Decode(name.value).value, req.value))
  }

  function ToolCallOf(s: Setup, act: Act): Option<ToolCall> {
    match Request(s, act)
    case None => None
    case Some((name, req)) =>
      if CapabilityOf(name) != Some(ToolInvoke) then None
      else match Parse(s.wire, ToolInvokeRequestFromJson, req)
        case None => None
        case Some(call) => Some(ToolCall(act.w, call.name, call.input))
  }

  /** The well-formed tool invocations of a run. */
  function ToolCalls(s: Setup, acts: seq<Act>): seq<ToolCall> {
    if acts == [] then []
    else
      var n := |acts| - 1;
      var before, call := ToolCalls(s, acts[..n]), ToolCallOf(s, acts[n]);
      if call.None? then before else before + [call.value]
  }

  function ModelCallOf(s: Setup, act: Act): Option<Exchange> {
    match Request(s, act)
    case None => None
    case Some((name, req)) =>
      if CapabilityOf(name) != Some(LlmComplete) then None
      else match Parse(s.wire, LlmRequestFromJson, req)
        case None => None
        case Some(request) => Some(Asking(act.w, request))
  }

  /** The well-formed model requests of a run, each with the answer the provider would give. */
  function ModelCalls(s: Setup, acts: seq<Act>): seq<Exchange> {
    if acts == [] then []
    else
      var n := |acts| - 1;
      var before, call := ModelCalls(s, acts[..n]), ModelCallOf(s, acts[n]);
      if call.None? then before else before + [call.value]
  }

  /** Whether and how a `call` is dispatched, by the request it carries. */
  lemma StepByRequest(s: Setup, h: State, act: Act)
    ensures var h', req := Step(s, h, act).h, Request(s, act);
            && (req.None? ==>
                  h'.store == h.store && h'.sent == h.sent && h'.llmCalls == h.llmCalls && h'.asked == h.asked)
            && (req.Some? ==> h' == Dispatched(s, act.w, h, req.value.0, req.value.1).0.(pending := h'.pending))
  {
    hide Dispatched, Utf8.Decode, RespondError, LineOf;
  }

  /** Tool invocations move the tools, model requests below the ceiling the model's books, nothing else either. */
  lemma StepByCapability(s: Setup, h: State, act: Act)
    ensures var h', tool := Step(s, h, act).h, ToolCallOf(s, act);
            && (tool.None? ==> h'.store == h.store && h'.sent == h.sent)
            && (tool.Some? ==>
                  var i := RunTool(s.policy.tools, s.wire, tool.value.w, h.store, tool.value.name, tool.value.input);
                  h'.store == i.store && h'.sent == h.sent + i.sent)
    ensures var h', model := Step(s, h, act).h, ModelCallOf(s, act);
            && (model.None? || h.llmCalls >= s.policy.limits.maxSteps ==>
                  h'.llmCalls == h.llmCalls && h'.asked == h.asked)
            && (model.Some? && h.llmCalls < s.policy.limits.maxSteps ==>
                  h'.llmCalls == h.llmCalls + 1 && h'.asked == h.asked + [model.value])
  {
    hide Step, Request, RunTool, Respond, RespondError, Parse;
    StepByRequest(s, h, act);
  }

  /**
   * Whatever the guest does, the provider is asked exactly the first `max_steps`
   * well-formed model requests, and the counter counts them.
   */
  lemma {:induction false} TurnCeiling(s: Setup, acts: seq<Act>)
    ensures var r, calls := Run(s, FRESH, acts), ModelCalls(s, acts);
            && r.asked == calls[..Min(s.policy.limits.maxSteps, |calls|)]
            && r.llmCalls == |r.asked| <= s.policy.limits.maxSteps
  {
    hide Step, ToolCallOf, ModelCallOf, RunTool;
    if acts != [] {
      var n := |acts| - 1;
      TurnCeiling(s, acts[..n]);
      StepByCapability(s, Run(s, FRESH, acts[..n]), acts[n]);
    }
  }

  /** An exchange of a model that is reached through the retry loop. */
  predicate Modest(e: Exchange, maxRetries: nat) {
    && e.requests <= maxRetries + 1
    && (e.answer.Ok? ==> forall c | c in e.answer.value.content :: Stable(c))
  }

  predicate AllModest(asked: seq<Exchange>, maxRetries: nat) { forall e | e in asked :: Modest(e, maxRetries) }

  lemma AskingIsModest(w: World, request: LlmRequest, maxRetries: nat)
    requires Retrying(w, maxRetries)
    ensures Modest(Asking(w, request), maxRetries)
  {
    hide Retried;
    assert RetryOutcome(w.complete(request), maxRetries);
    var outcomes: nat -> Attempt :| w.complete(request) == Retried(maxRetries, outcomes);
    RetriedAnswers(maxRetries, outcomes);
  }

  /** Requests sent over the network for all of the exchanges. */
  function Requests(asked: seq<Exchange>): nat {
    if asked == [] then 0 else Requests(asked[..|asked| - 1]) + asked[|asked| - 1].requests
  }

  lemma {:induction false} RequestsBounded(asked: seq<Exchange>, maxRetries: nat)
    requires AllModest(asked, maxRetries)
    ensures Requests(asked) <= |asked| * (maxRetries + 1)
  {
    hide Stable;
    if asked != [] {
      var n := |asked| - 1;
      RequestsBounded(asked[..n], maxRetries);
      OneMoreTimes(n, maxRetries + 1);
      assert asked[n] in asked;
    }
  }

  lemma {:induction false} ModelCallsModest(s: Setup, acts: seq<Act>)
    requires forall a | a in acts && a.Call? :: Retrying(a.w, s.policy.llm.maxRetries)
    ensures AllModest(ModelCalls(s, acts), s.policy.llm.maxRetries)
  {
    hide Modest, Retrying;
    if acts != [] {
      var n := |acts| - 1;
      ModelCallsModest(s, acts[..n]);
      var call := ModelCallOf(s, acts[n]);
      if call.Some? {
        assert acts[n] in acts;
        AskingIsModest(acts[n].w, call.value.request, s.policy.llm.maxRetries);
      }
    }
  }

  /**
   * Whatever the guest does and whatever the network does, a run costs at most
   * `max_steps * (max_retries + 1)` requests to the model.
   */
  lemma ModelRequests(s: Setup, acts: seq<Act>)
    requires forall a | a in acts && a.Call? :: Retrying(a.w, s.policy.llm.maxRetries)
    ensures var asked := Run(s, FRESH, acts).asked;
            && Requests(asked) <= s.policy.limits.maxSteps * (s.policy.llm.maxRetries + 1)
            && AllModest(asked, s.policy.llm.maxRetries)
  {
    hide Run, ModelCalls, Modest, Retrying;
    TurnCeiling(s, acts);
    ModelCallsModest(s, acts);
    var asked := Run(s, FRESH, acts).asked;
    RequestsBounded(asked, s.policy.llm.maxRetries);
    TimesMonotone(|asked|, s.policy.limits.maxSteps, s.policy.llm.maxRetries + 1);
  }

  /** The scratchpad and the requests sent are those of the tool history alone. */
  lemma {:induction false} ToolHistory(s: Setup, acts: seq<Act>)
    ensures var r, calls := Run(s, FRESH, acts), ToolCalls(s, acts);
            r.store == StoreAfter(s.policy.tools, s.wire, calls) && r.sent == SentBy(s.policy.tools, s.wire, calls)
  {
    hide Step, ToolCallOf, ModelCallOf, RunTool;
    if acts != [] {
      var n := |acts| - 1;
      ToolHistory(s, acts[..n]);
      StepByCapability(s, Run(s, FRESH, acts[..n]), acts[n]);
      var calls := ToolCalls(s, acts);
      if ToolCallOf(s, acts[n]).Some? {
        assert calls[..|calls| - 1] == ToolCalls(s, acts[..n]);
      }
    }
  }

  /** The bounds no guest can exceed, and the reach no guest can extend. */
  lemma AnyGuestIsContained(s: Setup, acts: seq<Act>)
    ensures var r, cfg := Run(s, FRESH, acts), s.policy.tools;
            && |r.asked| <= s.policy.limits.maxSteps
            && |r.logs| <= 512
            && |r.store| <= cfg.kv.maxKeys
            && Refines(cfg, ToolCalls(s, acts), r.store)
            && (forall url | url in r.sent :: Permitted(cfg, url))
            && r.sent == PermittedFetches(cfg, ToolCalls(s, acts))
            && ("http_get" !in cfg.enabled || cfg.http.allowedHosts == [] ==> r.sent == [])
  {
    TurnCeiling(s, acts);
    LogIsPrefix(s, acts);
    ToolHistory(s, acts);
    var calls := ToolCalls(s, acts);
    ScratchpadBounded(s.policy.tools, s.wire, calls);
    StoreRefinesHistory(s.policy.tools, s.wire, calls);
    NetworkGate(s.policy.tools, s.wire, calls);
  }
}
