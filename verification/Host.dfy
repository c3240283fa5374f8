/**
 * The host side of the sandbox: the state one run keeps and the three functions
 * its guest may call, over a guest memory that is not trusted (`runtime.rs`).
 */
module Host {
  import opened Basics
  import opened JsonValues
  import opened Abi
  import opened Outside
  import opened Policies
  import opened Tools
  import Utf8

  const MAX_LOG_BYTES := 8 * 1024
  const MAX_LOG_LINES := 512
  const MAX_NAME_BYTES := 256

  datatype Setup = Setup(policy: Policy, wire: Wire)

  datatype LogLine = LogLine(level: LogLevel, message: string)

  /** A request put to the model, its answer, and how many requests that took on the network. */
  datatype Exchange = Exchange(request: LlmRequest, answer: Cap<LlmResponse>, requests: nat)

  function Asking(w: World, request: LlmRequest): Exchange {
    Exchange(request, w.complete(request).answer, w.complete(request).requests)
  }

  /**
   * `HostState` as a value. Besides the program's own fields it lists what left
   * the process: the URLs `sent`, the model exchanges `asked`, and how often the
   * turn ceiling turned the guest away.
   */
  datatype State = State(
    store: Store, pending: seq<byte>, logs: seq<LogLine>, llmCalls: nat,
    sent: seq<Url>, asked: seq<Exchange>, denials: nat)

  const FRESH := State(map[], [], [], 0, [], [], 0)

  // --------------------------------------------------------------------------
  // Capabilities
  // --------------------------------------------------------------------------

  function Respond<T>(wire: Wire, to: T -> Json, r: Cap<T>): seq<byte> {
    wire.enc(EnvelopeToJson(to, r))
  }

  function RespondError(wire: Wire, e: CapError): seq<byte> { Respond<string>(wire, ToolTextToJson, Err(e)) }

  function Parse<T>(wire: Wire, from: Json -> Option<T>, bytes: seq<byte>): Option<T> {
    match wire.dec(bytes)
    case None => None
    case Some(j) => from(j)
  }

  function TurnsUsedUp(allowed: nat): CapError {
    Denied(Decimal(allowed) + " turns")
  }

  /** One capability: the new state and the bytes of the response. */
  function Handled(s: Setup, w: World, h: State, c: Capability, request: seq<byte>): (State, seq<byte>) {
    match c
    case ToolsList =>
      (h, Respond(s.wire, ToolsListToJson, Ok(Specs(s.policy.tools.enabled))))
    case ToolInvoke =>
      (match Parse(s.wire, ToolInvokeRequestFromJson, request)
       case None => (h, RespondError(s.wire, Invalid("malformed")))
       case Some(req) =>
         var i := RunTool(s.policy.tools, s.wire, w, h.store, req.name, req.input);
         (h.(store := i.store, sent := h.sent + i.sent), Respond(s.wire, ToolTextToJson, i.result)))
    case LlmComplete =>
      if h.llmCalls >= s.policy.limits.maxSteps then
        (h.(denials := h.denials + 1), RespondError(s.wire, TurnsUsedUp(s.policy.limits.maxSteps)))
      else
        match Parse(s.wire, LlmRequestFromJson, request)
        case None => (h, RespondError(s.wire, Invalid("malformed")))
        case Some(req) =>
          var e := Asking(w, req);
          (h.(llmCalls := h.llmCalls + 1, asked := h.asked + [e]), Respond(s.wire, LlmResponseToJson, e.answer))
  }

  /** `dispatch`: a name that is not a capability does not exist. */
  function Dispatched(s: Setup, w: World, h: State, name: string, request: seq<byte>): (State, seq<byte>) {
    match CapabilityOf(name)
    case None => (h, RespondError(s.wire, NotFound(Quoted(name))))
    case Some(c) => Handled(s, w, h, c, request)
  }

  // --------------------------------------------------------------------------
  // The three host functions
  // --------------------------------------------------------------------------

  /** `read_guest`: the bytes of a range, unless part of it lies outside the memory. */
  function ReadGuest(mem: seq<byte>, ptr: u32, len: u32): Option<seq<byte>> {
    if ptr + len <= |mem| then Some(mem[ptr..ptr + len]) else None
  }

  function TooLarge(s: Setup, reqLen: nat): CapError {
    Invalid(Decimal(reqLen) + " over " + Decimal(s.policy.limits.maxRequestBytes))
  }

  /** How `call` goes: turned away with a negative code, or served with a response to be read. */
  datatype Called = Refused(code: int) | Served(h: State, response: seq<byte>)

  function CallOutcome(s: Setup, w: World, h: State, mem: seq<byte>,
                       namePtr: u32, nameLen: u32, reqPtr: u32, reqLen: u32): Called {
    if reqLen > s.policy.limits.maxRequestBytes || nameLen > MAX_NAME_BYTES then
      Served(h, RespondError(s.wire, TooLarge(s, reqLen)))
    else
      var nameBytes, reqBytes := ReadGuest(mem, namePtr, nameLen), ReadGuest(mem, reqPtr, reqLen);
      if nameBytes.None? || reqBytes.None? then Refused(BAD_POINTER)
      else
        match Utf8.Decode(nameBytes.value)
        case None => Refused(BAD_REQUEST)
        case Some(name) =>
          var d := Dispatched(s, w, h, name, reqBytes.value);
          Served(d.0, d.1)
  }

  /** The line a `log` call adds, if its range (cut to the byte limit) can be read. */
  function LineOf(s: Setup, mem: seq<byte>, level: int, ptr: u32, len: u32): Option<LogLine> {
    match ReadGuest(mem, ptr, Min(len, MAX_LOG_BYTES))
    case None => None
    case Some(bytes) => Some(LogLine(LevelFromCode(level), s.wire.lossy(bytes)))
  }

  /** One call by the guest, with the memory as the guest has left it. */
  datatype Act =
    | Log(mem: seq<byte>, level: int, ptr: u32, len: u32)
    | Call(mem: seq<byte>, w: World, namePtr: u32, nameLen: u32, reqPtr: u32, reqLen: u32)
    | ResponseRead(mem: seq<byte>, ptr: u32, len: u32)

  /** State and memory afterwards, and the value returned to the guest. */
  datatype Effect = Effect(h: State, mem: seq<byte>, code: int)

  function Step(s: Setup, h: State, act: Act): Effect {
    match act
    case Log(mem, level, ptr, len) =>
      var line := LineOf(s, mem, level, ptr, len);
      Effect(if line.None? || |h.logs| >= MAX_LOG_LINES then h else h.(logs := h.logs + [line.value]), mem, 0)
    case Call(mem, w, namePtr, nameLen, reqPtr, reqLen) =>
      match CallOutcome(s, w, h, mem, namePtr, nameLen, reqPtr, reqLen) {
        case Refused(code) => Effect(h, mem, code)
        case Served(h', response) => Effect(h'.(pending := response), mem, AsI32(|response|))
      }
    case ResponseRead(mem, ptr, len) =>
      if |h.pending| != len then Effect(h, mem, BAD_REQUEST)
      else if ptr + len > |mem| then Effect(h.(pending := []), mem, BAD_POINTER)
      else Effect(h.(pending := []), mem[..ptr] + h.pending + mem[ptr + len..], AsI32(len))
  }

  /** The state after the guest has made all of `acts`. */
  function Run(s: Setup, h: State, acts: seq<Act>): State {
    if acts == [] then h
    else Step(s, Run(s, h, acts[..|acts| - 1]), acts[|acts| - 1]).h
  }

  lemma RunOneMore(s: Setup, h: State, acts: seq<Act>, act: Act)
    ensures Run(s, h, acts + [act]) == Step(s, Run(s, h, acts), act).h
  {
    assert (acts + [act])[..|acts|] == acts;
  }

  /** What one run keeps; `acts` is the history of calls its guest has made. */
  class HostState {
    const s: Setup
    const tools: ToolBox
    var pending: seq<byte>
    var logs: seq<LogLine>
    var llmCalls: nat
    ghost var asked: seq<Exchange>
    ghost var denials: nat
    ghost var acts: seq<Act>

    ghost predicate Wired()
      reads this
    {
      tools.cfg == s.policy.tools && tools.wire == s.wire
    }

    /** The state is always the one its guest's calls lead to, so all that holds of any run holds of it. */
    ghost predicate Valid()
      reads this, tools
    {
      Wired() && View() == Run(s, FRESH, acts)
    }

    ghost function View(): State
      reads this, tools
    {
      State(tools.kv, pending, logs, llmCalls, tools.sent, asked, denials)
    }

    constructor (s: Setup)
      ensures Valid() && this.s == s && View() == FRESH && acts == [] && fresh(tools)
    {
      this.s := s;
      tools := new ToolBox(s.policy.tools, s.wire);
      pending, logs, llmCalls := [], [], 0;
      asked, denials, acts := [], 0, [];
    }

    method Log(mem: array<byte>, level: int, ptr: u32, len: u32)
      requires Valid()
      modifies this`logs, this`acts
      ensures Valid() && acts == old(acts) + [Act.Log(mem[..], level, ptr, len)]
      ensures View() == Step(s, old(View()), Act.Log(mem[..], level, ptr, len)).h
    {
      hide Step;
      ghost var act := Act.Log(mem[..], level, ptr, len);
      RunOneMore(s, FRESH, acts, act);
      acts := acts + [act];
      DoLog(mem, level, ptr, len);
    }

    method DoLog(mem: array<byte>, level: int, ptr: u32, len: u32)
      modifies this`logs
      ensures View() == Step(s, old(View()), Act.Log(mem[..], level, ptr, len)).h
    {
      var cut := if len < MAX_LOG_BYTES then len else MAX_LOG_BYTES;
      if ptr + cut > mem.Length {
        return;
      }
      var message := s.wire.lossy(mem[ptr..ptr + cut]);
      assert mem[ptr..ptr + cut] == mem[..][ptr..ptr + cut];
      if |logs| < MAX_LOG_LINES {
        logs := logs + [LogLine(LevelFromCode(level), message)];
      }
    }

    method Call(mem: array<byte>, w: World, namePtr: u32, nameLen: u32, reqPtr: u32, reqLen: u32) returns (code: int)
      requires Valid()
      modifies this, tools
      ensures Valid() && acts == old(acts) + [Act.Call(mem[..], w, namePtr, nameLen, reqPtr, reqLen)]
      ensures var e := Step(s, old(View()), Act.Call(mem[..], w, namePtr, nameLen, reqPtr, reqLen));
              View() == e.h && code == e.code
    {
      hide Step;
      ghost var act := Act.Call(mem[..], w, namePtr, nameLen, reqPtr, reqLen);
      RunOneMore(s, FRESH, acts, act);
      acts := acts + [act];
      code := DoCall(mem, w, namePtr, nameLen, reqPtr, reqLen);
    }

    method DoCall(mem: array<byte>, w: World, namePtr: u32, nameLen: u32, reqPtr: u32, reqLen: u32) returns (code: int)
      requires Wired()
      modifies this`pending, this`llmCalls, this`asked, this`denials, tools
      ensures var e := Step(s, old(View()), Act.Call(mem[..], w, namePtr, nameLen, reqPtr, reqLen));
              View() == e.h && code == e.code
    {
      hide Dispatched, Utf8.Decode;
      var max := s.policy.limits.maxRequestBytes;
      if reqLen > max || nameLen > MAX_NAME_BYTES {
        pending := RespondError(s.wire, TooLarge(s, reqLen));
        return AsI32(|pending|);
      }
      if namePtr + nameLen > mem.Length {
        return BAD_POINTER;
      }
      var nameBytes := mem[namePtr..namePtr + nameLen];
      if reqPtr + reqLen > mem.Length {
        return BAD_POINTER;
      }
      var reqBytes := mem[reqPtr..reqPtr + reqLen];
      assert nameBytes == mem[..][namePtr..namePtr + nameLen] && reqBytes == mem[..][reqPtr..reqPtr + reqLen];
      var name := Utf8.Decode(nameBytes);
      if name.None? {
        return BAD_REQUEST;
      }
      var response := Dispatch(w, name.value, reqBytes);
      pending := response;
      code := AsI32(|pending|);
    }

    method Dispatch(w: World, name: string, request: seq<byte>) returns (response: seq<byte>)
      requires Wired()
      modifies this`llmCalls, this`asked, this`denials, tools
      ensures (View(), response) == Dispatched(s, w, old(View()), name, request)
    {
      hide Respond, RunTool;
      match name {
        case "tools.list" =>
          return Respond(s.wire, ToolsListToJson, Ok(Specs(s.policy.tools.enabled)));
        case "tool.invoke" =>
          var parsed := Parse(s.wire, ToolInvokeRequestFromJson, request);
          if parsed.None? {
            return RespondError(s.wire, Invalid("malformed"));
          }
          var r := tools.Invoke(w, parsed.value.name, parsed.value.input);
          return Respond(s.wire, ToolTextToJson, r);
        case "llm.complete" =>
          var allowed := s.policy.limits.maxSteps;
          if llmCalls >= allowed {
            denials := denials + 1;
            return RespondError(s.wire, TurnsUsedUp(allowed));
          }
          var parsed := Parse(s.wire, LlmRequestFromJson, request);
          if parsed.None? {
            return RespondError(s.wire, Invalid("malformed"));
          }
          llmCalls := llmCalls + 1;
          var done := w.complete(parsed.value);
          asked := asked + [Exchange(parsed.value, done.answer, done.requests)];
          return Respond(s.wire, LlmResponseToJson, done.answer);
        case _ =>
          response := RespondError(s.wire, NotFound(Quoted(name)));
      }
    }

    method ResponseRead(mem: array<byte>, ptr: u32, len: u32) returns (code: int)
      requires Valid()
      modifies this`pending, this`acts, mem
      ensures Valid() && acts == old(acts) + [Act.ResponseRead(old(mem[..]), ptr, len)]
      ensures var e := Step(s, old(View()), Act.ResponseRead(old(mem[..]), ptr, len));
              View() == e.h && mem[..] == e.mem && code == e.code
    {
      hide Step;
      ghost var act := Act.ResponseRead(mem[..], ptr, len);
      RunOneMore(s, FRESH, acts, act);
      acts := acts + [act];
      code := DoResponseRead(mem, ptr, len);
    }

    method DoResponseRead(mem: array<byte>, ptr: u32, len: u32) returns (code: int)
      modifies this`pending, mem
      ensures var e := Step(s, old(View()), Act.ResponseRead(old(mem[..]), ptr, len));
              View() == e.h && mem[..] == e.mem && code == e.code
    {
      var taken := pending;
      pending := [];
      if |taken| != len {
        pending := taken;
        return BAD_REQUEST;
      }
      if ptr + |taken| > mem.Length {
        return BAD_POINTER;
      }
      forall i | 0 <= i < |taken| {
        mem[ptr + i] := taken[i];
      }
      code := AsI32(len);
    }
  }
}
