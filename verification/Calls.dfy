/**
 * The agent's imports as this host provides them: what `host_call` and `emit`
 * come to at the boundary. `ws(k)` is the outside world at the k-th call.
 */
module Calls {
  import opened Basics
  import opened JsonValues
  import opened Abi
  import opened Outside
  import opened Host
  import opened Agent
  import Utf8

  /** What the host does with a capability request it can read. */
  function Serve(s: Setup, w: World, h: State, c: Capability, body: seq<byte>): (State, seq<byte>) {
    if |body| > s.policy.limits.maxRequestBytes then (h, RespondError(s.wire, TooLarge(s, |body|)))
    else Handled(s, w, h, c, body)
  }

  const MALFORMED := CapError("host", "malformed")
  const TRUNCATED := CapError("host", "truncated")

  /** The response decoded as the caller expects it. */
  function Understand<T>(wire: Wire, from: Json -> Option<T>, response: seq<byte>): Cap<T> {
    match Parse(wire, j => EnvelopeFromJson(from, j), response)
    case None => Err(MALFORMED)
    case Some(r) => r
  }

  /** What the guest makes of a negative return. */
  function HostFailure(code: int): CapError {
    CapError("host",
      if code == BAD_POINTER then "memory"
      else if code == BAD_REQUEST then "request"
      else if code == INTERNAL then "internal"
      else "unknown")
  }

  /** A response whose length does not fit a non-negative `i32` cannot be read; how that shows. */
  function Unreadable(length: nat): CapError {
    var n := AsI32(length);
    if n < 0 then HostFailure(n) else if n > 0 then TRUNCATED else MALFORMED
  }

  /** The second half of `host_call`: take the pending response and decode it, if its length fits. */
  function Heard<T>(wire: Wire, h: State, from: Json -> Option<T>): (State, Cap<T>) {
    if |h.pending| < TWO_31 then (h.(pending := []), Understand(wire, from, h.pending))
    else (h, Err(Unreadable(|h.pending|)))
  }

  /**
   * `host_call`: the host's state afterwards and the result. A response shorter
   * than 2^31 bytes is taken out of the mailbox and decoded; a longer one stays.
   */
  function Ask<T>(s: Setup, w: World, h: State, c: Capability, body: Json, from: Json -> Option<T>): (State, Cap<T>) {
    var served := Serve(s, w, h, c, s.wire.enc(body));
    Heard(s.wire, served.0.(pending := served.1), from)
  }

  /** `emit`: one log line. */
  function Emit(s: Setup, h: State, level: LogLevel, message: string): State {
    var bytes := Utf8.Encode(message);
    var line := LogLine(level, s.wire.lossy(bytes[..Min(|bytes|, MAX_LOG_BYTES)]));
    if |h.logs| < MAX_LOG_LINES then h.(logs := h.logs + [line]) else h
  }

  // --------------------------------------------------------------------------
  // The imports
  // --------------------------------------------------------------------------

  function AskList(s: Setup, w: World, h: State): (State, Cap<seq<ToolSpec>>) {
    Ask(s, w, h, ToolsList, JObject(map[]), ToolsListFromJson)
  }

  function AskModel(s: Setup, w: World, h: State, request: LlmRequest): (State, Cap<LlmResponse>) {
    Ask(s, w, h, LlmComplete, LlmRequestToJson(request), LlmResponseFromJson)
  }

  function AskTool(s: Setup, w: World, h: State, use: Use): (State, Cap<string>) {
    Ask(s, w, h, ToolInvoke, ToolInvokeRequestToJson(ToolInvokeRequest(use.name, use.input)), ToolTextFromJson)
  }

  /** The imports of a module linked to this host. */
  function Link(s: Setup, ws: nat -> World): Imports {
    Imports(
      h => AskList(s, ws(0), h),
      (k: nat, h: State, request: LlmRequest) => AskModel(s, ws(k), h, request),
      (k: nat, h: State, use: Use) => AskTool(s, ws(k), h, use),
      (h, level, message) => Emit(s, h, level, message))
  }

  /** `g` are the imports of a module linked to this host. */
  ghost predicate Linked(g: Imports, s: Setup, ws: nat -> World) {
    && (forall h {:trigger AskList(s, ws(0), h)} :: g.list(h) == AskList(s, ws(0), h))
    && (forall k: nat, h, request {:trigger AskModel(s, ws(k), h, request)} ::
          g.complete(k, h, request) == AskModel(s, ws(k), h, request))
    && (forall k: nat, h, use {:trigger AskTool(s, ws(k), h, use)} :: g.invoke(k, h, use) == AskTool(s, ws(k), h, use))
    && (forall h, level, message {:trigger Emit(s, h, level, message)} ::
          g.emit(h, level, message) == Emit(s, h, level, message))
  }

  lemma LinkLinks(s: Setup, ws: nat -> World)
    ensures Linked(Link(s, ws), s, ws)
  {
  }
}
