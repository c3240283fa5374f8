/**
 * What one capability call does, seen from both ends at once: the guest hears
 * exactly what the host's code answered.
 */
module Turns {
  import opened Basics
  import opened JsonValues
  import opened Abi
  import opened Rereading
  import opened Outside
  import opened Tools
  import opened Host
  import opened Agent
  import opened Calls

  /**
   * An answer of the host, encoded, sent across and decoded, is that answer with
   * its floats read again, unless its text nests too deep for the guest's reader.
   */
  lemma AnswerHeard<S, T(!new)>(wire: Wire, to: S -> Json, from: Json -> Option<T>, g: T -> T, r: Cap<S>, seen: Cap<T>)
    requires Lossless(wire) && Commutes(wire.again, from, g)
    requires r.Ok? ==> seen.Ok? && from(to(r.value)) == Some(seen.value)
    requires r.Err? ==> seen == Err(r.error)
    ensures Understand(wire, from, Respond(wire, to, r)) ==
              if Within(EnvelopeToJson(to, r), MAX_DEPTH) then SeenAs(g, seen) else Err(MALFORMED)
    ensures wire.dec(Respond(wire, to, r)).Some? <==> Within(EnvelopeToJson(to, r), MAX_DEPTH)
  {
    hide Within, Commutes, Reread;
    EnvelopeRoundTrip(to, from, r, seen);
    EnvelopeReread(wire.again, from, g, EnvelopeToJson(to, r));
  }

  /** Errors never nest too deep. */
  lemma ErrorsAreShallow<S>(to: S -> Json, e: CapError)
    ensures Within(EnvelopeToJson(to, Err(e)), MAX_DEPTH)
  {
  }

  /** Nothing a capability does depends on what was left in the mailbox. */
  lemma DispatchIgnoresMailbox(s: Setup, w: World, h: State, stale: seq<byte>, c: Capability, request: seq<byte>)
    ensures var clean, used := Handled(s, w, h, c, request), Handled(s, w, h.(pending := stale), c, request);
            used.1 == clean.1 && used.0 == clean.0.(pending := stale)
  {
    hide RunTool, Respond, Parse;
  }

  /** A response the guest never read cannot surface later: the next call is as if it had not been there. */
  lemma StaleResponseIgnored<T>(s: Setup, w: World, h: State, stale: seq<byte>, c: Capability,
                                body: Json, from: Json -> Option<T>)
    ensures Ask(s, w, h.(pending := stale), c, body, from) == Ask(s, w, h, c, body, from)
  {
    hide Handled, Understand;
    DispatchIgnoresMailbox(s, w, h, stale, c, s.wire.enc(body));
  }

  /**
   * `host_call` hears the response exactly when its length is below 2^31; it then
   * leaves the mailbox empty. Otherwise it fails with an error of its own making
   * and the response stays.
   */
  lemma HeardIffShort<T>(s: Setup, w: World, h: State, c: Capability, body: Json, from: Json -> Option<T>)
    ensures var asked := Ask(s, w, h, c, body, from);
            var response := Serve(s, w, h, c, s.wire.enc(body)).1;
            && (asked.0.pending == [] <==> |response| < TWO_31)
            && (|response| < TWO_31 ==> asked.1 == Understand(s.wire, from, response))
            && (|response| >= TWO_31 ==> asked.0.pending == response && asked.1.Err? && asked.1.error.kind == "host")
  {
    hide Handled, Understand;
  }

  /** A negative return is an error of the guest's own, and each code another one. */
  lemma NegativeReturns(a: int, b: int)
    requires a in [-1, -2, -3, -4] && b in [-1, -2, -3, -4]
    ensures HostFailure(a).kind == "host"
    ensures HostFailure(a) == HostFailure(b) <==> a == b
  {
    assert "memory" != "request" && "memory"[0] != "internal"[0] && "memory"[0] != "unknown"[0];
    assert "request"[0] != "internal"[0] && "request"[0] != "unknown"[0] && "internal"[0] != "unknown"[0];
  }

  /** `HeardIffShort` at its worst: after a response of 2^32 bytes `call` returns 0, and nothing is read at all. */
  lemma NotHeardAtAll<T>(wire: Wire, h: State, from: Json -> Option<T>)
    ensures var full := h.(pending := seq(TWO_32, i => 0));
            Heard(wire, full, from) == (full, Err(MALFORMED))
  {
  }

  /** The host gets to act on the request: it is within the size limit and can be read. */
  predicate Reaches(s: Setup, body: Json) {
    |s.wire.enc(body)| <= s.policy.limits.maxRequestBytes && Within(body, MAX_DEPTH)
  }

  /** The request reaches the host, and the response is one the guest can read. */
  predicate Fits(s: Setup, w: World, h: State, c: Capability, body: Json) {
    var response := Serve(s, w, h, c, s.wire.enc(body)).1;
    Reaches(s, body) && |response| < TWO_31 && s.wire.dec(response).Some?
  }

  lemma DispatchTool(s: Setup, w: World, h: State, req: ToolInvokeRequest)
    requires Lossless(s.wire)
    ensures var i := RunTool(s.policy.tools, s.wire, w, h.store, req.name, req.input);
            var body := ToolInvokeRequestToJson(req);
            Handled(s, w, h, ToolInvoke, s.wire.enc(body)) ==
              if Within(body, MAX_DEPTH) then
                (h.(store := i.store, sent := h.sent + i.sent), Respond(s.wire, ToolTextToJson, i.result))
              else (h, RespondError(s.wire, Invalid("malformed")))
  {
    hide RunTool, Respond, Within, Reread, ToolInvokeRequestFromJson, ToolInvokeRequestToJson;
    InvocationRoundTrip(req);
    InvocationReread(s.wire.again);
    ToolsIgnoreFloats(s.policy.tools, s.wire, w, h.store, req.name, req.input, s.wire.again);
  }

  lemma InvocationRoundTrip(req: ToolInvokeRequest)
    ensures ToolInvokeRequestFromJson(ToolInvokeRequestToJson(req)) == Some(req)
  {
  }

  function InvocationOf(use: Use): Json { ToolInvokeRequestToJson(ToolInvokeRequest(use.name, use.input)) }

  /**
   * A tool call touches the tools and nothing else of the host. If the request
   * reaches the host the tool is run, and otherwise not; if the response fits too,
   * the tool's own answer is heard.
   */
  lemma ToolAnswer(s: Setup, w: World, h: State, use: Use)
    requires Lossless(s.wire)
    ensures var asked := AskTool(s, w, h, use);
            var i := RunTool(s.policy.tools, s.wire, w, h.store, use.name, use.input);
            && asked.0.asked == h.asked && asked.0.llmCalls == h.llmCalls && asked.0.denials == h.denials
            && (Reaches(s, InvocationOf(use)) ==> asked.0.store == i.store && asked.0.sent == h.sent + i.sent)
            && (!Reaches(s, InvocationOf(use)) ==>
                  asked.0.store == h.store && asked.0.sent == h.sent && asked.1.Err?)
            && (Fits(s, w, h, ToolInvoke, InvocationOf(use)) ==>
                  asked == (h.(pending := [], store := i.store, sent := h.sent + i.sent), i.result))
  {
    hide RunTool, Respond, RespondError, Handled, Understand, Within, TooLarge, Commutes;
    var i := RunTool(s.policy.tools, s.wire, w, h.store, use.name, use.input);
    DispatchTool(s, w, h, ToolInvokeRequest(use.name, use.input));
    ToolTextReread(s.wire.again);
    AnswerHeard(s.wire, ToolTextToJson, ToolTextFromJson, Same(), i.result, i.result);
    ErrorHeard(s, ToolTextFromJson, Same(), Invalid("malformed"));
    ErrorHeard(s, ToolTextFromJson, Same(), TooLarge(s, |s.wire.enc(InvocationOf(use))|));
  }

  lemma DispatchList(s: Setup, w: World, h: State, request: seq<byte>)
    ensures Handled(s, w, h, ToolsList, request) ==
              (h, Respond(s.wire, ToolsListToJson, Ok(Specs(s.policy.tools.enabled))))
  {
  }

  /** Listing the tools changes nothing; if the answer fits, it is the policy's tools. */
  lemma ListAnswer(s: Setup, w: World, h: State)
    requires Lossless(s.wire)
    ensures var asked := AskList(s, w, h);
            && asked.0 == h.(pending := asked.0.pending)
            && (Fits(s, w, h, ToolsList, JObject(map[])) ==>
                  asked == (h.(pending := []), Ok(Specs(s.policy.tools.enabled))))
  {
    hide Respond, Handled, Understand, Within, Commutes, RereadTools;
    var tools := Specs(s.policy.tools.enabled);
    ToolSpecsRoundTrip(tools);
    ToolsReread(s.wire.again);
    SpecsReread(s.wire.again, s.policy.tools.enabled);
    DispatchList(s, w, h, s.wire.enc(JObject(map[])));
    AnswerHeard(s.wire, ToolsListToJson, ToolsListFromJson, RereadTools(s.wire.again), Ok(tools), Ok(tools));
  }

  /** The tools' own schemas hold no floats. */
  lemma SpecsReread(again: Float -> Float, enabled: seq<string>)
    ensures RereadTools(again)(Specs(enabled)) == Specs(enabled)
  {
    SpecSchemas(enabled);
    assert Reread(again, JObject(map[])) == JObject(map[]);
  }

  lemma {:induction false} SpecSchemas(enabled: seq<string>)
    ensures forall i | 0 <= i < |Specs(enabled)| :: Specs(enabled)[i].inputSchema == JObject(map[])
  {
    if enabled != [] {
      SpecSchemas(enabled[1..]);
    }
  }

  /** A request as the provider gets it from the guest: its floats read again. */
  function Arriving(wire: Wire, request: LlmRequest): LlmRequest { RereadRequest(wire.again)(request) }

  /** A reply as the guest gets it: every block has crossed, and its floats are read again. */
  function Arrived(wire: Wire, r: LlmResponse): LlmResponse { RereadResponse(wire.again)(Received(r)) }

  lemma ArrivedIsStable(wire: Wire, r: LlmResponse)
    ensures forall c | c in Arrived(wire, r).content :: Stable(c)
  {
    hide RereadContent, Stable;
    LlmResponseRoundTrip(r);
    forall c | c in Arrived(wire, r).content ensures Stable(c) {
      var i :| 0 <= i < |r.content| && c == RereadContent(wire.again)(Received(r).content[i]);
      RereadStable(wire.again, Received(r).content[i]);
    }
  }

  /** A provider's answer as the guest hears it. */
  function HeardAnswer(wire: Wire, answer: Cap<LlmResponse>): Cap<LlmResponse> {
    match answer
    case Ok(r) => Ok(Arrived(wire, r))
    case Err(e) => Err(e)
  }

  /** The host after it has put the guest's `request` to the provider. */
  function Asked(wire: Wire, h: State, w: World, request: LlmRequest): State {
    h.(llmCalls := h.llmCalls + 1, asked := h.asked + [Asking(w, Arriving(wire, request))])
  }

  /** What the provider answers to it. */
  function AnswerTo(wire: Wire, w: World, request: LlmRequest): Cap<LlmResponse> {
    w.complete(Arriving(wire, request)).answer
  }

  lemma DispatchModel(s: Setup, w: World, h: State, request: LlmRequest)
    requires Lossless(s.wire) && h.llmCalls < s.policy.limits.maxSteps
    requires forall m | m in request.messages :: StableMessage(m)
    ensures var body := LlmRequestToJson(request);
            Handled(s, w, h, LlmComplete, s.wire.enc(body)) ==
              if Within(body, MAX_DEPTH) then
                (Asked(s.wire, h, w, request), Respond(s.wire, LlmResponseToJson, AnswerTo(s.wire, w, request)))
              else (h, RespondError(s.wire, Invalid("malformed")))
  {
    hide Respond, LlmRequestToJson, LlmRequestFromJson, Within, Reread, RereadRequest;
    LlmRequestRoundTrip(request);
    RequestReread(s.wire.again);
  }

  lemma ErrorHeard<T(!new)>(s: Setup, from: Json -> Option<T>, g: T -> T, e: CapError)
    requires Lossless(s.wire) && Commutes(s.wire.again, from, g)
    ensures Understand(s.wire, from, RespondError(s.wire, e)) == Err(e)
  {
    hide Commutes;
    ErrorsAreShallow<string>(ToolTextToJson, e);
    AnswerHeard<string, T>(s.wire, ToolTextToJson, from, g, Err(e), Err(e));
  }

  /**
   * A model turn below the ceiling. At most one provider call is made, with the
   * guest's own request; the turn succeeds if and only if the call is made, the
   * provider answers it and the answer can be read, and then with that answer.
   */
  lemma ModelAnswer(s: Setup, w: World, h: State, request: LlmRequest)
    requires Lossless(s.wire) && h.llmCalls < s.policy.limits.maxSteps
    requires forall m | m in request.messages :: StableMessage(m)
    ensures var heard := AskModel(s, w, h, request);
            var one, answer := Asked(s.wire, h, w, request), AnswerTo(s.wire, w, request);
            && (heard.1.Ok? <==> Fits(s, w, h, LlmComplete, LlmRequestToJson(request)) && answer.Ok?)
            && (heard.1.Ok? ==> heard == (one.(pending := []), HeardAnswer(s.wire, answer)))
            && (heard.0 == h.(pending := heard.0.pending) || heard.0 == one.(pending := heard.0.pending))
            && (Fits(s, w, h, LlmComplete, LlmRequestToJson(request)) ==>
                  heard == (one.(pending := []), HeardAnswer(s.wire, answer)))
  {
    hide Respond, RespondError, Handled, Understand, LlmRequestToJson, TooLarge, Within, Commutes, Received;
    hide RereadResponse, Arriving;
    var answer := AnswerTo(s.wire, w, request);
    var got: Cap<LlmResponse> := if answer.Ok? then Ok(Received(answer.value)) else Err(answer.error);
    if answer.Ok? {
      LlmResponseRoundTrip(answer.value);
    }
    DispatchModel(s, w, h, request);
    ResponseReread(s.wire.again);
    var g := RereadResponse(s.wire.again);
    AnswerHeard(s.wire, LlmResponseToJson, LlmResponseFromJson, g, answer, got);
    ErrorHeard(s, LlmResponseFromJson, g, TooLarge(s, |s.wire.enc(LlmRequestToJson(request))|));
    ErrorHeard(s, LlmResponseFromJson, g, Invalid("malformed"));
  }

  lemma DispatchCeiling(s: Setup, w: World, h: State, request: seq<byte>)
    requires h.llmCalls >= s.policy.limits.maxSteps
    ensures Handled(s, w, h, LlmComplete, request) ==
              (h.(denials := h.denials + 1), RespondError(s.wire, TurnsUsedUp(s.policy.limits.maxSteps)))
  {
    hide RespondError, TurnsUsedUp;
  }

  /** Past the ceiling the guest is told so and the provider is not asked, whatever the request says. */
  lemma CeilingHeard(s: Setup, w: World, h: State, request: LlmRequest)
    requires Lossless(s.wire) && h.llmCalls >= s.policy.limits.maxSteps
    ensures Fits(s, w, h, LlmComplete, LlmRequestToJson(request)) ==>
              AskModel(s, w, h, request) ==
                (h.(pending := [], denials := h.denials + 1), Err(TurnsUsedUp(s.policy.limits.maxSteps)))
    ensures AskModel(s, w, h, request).0.asked == h.asked && AskModel(s, w, h, request).1.Err?
  {
    hide RespondError, Understand, LlmRequestToJson, TurnsUsedUp, Commutes, RereadResponse, Handled, TooLarge;
    DispatchCeiling(s, w, h, s.wire.enc(LlmRequestToJson(request)));
    ResponseReread(s.wire.again);
    var g := RereadResponse(s.wire.again);
    ErrorHeard(s, LlmResponseFromJson, g, TurnsUsedUp(s.policy.limits.maxSteps));
    ErrorHeard(s, LlmResponseFromJson, g, TooLarge(s, |s.wire.enc(LlmRequestToJson(request))|));
  }

  // --------------------------------------------------------------------------
  // The kinds of error
  // --------------------------------------------------------------------------

  /** Whatever it expected, the guest hears an error of this kind. */
  predicate HeardAs<T>(wire: Wire, from: Json -> Option<T>, response: seq<byte>, kind: string) {
    var heard := Understand(wire, from, response);
    heard.Err? && heard.error.kind == kind
  }

  /**
   * When the host itself turns a request down, and as what: too large or not
   * readable as such a request is `invalid`, past the ceiling is `denied`. Nothing
   * else happens then.
   */
  lemma HostErrors<T(!new)>(s: Setup, w: World, h: State, c: Capability, request: seq<byte>,
                            from: Json -> Option<T>, g: T -> T)
    requires Lossless(s.wire) && Commutes(s.wire.again, from, g)
    ensures var limits, served := s.policy.limits, Serve(s, w, h, c, request);
            if |request| > limits.maxRequestBytes then
              served.0 == h && HeardAs(s.wire, from, served.1, "invalid")
            else if c == LlmComplete && h.llmCalls >= limits.maxSteps then
              served.0 == h.(denials := h.denials + 1) && HeardAs(s.wire, from, served.1, "denied")
            else if (c == LlmComplete && Parse(s.wire, LlmRequestFromJson, request).None?)
                    || (c == ToolInvoke && Parse(s.wire, ToolInvokeRequestFromJson, request).None?) then
              served.0 == h && HeardAs(s.wire, from, served.1, "invalid")
            else true
  {
    hide RespondError, Respond, Understand, Commutes, Decimal, Parse, RunTool;
    ErrorHeard(s, from, g, TooLarge(s, |request|));
    ErrorHeard(s, from, g, TurnsUsedUp(s.policy.limits.maxSteps));
    ErrorHeard(s, from, g, Invalid("malformed"));
  }

  /** A name that is none of the three capabilities is `not_found`, and nothing happens. */
  lemma UnknownName<T(!new)>(s: Setup, w: World, h: State, name: string, request: seq<byte>,
                             from: Json -> Option<T>, g: T -> T)
    requires Lossless(s.wire) && Commutes(s.wire.again, from, g)
    requires name !in ["tools.list", "tool.invoke", "llm.complete"]
    ensures var d := Dispatched(s, w, h, name, request);
            d.0 == h && HeardAs(s.wire, from, d.1, "not_found")
  {
    hide RespondError, Understand, Commutes, Handled, Quoted;
    ErrorHeard(s, from, g, NotFound(Quoted(name)));
  }

  /** A request over the limit, or a name over 256 bytes, is `invalid` before any pointer is looked at. */
  lemma OversizeCall<T(!new)>(s: Setup, h: State, act: Act, from: Json -> Option<T>, g: T -> T)
    requires Lossless(s.wire) && Commutes(s.wire.again, from, g)
    requires act.Call? && (act.reqLen > s.policy.limits.maxRequestBytes || act.nameLen > 256)
    ensures var h' := Step(s, h, act).h;
            h' == h.(pending := h'.pending) && HeardAs(s.wire, from, h'.pending, "invalid")
  {
    hide RespondError, Understand, Commutes, Decimal;
    ErrorHeard(s, from, g, TooLarge(s, act.reqLen));
  }
}
