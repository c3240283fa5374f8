/**
 * Runs with the real provider: every model call goes through the retry loop, over
 * a network that may do anything.
 */
module RetriedRuns {
  import opened JsonValues
  import opened Abi
  import opened Rereading
  import opened Outside
  import opened Policies
  import opened Tools
  import opened Host
  import opened Sandbox
  import opened Agent
  import opened Calls
  import opened Turns
  import opened AgentRuns
  import Llm

  /** Every model call goes through the retry loop. */
  ghost predicate AllRetrying(s: Setup, ws: nat -> World) {
    forall k: nat :: Llm.Retrying(ws(k), s.policy.llm.maxRetries)
  }

  lemma TookPlaceModestly(s: Setup, ws: nat -> World, asked: seq<Exchange>)
    requires AllRetrying(s, ws) && TookPlace(ws, asked)
    ensures AllModest(asked, s.policy.llm.maxRetries)
  {
    hide Modest, Llm.Retrying;
    forall e | e in asked ensures Modest(e, s.policy.llm.maxRetries) {
      var k :| e == Asking(ws(k), e.request);
      AskingIsModest(ws(k), e.request, s.policy.llm.maxRetries);
    }
  }

  /** The reply in the next request, but for its floats the one the provider gave. */
  predicate SentBack(wire: Wire, reply: seq<Content>, next: Message) {
    && next == Message(Assistant, MapSeq(RereadContent(wire.again), MapSeq(RereadContent(wire.again), reply)))
    && ((forall c | c in reply :: RereadContent(wire.again)(c) == c) ==> next.content == reply)
  }

  lemma StableSentBack(wire: Wire, r: LlmResponse, next: Message)
    requires forall c | c in r.content :: Stable(c)
    requires next == RereadMessage(wire.again)(Message(Assistant, Arrived(wire, r).content))
    ensures SentBack(wire, r.content, next)
  {
    hide RereadContent, Stable;
    LlmResponseRoundTrip(r);
    if forall c | c in r.content :: RereadContent(wire.again)(c) == c {
      assert MapSeq(RereadContent(wire.again), r.content) == r.content;
    }
  }

  /**
   * With the real provider, over any network: a run costs at most the clamped
   * number of turns times the attempts allowed for each, and every reply goes back
   * in the next request just as the provider gave it, but for floats that text
   * does not carry.
   */
  lemma RetriedRun(g: Imports, s: Setup, ws: nat -> World, requested: AgentInput, k: nat)
    requires Valid(s.policy) && Lossless(s.wire) && Linked(g, s, ws) && AllRetrying(s, ws)
    ensures var input := Clamped(s.policy, requested);
            var asked := AgentRun(g, FRESH, input).st.h.asked;
            && Requests(asked) <= input.maxSteps * (s.policy.llm.maxRetries + 1)
            && (k + 1 < |asked| ==>
                  && var n := |asked[k].request.messages|;
                  && asked[k].answer.Ok? && |asked[k + 1].request.messages| == n + 2
                  && SentBack(s.wire, asked[k].answer.value.content, asked[k + 1].request.messages[n]))
  {
    hide AgentRun, Backed, EndsBacked, TookPlace, Arrived, AllRetrying, Llm.Retrying, ToolUses, Answers, Kept;
    hide AskModel, AskList, AskTool, Emit, SentBack, RereadMessage, Stable;
    var input := Clamped(s.policy, requested);
    var asked := AgentRun(g, FRESH, input).st.h.asked;
    WholeRun(g, s, ws, requested);
    ConversationGrows(g, s, ws, requested, k);
    TookPlaceModestly(s, ws, asked);
    RequestsBounded(asked, s.policy.llm.maxRetries);
    TimesMonotone(|asked|, input.maxSteps, s.policy.llm.maxRetries + 1);
    if k + 1 < |asked| {
      assert asked[k] in asked && Modest(asked[k], s.policy.llm.maxRetries);
      StableSentBack(s.wire, asked[k].answer.value, asked[k + 1].request.messages[|asked[k].request.messages|]);
    }
  }
}
