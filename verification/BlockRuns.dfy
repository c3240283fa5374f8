/**
 * The agent loop read off the blocks of the replies it gets: which blocks it acts
 * on, what it sends back for each, what it records, and what it answers.
 */
module BlockRuns {
  import opened Basics
  import opened JsonValues
  import opened Abi
  import opened Host
  import opened Agent
  import opened AgentRuns
  import Str = Text
  import Utf8

  /** Result and record of one tool-use block. */
  predicate Reported(c: Content, result: Content, record: ToolCallRecord, step: u32) {
    && IsToolUse(c) && result.Known? && result.block.ToolResult?
    && result.block.toolUseId == c.block.id
    && record.step == step && record.name == c.block.name && record.input == c.block.input
    && record.ok == !result.block.isError
    && record.result == Utf8.Truncated(result.block.content, 512)
  }

  /** One result and one record for each tool-use block, in the order of the blocks, and no others. */
  ghost predicate AllReported(content: seq<Content>, results: seq<Content>, records: seq<ToolCallRecord>, step: u32) {
    exists at: seq<nat> ::
      && UsePlaces(at, content) && |results| == |records| == |at|
      && forall i | 0 <= i < |at| :: Reported(content[at[i]], results[i], records[i], step)
  }

  lemma TurnReported(content: seq<Content>, replies: seq<Reply>, step: u32)
    requires |replies| == |ToolUses(content)|
    ensures var uses := ToolUses(content);
            AllReported(content, ResultsOf(uses, replies), RecordsOf(step, uses, replies), step)
  {
    hide ToolUses, UsePlaces;
    var uses := ToolUses(content);
    var results, records := ResultsOf(uses, replies), RecordsOf(step, uses, replies);
    var at := ToolUsesAreBlocks(content);
    forall i | 0 <= i < |at| ensures at[i] < |content| && Reported(content[at[i]], results[i], records[i], step) {
      assert IsUse(content[at[i]], uses[i]);
    }
    assert UsePlaces(at, content);
  }

  /** The answer is the text blocks of the reply, all of them and in order, on lines of their own. */
  ghost predicate Spoke(content: seq<Content>, answer: string) {
    exists at: seq<nat>, texts: seq<string> ::
      && TextPlaces(at, content) && |texts| == |at|
      && (forall i | 0 <= i < |at| :: at[i] < |content| && content[at[i]] == Known(Text(texts[i])))
      && answer == Str.Trim(Str.Join(texts, "\n"))
  }

  lemma AnswerSpoke(r: LlmResponse)
    ensures Spoke(r.content, JoinedText(r))
  {
    hide TextPlaces, JoinedText, Str.Join, Str.Trim;
    var at, texts := AnswerIsTexts(r);
  }

  /** A reply that is not refused and asks for a tool, and what the iteration adds for it. */
  ghost predicate Continued(st: Loop, st': Loop, content: seq<Content>, step: u32) {
    var n, m := |st.messages|, |st.record|;
    && |st'.messages| == n + 2 && st'.messages[..n] == st.messages && st'.messages[n] == Message(Assistant, content)
    && st'.messages[n + 1].role == User
    && m <= |st'.record| && st'.record[..m] == st.record
    && AllReported(content, st'.messages[n + 1].content, st'.record[m..], step)
  }

  /**
   * One iteration by the reply: a failed turn ends the run; so does a refusal, and
   * so does a reply without a tool-use block, with the reply's texts as the answer.
   * Any tool-use block, wherever it stands, keeps the run going.
   */
  lemma StepOnBlocks(g: Imports, st: Loop, step: u32)
    requires step >= 1
    ensures var heard, p := g.complete(st.clock, st.h, RequestOf(st)).1, OneStep(g, st, step);
            if heard.Err? then
              p.Done? && p.out.stop == StopReason.Error && p.out.steps == step - 1 && p.out.toolCalls == st.record
            else
              var content := heard.value.content;
              if heard.value.stopReason == "refusal"
                 || (forall c | c in content :: !(c.Known? && c.block.ToolUse?)) then
                && p.Done? && p.out.steps == step && p.out.toolCalls == st.record && Spoke(content, p.out.answer)
                && p.out.stop == if heard.value.stopReason == "refusal" then Refusal else Completed
              else p.Running? && Continued(st, p.st, content, step)
  {
    hide RunUses, JoinedText, ToolUses, AddUsage, RecordsOf, ResultsOf, AllReported, Spoke;
    var asked, p := g.complete(st.clock, st.h, RequestOf(st)), OneStep(g, st, step);
    if asked.1.Ok? {
      var content := asked.1.value.content;
      AnswerSpoke(asked.1.value);
      AsksIff(content);
      if p.Running? {
        var replies := RunUses(g, st.clock + 1, asked.0, step, ToolUses(content)).replies;
        TurnReported(content, replies, step);
        assert p.st.record[|st.record|..] == RecordsOf(step, ToolUses(content), replies);
      }
    }
  }

  // --------------------------------------------------------------------------
  // The whole record
  // --------------------------------------------------------------------------

  /** A tool-use block: of which turn, and where in its reply. */
  datatype Place = Place(turn: nat, block: nat)

  predicate Before(a: Place, b: Place) { a.turn < b.turn || (a.turn == b.turn && a.block < b.block) }

  predicate At(turns: seq<Turn>, p: Place) {
    && p.turn < |turns| && p.block < |turns[p.turn].response.content|
    && IsToolUse(turns[p.turn].response.content[p.block])
  }

  /** This record is about the block at that place. */
  predicate About(turns: seq<Turn>, p: Place, r: ToolCallRecord) {
    && At(turns, p)
    && var c := turns[p.turn].response.content[p.block];
       r.step == p.turn + 1 && r.name == c.block.name && r.input == c.block.input
  }

  /** The records are about the tool-use blocks of the turns: all of them, each once, in order. */
  ghost predicate Lists(turns: seq<Turn>, places: seq<Place>, record: seq<ToolCallRecord>) {
    && |places| == |record|
    && (forall i, j | 0 <= i < j < |places| :: Before(places[i], places[j]))
    && (forall i | 0 <= i < |places| :: About(turns, places[i], record[i]))
    && (forall p | At(turns, p) :: p in places)
  }

  function PlacesIn(turn: nat, at: seq<nat>): seq<Place> {
    seq(|at|, i requires 0 <= i < |at| => Place(turn, at[i]))
  }

  lemma OrderMore(places: seq<Place>, n: nat, at: seq<nat>)
    requires forall i, j | 0 <= i < j < |places| :: Before(places[i], places[j])
    requires forall i | 0 <= i < |places| :: places[i].turn < n
    requires forall i, j | 0 <= i < j < |at| :: at[i] < at[j]
    ensures var all := places + PlacesIn(n, at); forall i, j | 0 <= i < j < |all| :: Before(all[i], all[j])
  {
    var added := PlacesIn(n, at);
    var all := places + added;
    forall i, j | 0 <= i < j < |all| ensures Before(all[i], all[j]) {
      if j < |places| {
        assert all[i] == places[i] && all[j] == places[j];
      } else if i < |places| {
        assert all[i] == places[i] && all[j] == added[j - |places|];
      } else {
        assert all[i] == added[i - |places|] && all[j] == added[j - |places|];
      }
    }
  }

  lemma CoverMore(turns: seq<Turn>, places: seq<Place>, t: Turn, at: seq<nat>, p: Place)
    requires forall q | At(turns, q) :: q in places
    requires UsePlaces(at, t.response.content) && At(turns + [t], p)
    ensures p in places + PlacesIn(|turns|, at)
  {
    if p.turn < |turns| {
      assert At(turns, p);
    } else {
      assert p.block in at;
      var i :| 0 <= i < |at| && at[i] == p.block;
      assert PlacesIn(|turns|, at)[i] == p;
    }
  }

  lemma AboutMore(turns: seq<Turn>, p: Place, r: ToolCallRecord, t: Turn)
    requires About(turns, p, r)
    ensures About(turns + [t], p, r)
  {
  }

  lemma ListsMore(turns: seq<Turn>, places: seq<Place>, record: seq<ToolCallRecord>, t: Turn, at: seq<nat>,
                  more: seq<ToolCallRecord>)
    requires Lists(turns, places, record) && UsePlaces(at, t.response.content) && |more| == |at|
    requires forall i | 0 <= i < |at| ::
               About(turns + [t], Place(|turns|, at[i]), more[i])
    ensures Lists(turns + [t], places + PlacesIn(|turns|, at), record + more)
  {
    hide At, Before, IsToolUse;
    var n, all := |turns|, turns + [t];
    var every, records := places + PlacesIn(n, at), record + more;
    forall i | 0 <= i < |every| ensures About(all, every[i], records[i]) {
      if i < |places| {
        AboutMore(turns, places[i], record[i], t);
      } else {
        assert About(all, Place(n, at[i - |places|]), more[i - |places|]);
      }
    }
    forall p | At(all, p) ensures p in every {
      CoverMore(turns, places, t, at, p);
    }
    forall i | 0 <= i < |places| ensures places[i].turn < n {
      TurnOfPlace(turns, places[i], record[i]);
    }
    OrderMore(places, n, at);
  }

  lemma TurnOfPlace(turns: seq<Turn>, p: Place, r: ToolCallRecord)
    requires About(turns, p, r)
    ensures p.turn < |turns|
  {
  }

  /** Over turns that were acted on, the record is the list of their tool-use blocks. */
  lemma {:induction false} AuditLists(turns: seq<Turn>) returns (places: seq<Place>)
    requires |turns| < TWO_32 && AllActed(turns)
    ensures Lists(turns, places, Audit(turns))
  {
    hide ToolUses, UsePlaces, RecordOf;
    if turns == [] {
      places := [];
    } else {
      var n := |turns| - 1;
      var t := turns[n];
      var before := AuditLists(turns[..n]);
      var at := ToolUsesAreBlocks(t.response.content);
      var more := TurnRecords(t, n + 1);
      assert turns[..n] + [t] == turns;
      forall i | 0 <= i < |at| ensures About(turns, Place(n, at[i]), more[i]) {
        RecordAbout(t, n + 1, i, at[i]);
      }
      ListsMore(turns[..n], before, Audit(turns[..n]), t, at, more);
      places := before + PlacesIn(n, at);
    }
  }

  lemma RecordAbout(t: Turn, step: u32, i: nat, k: nat)
    requires Acted(t) && i < |ToolUses(t.response.content)| && k < |t.response.content|
    requires IsUse(t.response.content[k], ToolUses(t.response.content)[i])
    ensures |TurnRecords(t, step)| == |ToolUses(t.response.content)|
    ensures var r, c := TurnRecords(t, step)[i], t.response.content[k];
            IsToolUse(c) && r.step == step && r.name == c.block.name && r.input == c.block.input
  {
    hide ToolUses;
  }

  /**
   * The record over a whole run, at every exit, is the list of the tool-use blocks
   * of the turns, but for a last one that ended the run; and a run that completed
   * ended with a reply that has no such block.
   */
  lemma RunOnBlocks(g: Imports, h: State, input: AgentInput)
    ensures var run := AgentRun(g, h, input);
            var turns := run.st.turns;
            && (exists places :: Lists(ActedOn(turns), places, run.out.toolCalls))
            && (run.out.stop == Completed ==>
                  && turns != []
                  && var last := turns[|turns| - 1].response;
                     && (forall c | c in last.content :: !IsToolUse(c))
                     && last.stopReason != "refusal" && Spoke(last.content, run.out.answer))
            && run.out.steps <= (if input.maxSteps == 0 then 1 else input.maxSteps)
            && (run.out.stop == StepLimit ==> run.out.steps == if input.maxSteps == 0 then 1 else input.maxSteps)
            && (run.out.stop == Refusal ==> turns != [] && turns[|turns| - 1].response.stopReason == "refusal")
  {
    hide AgentRun, Audit, Transcript, Shown, Lists, JoinedText, Spoke, Tokens, Wrapped, Acted;
    var run := AgentRun(g, h, input);
    RunTallies(g, h, input);
    RecordOfRun(g, h, input);
    var places := AuditLists(ActedOn(run.st.turns));
    if run.out.stop == Completed {
      AnswerSpoke(run.st.turns[|run.st.turns| - 1].response);
    }
  }
}
