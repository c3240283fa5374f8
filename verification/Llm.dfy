/** Model access on the host side: the retry loop and the mock provider (`llm.rs`). */
module Llm {
  import opened Basics
  import opened JsonValues
  import opened Abi
  import opened Outside
  import Utf8
  import Str = Text

  // --------------------------------------------------------------------------
  // The retry loop
  // --------------------------------------------------------------------------

  datatype ApiReply = ApiReply(stopReason: Option<string>, content: seq<Content>, usage: Usage)

  /** The API's answer; every field may be missing, and others are ignored. */
  function ApiReplyFromJson(j: Json): Option<ApiReply> {
    var stop, content, usage := AsOptionalText(Field(j, "stop_reason")), Field(j, "content"), Field(j, "usage");
    var blocks := if content.None? then Some([]) else DecodeArray(ContentItem, content);
    var tokens := if usage.None? then Some(NO_USAGE) else UsageFromJson(usage.value);
    if !j.JObject? || stop.None? || blocks.None? || tokens.None? then None
    else Some(ApiReply(stop.value, blocks.value, tokens.value))
  }

  /** What one HTTP attempt came to: no response, or a status with its body (as JSON and as text) and headers. */
  datatype Attempt =
    | NotSent
    | Answered(status: nat, body: Option<Json>, retryAfter: Option<u64>, detail: string)

  predicate Success(a: Attempt) { a.Answered? && 200 <= a.status < 300 }

  /** Worth sending again: no response at all, 429, or any 5xx. */
  predicate Transient(a: Attempt) {
    a.NotSent? || a.status == 429 || 500 <= a.status < 600
  }

  function ReplyIn(a: Attempt): Option<ApiReply>
    requires a.Answered?
  {
    match a.body
    case None => None
    case Some(j) => ApiReplyFromJson(j)
  }

  function FromReply(r: ApiReply): LlmResponse {
    LlmResponse(if r.stopReason.None? then "end_turn" else r.stopReason.value, r.content, r.usage)
  }

  const SEND_FAILED := Upstream("send")
  const BAD_REPLY := Upstream("malformed")

  function HttpFailure(status: nat, detail: string): CapError { Upstream("HTTP " + Decimal(status) + ": " + detail) }

  /** What the caller is told if this attempt is the last. */
  function Verdict(a: Attempt): Cap<LlmResponse> {
    if a.NotSent? then Err(SEND_FAILED)
    else if !Success(a) then Err(HttpFailure(a.status, Utf8.TruncatedQuietly(a.detail, 512)))
    else if ReplyIn(a).None? then Err(BAD_REPLY)
    else Ok(FromReply(ReplyIn(a).value))
  }

  function Pow2(n: nat): nat { if n == 0 then 1 else 2 * Pow2(n - 1) }

  /** `backoff`, in milliseconds. */
  function Backoff(attempt: nat): nat { 500 * Pow2(Min(attempt, 5)) }

  /** The wait before retry number `attempt`: the server's own figure in seconds if it gave one. */
  function Wait(a: Attempt, attempt: nat): nat {
    if a.Answered? && a.retryAfter.Some? then 1000 * a.retryAfter.value else Backoff(attempt)
  }

  /** The index of the first attempt that is not transient, or of the last one allowed. */
  function Decisive(outcomes: nat -> Attempt, maxRetries: nat, from: nat): (k: nat)
    requires from <= maxRetries
    ensures from <= k <= maxRetries
    ensures k < maxRetries ==> !Transient(outcomes(k))
    ensures forall i | from <= i < k :: Transient(outcomes(i))
    decreases maxRetries - from
  {
    if from == maxRetries || !Transient(outcomes(from)) then from
    else Decisive(outcomes, maxRetries, from + 1)
  }

  /** The completion a sequence of outcomes amounts to. */
  function Retried(maxRetries: nat, outcomes: nat -> Attempt): Completion {
    var k := Decisive(outcomes, maxRetries, 0);
    Completion(Verdict(outcomes(k)), k + 1)
  }

  /** This is how the retry loop can come out. */
  ghost predicate RetryOutcome(done: Completion, maxRetries: nat) {
    exists outcomes: nat -> Attempt :: done == Retried(maxRetries, outcomes)
  }

  /** The model behind `w` is reached through the retry loop, whatever the network does. */
  ghost predicate Retrying(w: World, maxRetries: nat) {
    forall request :: RetryOutcome(w.complete(request), maxRetries)
  }

  /** The first `n` outcomes. */
  function FirstOf(outcomes: nat -> Attempt, n: nat): seq<Attempt> {
    seq(n, i requires 0 <= i < n => outcomes(i))
  }

  /** The sleeps of a loop that has started `n` retries. */
  function WaitsOf(outcomes: nat -> Attempt, n: nat): seq<nat> {
    seq<nat>(n, i requires 0 <= i < n => Wait(outcomes(i), i + 1))
  }

  lemma OneMore(outcomes: nat -> Attempt, n: nat)
    ensures FirstOf(outcomes, 0) == [] && WaitsOf(outcomes, 0) == []
    ensures FirstOf(outcomes, n + 1) == FirstOf(outcomes, n) + [outcomes(n)]
    ensures WaitsOf(outcomes, n + 1) == WaitsOf(outcomes, n) + [Wait(outcomes(n), n + 1)]
  {
  }

  /** The field is absent, or of the kind `ok`. */
  predicate Optional(j: Json, name: string, ok: Json -> bool)
    requires j.JObject?
  {
    name in j.fields ==> ok(j.fields[name])
  }

  predicate Counts(j: Json) { j.JInt? && 0 <= j.n < 0x1_0000_0000_0000_0000 }

  /** An object whose `content` is an array, `stop_reason` a text or null, `usage` two counts, each if present. */
  predicate IsReply(j: Json) {
    && j.JObject?
    && Optional(j, "content", (x: Json) => x.JArray?)
    && Optional(j, "stop_reason", (x: Json) => x.JStr? || x.JNull?)
    && Optional(j, "usage", (x: Json) =>
         x.JObject? && Optional(x, "input_tokens", Counts) && Optional(x, "output_tokens", Counts))
  }

  function CountIn(usage: Json, name: string): int
    requires usage.JObject? && Optional(usage, name, Counts)
  {
    if name in usage.fields then usage.fields[name].n else 0
  }

  /** `r` is what the body says: block for block, with its stop reason and its counts. */
  predicate Says(j: Json, r: LlmResponse)
    requires IsReply(j)
  {
    && (if "content" in j.fields then
          var items := j.fields["content"].items;
          |r.content| == |items| && forall i | 0 <= i < |items| :: r.content[i] == ContentFromJson(items[i])
        else r.content == [])
    && r.stopReason == (if "stop_reason" in j.fields && j.fields["stop_reason"].JStr? then j.fields["stop_reason"].s
                        else "end_turn")
    && (if "usage" in j.fields then
          r.usage == Usage(CountIn(j.fields["usage"], "input_tokens"), CountIn(j.fields["usage"], "output_tokens"))
        else r.usage == Usage(0, 0))
  }

  /** What the caller gets is decided by one attempt: the reply in its body, or an `upstream` error. */
  predicate Delivered(a: Attempt, r: Cap<LlmResponse>) {
    if a.Answered? && 200 <= a.status <= 299 && a.body.Some? && IsReply(a.body.value) then
      r.Ok? && Says(a.body.value, r.value)
    else r.Err? && r.error.kind == "upstream"
  }

  lemma {:induction false} BlocksOfItems(items: seq<Json>)
    ensures var blocks := DecodeItems(ContentItem, items);
            && blocks.Some? && |blocks.value| == |items|
            && forall i | 0 <= i < |items| :: blocks.value[i] == ContentFromJson(items[i])
  {
    hide ContentFromJson;
    if items != [] {
      BlocksOfItems(items[1..]);
    }
  }

  lemma ReplyDecodes(j: Json)
    ensures ApiReplyFromJson(j).Some? <==> IsReply(j)
    ensures IsReply(j) ==> Says(j, FromReply(ApiReplyFromJson(j).value))
  {
    hide ContentFromJson, ContentItem;
    if j.JObject? && "content" in j.fields && j.fields["content"].JArray? {
      BlocksOfItems(j.fields["content"].items);
    }
  }

  lemma VerdictDelivered(a: Attempt)
    ensures Delivered(a, Verdict(a))
  {
    hide ApiReplyFromJson, FromReply, IsReply, Says, Utf8.TruncatedQuietly, Decimal;
    if a.Answered? && a.body.Some? {
      ReplyDecodes(a.body.value);
    }
  }

  /** Worth another attempt: nothing came back, or 429, or a status of the 500s. */
  predicate Again(a: Attempt) { a.NotSent? || a.status == 429 || a.status / 100 == 5 }

  /** The sleep before a retry, in milliseconds: the seconds the server asked for, or one to sixteen seconds. */
  predicate Slept(a: Attempt, i: nat, ms: nat) {
    ms == if a.Answered? && a.retryAfter.Some? then 1000 * a.retryAfter.value
          else if i < 4 then [1000, 2000, 4000, 8000][i] else 16000
  }

  lemma WaitSlept(a: Attempt, i: nat)
    ensures Slept(a, i, Wait(a, i + 1))
  {
    assert Pow2(1) == 2 && Pow2(2) == 4 && Pow2(3) == 8 && Pow2(4) == 16 && Pow2(5) == 32;
  }

  lemma RetryFacts(maxRetries: nat, outcomes: nat -> Attempt)
    ensures var done := Retried(maxRetries, outcomes);
            var sent, slept := FirstOf(outcomes, done.requests), WaitsOf(outcomes, done.requests - 1);
            && 1 <= done.requests == |sent| && |slept| == |sent| - 1
            && Delivered(sent[|sent| - 1], done.answer)
            && (|sent| == maxRetries + 1 || !Again(sent[|sent| - 1]))
            && forall i | 0 <= i < |slept| :: Again(sent[i]) && Slept(sent[i], i, slept[i])
  {
    hide Verdict, Delivered, Slept, Wait;
    var k := Decisive(outcomes, maxRetries, 0);
    VerdictDelivered(outcomes(k));
    forall i | 0 <= i < k ensures Again(outcomes(i)) && Slept(outcomes(i), i, Wait(outcomes(i), i + 1)) {
      assert Transient(outcomes(i));
      WaitSlept(outcomes(i), i);
    }
  }

  /**
   * `AnthropicProvider::complete` against any sequence of outcomes: it returns the
   * verdict on the decisive attempt, having sent exactly the attempts up to it and
   * slept once after each earlier one. `sent` grows where a request is sent.
   */
  method Complete(maxRetries: u32, outcomes: nat -> Attempt)
    returns (r: Cap<LlmResponse>, ghost sent: seq<Attempt>, slept: seq<nat>)
    ensures r == Retried(maxRetries, outcomes).answer
    ensures slept == WaitsOf(outcomes, Retried(maxRetries, outcomes).requests - 1)
    ensures |sent| == Retried(maxRetries, outcomes).requests <= maxRetries + 1 && sent == FirstOf(outcomes, |sent|)
    ensures 1 <= |sent| && Delivered(sent[|sent| - 1], r)
    ensures |sent| == maxRetries + 1 || !Again(sent[|sent| - 1])
    ensures |slept| == |sent| - 1 && forall i | 0 <= i < |slept| :: Again(sent[i]) && Slept(sent[i], i, slept[i])
  {
    hide FirstOf, WaitsOf, ReplyIn, HttpFailure, Utf8.TruncatedQuietly, Delivered, Slept, Again;
    RetryFacts(maxRetries, outcomes);
    var attempt := 0;
    sent, slept := [], [];
    OneMore(outcomes, 0);
    while true
      invariant attempt <= maxRetries
      invariant Decisive(outcomes, maxRetries, 0) == Decisive(outcomes, maxRetries, attempt)
      invariant |sent| == attempt && sent == FirstOf(outcomes, attempt)
      invariant slept == WaitsOf(outcomes, attempt)
      decreases maxRetries - attempt
    {
      OneMore(outcomes, attempt);
      var response := outcomes(attempt);
      sent := sent + [response];
      if response.NotSent? {
        if attempt < maxRetries {
          attempt := attempt + 1;
          slept := slept + [Backoff(attempt)];
          continue;
        }
        r := Err(SEND_FAILED);
        return;
      }
      if Success(response) {
        var reply := ReplyIn(response);
        r := if reply.None? then Err(BAD_REPLY) else Ok(FromReply(reply.value));
        return;
      }
      var retryable := response.status == 429 || 500 <= response.status < 600;
      if retryable && attempt < maxRetries {
        attempt := attempt + 1;
        var wait := if response.retryAfter.Some? then 1000 * response.retryAfter.value else Backoff(attempt);
        slept := slept + [wait];
        continue;
      }
      var detail := Utf8.TruncateQuietly(response.detail, 512);
      r := Err(HttpFailure(response.status, detail));
      return;
    }
  }

  lemma {:induction false} DecodedBlocksAreStable(items: seq<Json>)
    ensures var blocks := DecodeItems(ContentItem, items);
            blocks.Some? && forall c | c in blocks.value :: Stable(c)
  {
    if items != [] {
      ReceivedIsStable(items[0]);
      DecodedBlocksAreStable(items[1..]);
    }
  }

  /** A model reached through the retry loop costs a bounded number of requests and only ever answers stable blocks. */
  lemma RetriedAnswers(maxRetries: nat, outcomes: nat -> Attempt)
    ensures var done := Retried(maxRetries, outcomes);
            && 1 <= done.requests <= maxRetries + 1
            && (done.answer.Ok? ==> forall c | c in done.answer.value.content :: Stable(c))
  {
    hide Utf8.TruncatedQuietly, HttpFailure, Stable;
    var last := outcomes(Decisive(outcomes, maxRetries, 0));
    if Verdict(last).Ok? && Field(last.body.value, "content").Some? {
      DecodedBlocksAreStable(last.body.value.fields["content"].items);
    }
  }

  function Sum(xs: seq<int>): int { if xs == [] then 0 else Sum(xs[..|xs| - 1]) + xs[|xs| - 1] }

  /** Without Retry-After the waits double to sixteen seconds: the exact total after `n` retries. */
  lemma {:induction false} TotalBackoff(outcomes: nat -> Attempt, n: nat)
    requires forall i | 0 <= i < n :: outcomes(i).NotSent? || outcomes(i).retryAfter.None?
    ensures Sum(WaitsOf(outcomes, n)) ==
              if n <= 5 then 1000 * (Pow2(n) - 1) else 31000 + 16000 * (n - 5)
  {
    if n > 0 {
      TotalBackoff(outcomes, n - 1);
      OneMore(outcomes, n - 1);
      assert WaitsOf(outcomes, n)[..n - 1] == WaitsOf(outcomes, n - 1);
      assert Pow2(5) == 32;
    }
  }

  // --------------------------------------------------------------------------
  // Directives
  // --------------------------------------------------------------------------

  datatype Directive = Directive(name: string, input: Json)

  const EMPTY_OBJECT := JObject(map[])
  const MARK := "!tool "

  /** The index of the first white-space character, or the length. */
  function FirstBlank(s: string): (i: nat)
    ensures i <= |s|
    ensures forall j | 0 <= j < i :: !Str.IsWhitespace(s[j])
    ensures i < |s| ==> Str.IsWhitespace(s[i])
  {
    if s == [] || Str.IsWhitespace(s[0]) then 0 else 1 + FirstBlank(s[1..])
  }

  /** Arguments as JSON, or the empty object if they are not. */
  function Arguments(wire: Wire, args: string): Json {
    match wire.dec(Utf8.Encode(args))
    case Some(j) => j
    case None => EMPTY_OBJECT
  }

  /** What follows the mark: a name and, after white space, arguments. */
  function ParseCall(wire: Wire, rest: string): Directive {
    var i := FirstBlank(rest);
    if i == |rest| then Directive(Str.Trim(rest), EMPTY_OBJECT)
    else Directive(Str.Trim(rest[..i]), Arguments(wire, Str.Trim(rest[i + 1..])))
  }

  function ParseLine(wire: Wire, line: string): Option<Directive> {
    var t := Str.Trim(line);
    if Str.StartsWith(t, MARK) then Some(ParseCall(wire, t[|MARK|..])) else None
  }

  function ParseLines(wire: Wire, lines: seq<string>): seq<Directive> {
    if lines == [] then []
    else
      var rest := ParseLines(wire, lines[1..]);
      match ParseLine(wire, lines[0])
      case None => rest
      case Some(d) => [d] + rest
  }

  /** `parse_directives`. */
  function ParseDirectives(wire: Wire, task: string): seq<Directive> {
    ParseLines(wire, Str.Lines(task))
  }

  lemma {:induction false} ParseLinesAppend(wire: Wire, a: seq<string>, b: seq<string>)
    ensures ParseLines(wire, a + b) == ParseLines(wire, a) + ParseLines(wire, b)
  {
    hide ParseLine;
    if a == [] {
      assert a + b == b;
    } else {
      ParseLinesAppend(wire, a[1..], b);
      assert (a + b)[1..] == a[1..] + b;
    }
  }

  lemma {:induction false} ParseLinesPointwise(wire: Wire, a: seq<string>, b: seq<string>)
    requires |a| == |b| && forall i | 0 <= i < |a| :: ParseLine(wire, a[i]) == ParseLine(wire, b[i])
    ensures ParseLines(wire, a) == ParseLines(wire, b)
  {
    if a != [] {
      ParseLinesPointwise(wire, a[1..], b[1..]);
    }
  }

  lemma CarriageReturnIrrelevant(wire: Wire, line: string)
    ensures ParseLine(wire, Str.DropCarriageReturn(line)) == ParseLine(wire, line)
  {
    if line != [] && line[|line| - 1] == '\r' {
      assert line == line[..|line| - 1] + ['\r'];
      Str.TrimIgnoresTrailing(line[..|line| - 1], '\r');
    }
  }

  lemma EmptyLine(wire: Wire)
    ensures ParseLines(wire, [""]) == []
  {
  }

  /** How the text is cut into lines does not matter beyond the newlines themselves. */
  lemma ParseByNewlines(wire: Wire, task: string)
    ensures ParseDirectives(wire, task) == ParseLines(wire, Str.Split(task, '\n'))
  {
    hide ParseLine, ParseLines, Str.Split, Str.DropCarriageReturn;
    var parts := Str.Split(task, '\n');
    var n := |parts| - 1;
    var terminated := seq(n, i requires 0 <= i < n => Str.DropCarriageReturn(parts[i]));
    forall i | 0 <= i < n ensures ParseLine(wire, terminated[i]) == ParseLine(wire, parts[..n][i]) {
      CarriageReturnIrrelevant(wire, parts[i]);
    }
    ParseLinesPointwise(wire, terminated, parts[..n]);
    assert parts == parts[..n] + [parts[n]];
    ParseLinesAppend(wire, parts[..n], [parts[n]]);
    EmptyLine(wire);
    if parts[n] != "" {
      ParseLinesAppend(wire, terminated, [parts[n]]);
    }
  }

  /** Directives of two texts put on separate lines are the directives of each, in order. */
  lemma ParseHomomorphism(wire: Wire, a: string, b: string)
    ensures ParseDirectives(wire, a + "\n" + b) == ParseDirectives(wire, a) + ParseDirectives(wire, b)
  {
    ParseByNewlines(wire, a);
    ParseByNewlines(wire, b);
    ParseByNewlines(wire, a + "\n" + b);
    Str.SplitAppend(a, b, '\n');
    ParseLinesAppend(wire, Str.Split(a, '\n'), Str.Split(b, '\n'));
  }

  /** A line of a task: a directive as a user would write it, with or without arguments, or anything else. */
  datatype Line = Tool(name: string, args: string) | Bare(name: string) | Prose(text: string)

  predicate IsName(name: string) { name != "" && forall c | c in name :: !Str.IsWhitespace(c) }

  predicate Writable(line: Line) {
    match line
    case Tool(name, args) => IsName(name) && args != "" && Str.Trimmed(args) && '\n' !in args
    case Bare(name) => IsName(name)
    case Prose(text) => '\n' !in text && !Str.StartsWith(Str.Trim(text), MARK)
  }

  function Print(line: Line): string {
    match line
    case Tool(name, args) => "!tool " + (name + " " + args)
    case Bare(name) => "!tool " + name
    case Prose(text) => text
  }

  /** The directive a line is meant to be: its arguments are what JSON they are, or the empty object. */
  predicate Means(wire: Wire, line: Line, d: Directive) {
    match line
    case Tool(name, args) =>
      d.name == name
      && (match wire.dec(Utf8.Encode(args)) case Some(j) => d.input == j case None => d.input == JObject(map[]))
    case Bare(name) => d == Directive(name, JObject(map[]))
    case Prose(_) => false
  }

  /** The lines among these that are directives. */
  function ToolLines(lines: seq<Line>): seq<Line> {
    if lines == [] then []
    else if lines[0].Prose? then ToolLines(lines[1..])
    else [lines[0]] + ToolLines(lines[1..])
  }

  lemma BlankAfterName(name: string, args: string)
    requires forall c | c in name :: !Str.IsWhitespace(c)
    ensures FirstBlank(name + " " + args) == |name|
    ensures Str.Trim(name) == name
  {
    var rest := name + " " + args;
    assert rest[|name|] == ' ';
    assert forall j | 0 <= j < |name| :: rest[j] == name[j] && rest[j] in name;
    assert name != "" ==> name[0] in name && name[|name| - 1] in name;
  }

  lemma AfterMark(rest: string)
    ensures Str.StartsWith(MARK + rest, MARK) && (MARK + rest)[|MARK|..] == rest
    ensures MARK != [] && !Str.IsWhitespace(MARK[0])
  {
  }

  lemma ParseMarked(wire: Wire, rest: string)
    requires rest != "" && !Str.IsWhitespace(rest[|rest| - 1])
    ensures ParseLine(wire, MARK + rest) == Some(ParseCall(wire, rest))
  {
    hide MARK, ParseCall, Str.Trim, Str.IsWhitespace, Str.StartsWith;
    AfterMark(rest);
    Str.TrimOfTrimmed(MARK + rest);
  }

  lemma ArgumentsMean(wire: Wire, args: string)
    ensures match wire.dec(Utf8.Encode(args))
            case Some(j) => Arguments(wire, args) == j
            case None => Arguments(wire, args) == JObject(map[])
  {
  }

  lemma DirectiveParses(wire: Wire, name: string, args: string)
    requires Writable(Tool(name, args))
    ensures var d := ParseLine(wire, MARK + (name + " " + args));
            d.Some? && Means(wire, Tool(name, args), d.value)
  {
    hide ParseLine, FirstBlank, Str.Trim, Str.IsWhitespace, Arguments;
    var rest := name + " " + args;
    assert rest[|rest| - 1] == args[|args| - 1];
    ParseMarked(wire, rest);
    BlankAfterName(name, args);
    assert rest[..|name|] == name && rest[|name| + 1..] == args;
    Str.TrimOfTrimmed(args);
    ArgumentsMean(wire, args);
  }

  lemma {:induction false} NoBlank(s: string)
    requires forall c | c in s :: !Str.IsWhitespace(c)
    ensures FirstBlank(s) == |s|
  {
    hide Str.IsWhitespace;
    if s != "" {
      NoBlank(s[1..]);
    }
  }

  lemma BareParses(wire: Wire, name: string)
    requires Writable(Bare(name))
    ensures ParseLine(wire, MARK + name) == Some(Directive(name, JObject(map[])))
  {
    hide ParseLine, FirstBlank, Str.Trim, Str.IsWhitespace;
    assert name[0] in name && name[|name| - 1] in name;
    ParseMarked(wire, name);
    NoBlank(name);
    Str.TrimOfTrimmed(name);
  }

  lemma PrintedLineIsOneLine(line: Line)
    requires Writable(line)
    ensures '\n' !in Print(line)
  {
    match line
    case Tool(name, args) =>
      assert Str.IsWhitespace('\n');
      assert '\n' !in MARK && '\n' !in name && '\n' !in args;
      assert '\n' !in name + " ";
      assert '\n' !in name + " " + args;
    case Bare(name) =>
      assert Str.IsWhitespace('\n');
      assert '\n' !in MARK && '\n' !in name;
    case Prose(_) =>
  }

  lemma PrintedLineParses(wire: Wire, line: Line)
    requires Writable(line)
    ensures var d := ParseLine(wire, Print(line));
            if line.Prose? then d.None? else d.Some? && Means(wire, line, d.value)
  {
    hide Means;
    match line
    case Tool(name, args) => DirectiveParses(wire, name, args);
    case Bare(name) => BareMeans(wire, name);
    case Prose(text) =>
  }

  lemma BareMeans(wire: Wire, name: string)
    requires Writable(Bare(name))
    ensures var d := ParseLine(wire, Print(Bare(name)));
            d.Some? && Means(wire, Bare(name), d.value)
  {
    hide ParseLine;
    BareParses(wire, name);
  }

  lemma {:induction false} SplitOfJoin(lines: seq<string>)
    requires lines != [] && forall l | l in lines :: '\n' !in l
    ensures Str.Split(Str.Join(lines, "\n"), '\n') == lines
  {
    assert lines[0] in lines;
    Str.SplitNoSeparator(lines[0], '\n');
    if |lines| > 1 {
      SplitOfJoin(lines[1..]);
      Str.SplitAppend(lines[0], Str.Join(lines[1..], "\n"), '\n');
    }
  }

  /** The directives are the meanings of the tool lines, in order. */
  predicate AllMean(wire: Wire, lines: seq<Line>, directives: seq<Directive>) {
    var tools := ToolLines(lines);
    |directives| == |tools| && forall i | 0 <= i < |tools| :: Means(wire, tools[i], directives[i])
  }

  lemma {:induction false} PrintedLinesParse(wire: Wire, lines: seq<Line>)
    requires forall l | l in lines :: Writable(l)
    ensures AllMean(wire, lines, ParseLines(wire, MapSeq(Print, lines)))
  {
    hide ParseLine, Means, Writable;
    if lines != [] {
      assert lines[0] in lines;
      PrintedLineParses(wire, lines[0]);
      PrintedLinesParse(wire, lines[1..]);
      assert MapSeq(Print, lines)[1..] == MapSeq(Print, lines[1..]);
    }
  }

  /**
   * Directives written out one a line, with any other lines between them, parse
   * back to themselves: their names, and their arguments as the JSON they are.
   */
  lemma PrintParse(wire: Wire, lines: seq<Line>)
    requires forall l | l in lines :: Writable(l)
    ensures AllMean(wire, lines, ParseDirectives(wire, Str.Join(MapSeq(Print, lines), "\n")))
  {
    hide ParseLine, Means, Writable;
    var printed := MapSeq(Print, lines);
    ParseByNewlines(wire, Str.Join(printed, "\n"));
    PrintedLinesParse(wire, lines);
    if lines == [] {
      EmptyLine(wire);
    } else {
      forall l | l in printed ensures '\n' !in l {
        var i :| 0 <= i < |lines| && l == Print(lines[i]);
        assert lines[i] in lines;
        PrintedLineIsOneLine(lines[i]);
      }
      SplitOfJoin(printed);
    }
  }

  /** Arguments written by the codec are read back, but for their floats, if they do not nest too deep. */
  lemma ArgumentsRoundTrip(wire: Wire, line: Line, j: Json, d: Directive)
    requires Lossless(wire) && line.Tool? && Means(wire, line, d)
    requires Utf8.Encode(line.args) == wire.enc(j) && Within(j, MAX_DEPTH)
    ensures d == Directive(line.name, Reread(wire.again, j))
  {
    hide Within, Reread, Utf8.Encode;
  }

  // --------------------------------------------------------------------------
  // The mock provider
  // --------------------------------------------------------------------------

  /** The blocks of all messages, in order. */
  function Blocks(messages: seq<Message>): seq<Content> {
    if messages == [] then [] else messages[0].content + Blocks(messages[1..])
  }

  function Texts(blocks: seq<Content>): seq<string> {
    if blocks == [] then []
    else
      var rest := Texts(blocks[1..]);
      if blocks[0].Known? && blocks[0].block.Text? then [blocks[0].block.text] + rest else rest
  }

  function ResultTexts(blocks: seq<Content>): seq<string> {
    if blocks == [] then []
    else
      var rest := ResultTexts(blocks[1..]);
      if blocks[0].Known? && blocks[0].block.ToolResult? then [blocks[0].block.content] + rest else rest
  }

  /** The directives whose tool is on offer. */
  function Offered(directives: seq<Directive>, available: seq<string>): seq<Directive> {
    if directives == [] then []
    else
      var rest := Offered(directives[1..], available);
      if directives[0].name in available then [directives[0]] + rest else rest
  }

  function MockId(i: nat): string { "toolu_mock_" + Decimal(i) }

  function MockCalls(directives: seq<Directive>): seq<Content> {
    seq(|directives|, i requires 0 <= i < |directives| =>
      Known(ToolUse(MockId(i), directives[i].name, directives[i].input)))
  }

  function FirstLine(s: string): string {
    if Str.Lines(s) == [] then "" else Str.Trim(Str.Lines(s)[0])
  }

  function ToolNames(tools: seq<ToolSpec>): seq<string> { MapSeq((t: ToolSpec) => t.name, tools) }

  /** `MockProvider::complete`. */
  function MockComplete(wire: Wire, request: LlmRequest): LlmResponse {
    var blocks := Blocks(request.messages);
    var task := Str.Join(Texts(blocks), "\n");
    var usedTools := exists i | 0 <= i < |blocks| :: blocks[i].Known? && blocks[i].block.ToolResult?;
    var calls := MockCalls(Offered(ParseDirectives(wire, task), ToolNames(request.tools)));
    if !usedTools && calls != [] then
      LlmResponse("tool_use", calls, Usage(100, 20))
    else
      var results := ResultTexts(blocks);
      var answer := if results == [] then "no tools: " + FirstLine(task)
                    else "results: " + Str.Join(results, " | ");
      LlmResponse("end_turn", [Known(Text(answer))], Usage(120, 30))
  }
}
