/** The tools the host runs for the agent, and the scratchpad they share (`tools.rs`). */
module Tools {
  import opened Basics
  import opened JsonValues
  import opened Abi
  import opened Outside
  import opened Policies
  import Utf8

  function SpecFor(name: string): Option<ToolSpec> {
    if name in KNOWN_TOOLS then Some(ToolSpec(name, "", JObject(map[]))) else None
  }

  /** `ToolBox::specs`: the enabled tools the host implements, in policy order. */
  function Specs(enabled: seq<string>): seq<ToolSpec> {
    if enabled == [] then []
    else
      var rest := Specs(enabled[1..]);
      if SpecFor(enabled[0]).None? then rest else [SpecFor(enabled[0]).value] + rest
  }

  /** Under a policy that lists known tools only, the model is offered exactly the enabled ones. */
  lemma {:induction false} SpecsAreTheEnabledTools(enabled: seq<string>)
    requires forall name | name in enabled :: name in KNOWN_TOOLS
    ensures |Specs(enabled)| == |enabled|
    ensures forall i | 0 <= i < |enabled| :: Specs(enabled)[i].name == enabled[i]
  {
    if enabled != [] {
      assert enabled[0] in enabled;
      SpecsAreTheEnabledTools(enabled[1..]);
    }
  }

  /** Of any list of names, those of the four tools are kept, in order. */
  lemma {:induction false} SpecsFrom(enabled: seq<string>, from: nat) returns (at: seq<nat>)
    requires from <= |enabled|
    ensures Places((name: string) => name in ["now", "http_get", "kv_get", "kv_put"], at, enabled, from)
    ensures |at| == |Specs(enabled[from..])|
    ensures forall i | 0 <= i < |at| :: at[i] < |enabled| && Specs(enabled[from..])[i].name == enabled[at[i]]
    decreases |enabled| - from
  {
    hide Places;
    var p := (name: string) => name in ["now", "http_get", "kv_get", "kv_put"];
    if from == |enabled| {
      at := [];
      NoPlaces(p, enabled);
    } else {
      var rest := SpecsFrom(enabled, from + 1);
      PlacesMore(p, enabled, from, rest);
      assert enabled[from..][1..] == enabled[from + 1..] && enabled[from..][0] == enabled[from];
      at := if p(enabled[from]) then [from] + rest else rest;
    }
  }

  function Quoted(s: string): string { "\"" + s + "\"" }

  function StringArg(input: Json, field: string): Cap<string> {
    match AsText(Field(input, field))
    case Some(s) => Ok(s)
    case None => Err(Invalid("missing " + Quoted(field)))
  }

  // --------------------------------------------------------------------------
  // http_get
  // --------------------------------------------------------------------------

  /** The checks made before any request: the URL to fetch, or why not. */
  function Gate(http: HttpToolConfig, w: World, input: Json): Cap<Url> {
    match StringArg(input, "url")
    case Err(e) => Err(e)
    case Ok(raw) =>
      match w.parseUrl(raw)
      case None => Err(Invalid("url"))
      case Some(url) =>
        if url.scheme != "https" then Err(Denied("only https"))
        else if url.host.None? then Err(Invalid("no host"))
        else if !Allows(http.allowedHosts, url.host.value) then
          Err(Denied("host " + Quoted(url.host.value)))
        else Ok(url)
  }

  /** How the outcome of the one request is reported. A redirect is reported, never followed. */
  function Report(http: HttpToolConfig, wire: Wire, outcome: HttpOutcome): Cap<string> {
    match outcome
    case SendFailed => Err(Upstream("send"))
    case Responded(status, location, body) =>
      if 300 <= status < 400 then
        Ok("HTTP " + Decimal(status) + " redirect to "
           + (if location.Some? then location.value else "(none)")
           + ", not followed")
      else if body.None? then Err(Upstream("body"))
      else
        var taken := Taken(http, body.value);
        Ok("HTTP " + Decimal(status) + (if Flagged(http, taken) then Notice(http) else "") + "\n\n" + wire.lossy(taken))
  }

  function Taken(http: HttpToolConfig, body: seq<byte>): seq<byte> {
    body[..Min(http.maxResponseBytes, |body|)]
  }

  predicate Flagged(http: HttpToolConfig, taken: seq<byte>) { |taken| >= http.maxResponseBytes }

  function Notice(http: HttpToolConfig): string { " (truncated to " + Decimal(http.maxResponseBytes) + " bytes)" }

  /**
   * The notice is right except in one case: a body of exactly the limit is
   * handed over whole and still called truncated.
   */
  lemma TruncationNotice(http: HttpToolConfig, body: seq<byte>)
    ensures (Flagged(http, Taken(http, body)) <==> Taken(http, body) != body) <==> |body| != http.maxResponseBytes
    ensures Taken(http, body) != body ==> Flagged(http, Taken(http, body))
  {
    if |body| <= http.maxResponseBytes {
      assert Taken(http, body) == body;
    }
  }

  /** A three-byte body under a three-byte limit: all of it, and a notice that it was cut. */
  lemma NoticeOnWholeBody()
    ensures var http := HttpToolConfig([], 3);
            Taken(http, [1, 2, 3]) == [1, 2, 3] && Flagged(http, Taken(http, [1, 2, 3]))
  {
  }

  // --------------------------------------------------------------------------
  // One invocation
  // --------------------------------------------------------------------------

  type Store = map<string, string>

  datatype Invoked = Invoked(store: Store, result: Cap<string>, sent: seq<Url>)

  function KvGetResult(store: Store, input: Json): Cap<string> {
    match StringArg(input, "key")
    case Err(e) => Err(e)
    case Ok(key) => Ok(if key in store then store[key] else Placeholder(key))
  }

  function Placeholder(key: string): string { "(no value stored for " + Quoted(key) + ")" }

  function KvPutResult(kv: KvToolConfig, store: Store, input: Json): Invoked {
    var key, value := StringArg(input, "key"), StringArg(input, "value");
    if key.Err? then Invoked(store, Err(key.error), [])
    else if value.Err? then Invoked(store, Err(value.error), [])
    else if |Utf8.Encode(value.value)| > kv.maxValueBytes then
      Invoked(store, Err(Denied("value")), [])
    else if key.value !in store && |store| >= kv.maxKeys then
      Invoked(store, Err(Denied("the " + Decimal(kv.maxKeys))), [])
    else Invoked(store[key.value := value.value], Ok("stored " + Quoted(key.value)), [])
  }

  function NotEnabled(name: string): CapError {
    Denied("tool " + Quoted(name))
  }

  function NoSuchTool(name: string): CapError { NotFound(Quoted(name)) }

  /** `ToolBox::invoke` as a function of the scratchpad. */
  function RunTool(cfg: ToolsConfig, wire: Wire, w: World, store: Store, name: string, input: Json): Invoked {
    if name !in cfg.enabled then Invoked(store, Err(NotEnabled(name)), [])
    else if name == "now" then Invoked(store, Ok(w.now), [])
    else if name == "http_get" then
      match Gate(cfg.http, w, input)
      case Err(e) => Invoked(store, Err(e), [])
      case Ok(url) => Invoked(store, Report(cfg.http, wire, w.send(url)), [url])
    else if name == "kv_get" then Invoked(store, KvGetResult(store, input), [])
    else if name == "kv_put" then KvPutResult(cfg.kv, store, input)
    else Invoked(store, Err(NoSuchTool(name)), [])
  }

  /** Tools look at texts only, so it makes no difference to them how the floats of their input were read. */
  lemma ToolsIgnoreFloats(cfg: ToolsConfig, wire: Wire, w: World, store: Store, name: string, input: Json,
                          again: Float -> Float)
    ensures RunTool(cfg, wire, w, store, name, Reread(again, input)) == RunTool(cfg, wire, w, store, name, input)
  {
    hide StringArg, Reread, Report, Allows, Utf8.Encode, Decimal, NotEnabled, NoSuchTool, Placeholder;
    ArgReread(again, input, "url");
    ArgReread(again, input, "key");
    ArgReread(again, input, "value");
  }

  lemma ArgReread(again: Float -> Float, input: Json, field: string)
    ensures StringArg(Reread(again, input), field) == StringArg(input, field)
  {
    hide Field, AsText, Reread;
    FieldReread(again, input, field);
    LeavesReread(again, Field(input, field));
  }

  /** No other denial reads like the one for a tool that is not enabled: they all start with another word. */
  lemma DenialsDiffer(cfg: ToolsConfig, wire: Wire, w: World, store: Store, name: string, input: Json)
    requires name in cfg.enabled
    ensures RunTool(cfg, wire, w, store, name, input).result != Err(NotEnabled(name))
  {
    hide Allows, Utf8.Encode, Taken, Flagged;
    var off := NotEnabled(name).message;
    assert off[0] == 't' && off[1] == 'o';
    if name == "http_get" {
      var gate := Gate(cfg.http, w, input);
      assert gate.Err? && gate.error.kind == "denied" ==> gate.error.message[0] in ['o', 'h'];
    } else if name == "kv_put" {
      assert ("the " + Decimal(cfg.kv.maxKeys))[1] == 'h' && "value"[0] == 'v';
    }
  }

  /** A tool that is not enabled is denied and nothing happens, implemented or not. */
  lemma EnabledOrDenied(cfg: ToolsConfig, wire: Wire, w: World, store: Store, name: string, input: Json)
    ensures var i := RunTool(cfg, wire, w, store, name, input);
            && (name !in cfg.enabled <==> i.result == Err(NotEnabled(name)))
            && (name !in cfg.enabled ==> i.store == store && i.sent == [])
            && (i.store != store ==> name == "kv_put") && (i.sent != [] ==> name == "http_get" && |i.sent| == 1)
  {
    hide Gate, Report, KvGetResult, NotEnabled, NoSuchTool, Utf8.Encode, Decimal;
    if name in cfg.enabled {
      DenialsDiffer(cfg, wire, w, store, name, input);
    }
  }

  /** An enabled tool is never reported missing unless the policy enables one that does not exist. */
  lemma KnownToolsExist(cfg: ToolsConfig, wire: Wire, w: World, store: Store, name: string, input: Json)
    requires name in cfg.enabled && name in KNOWN_TOOLS
    ensures var r := RunTool(cfg, wire, w, store, name, input).result;
            r.Err? ==> r.error.kind in ["invalid", "denied", "upstream"]
  {
    hide Allows, Utf8.Encode, Decimal, Taken, Flagged;
    match name
    case "now" =>
    case "http_get" =>
      var gate := Gate(cfg.http, w, input);
      assert gate.Err? ==> gate.error.kind in ["invalid", "denied"];
    case "kv_get" =>
    case "kv_put" =>
    case _ =>
  }

  // --------------------------------------------------------------------------
  // What each tool is for
  // --------------------------------------------------------------------------

  predicate HasArg(input: Json, name: string) {
    input.JObject? && name in input.fields && input.fields[name].JStr?
  }

  function Arg(input: Json, name: string): string
    requires HasArg(input, name)
  {
    input.fields[name].s
  }

  predicate Fails(r: Cap<string>, kind: string) { r.Err? && r.error.kind == kind }

  /** What a fetch hands over: at most the limit of the body, with a notice if it is that long. */
  predicate HandsOver(http: HttpToolConfig, wire: Wire, outcome: HttpOutcome, r: Cap<string>) {
    match outcome
    case SendFailed => Fails(r, "upstream")
    case Responded(status, location, body) =>
      if 300 <= status <= 399 then
        r == Ok("HTTP " + Decimal(status) + " redirect to "
                + (match location case Some(l) => l case None => "(none)") + ", not followed")
      else if body.None? then Fails(r, "upstream")
      else
        var n, max := |body.value|, http.maxResponseBytes;
        r == Ok("HTTP " + Decimal(status) + (if n >= max then " (truncated to " + Decimal(max) + " bytes)" else "")
                + "\n\n" + wire.lossy(body.value[..if n < max then n else max]))
  }

  /** `http_get`: the URLs it sends a request to, and its answer. */
  predicate Fetches(http: HttpToolConfig, wire: Wire, w: World, input: Json, r: Cap<string>, sent: seq<Url>) {
    if !HasArg(input, "url") then Fails(r, "invalid") && sent == []
    else
      match w.parseUrl(Arg(input, "url"))
      case None => Fails(r, "invalid") && sent == []
      case Some(url) =>
        if url.scheme != "https" then Fails(r, "denied") && sent == []
        else if url.host.None? then Fails(r, "invalid") && sent == []
        else if !Allows(http.allowedHosts, url.host.value) then Fails(r, "denied") && sent == []
        else HandsOver(http, wire, w.send(url), r) && sent == [url]
  }

  /** `kv_put`: the scratchpad afterwards, and its answer. */
  predicate Puts(kv: KvToolConfig, store: Store, input: Json, r: Cap<string>, after: Store) {
    if !HasArg(input, "key") || !HasArg(input, "value") then Fails(r, "invalid") && after == store
    else
      var key, value := Arg(input, "key"), Arg(input, "value");
      if |Utf8.Encode(value)| > kv.maxValueBytes || (key !in store && |store| >= kv.maxKeys) then
        Fails(r, "denied") && after == store
      else r == Ok("stored " + ("\"" + key + "\"")) && after == store[key := value]
  }

  /** What a tool does, tool by tool and argument by argument. */
  predicate Behaves(cfg: ToolsConfig, wire: Wire, w: World, store: Store, name: string, input: Json, i: Invoked) {
    && (name != "kv_put" || name !in cfg.enabled ==> i.store == store)
    && (name != "http_get" || name !in cfg.enabled ==> i.sent == [])
    && if name !in cfg.enabled then Fails(i.result, "denied")
       else if name == "now" then i.result == Ok(w.now)
       else if name == "http_get" then Fetches(cfg.http, wire, w, input, i.result, i.sent)
       else if name == "kv_get" then
         if !HasArg(input, "key") then Fails(i.result, "invalid")
         else
           var key := Arg(input, "key");
           i.result == Ok(if key in store then store[key] else "(no value stored for " + ("\"" + key + "\"") + ")")
       else if name == "kv_put" then Puts(cfg.kv, store, input, i.result, i.store)
       else Fails(i.result, "not_found")
  }

  lemma ArgIsText(input: Json, name: string)
    ensures HasArg(input, name) <==> StringArg(input, name).Ok?
    ensures HasArg(input, name) ==> StringArg(input, name) == Ok(Arg(input, name))
    ensures StringArg(input, name).Err? ==> StringArg(input, name).error.kind == "invalid"
  {
  }

  lemma ReportHandsOver(http: HttpToolConfig, wire: Wire, outcome: HttpOutcome)
    ensures HandsOver(http, wire, outcome, Report(http, wire, outcome))
  {
    hide Decimal;
    if outcome.Responded? && outcome.body.Some? && |outcome.body.value| < http.maxResponseBytes {
      assert outcome.body.value[..|outcome.body.value|] == outcome.body.value;
    }
  }

  lemma FetchBehaves(http: HttpToolConfig, wire: Wire, w: World, input: Json)
    ensures match Gate(http, w, input)
            case Err(e) => Fetches(http, wire, w, input, Err(e), [])
            case Ok(url) => Fetches(http, wire, w, input, Report(http, wire, w.send(url)), [url])
  {
    hide StringArg, Report, HandsOver, Allows, HasArg;
    ArgIsText(input, "url");
    if Gate(http, w, input).Ok? {
      ReportHandsOver(http, wire, w.send(Gate(http, w, input).value));
    }
  }

  lemma PutBehaves(kv: KvToolConfig, store: Store, input: Json)
    ensures var i := KvPutResult(kv, store, input);
            Puts(kv, store, input, i.result, i.store) && i.sent == []
  {
    hide StringArg, HasArg, Utf8.Encode, Decimal;
    ArgIsText(input, "key");
    ArgIsText(input, "value");
  }

  /** The tools do what they are for. */
  lemma ToolsBehave(cfg: ToolsConfig, wire: Wire, w: World, store: Store, name: string, input: Json)
    ensures Behaves(cfg, wire, w, store, name, input, RunTool(cfg, wire, w, store, name, input))
  {
    hide StringArg, HasArg, Gate, Report, Fetches, Puts, KvPutResult;
    ArgIsText(input, "key");
    FetchBehaves(cfg.http, wire, w, input);
    PutBehaves(cfg.kv, store, input);
  }

  /** Per-run tool state; `sent` is every URL requested so far. */
  class ToolBox {
    const cfg: ToolsConfig
    const wire: Wire
    var kv: Store
    ghost var sent: seq<Url>

    constructor (cfg: ToolsConfig, wire: Wire)
      ensures this.cfg == cfg && this.wire == wire && kv == map[] && sent == []
    {
      this.cfg, this.wire := cfg, wire;
      kv, sent := map[], [];
    }

    method Invoke(w: World, name: string, input: Json) returns (r: Cap<string>)
      modifies this
      ensures var i := RunTool(cfg, wire, w, old(kv), name, input);
              r == i.result && kv == i.store && sent == old(sent) + i.sent
      ensures exists urls ::
                sent == old(sent) + urls && Behaves(cfg, wire, w, old(kv), name, input, Invoked(kv, r, urls))
    {
      ToolsBehave(cfg, wire, w, kv, name, input);
      if name !in cfg.enabled {
        return Err(NotEnabled(name));
      }
      match name {
        case "now" => r := Ok(w.now);
        case "http_get" => r := HttpGet(w, input);
        case "kv_get" => r := KvGetResult(kv, input);
        case "kv_put" => r := KvPut(input);
        case _ => r := Err(NoSuchTool(name));
      }
    }

    method HttpGet(w: World, input: Json) returns (r: Cap<string>)
      modifies this`sent
      ensures match Gate(cfg.http, w, input)
              case Err(e) => r == Err(e) && sent == old(sent)
              case Ok(url) => r == Report(cfg.http, wire, w.send(url)) && sent == old(sent) + [url]
    {
      var gate := Gate(cfg.http, w, input);
      if gate.Err? {
        return Err(gate.error);
      }
      sent := sent + [gate.value];
      r := Report(cfg.http, wire, w.send(gate.value));
    }

    method KvPut(input: Json) returns (r: Cap<string>)
      modifies this`kv
      ensures r == KvPutResult(cfg.kv, old(kv), input).result && kv == KvPutResult(cfg.kv, old(kv), input).store
    {
      var key := StringArg(input, "key");
      if key.Err? {
        return Err(key.error);
      }
      var value := StringArg(input, "value");
      if value.Err? {
        return Err(value.error);
      }
      if |Utf8.Encode(value.value)| > cfg.kv.maxValueBytes {
        return Err(Denied("value"));
      }
      if key.value !in kv && |kv| >= cfg.kv.maxKeys {
        return Err(Denied("the " + Decimal(cfg.kv.maxKeys)));
      }
      kv := kv[key.value := value.value];
      r := Ok("stored " + Quoted(key.value));
    }
  }

  // --------------------------------------------------------------------------
  // Any sequence of invocations
  // --------------------------------------------------------------------------

  datatype ToolCall = ToolCall(w: World, name: string, input: Json)

  function Last(cfg: ToolsConfig, wire: Wire, calls: seq<ToolCall>): Invoked
    requires calls != []
    decreases |calls|, 0
  {
    var n := |calls| - 1;
    RunTool(cfg, wire, calls[n].w, StoreAfter(cfg, wire, calls[..n]), calls[n].name, calls[n].input)
  }

  function StoreAfter(cfg: ToolsConfig, wire: Wire, calls: seq<ToolCall>): Store
    decreases |calls|, 1
  {
    if calls == [] then map[] else Last(cfg, wire, calls).store
  }

  function SentBy(cfg: ToolsConfig, wire: Wire, calls: seq<ToolCall>): seq<Url> {
    if calls == [] then [] else SentBy(cfg, wire, calls[..|calls| - 1]) + Last(cfg, wire, calls).sent
  }

  // What the history alone says the scratchpad should hold.

  /** The key and value of a put that is enabled, well formed and small enough. */
  function Candidate(cfg: ToolsConfig, call: ToolCall): Option<(string, string)> {
    var key, value := AsText(Field(call.input, "key")), AsText(Field(call.input, "value"));
    if call.name == "kv_put" && "kv_put" in cfg.enabled && key.Some? && value.Some?
       && |Utf8.Encode(value.value)| <= cfg.kv.maxValueBytes
    then Some((key.value, value.value)) else None
  }

  /** The keys of the candidate puts, each once, in order of first appearance. */
  function DistinctKeys(cfg: ToolsConfig, calls: seq<ToolCall>): seq<string> {
    if calls == [] then []
    else
      var n := |calls| - 1;
      var before, c := DistinctKeys(cfg, calls[..n]), Candidate(cfg, calls[n]);
      if c.None? || c.value.0 in before then before else before + [c.value.0]
  }

  /** The first `max_keys` of them. */
  function AdmittedKeys(cfg: ToolsConfig, calls: seq<ToolCall>): seq<string> {
    var keys := DistinctKeys(cfg, calls);
    keys[..Min(cfg.kv.maxKeys, |keys|)]
  }

  /** The value of the latest candidate put for `key`. */
  function LatestValue(cfg: ToolsConfig, calls: seq<ToolCall>, key: string): (value: string)
    requires key in DistinctKeys(cfg, calls)
    ensures |Utf8.Encode(value)| <= cfg.kv.maxValueBytes
  {
    var n := |calls| - 1;
    var c := Candidate(cfg, calls[n]);
    if c.Some? && c.value.0 == key then c.value.1 else LatestValue(cfg, calls[..n], key)
  }

  predicate NoDuplicates(keys: seq<string>) {
    forall i, j | 0 <= i < j < |keys| :: keys[i] != keys[j]
  }

  lemma {:induction false} DistinctKeysDistinct(cfg: ToolsConfig, calls: seq<ToolCall>)
    ensures NoDuplicates(DistinctKeys(cfg, calls))
  {
    if calls != [] {
      DistinctKeysDistinct(cfg, calls[..|calls| - 1]);
    }
  }

  /** Only a candidate put touches the scratchpad, and only the key limit can stop it. */
  lemma StoreStep(cfg: ToolsConfig, wire: Wire, store: Store, call: ToolCall)
    ensures var after, c := RunTool(cfg, wire, call.w, store, call.name, call.input), Candidate(cfg, call);
            && (c.None? ==> after.store == store && (call.name == "kv_put" ==> after.result.Err?))
            && (c.Some? ==>
                  var full := c.value.0 !in store && |store| >= cfg.kv.maxKeys;
                  && (after.result.Ok? <==> !full)
                  && after.store == if full then store else store[c.value.0 := c.value.1])
  {
  }

  /** The scratchpad `store` is what the history says it should be. */
  predicate Refines(cfg: ToolsConfig, calls: seq<ToolCall>, store: Store) {
    var keys := AdmittedKeys(cfg, calls);
    && |store| == |keys|
    && (forall k | k in store :: k in keys)
    && (forall k | k in keys :: k in store && store[k] == LatestValue(cfg, calls, k))
  }

  /**
   * The scratchpad is a function of the history of puts: it holds the first
   * `max_keys` distinct keys among the acceptable puts, each with its latest value.
   */
  lemma {:induction false} StoreRefinesHistory(cfg: ToolsConfig, wire: Wire, calls: seq<ToolCall>)
    ensures Refines(cfg, calls, StoreAfter(cfg, wire, calls))
  {
    if calls != [] {
      var n := |calls| - 1;
      StoreRefinesHistory(cfg, wire, calls[..n]);
      StoreStep(cfg, wire, StoreAfter(cfg, wire, calls[..n]), calls[n]);
      if Candidate(cfg, calls[n]).None? {
        assert AdmittedKeys(cfg, calls) == AdmittedKeys(cfg, calls[..n]);
      } else {
        AdmissionStep(cfg, calls, StoreAfter(cfg, wire, calls[..n]), StoreAfter(cfg, wire, calls));
      }
    }
  }

  lemma AdmissionStep(cfg: ToolsConfig, calls: seq<ToolCall>, store: Store, after: Store)
    requires calls != [] && Candidate(cfg, calls[|calls| - 1]).Some?
    requires Refines(cfg, calls[..|calls| - 1], store)
    requires var c := Candidate(cfg, calls[|calls| - 1]).value;
             after == if c.0 !in store && |store| >= cfg.kv.maxKeys then store else store[c.0 := c.1]
    ensures Refines(cfg, calls, after)
  {
    hide Candidate, LatestValue, DistinctKeys, AdmittedKeys;
    LatestAfter(cfg, calls);
    KeysAfter(cfg, calls);
  }

  lemma KeysAfter(cfg: ToolsConfig, calls: seq<ToolCall>)
    requires calls != [] && Candidate(cfg, calls[|calls| - 1]).Some?
    ensures var before := calls[..|calls| - 1];
            var had, key := AdmittedKeys(cfg, before), Candidate(cfg, calls[|calls| - 1]).value.0;
            && |had| <= cfg.kv.maxKeys && (forall k | k in had :: k in DistinctKeys(cfg, before))
            && AdmittedKeys(cfg, calls) == if key !in had && |had| < cfg.kv.maxKeys then had + [key] else had
  {
    hide Candidate;
    var before, key := DistinctKeys(cfg, calls[..|calls| - 1]), Candidate(cfg, calls[|calls| - 1]).value.0;
    var had, keys := AdmittedKeys(cfg, calls[..|calls| - 1]), AdmittedKeys(cfg, calls);
    if |before| < cfg.kv.maxKeys {
      assert had == before && keys == DistinctKeys(cfg, calls);
    } else {
      assert keys == had;
    }
  }

  lemma LatestAfter(cfg: ToolsConfig, calls: seq<ToolCall>)
    requires calls != [] && Candidate(cfg, calls[|calls| - 1]).Some?
    ensures var n := |calls| - 1;
            var c := Candidate(cfg, calls[n]).value;
            && c.0 in DistinctKeys(cfg, calls) && LatestValue(cfg, calls, c.0) == c.1
            && forall k | k in DistinctKeys(cfg, calls[..n]) && k != c.0 ::
                 k in DistinctKeys(cfg, calls) && LatestValue(cfg, calls, k) == LatestValue(cfg, calls[..n], k)
  {
    hide Candidate;
  }

  /** What `kv_get` answers after any history: the latest admitted value, or the placeholder. */
  lemma KvGetReadsHistory(cfg: ToolsConfig, wire: Wire, calls: seq<ToolCall>, get: ToolCall)
    requires get.name == "kv_get" && "kv_get" in cfg.enabled && AsText(Field(get.input, "key")).Some?
    ensures var key := AsText(Field(get.input, "key")).value;
            Last(cfg, wire, calls + [get]).result ==
              Ok(if key in AdmittedKeys(cfg, calls) then LatestValue(cfg, calls, key) else Placeholder(key))
  {
    StoreRefinesHistory(cfg, wire, calls);
    assert (calls + [get])[..|calls|] == calls;
  }

  /** A put succeeds exactly when it is acceptable and its key is, or now becomes, an admitted one. */
  lemma PutAccepted(cfg: ToolsConfig, wire: Wire, calls: seq<ToolCall>, put: ToolCall)
    requires put.name == "kv_put"
    ensures Last(cfg, wire, calls + [put]).result.Ok? <==>
              Candidate(cfg, put).Some? && Candidate(cfg, put).value.0 in AdmittedKeys(cfg, calls + [put])
  {
    hide RunTool, Candidate, DistinctKeys, AdmittedKeys;
    var all := calls + [put];
    assert all[..|calls|] == calls;
    StoreRefinesHistory(cfg, wire, calls);
    StoreRefinesHistory(cfg, wire, all);
    StoreStep(cfg, wire, StoreAfter(cfg, wire, calls), put);
  }

  function StoredBytes(store: Store, keys: seq<string>): nat
    requires forall k | k in keys :: k in store
  {
    if keys == [] then 0
    else StoredBytes(store, keys[1..]) + |Utf8.Encode(store[keys[0]])|
  }

  lemma {:induction false} StoredBytesBounded(store: Store, keys: seq<string>, max: nat)
    requires forall k | k in keys :: k in store && |Utf8.Encode(store[k])| <= max
    ensures StoredBytes(store, keys) <= |keys| * max
  {
    hide Utf8.Encode;
    if keys != [] {
      assert keys[0] in keys;
      StoredBytesBounded(store, keys[1..], max);
      OneMoreTimes(|keys| - 1, max);
    }
  }

  lemma OneMoreTimes(n: nat, m: nat)
    ensures n * m + m == (n + 1) * m
  {
  }

  /** However it is used, the scratchpad never holds more than `max_keys * max_value_bytes` bytes of values. */
  lemma ScratchpadBounded(cfg: ToolsConfig, wire: Wire, calls: seq<ToolCall>)
    ensures var store, keys := StoreAfter(cfg, wire, calls), AdmittedKeys(cfg, calls);
            && NoDuplicates(keys) && (forall k :: k in store <==> k in keys)
            && |store| <= cfg.kv.maxKeys
            && StoredBytes(store, keys) <= cfg.kv.maxKeys * cfg.kv.maxValueBytes
  {
    StoreRefinesHistory(cfg, wire, calls);
    DistinctKeysDistinct(cfg, calls);
    var store, keys := StoreAfter(cfg, wire, calls), AdmittedKeys(cfg, calls);
    StoredBytesBounded(store, keys, cfg.kv.maxValueBytes);
    TimesMonotone(|keys|, cfg.kv.maxKeys, cfg.kv.maxValueBytes);
  }

  lemma TimesMonotone(a: nat, b: nat, c: nat)
    requires a <= b
    ensures a * c <= b * c
  {
  }

  // --------------------------------------------------------------------------
  // The network gate
  // --------------------------------------------------------------------------

  predicate Permitted(cfg: ToolsConfig, url: Url) {
    && "http_get" in cfg.enabled && url.scheme == "https" && url.host.Some?
    && Allows(cfg.http.allowedHosts, url.host.value)
  }

  /** The URL a call names, if the policy lets that call fetch it. */
  function Fetch(cfg: ToolsConfig, call: ToolCall): Option<Url> {
    var raw := AsText(Field(call.input, "url"));
    if call.name != "http_get" || raw.None? || call.w.parseUrl(raw.value).None? then None
    else if Permitted(cfg, call.w.parseUrl(raw.value).value) then call.w.parseUrl(raw.value)
    else None
  }

  /** Over any run the requests sent are the permitted fetches: one each, in order, and no others. */
  lemma {:induction false} NetworkGate(cfg: ToolsConfig, wire: Wire, calls: seq<ToolCall>)
    ensures SentBy(cfg, wire, calls) == PermittedFetches(cfg, calls)
    ensures forall url | url in SentBy(cfg, wire, calls) :: Permitted(cfg, url)
    ensures "http_get" !in cfg.enabled || cfg.http.allowedHosts == [] ==> SentBy(cfg, wire, calls) == []
  {
    if calls != [] {
      var n := |calls| - 1;
      NetworkGate(cfg, wire, calls[..n]);
      GateStep(cfg, wire, StoreAfter(cfg, wire, calls[..n]), calls[n]);
    }
  }

  function PermittedFetches(cfg: ToolsConfig, calls: seq<ToolCall>): seq<Url> {
    if calls == [] then []
    else
      var n := |calls| - 1;
      var before, url := PermittedFetches(cfg, calls[..n]), Fetch(cfg, calls[n]);
      if url.None? then before else before + [url.value]
  }

  lemma GateStep(cfg: ToolsConfig, wire: Wire, store: Store, call: ToolCall)
    ensures RunTool(cfg, wire, call.w, store, call.name, call.input).sent ==
              if Fetch(cfg, call).None? then [] else [Fetch(cfg, call).value]
  {
  }
}
