/** The sandbox policy: what a run may consume and reach. */
module Policies {
  import opened Basics
  import opened Text

  datatype Effort = Low | Medium | High | XHigh | Max
  datatype Thinking = Adaptive | Disabled

  datatype Limits = Limits(fuel: u64, wallClockMs: u64, memoryBytes: nat, maxSteps: u32, maxRequestBytes: nat)
  datatype LlmConfig = LlmConfig(effort: Effort, thinking: Thinking, maxRetries: u32)
  datatype HttpToolConfig = HttpToolConfig(allowedHosts: seq<string>, maxResponseBytes: nat)
  datatype KvToolConfig = KvToolConfig(maxKeys: nat, maxValueBytes: nat)
  datatype ToolsConfig = ToolsConfig(enabled: seq<string>, http: HttpToolConfig, kv: KvToolConfig)
  datatype Policy = Policy(limits: Limits, llm: LlmConfig, tools: ToolsConfig)

  const KNOWN_TOOLS: seq<string> := ["now", "http_get", "kv_get", "kv_put"]

  datatype PolicyFault =
    | NoFuel | NoWallClock | NoSteps | TooLittleMemory | ThinkingDisabledAboveHigh | UnknownTool(name: string)

  predicate Has(p: Policy, f: PolicyFault) {
    match f
    case NoFuel => p.limits.fuel == 0
    case NoWallClock => p.limits.wallClockMs == 0
    case NoSteps => p.limits.maxSteps == 0
    case TooLittleMemory => p.limits.memoryBytes < 0x10_0000
    case ThinkingDisabledAboveHigh => p.llm.thinking == Disabled && p.llm.effort in {XHigh, Max}
    case UnknownTool(name) => name in p.tools.enabled && name !in KNOWN_TOOLS
  }

  /** A policy the host will start with. */
  predicate Valid(p: Policy) {
    && p.limits.fuel > 0 && p.limits.wallClockMs > 0 && p.limits.maxSteps > 0
    && p.limits.memoryBytes >= 0x10_0000
    && !(p.llm.thinking == Disabled && p.llm.effort in {XHigh, Max})
    && forall name | name in p.tools.enabled :: name in KNOWN_TOOLS
  }

  lemma ValidIsFaultless(p: Policy)
    ensures Valid(p) <==> forall f :: !Has(p, f)
  {
    if !Valid(p) {
      if f :| f in {NoFuel, NoWallClock, NoSteps, TooLittleMemory, ThinkingDisabledAboveHigh} && Has(p, f) {
      } else {
        assert !Has(p, NoFuel) && !Has(p, NoWallClock) && !Has(p, NoSteps) && !Has(p, TooLittleMemory)
            && !Has(p, ThinkingDisabledAboveHigh);
        var name :| name in p.tools.enabled && name !in KNOWN_TOOLS;
        assert Has(p, UnknownTool(name));
      }
    }
  }

  /** The order in which faults are looked for. */
  function Rank(f: PolicyFault): nat {
    match f
    case NoFuel => 0
    case NoWallClock => 1
    case NoSteps => 2
    case TooLittleMemory => 3
    case ThinkingDisabledAboveHigh => 4
    case UnknownTool(_) => 5
  }

  /** `Policy::validate`: no fault, or one of the first kind there is. */
  method Validate(p: Policy) returns (fault: Option<PolicyFault>)
    ensures fault.None? <==> Valid(p)
    ensures fault.Some? ==> Has(p, fault.value) && forall f | Has(p, f) :: Rank(fault.value) <= Rank(f)
  {
    ValidIsFaultless(p);
    if p.limits.fuel == 0 {
      assert Has(p, NoFuel);
      return Some(NoFuel);
    }
    if p.limits.wallClockMs == 0 {
      assert Has(p, NoWallClock);
      return Some(NoWallClock);
    }
    if p.limits.maxSteps == 0 {
      assert Has(p, NoSteps);
      return Some(NoSteps);
    }
    if p.limits.memoryBytes < 0x10_0000 {
      assert Has(p, TooLittleMemory);
      return Some(TooLittleMemory);
    }
    if p.llm.thinking == Disabled && (p.llm.effort == XHigh || p.llm.effort == Max) {
      assert Has(p, ThinkingDisabledAboveHigh);
      return Some(ThinkingDisabledAboveHigh);
    }
    for i := 0 to |p.tools.enabled|
      invariant forall j | 0 <= j < i :: p.tools.enabled[j] in KNOWN_TOOLS
    {
      if p.tools.enabled[i] !in KNOWN_TOOLS {
        assert Has(p, UnknownTool(p.tools.enabled[i]));
        return Some(UnknownTool(p.tools.enabled[i]));
      }
    }
    return None;
  }

  // --------------------------------------------------------------------------
  // The host allowlist
  // --------------------------------------------------------------------------

  /** One rule against one host already in lower case. */
  predicate RuleAdmits(rule: string, host: string) {
    var r := Lower(Trim(rule));
    if StartsWith(r, "*.") then host == r[2..] || EndsWith(host, "." + r[2..])
    else host == r
  }

  /** `HttpToolConfig::allows`. */
  predicate Allows(rules: seq<string>, host: string) {
    exists i | 0 <= i < |rules| :: RuleAdmits(rules[i], Lower(host))
  }

  /** The labels of a domain name (RFC 1034, section 3.1). */
  function Labels(name: string): seq<string> { Split(name, '.') }

  predicate IsSuffixOf(tail: seq<string>, all: seq<string>) {
    |tail| <= |all| && all[|all| - |tail|..] == tail
  }

  /** What a rule is meant to say: this very name, or any name under this one. */
  predicate RuleMeans(rule: string, host: string) {
    var r := Lower(Trim(rule));
    if StartsWith(r, "*.") then IsSuffixOf(Labels(r[2..]), Labels(host))
    else Labels(host) == Labels(r)
  }

  lemma LabelsInjective(a: string, b: string)
    requires Labels(a) == Labels(b)
    ensures a == b
  {
    JoinInvertsSplit(a, '.');
    JoinInvertsSplit(b, '.');
  }

  lemma StringSuffixIsLabelSuffix(suffix: string, host: string)
    requires EndsWith(host, "." + suffix)
    ensures IsSuffixOf(Labels(suffix), Labels(host))
  {
    var front := host[..|host| - |suffix| - 1];
    assert host[|front|..] == "." + suffix;
    assert host == front + ['.'] + suffix;
    SplitAppend(front, suffix, '.');
  }

  lemma LabelSuffixIsStringSuffix(suffix: string, host: string)
    requires IsSuffixOf(Labels(suffix), Labels(host)) && |Labels(suffix)| < |Labels(host)|
    ensures EndsWith(host, "." + suffix)
  {
    hide Split, Join;
    var front := Labels(host)[..|Labels(host)| - |Labels(suffix)|];
    assert Labels(host) == front + Labels(suffix);
    JoinAppend(front, Labels(suffix), ".");
    JoinInvertsSplit(host, '.');
    JoinInvertsSplit(suffix, '.');
    assert host == Join(front, ".") + ("." + suffix);
  }

  /** The string test of the code is exactly a test on whole labels. */
  lemma SuffixOnLabels(suffix: string, host: string)
    ensures (host == suffix || EndsWith(host, "." + suffix)) <==> IsSuffixOf(Labels(suffix), Labels(host))
  {
    hide Split;
    if EndsWith(host, "." + suffix) {
      StringSuffixIsLabelSuffix(suffix, host);
    }
    if IsSuffixOf(Labels(suffix), Labels(host)) {
      if |Labels(suffix)| == |Labels(host)| {
        LabelsInjective(host, suffix);
      } else {
        LabelSuffixIsStringSuffix(suffix, host);
      }
    }
  }

  /** `allows` holds exactly when some rule means this host. */
  lemma AllowsByLabels(rules: seq<string>, host: string)
    ensures Allows(rules, host) <==> exists i | 0 <= i < |rules| :: RuleMeans(rules[i], Lower(host))
  {
    forall i | 0 <= i < |rules|
      ensures RuleAdmits(rules[i], Lower(host)) <==> RuleMeans(rules[i], Lower(host))
    {
      var r := Lower(Trim(rules[i]));
      if StartsWith(r, "*.") {
        SuffixOnLabels(r[2..], Lower(host));
      } else if Labels(Lower(host)) == Labels(r) {
        LabelsInjective(Lower(host), r);
      }
    }
  }

  lemma NotDotted(name: string, more: string)
    requires more != "" && more[|more| - 1] != '.'
    ensures !EndsWith(more + name, "." + name) && more + name != name
  {
    var host, at := more + name, |more| - 1;
    assert host[at..][0] == more[at] && ("." + name)[0] == '.';
    assert |host| - |"." + name| == at;
  }

  /** A name that merely ends in the same letters is not admitted, with or without the wildcard. */
  lemma LookalikeRefused(name: string, more: string)
    requires name == Lower(Trim(name)) && !StartsWith(name, "*.")
    requires more != "" && more[|more| - 1] != '.'
    ensures !Allows([name], more + name)
    ensures !Allows(["*." + name], more + name)
  {
    hide Trim, EndsWith;
    LowerIdempotent(Trim(name));
    TrimmedByLength(name);
    assert name != "" ==> ("*." + name)[|name| + 1] == name[|name| - 1];
    TrimOfTrimmed("*." + name);
    assert Lower(more + name) == Lower(more) + name;
    NotDotted(name, Lower(more));
    assert Lower("*." + name) == "*." + name;
    assert ("*." + name)[..2] == "*." && ("*." + name)[2..] == name;
  }

  /** Names that differ only in ASCII case are treated alike, on both sides. */
  lemma AllowsIgnoresCase(rules: seq<string>, host: string, other: string)
    requires SameButCase(host, other)
    ensures Allows(rules, host) <==> Allows(rules, other)
  {
    hide SameButCase, Lower;
    LowerFolds(host, other);
  }

  lemma {:induction false} TrimLower(s: string)
    ensures Trim(Lower(s)) == Lower(Trim(s))
  {
    TrimStartLower(s);
    TrimEndLower(TrimStart(s));
  }

  lemma {:induction false} TrimStartLower(s: string)
    ensures TrimStart(Lower(s)) == Lower(TrimStart(s))
  {
    if s != [] && IsWhitespace(s[0]) {
      TrimStartLower(s[1..]);
      assert Lower(s)[1..] == Lower(s[1..]);
    }
  }

  lemma {:induction false} TrimEndLower(s: string)
    ensures TrimEnd(Lower(s)) == Lower(TrimEnd(s))
    decreases |s|
  {
    if s != [] && IsWhitespace(s[|s| - 1]) {
      var n := |s| - 1;
      TrimEndLower(s[..n]);
      assert Lower(s)[..n] == Lower(s[..n]);
    }
  }

  /** The case of the rules does not matter either. */
  lemma RulesIgnoreCase(rules: seq<string>, others: seq<string>, host: string)
    requires |rules| == |others|
    requires forall i | 0 <= i < |rules| :: SameButCase(rules[i], others[i])
    ensures Allows(rules, host) <==> Allows(others, host)
  {
    hide SameButCase, Lower, Trim;
    forall i | 0 <= i < |rules| ensures Lower(Trim(rules[i])) == Lower(Trim(others[i])) {
      LowerFolds(rules[i], others[i]);
      TrimLower(rules[i]);
      TrimLower(others[i]);
    }
  }

  /** Adding rules only ever adds hosts, and adds exactly those the new rules name. */
  lemma AllowsOfMoreRules(rules: seq<string>, more: seq<string>, host: string)
    ensures Allows(rules + more, host) <==> Allows(rules, host) || Allows(more, host)
    ensures !Allows([], host)
  {
    var all := rules + more;
    if i :| 0 <= i < |rules| && RuleAdmits(rules[i], Lower(host)) {
      assert RuleAdmits(all[i], Lower(host));
    }
    if i :| 0 <= i < |more| && RuleAdmits(more[i], Lower(host)) {
      assert RuleAdmits(all[|rules| + i], Lower(host));
    }
    if i :| 0 <= i < |all| && RuleAdmits(all[i], Lower(host)) {
      assert i < |rules| ==> RuleAdmits(rules[i], Lower(host));
      assert i >= |rules| ==> RuleAdmits(more[i - |rules|], Lower(host));
    }
  }
}
