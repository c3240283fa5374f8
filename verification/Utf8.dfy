/**
 * UTF-8 as RFC 3629 defines it, and the two loops in the program that cut a
 * string at a byte count without splitting a character.
 */
module Utf8 {
  import opened Basics

  function CharLen(c: char): (n: nat)
    ensures 1 <= n <= 4
  {
    var v := c as int;
    if v < 0x80 then 1 else if v < 0x800 then 2 else if v < 0x1_0000 then 3 else 4
  }

  /** The one to four octets of a character (RFC 3629, section 3). */
  function EncodeChar(c: char): (b: seq<byte>)
    ensures |b| == CharLen(c)
  {
    var v := c as int;
    if v < 0x80 then
      [v]
    else if v < 0x800 then
      [0xC0 + v / 0x40, 0x80 + v % 0x40]
    else if v < 0x1_0000 then
      [0xE0 + v / 0x1000, 0x80 + v / 0x40 % 0x40, 0x80 + v % 0x40]
    else
      [0xF0 + v / 0x4_0000, 0x80 + v / 0x1000 % 0x40, 0x80 + v / 0x40 % 0x40, 0x80 + v % 0x40]
  }

  function Encode(s: string): seq<byte> {
    if s == [] then [] else EncodeChar(s[0]) + Encode(s[1..])
  }

  predicate Continuation(b: byte) { 0x80 <= b < 0xC0 }

  /** The six payload bits of a continuation octet, or the payload of a lead octet with mark `mark`. */
  function Payload(b: byte, mark: int): int { b - mark }

  /** The character at the front of `b`, unless the bytes there are not one (RFC 3629, section 4). */
  function DecodeChar(b: seq<byte>): (r: Option<char>)
    ensures r.Some? ==> CharLen(r.value) <= |b|
  {
    if |b| >= 1 && b[0] < 0x80 then
      Some(b[0] as char)
    else if |b| >= 2 && 0xC0 <= b[0] < 0xE0 && Continuation(b[1]) then
      Scalar(Payload(b[0], 0xC0) * 0x40 + Payload(b[1], 0x80), 0x80)
    else if |b| >= 3 && 0xE0 <= b[0] < 0xF0 && Continuation(b[1]) && Continuation(b[2]) then
      Scalar(Payload(b[0], 0xE0) * 0x1000 + Payload(b[1], 0x80) * 0x40 + Payload(b[2], 0x80), 0x800)
    else if |b| >= 4 && 0xF0 <= b[0] < 0xF8 && Continuation(b[1]) && Continuation(b[2]) && Continuation(b[3]) then
      Scalar(Payload(b[0], 0xF0) * 0x4_0000 + Payload(b[1], 0x80) * 0x1000
             + Payload(b[2], 0x80) * 0x40 + Payload(b[3], 0x80), 0x1_0000)
    else
      None
  }

  /** `v` as a character: not overlong, not a surrogate, not past U+10FFFF. */
  function Scalar(v: int, least: int): Option<char>
    requires 0 <= least
  {
    if v < least || 0xD800 <= v < 0xE000 || 0x11_0000 <= v then None else Some(v as char)
  }

  /** `String::from_utf8`. */
  function Decode(b: seq<byte>): Option<string>
    decreases |b|
  {
    if b == [] then Some("")
    else match DecodeChar(b)
      case None => None
      case Some(c) =>
        match Decode(b[CharLen(c)..])
          case None => None
          case Some(rest) => Some([c] + rest)
  }

  lemma DecodeCharInverts(c: char, rest: seq<byte>)
    ensures DecodeChar(EncodeChar(c) + rest) == Some(c)
  {
    var e, b, v := EncodeChar(c), EncodeChar(c) + rest, c as int;
    assert b[0] == e[0];
    if 0x1_0000 <= v {
      assert b[1] == e[1] && b[2] == e[2] && b[3] == e[3];
      DigitsTogether(v);
      DigitsTogether(v / 0x40);
      DigitsTogether(v / 0x1000);
    } else if 0x800 <= v {
      assert b[1] == e[1] && b[2] == e[2];
      DigitsTogether(v);
      DigitsTogether(v / 0x40);
    } else if 0x80 <= v {
      assert b[1] == e[1];
      DigitsTogether(v);
    }
  }

  lemma DigitsTogether(v: nat)
    ensures v / 0x40 * 0x40 + v % 0x40 == v
    ensures v / 0x40 / 0x40 == v / 0x1000 && v / 0x1000 / 0x40 == v / 0x4_0000
  {
  }

  lemma DigitsApart(high: nat, low: nat)
    requires low < 0x40
    ensures (high * 0x40 + low) / 0x40 == high && (high * 0x40 + low) % 0x40 == low
  {
  }

  /** The digits of a number written with four of them to the base 64. */
  lemma FourDigits(p0: nat, p1: nat, p2: nat, p3: nat)
    requires p1 < 0x40 && p2 < 0x40 && p3 < 0x40
    ensures var v := p0 * 0x4_0000 + p1 * 0x1000 + p2 * 0x40 + p3;
            && v % 0x40 == p3 && v / 0x40 % 0x40 == p2
            && v / 0x1000 == p0 * 0x40 + p1 && v / 0x1000 % 0x40 == p1 && v / 0x4_0000 == p0
  {
    var v := p0 * 0x4_0000 + p1 * 0x1000 + p2 * 0x40 + p3;
    DigitsTogether(v);
    DigitsApart(p0, p1);
    DigitsApart(p0 * 0x40 + p1, p2);
    DigitsApart((p0 * 0x40 + p1) * 0x40 + p2, p3);
  }

  lemma DecodeCharSound(b: seq<byte>)
    requires DecodeChar(b).Some?
    ensures b[..CharLen(DecodeChar(b).value)] == EncodeChar(DecodeChar(b).value)
  {
    if b[0] >= 0xF0 {
      FourDigits(Payload(b[0], 0xF0), Payload(b[1], 0x80), Payload(b[2], 0x80), Payload(b[3], 0x80));
    } else if b[0] >= 0xE0 {
      FourDigits(0, Payload(b[0], 0xE0), Payload(b[1], 0x80), Payload(b[2], 0x80));
    } else if b[0] >= 0xC0 {
      FourDigits(0, 0, Payload(b[0], 0xC0), Payload(b[1], 0x80));
    }
  }

  /** Every string survives being written as UTF-8 and read back. */
  lemma {:induction false} DecodeInvertsEncode(s: string)
    ensures Decode(Encode(s)) == Some(s)
  {
    if s != [] {
      DecodeCharInverts(s[0], Encode(s[1..]));
      DecodeInvertsEncode(s[1..]);
      assert Encode(s)[CharLen(s[0])..] == Encode(s[1..]);
      assert [s[0]] + s[1..] == s;
    }
  }

  lemma EncodeStep(b: seq<byte>, c: char, rest: string)
    requires CharLen(c) <= |b| && b[..CharLen(c)] == EncodeChar(c) && b[CharLen(c)..] == Encode(rest)
    ensures b == Encode([c] + rest)
  {
    assert ([c] + rest)[1..] == rest;
    assert b == b[..CharLen(c)] + b[CharLen(c)..];
  }

  /** Only the encoding of a string is accepted: the valid byte strings are exactly the encodings. */
  lemma {:induction false} DecodeSound(b: seq<byte>)
    requires Decode(b).Some?
    ensures Encode(Decode(b).value) == b
    decreases |b|
  {
    if b != [] {
      DecodeCharSound(b);
      var c := DecodeChar(b).value;
      var rest := b[CharLen(c)..];
      DecodeSound(rest);
      EncodeStep(b, c, Decode(rest).value);
    }
  }

  lemma {:induction false} EncodeAppend(s: string, t: string)
    ensures Encode(s + t) == Encode(s) + Encode(t)
  {
    hide EncodeChar, CharLen;
    if s == [] {
      assert s + t == t;
    } else {
      EncodeAppend(s[1..], t);
      assert (s + t)[1..] == s[1..] + t;
    }
  }

  lemma {:induction false} EncodePrefix(s: string, k: nat)
    requires k <= |s|
    ensures Encode(s) == Encode(s[..k]) + Encode(s[k..])
  {
    assert s == s[..k] + s[k..];
    EncodeAppend(s[..k], s[k..]);
  }

  // --------------------------------------------------------------------------
  // Cutting a string at a byte count
  // --------------------------------------------------------------------------

  /** `str::is_char_boundary`: judged from the single byte at `i`. */
  predicate Boundary(b: seq<byte>, i: nat) {
    i == 0 || i == |b| || (i < |b| && !Continuation(b[i]))
  }

  /** How many whole characters of `s` fit in `max` bytes. */
  function Fit(s: string, max: int): (k: nat)
    ensures k <= |s|
  {
    if s == [] || max < CharLen(s[0]) then 0 else 1 + Fit(s[1..], max - CharLen(s[0]))
  }

  /** `Fit` is the longest: the characters it counts fit, and one more does not. */
  lemma {:induction false} FitIsLongest(s: string, max: nat)
    ensures |Encode(s[..Fit(s, max)])| <= max
    ensures Fit(s, max) < |s| ==> |Encode(s[..Fit(s, max) + 1])| > max
  {
    if s == [] {
    } else if max < CharLen(s[0]) {
      assert s[..1][1..] == [];
    } else {
      var k := Fit(s[1..], max - CharLen(s[0]));
      FitIsLongest(s[1..], max - CharLen(s[0]));
      assert s[..k + 1][1..] == s[1..][..k];
      if k + 1 < |s| {
        assert s[..k + 2][1..] == s[1..][..k + 1];
      }
    }
  }

  lemma InteriorBytes(c: char)
    ensures forall i | 0 < i < CharLen(c) :: Continuation(EncodeChar(c)[i])
    ensures !Continuation(EncodeChar(c)[0])
  {
  }

  lemma BoundaryShift(s: string, i: nat)
    requires s != [] && CharLen(s[0]) <= i
    ensures Boundary(Encode(s), i) <==> Boundary(Encode(s[1..]), i - CharLen(s[0]))
  {
    var n := CharLen(s[0]);
    var b, t := Encode(s), Encode(s[1..]);
    assert b == EncodeChar(s[0]) + t;
    assert |b| == n + |t|;
    if i == n && i < |b| {
      assert s[1..] != [];
      InteriorBytes(s[1]);
      assert b[i] == t[0] == EncodeChar(s[1])[0];
    } else if i < |b| {
      assert b[i] == t[i - n];
    }
  }

  lemma NoBoundaryInside(s: string, max: nat)
    requires s != [] && max < CharLen(s[0])
    ensures max < |Encode(s)| && Boundary(Encode(s), 0)
    ensures forall i | 0 < i <= max :: !Boundary(Encode(s), i)
  {
    hide EncodeChar, CharLen;
    InteriorBytes(s[0]);
    forall i | 0 < i <= max ensures !Boundary(Encode(s), i) {
      assert Encode(s)[i] == EncodeChar(s[0])[i];
    }
  }

  lemma PrefixLength(s: string, k: nat)
    requires k < |s|
    ensures |Encode(s[..k + 1])| == CharLen(s[0]) + |Encode(s[1..][..k])|
  {
    hide EncodeChar, CharLen;
    assert s[..k + 1][1..] == s[1..][..k];
  }

  /** The greatest boundary at or below `max` is where the longest fitting prefix ends. */
  lemma {:induction false} GreatestBoundary(s: string, max: nat)
    requires max < |Encode(s)|
    ensures Boundary(Encode(s), |Encode(s[..Fit(s, max)])|)
    ensures forall i | |Encode(s[..Fit(s, max)])| < i <= max :: !Boundary(Encode(s), i)
    ensures |Encode(s[..Fit(s, max)])| <= max <= |Encode(s[..Fit(s, max)])| + 3
  {
    hide EncodeChar, CharLen, Boundary;
    var n := CharLen(s[0]);
    if max < n {
      NoBoundaryInside(s, max);
    } else {
      var k := Fit(s[1..], max - n);
      GreatestBoundary(s[1..], max - n);
      PrefixLength(s, k);
      var e := |Encode(s[1..][..k])|;
      BoundaryShift(s, n + e);
      forall i | n + e < i <= max ensures !Boundary(Encode(s), i) {
        BoundaryShift(s, i);
      }
    }
  }

  /**
   * The loop in both copies of `truncate`: step back from `max` to a boundary.
   * It keeps the longest prefix of whole characters, cutting inside none.
   */
  method CutPoint(s: string, max: nat) returns (end: nat)
    requires max < |Encode(s)|
    ensures end == |Encode(s[..Fit(s, max)])| <= |Encode(s)|
    ensures Encode(s)[..end] == Encode(s[..Fit(s, max)])
    ensures Decode(Encode(s)[..end]) == Some(s[..Fit(s, max)])
    ensures end <= max <= end + 3
  {
    var b := Encode(s);
    end := max;
    while end > 0 && !Boundary(b, end)
      invariant 0 <= end <= max
      invariant forall i | end < i <= max :: !Boundary(b, i)
    {
      end := end - 1;
    }
    GreatestBoundary(s, max);
    var k := Fit(s, max);
    assert end == |Encode(s[..k])|;
    EncodePrefix(s, k);
    DecodeInvertsEncode(s[..k]);
  }

  /** What the guest's `truncate` returns. */
  function Truncated(s: string, max: nat): string {
    if |Encode(s)| <= max then s
    else
      var kept := s[..Fit(s, max)];
      EncodePrefix(s, Fit(s, max));
      kept + "… [" + Decimal(|Encode(s)| - |Encode(kept)|) + " bytes truncated]"
  }

  /** What the host's `truncate` returns. */
  function TruncatedQuietly(s: string, max: nat): string {
    if |Encode(s)| <= max then s else s[..Fit(s, max)] + "…"
  }

  method Truncate(s: string, max: nat) returns (r: string)
    ensures r == Truncated(s, max)
  {
    var b := Encode(s);
    if |b| <= max {
      return s;
    }
    var end := CutPoint(s, max);
    var kept := Decode(b[..end]).value;
    r := kept + "… [" + Decimal(|b| - end) + " bytes truncated]";
  }

  method TruncateQuietly(s: string, max: nat) returns (r: string)
    ensures r == TruncatedQuietly(s, max)
  {
    var b := Encode(s);
    if |b| <= max {
      return s;
    }
    var end := CutPoint(s, max);
    r := Decode(b[..end]).value + "…";
  }

  /** A text that fits is left as it is; one that does not is cut at a whole character, and marked. */
  lemma TruncationFits(s: string, max: nat)
    ensures |Encode(s)| <= max ==> Truncated(s, max) == s && TruncatedQuietly(s, max) == s
    ensures |Encode(s)| > max ==>
              exists k | 0 <= k < |s| ::
                && TruncatedQuietly(s, max) == s[..k] + "…"
                && |Encode(s[..k])| <= max < |Encode(s[..k + 1])|
  {
    hide Encode, Decimal, Fit;
    if |Encode(s)| > max {
      FitIsLongest(s, max);
      assert Fit(s, max) < |s| by {
        assert s[..|s|] == s;
      }
    }
  }

  /** The reported count and the kept bytes add up to the original length. */
  lemma TruncationConserves(s: string, max: nat)
    requires max < |Encode(s)|
    ensures exists k | 0 <= k < |s| ::
              && Truncated(s, max) == s[..k] + "… [" + Decimal(|Encode(s[k..])|) + " bytes truncated]"
              && |Encode(s[..k])| + |Encode(s[k..])| == |Encode(s)|
              && |Encode(s[..k])| <= max < |Encode(s[..k + 1])|
  {
    hide Encode, Decimal, Fit;
    var k := Fit(s, max);
    FitIsLongest(s, max);
    EncodePrefix(s, k);
    assert k < |s| by {
      assert s[..|s|] == s;
    }
  }
}
