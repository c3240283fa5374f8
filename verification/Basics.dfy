/** Results, machine integers and decimal printing shared by every module. */
module Basics {

  datatype Option<+T> = None | Some(value: T)

  datatype Result<+T, +E> = Ok(value: T) | Err(error: E)

  const TWO_31: int := 0x8000_0000
  const TWO_32: int := 0x1_0000_0000
  const TWO_64: int := 0x1_0000_0000_0000_0000

  type byte = x: int | 0 <= x < 0x100
  type u32 = x: int | 0 <= x < 0x1_0000_0000
  type u64 = x: int | 0 <= x < 0x1_0000_0000_0000_0000

  /** Rust's `n as i32` for a length: keep 32 bits, read them as two's complement. */
  function AsI32(n: nat): int {
    var low := n % TWO_32;
    if low < TWO_31 then low else low - TWO_32
  }

  function Min(a: int, b: int): int { if a < b then a else b }

  /** The decimal digits of `n`, as `{}` prints an unsigned integer. */
  function Decimal(n: nat): (s: string)
    ensures s != []
    ensures forall c | c in s :: '0' <= c <= '9'
  {
    var digit := ('0' as int + n % 10) as char;
    if n < 10 then [digit] else Decimal(n / 10) + [digit]
  }

  /** The number a string of decimal digits denotes. */
  function DecimalValue(s: string): nat {
    if s == [] then 0
    else
      var d := s[|s| - 1] as int - '0' as int;
      10 * DecimalValue(s[..|s| - 1]) + if d < 0 then 0 else d
  }

  lemma {:induction false} DecimalRoundTrip(n: nat)
    ensures DecimalValue(Decimal(n)) == n
  {
    var digit := ('0' as int + n % 10) as char;
    if n < 10 {
      assert Decimal(n) == [digit] && [digit][..0] == [];
    } else {
      DecimalRoundTrip(n / 10);
      assert (Decimal(n / 10) + [digit])[..|Decimal(n)| - 1] == Decimal(n / 10);
    }
  }

  /** Printing is injective, even behind a common prefix. */
  lemma DecimalInjective(prefix: string, m: nat, n: nat)
    requires prefix + Decimal(m) == prefix + Decimal(n)
    ensures m == n
  {
    DecimalRoundTrip(m);
    DecimalRoundTrip(n);
    assert Decimal(m) == (prefix + Decimal(m))[|prefix|..];
    assert Decimal(n) == (prefix + Decimal(n))[|prefix|..];
  }

  // --------------------------------------------------------------------------
  // Selecting from a sequence
  // --------------------------------------------------------------------------

  predicate Increasing(at: seq<nat>) { forall i, j | 0 <= i < j < |at| :: at[i] < at[j] }

  /** Each of `at`, from `from` on, is the place of an element with property `p`. */
  predicate Picks<T>(p: T -> bool, at: seq<nat>, xs: seq<T>, from: nat) {
    forall i | 0 <= i < |at| :: from <= at[i] < |xs| && p(xs[at[i]])
  }

  predicate Covers<T>(p: T -> bool, at: seq<nat>, xs: seq<T>, from: nat) {
    forall k | from <= k < |xs| && p(xs[k]) :: k in at
  }

  /** `at` are the places of the elements with property `p` from `from` on: all of them, in order. */
  predicate Places<T>(p: T -> bool, at: seq<nat>, xs: seq<T>, from: nat) {
    Increasing(at) && Picks(p, at, xs, from) && Covers(p, at, xs, from)
  }

  lemma InFront(k: nat, first: nat, rest: seq<nat>)
    requires k == first || k in rest
    ensures k in [first] + rest
  {
    if k in rest {
      var i :| 0 <= i < |rest| && rest[i] == k;
      assert ([first] + rest)[i + 1] == k;
    } else {
      assert ([first] + rest)[0] == k;
    }
  }

  lemma InOrder<T>(p: T -> bool, xs: seq<T>, first: nat, rest: seq<nat>)
    requires Increasing(rest) && Picks(p, rest, xs, first + 1)
    ensures Increasing([first] + rest)
  {
    var all := [first] + rest;
    forall i, j | 0 <= i < j < |all| ensures all[i] < all[j] {
      assert all[j] == rest[j - 1] && (i > 0 ==> all[i] == rest[i - 1]);
    }
  }

  lemma PicksMore<T>(p: T -> bool, xs: seq<T>, from: nat, rest: seq<nat>)
    requires from < |xs| && Picks(p, rest, xs, from + 1)
    ensures Picks(p, rest, xs, from)
    ensures p(xs[from]) ==> Picks(p, [from] + rest, xs, from)
  {
    if p(xs[from]) {
      var all := [from] + rest;
      forall i | 0 <= i < |all| ensures from <= all[i] < |xs| && p(xs[all[i]]) {
        assert i > 0 ==> all[i] == rest[i - 1];
      }
    }
  }

  lemma CoversMore<T>(p: T -> bool, xs: seq<T>, from: nat, rest: seq<nat>)
    requires from < |xs| && Covers(p, rest, xs, from + 1)
    ensures if p(xs[from]) then Covers(p, [from] + rest, xs, from) else Covers(p, rest, xs, from)
  {
    if p(xs[from]) {
      forall k | from <= k < |xs| && p(xs[k]) ensures k in [from] + rest {
        InFront(k, from, rest);
      }
    }
  }

  lemma PlacesMore<T>(p: T -> bool, xs: seq<T>, from: nat, rest: seq<nat>)
    requires from < |xs| && Places(p, rest, xs, from + 1)
    ensures Places(p, if p(xs[from]) then [from] + rest else rest, xs, from)
  {
    hide Increasing, Picks, Covers;
    InOrder(p, xs, from, rest);
    PicksMore(p, xs, from, rest);
    CoversMore(p, xs, from, rest);
  }

  lemma NoPlaces<T>(p: T -> bool, xs: seq<T>)
    ensures Places(p, [], xs, |xs|)
  {
  }
}
