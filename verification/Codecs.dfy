/**
 * There is a text codec of the kind the model assumes: JSON values can be written
 * so that no two texts are alike, hence read back.
 */
module Codecs {
  import opened Basics
  import opened JsonValues

  type Text = seq<byte>

  function WriteNat(n: nat): Text { if n == 0 then [0] else [1] + WriteNat(n - 1) }

  function WriteString(s: string): Text {
    if s == "" then [0] else [1] + WriteNat(s[0] as int) + WriteString(s[1..])
  }

  /** A value, behind a byte that says of which kind; the fields of an object in any order. */
  ghost function Write(j: Json): (text: Text)
    ensures text != []
    decreases j, 1
  {
    match j
    case JNull => [0]
    case JBool(b) => [if b then 1 else 2]
    case JInt(n) => if n < 0 then [3] + WriteNat(-n) else [4] + WriteNat(n)
    case JFloat(bits) => [5] + WriteNat(bits)
    case JStr(s) => [6] + WriteString(s)
    case JArray(items) => [7] + WriteItems(items)
    case JObject(fields) => [8] + WriteFields(j, fields.Keys)
  }

  ghost function WriteItems(items: seq<Json>): Text
    decreases items, 1
  {
    if items == [] then [0] else [1] + Write(items[0]) + WriteItems(items[1..])
  }

  ghost function WriteFields(j: Json, keys: set<string>): Text
    requires j.JObject? && keys <= j.fields.Keys
    decreases j, 0, keys
  {
    if keys == {} then [0]
    else
      var k := First(keys);
      [1] + WriteString(k) + Write(j.fields[k]) + WriteFields(j, keys - {k})
  }

  ghost function First(keys: set<string>): (k: string)
    requires keys != {}
    ensures k in keys
  {
    var k :| k in keys; k
  }

  // No text of a value is the beginning of the text of another.

  lemma {:induction false} NatsDiffer(m: nat, n: nat, s: Text, t: Text)
    requires WriteNat(m) + s == WriteNat(n) + t
    ensures m == n && s == t
  {
    assert (WriteNat(m) + s)[0] == (WriteNat(n) + t)[0];
    if m > 0 {
      assert (WriteNat(m) + s)[1..] == WriteNat(m - 1) + s;
      assert (WriteNat(n) + t)[1..] == WriteNat(n - 1) + t;
      NatsDiffer(m - 1, n - 1, s, t);
    } else {
      assert s == (WriteNat(m) + s)[1..] && t == (WriteNat(n) + t)[1..];
    }
  }

  lemma SameRest(a: Text, b: Text)
    requires |a| > 0 && |b| > 0 && a == b
    ensures a[0] == b[0] && a[1..] == b[1..]
  {
  }

  lemma {:induction false} StringsDiffer(a: string, b: string, s: Text, t: Text)
    requires WriteString(a) + s == WriteString(b) + t
    ensures a == b && s == t
  {
    hide WriteNat;
    SameRest(WriteString(a) + s, WriteString(b) + t);
    if a == "" || b == "" {
      assert s == (WriteString(a) + s)[1..] && t == (WriteString(b) + t)[1..];
    } else {
      var s', t' := WriteString(a[1..]) + s, WriteString(b[1..]) + t;
      assert (WriteString(a) + s)[1..] == WriteNat(a[0] as int) + s';
      assert (WriteString(b) + t)[1..] == WriteNat(b[0] as int) + t';
      NatsDiffer(a[0] as int, b[0] as int, s', t');
      StringsDiffer(a[1..], b[1..], s, t);
      assert a == [a[0]] + a[1..] && b == [b[0]] + b[1..];
    }
  }

  /** What follows the first byte of a text. */
  ghost function Body(j: Json): Text { Write(j)[1..] }

  lemma {:induction false} ValuesDiffer(a: Json, b: Json, s: Text, t: Text)
    requires Write(a) + s == Write(b) + t
    ensures a == b && s == t
    decreases a, 1
  {
    hide WriteItems, WriteFields, WriteNat, WriteString;
    SameRest(Write(a) + s, Write(b) + t);
    var s', t' := Body(a) + s, Body(b) + t;
    assert (Write(a) + s)[1..] == s' && (Write(b) + t)[1..] == t';
    match a
    case JNull => assert s' == s && t' == t;
    case JBool(_) => assert s' == s && t' == t;
    case JInt(n) => NatsDiffer(if n < 0 then -n else n, if n < 0 then -b.n else b.n, s, t);
    case JFloat(bits) => NatsDiffer(bits, b.bits, s, t);
    case JStr(x) => StringsDiffer(x, b.s, s, t);
    case JArray(items) => ItemsDiffer(items, b.items, s, t);
    case JObject(fields) =>
      FieldsDiffer(a, fields.Keys, b, b.fields.Keys, s, t);
      assert fields == b.fields;
  }

  lemma {:induction false} ItemsDiffer(a: seq<Json>, b: seq<Json>, s: Text, t: Text)
    requires WriteItems(a) + s == WriteItems(b) + t
    ensures a == b && s == t
    decreases a, 1
  {
    hide Write;
    SameRest(WriteItems(a) + s, WriteItems(b) + t);
    if a == [] || b == [] {
      assert s == (WriteItems(a) + s)[1..] && t == (WriteItems(b) + t)[1..];
    } else {
      var s', t' := WriteItems(a[1..]) + s, WriteItems(b[1..]) + t;
      assert (WriteItems(a) + s)[1..] == Write(a[0]) + s';
      assert (WriteItems(b) + t)[1..] == Write(b[0]) + t';
      ValuesDiffer(a[0], b[0], s', t');
      ItemsDiffer(a[1..], b[1..], s, t);
      assert a == [a[0]] + a[1..] && b == [b[0]] + b[1..];
    }
  }

  lemma FieldsSplit(j: Json, keys: set<string>, s: Text)
    requires j.JObject? && keys <= j.fields.Keys && keys != {}
    ensures var k := First(keys);
            WriteFields(j, keys) + s ==
              [1] + (WriteString(k) + (Write(j.fields[k]) + (WriteFields(j, keys - {k}) + s)))
  {
    hide Write, WriteString;
  }

  lemma {:induction false} FieldsDiffer(a: Json, keys: set<string>, b: Json, keys': set<string>, s: Text, t: Text)
    requires a.JObject? && keys <= a.fields.Keys && b.JObject? && keys' <= b.fields.Keys
    requires WriteFields(a, keys) + s == WriteFields(b, keys') + t
    ensures keys == keys' && s == t && forall k | k in keys :: a.fields[k] == b.fields[k]
    decreases a, 0, keys
  {
    hide Write, WriteString;
    SameRest(WriteFields(a, keys) + s, WriteFields(b, keys') + t);
    if keys == {} || keys' == {} {
      assert s == (WriteFields(a, keys) + s)[1..] && t == (WriteFields(b, keys') + t)[1..];
    } else {
      hide WriteFields, First;
      FieldsSplit(a, keys, s);
      FieldsSplit(b, keys', t);
      var k, k' := First(keys), First(keys');
      var s1, t1 := WriteFields(a, keys - {k}) + s, WriteFields(b, keys' - {k'}) + t;
      var s2, t2 := Write(a.fields[k]) + s1, Write(b.fields[k']) + t1;
      assert (WriteString(k) + s2) == (WriteString(k') + t2);
      StringsDiffer(k, k', s2, t2);
      ValuesDiffer(a.fields[k], b.fields[k'], s1, t1);
      FieldsDiffer(a, keys - {k}, b, keys' - {k'}, s, t);
      assert keys == (keys - {k}) + {k} && keys' == (keys' - {k'}) + {k'};
    }
  }

  lemma WriteInjective(a: Json, b: Json)
    requires Write(a) == Write(b)
    ensures a == b
  {
    assert Write(a) + [] == Write(b) + [];
    ValuesDiffer(a, b, [], []);
  }

  /** The value a text was written for, if it does not nest too deep. */
  ghost function Read(text: Text): (r: Option<Json>)
    ensures r.Some? ==> Write(r.value) == text && Within(r.value, MAX_DEPTH)
    ensures r.None? ==> forall j | Within(j, MAX_DEPTH) :: Write(j) != text
  {
    if j :| Within(j, MAX_DEPTH) && Write(j) == text then Some(j) else None
  }

  lemma ReadInvertsWrite(j: Json)
    ensures Read(Write(j)) == if Within(j, MAX_DEPTH) then Some(j) else None
  {
    hide Write, Within;
    if Read(Write(j)).Some? {
      WriteInjective(Read(Write(j)).value, j);
    }
  }

  /** The assumption on the text codec can be met, whatever becomes of the floats. */
  lemma LosslessExists(again: Float -> Float)
    ensures exists w: Wire :: w.again == again && Lossless(w)
  {
    hide Write, Read, Within, Reread;
    var w := Wire(j => Write(j), text => RereadOption(again, Read(text)), _ => "", again);
    forall j ensures w.dec(w.enc(j)) == if Within(j, MAX_DEPTH) then Some(Reread(again, j)) else None {
      ReadInvertsWrite(j);
    }
    forall text | w.dec(text).Some? ensures Within(w.dec(text).value, MAX_DEPTH) {
      WithinReread(again, Read(text).value, MAX_DEPTH);
    }
    assert w.dec([]) == None;
    assert Lossless(w);
  }
}
