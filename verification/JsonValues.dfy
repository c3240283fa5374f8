/**
 * JSON as values. Objects are finite maps: no duplicate keys, no order.
 * The text syntax is a parameter, `Wire`; decoders say what the derived
 * deserialisers accept of a value.
 */
module JsonValues {
  import opened Basics

  /** The integers a JSON value can hold: those of 64 bits, signed or not. */
  type Integer = n: int | -0x8000_0000_0000_0000 <= n < 0x1_0000_0000_0000_0000

  /** Any other number: a finite 64-bit float, by its bits. */
  type Float = bits: int | 0 <= bits < TWO_64 && bits / 0x10_0000_0000_0000 % 0x800 != 0x7ff

  datatype Json =
    | JNull
    | JBool(b: bool)
    | JInt(n: Integer)
    | JFloat(bits: Float)
    | JStr(s: string)
    | JArray(items: seq<Json>)
    | JObject(fields: map<string, Json>)

  /** How deep arrays and objects may nest in a text for the reader to accept it. */
  const MAX_DEPTH := 127

  /** `j` nests at most `depth` deep. */
  predicate Within(j: Json, depth: nat)
    decreases depth
  {
    match j
    case JArray(items) => depth > 0 && forall i | 0 <= i < |items| :: Within(items[i], depth - 1)
    case JObject(fields) => depth > 0 && forall k | k in fields :: Within(fields[k], depth - 1)
    case _ => true
  }

  /**
   * The text codec, and the lossy reading of bytes as text that the log uses.
   * Both are library code, so any functions will do that meet `Lossless`; that
   * there are some is `Codecs.LosslessExists`. `again` tells what float the decimal
   * text of a float is read as, which need not be the same one.
   */
  datatype Wire = Wire(
    enc: Json -> seq<byte>,
    dec: seq<byte> -> Option<Json>,
    lossy: seq<byte> -> string,
    again: Float -> Float)

  /** `j` with its floats read again from their own text. */
  function Reread(again: Float -> Float, j: Json): Json
    decreases j
  {
    match j
    case JFloat(bits) => JFloat(again(bits))
    case JArray(items) => JArray(seq(|items|, i requires 0 <= i < |items| => Reread(again, items[i])))
    case JObject(fields) => JObject(map k | k in fields :: Reread(again, fields[k]))
    case _ => j
  }

  /**
   * What is written can be read back but for its floats, unless it nests too deep,
   * when it is refused; nothing read nests too deep; and the empty text is not JSON.
   */
  ghost predicate Lossless(w: Wire) {
    && (forall j ::
          && w.enc(j) != []
          && w.dec(w.enc(j)) == if Within(j, MAX_DEPTH) then Some(Reread(w.again, j)) else None)
    && (forall text :: w.dec(text).Some? ==> Within(w.dec(text).value, MAX_DEPTH))
    && w.dec([]) == None
  }

  lemma EncodedNonEmpty(w: Wire, j: Json)
    requires Lossless(w)
    ensures w.enc(j) != []
  {
  }

  // --------------------------------------------------------------------------
  // Field access, as the derived deserialisers do it
  // --------------------------------------------------------------------------

  function Field(j: Json, name: string): Option<Json> {
    if j.JObject? && name in j.fields then Some(j.fields[name]) else None
  }

  function AsText(j: Option<Json>): Option<string> {
    if j.Some? && j.value.JStr? then Some(j.value.s) else None
  }

  /** An `Option<String>` field: absent and `null` both read as `None`. */
  function AsOptionalText(j: Option<Json>): Option<Option<string>> {
    if j.None? || j.value.JNull? then Some(None)
    else if j.value.JStr? then Some(Some(j.value.s))
    else None
  }

  function AsBool(j: Option<Json>): Option<bool> {
    if j.Some? && j.value.JBool? then Some(j.value.b) else None
  }

  function AsU32(j: Option<Json>): Option<u32> {
    if j.Some? && j.value.JInt? && 0 <= j.value.n < TWO_32 then Some(j.value.n) else None
  }

  function AsU64(j: Option<Json>): Option<u64> {
    if j.Some? && j.value.JInt? && 0 <= j.value.n < TWO_64 then Some(j.value.n) else None
  }

  // --------------------------------------------------------------------------
  // Arrays
  // --------------------------------------------------------------------------

  function MapSeq<A, B>(f: A -> B, xs: seq<A>): (ys: seq<B>)
    ensures |ys| == |xs|
    ensures forall i | 0 <= i < |xs| :: ys[i] == f(xs[i])
  {
    seq(|xs|, i requires 0 <= i < |xs| => f(xs[i]))
  }

  /** All of the items, or nothing if one does not decode. */
  function DecodeItems<T>(from: Json -> Option<T>, items: seq<Json>): Option<seq<T>> {
    if items == [] then Some([])
    else
      var first, rest := from(items[0]), DecodeItems(from, items[1..]);
      if first.None? || rest.None? then None else Some([first.value] + rest.value)
  }

  function DecodeArray<T>(from: Json -> Option<T>, j: Option<Json>): Option<seq<T>> {
    if j.Some? && j.value.JArray? then DecodeItems(from, j.value.items) else None
  }

  lemma {:induction false} ItemsRoundTrip<S, T>(to: S -> Json, from: Json -> Option<T>, xs: seq<S>, ys: seq<T>)
    requires |xs| == |ys| && forall i | 0 <= i < |xs| :: from(to(xs[i])) == Some(ys[i])
    ensures DecodeItems(from, MapSeq(to, xs)) == Some(ys)
  {
    if xs != [] {
      assert MapSeq(to, xs)[1..] == MapSeq(to, xs[1..]);
      forall i | 0 <= i < |xs| - 1 ensures from(to(xs[1..][i])) == Some(ys[1..][i]) {
        assert xs[1..][i] == xs[i + 1];
      }
      ItemsRoundTrip(to, from, xs[1..], ys[1..]);
      assert [ys[0]] + ys[1..] == ys;
    }
  }

  // --------------------------------------------------------------------------
  // Reading again
  // --------------------------------------------------------------------------

  /** Decoding what was read again is decoding first and reading again, as `g` does it, then. */
  ghost predicate Commutes<T(!new)>(again: Float -> Float, from: Json -> Option<T>, g: T -> T) {
    forall j :: from(Reread(again, j)) == Mapped(g, from(j))
  }

  function Mapped<A, B>(g: A -> B, o: Option<A>): Option<B> { if o.None? then None else Some(g(o.value)) }

  function MappedAll<T>(g: T -> T, o: Option<seq<T>>): Option<seq<T>> {
    if o.None? then None else Some(MapSeq(g, o.value))
  }

  function RereadOption(again: Float -> Float, o: Option<Json>): Option<Json> {
    if o.None? then None else Some(Reread(again, o.value))
  }

  lemma FieldReread(again: Float -> Float, j: Json, name: string)
    ensures Field(Reread(again, j), name) == RereadOption(again, Field(j, name))
  {
  }

  /** Everything but a float is read as it was. */
  lemma LeavesReread(again: Float -> Float, o: Option<Json>)
    ensures var r := RereadOption(again, o);
            && AsText(r) == AsText(o) && AsOptionalText(r) == AsOptionalText(o) && AsBool(r) == AsBool(o)
            && AsU32(r) == AsU32(o) && AsU64(r) == AsU64(o)
  {
  }

  lemma {:induction false} ItemsReread<T(!new)>(again: Float -> Float, from: Json -> Option<T>, g: T -> T,
                                                items: seq<Json>)
    requires Commutes(again, from, g)
    ensures DecodeItems(from, MapSeq(x => Reread(again, x), items)) == MappedAll(g, DecodeItems(from, items))
  {
    hide Reread;
    var read := MapSeq(x => Reread(again, x), items);
    if items != [] {
      ItemsReread(again, from, g, items[1..]);
      assert read[1..] == MapSeq(x => Reread(again, x), items[1..]);
      assert read[0] == Reread(again, items[0]);
      var first, rest := from(items[0]), DecodeItems(from, items[1..]);
      if first.Some? && rest.Some? {
        assert MapSeq(g, [first.value] + rest.value) == [g(first.value)] + MapSeq(g, rest.value);
      }
    }
  }

  lemma ArrayReread<T(!new)>(again: Float -> Float, from: Json -> Option<T>, g: T -> T, j: Option<Json>)
    requires Commutes(again, from, g)
    ensures DecodeArray(from, RereadOption(again, j)) == MappedAll(g, DecodeArray(from, j))
  {
    if j.Some? && j.value.JArray? {
      ItemsReread(again, from, g, j.value.items);
      assert Reread(again, j.value).items == MapSeq(x => Reread(again, x), j.value.items);
    }
  }

  /** Where every float is read as itself, every value is. */
  lemma {:induction false} KeptFloats(again: Float -> Float, j: Json)
    requires forall bits :: again(bits) == bits
    ensures Reread(again, j) == j
    decreases j
  {
    match j
    case JArray(items) =>
      forall i | 0 <= i < |items| ensures Reread(again, items[i]) == items[i] {
        KeptFloats(again, items[i]);
      }
      assert Reread(again, j).items == items;
    case JObject(fields) =>
      forall k | k in fields ensures Reread(again, fields[k]) == fields[k] {
        KeptFloats(again, fields[k]);
      }
      assert Reread(again, j).fields == fields;
    case _ =>
  }

  lemma {:induction false} WithinReread(again: Float -> Float, j: Json, depth: nat)
    ensures Within(Reread(again, j), depth) <==> Within(j, depth)
    decreases depth
  {
    if depth > 0 {
      match j
      case JArray(items) =>
        var read := Reread(again, j).items;
        forall i | 0 <= i < |items| ensures Within(read[i], depth - 1) <==> Within(items[i], depth - 1) {
          WithinReread(again, items[i], depth - 1);
        }
      case JObject(fields) =>
        var read := Reread(again, j).fields;
        forall k | k in fields ensures Within(read[k], depth - 1) <==> Within(fields[k], depth - 1) {
          WithinReread(again, fields[k], depth - 1);
        }
      case _ =>
    }
  }
}
