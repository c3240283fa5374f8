/**
 * The guest's linear memory and the blocks its allocator has handed out. The
 * allocator is any allocator: `chooser` proposes an address for each request,
 * which is granted if it is free, and `junk` is what is left behind in memory
 * that is freed.
 */
module Heap {
  import opened Basics

  type Blocks = map<int, int>

  /** An allocator: by the number of the request, the live blocks and the length asked for, an address. */
  type Chooser = (nat, Blocks, nat) -> int

  /** `len` bytes at `c` lie inside the memory, above the special addresses, and clear of all live blocks. */
  predicate Free(live: Blocks, size: nat, c: int, len: nat) {
    1 < c && c + len <= size && forall q | q in live :: q + live[q] <= c || c + len <= q
  }

  /** Blocks lie inside the memory, above the two addresses with a special meaning, and do not overlap. */
  predicate WellPlaced(live: Blocks, size: nat) {
    && (forall p | p in live :: 1 < p && 0 < live[p] && p + live[p] <= size)
    && (forall p, q | p in live && q in live && p != q :: p + live[p] <= q || q + live[q] <= p)
  }

  /** What each block holds. */
  function ContentsOf(live: Blocks, mem: seq<byte>): (c: map<int, seq<byte>>)
    requires WellPlaced(live, |mem|)
    ensures c.Keys == live.Keys && forall p | p in live :: |c[p]| == live[p]
  {
    map p | p in live :: mem[p..p + live[p]]
  }

  lemma Untouched(mem: seq<byte>, p: nat, bytes: seq<byte>, q: nat, n: nat)
    requires p + |bytes| <= |mem| && q + n <= |mem|
    requires p + |bytes| <= q || q + n <= p
    ensures (mem[..p] + bytes + mem[p + |bytes|..])[q..q + n] == mem[q..q + n]
  {
  }

  /** Overwriting exactly one block changes what that block holds and nothing else. */
  lemma ContentsOverwritten(live: Blocks, mem: seq<byte>, p: int, bytes: seq<byte>)
    requires WellPlaced(live, |mem|) && p in live && live[p] == |bytes|
    ensures p + |bytes| <= |mem|
    ensures var now := mem[..p] + bytes + mem[p + |bytes|..];
            ContentsOf(live, now) == ContentsOf(live, mem)[p := bytes]
  {
    var now := mem[..p] + bytes + mem[p + |bytes|..];
    forall q | q in live ensures now[q..q + live[q]] == if q == p then bytes else mem[q..q + live[q]] {
      if q != p {
        Untouched(mem, p, bytes, q, live[q]);
      }
    }
  }

  lemma SetTwice<V>(m: map<int, V>, p: int, x: V, y: V)
    ensures m[p := x][p := y] == m[p := y]
  {
  }

  lemma AddedThenRemoved<V>(m: map<int, V>, p: int, x: V, q: int, y: V)
    requires p !in m && q !in m && p != q
    ensures m[p := x] - {p} == m
    ensures m[p := x][q := y] - {q} == m[p := x]
    ensures m[p := x][q := y] - {p} == m[q := y]
  {
  }

  lemma ContentsOfBlock(live: Blocks, mem: seq<byte>, p: int)
    requires WellPlaced(live, |mem|) && p in live
    ensures ContentsOf(live, mem)[p] == mem[p..p + live[p]]
  {
  }

  lemma ContentsWithMore(live: Blocks, mem: seq<byte>, p: int, len: nat)
    requires p !in live && 0 <= p && p + len <= |mem|
    requires WellPlaced(live, |mem|) && WellPlaced(live[p := len], |mem|)
    ensures ContentsOf(live[p := len], mem) == ContentsOf(live, mem)[p := mem[p..p + len]]
  {
    hide ContentsOf, WellPlaced;
    var more := live[p := len];
    var now, wanted := ContentsOf(more, mem), ContentsOf(live, mem)[p := mem[p..p + len]];
    assert now.Keys == wanted.Keys;
    forall q | q in more ensures now[q] == wanted[q] {
      ContentsOfBlock(more, mem, q);
      if q != p {
        ContentsOfBlock(live, mem, q);
      }
    }
  }

  lemma ContentsWithLess(live: Blocks, mem: seq<byte>, p: int)
    requires WellPlaced(live, |mem|) && p in live
    ensures ContentsOf(live - {p}, mem) == ContentsOf(live, mem) - {p}
  {
  }

  // --------------------------------------------------------------------------
  // Room
  // --------------------------------------------------------------------------

  predicate AllWithin(live: Blocks, max: nat) { forall p | p in live :: live[p] <= max }

  /** As long as at most `n` blocks of at most `max` bytes are live, the allocator finds room for one more. */
  ghost predicate Spacious(chooser: Chooser, size: nat, max: nat, n: nat) {
    forall tick: nat, live: Blocks, len: nat |
      WellPlaced(live, size) && |live| <= n && AllWithin(live, max) && 0 < len <= max ::
      Free(live, size, chooser(tick, live, len), len)
  }

  /** With these blocks live, and up to `n` more, there is room for another one. */
  ghost predicate Room(chooser: Chooser, size: nat, live: Blocks, max: nat, n: nat) {
    Spacious(chooser, size, max, |live| + n) && AllWithin(live, max)
  }

  lemma RoomIsFree(chooser: Chooser, size: nat, live: Blocks, max: nat, tick: nat, len: nat)
    requires Room(chooser, size, live, max, 0) && WellPlaced(live, size) && 0 < len <= max
    ensures Free(live, size, chooser(tick, live, len), len)
  {
  }

  lemma RoomAfter(chooser: Chooser, size: nat, live: Blocks, max: nat, n: nat, p: int, len: nat)
    requires Room(chooser, size, live, max, n + 1) && p !in live && len <= max
    ensures Room(chooser, size, live[p := len], max, n)
  {
    assert |live[p := len]| == |live| + 1;
  }

  // That a large enough memory has room: of n + 1 slots with gaps between them, n blocks leave one free.

  function Slot(k: nat, max: nat): int { if k == 0 then 2 else Slot(k - 1, max) + 2 * max }

  lemma {:induction false} SlotAt(k: nat, max: nat)
    ensures Slot(k, max) == 2 + 2 * max * k
  {
    if k > 0 {
      SlotAt(k - 1, max);
      assert 2 * max * (k - 1) + 2 * max == 2 * max * k;
    }
  }

  predicate Hits(live: Blocks, q: int, k: nat, max: nat, len: nat)
    requires q in live
  {
    !(q + live[q] <= Slot(k, max) || Slot(k, max) + len <= q)
  }

  predicate SlotHit(live: Blocks, k: nat, max: nat, len: nat) { exists q | q in live :: Hits(live, q, k, max, len) }

  lemma {:induction false} SlotsApart(j: nat, k: nat, max: nat)
    requires j < k
    ensures Slot(j, max) + 2 * max <= Slot(k, max)
  {
    if j < k - 1 {
      SlotsApart(j, k - 1, max);
    }
  }

  /** No block reaches into two slots. */
  lemma HitsOne(live: Blocks, q: int, j: nat, k: nat, max: nat, len: nat)
    requires q in live && live[q] <= max && 0 < len <= max && j < k
    ensures !(Hits(live, q, j, max, len) && Hits(live, q, k, max, len))
  {
    hide Slot;
    SlotsApart(j, k, max);
  }

  /** If each of the first `m` slots is hit there are `m` blocks that do it. */
  lemma {:induction false} HitBlocks(live: Blocks, m: nat, max: nat, len: nat) returns (hit: set<int>)
    requires AllWithin(live, max) && 0 < len <= max
    requires forall k | 0 <= k < m :: SlotHit(live, k, max, len)
    ensures hit <= live.Keys && |hit| == m
    ensures forall q | q in hit :: exists k | 0 <= k < m :: Hits(live, q, k, max, len)
  {
    hide Hits;
    if m == 0 {
      hit := {};
    } else {
      var before := HitBlocks(live, m - 1, max, len);
      assert SlotHit(live, m - 1, max, len);
      var q :| q in live && Hits(live, q, m - 1, max, len);
      if q in before {
        var k :| 0 <= k < m - 1 && Hits(live, q, k, max, len);
        HitsOne(live, q, k, m - 1, max, len);
      }
      hit := before + {q};
    }
  }

  lemma SubsetSmaller(a: set<int>, b: set<int>)
    requires a <= b
    ensures |a| <= |b|
  {
    assert b == a + (b - a);
  }

  lemma FreeSlot(live: Blocks, size: nat, max: nat, n: nat, len: nat)
    requires AllWithin(live, max) && |live| <= n && 0 < len <= max && Slot(n, max) + max <= size
    ensures exists k: nat :: Free(live, size, Slot(k, max), len)
  {
    hide Slot;
    if forall k | 0 <= k < n + 1 :: SlotHit(live, k, max, len) {
      var hit := HitBlocks(live, n + 1, max, len);
      SubsetSmaller(hit, live.Keys);
      assert false;
    }
    var k :| 0 <= k < n + 1 && !SlotHit(live, k, max, len);
    assert forall q | q in live :: !Hits(live, q, k, max, len);
    SlotBounds(k, n, max);
    assert Free(live, size, Slot(k, max), len);
  }

  lemma SlotBounds(k: nat, n: nat, max: nat)
    requires k <= n
    ensures 1 < Slot(k, max) <= Slot(n, max)
  {
    if k < n {
      SlotsApart(k, n, max);
    }
    if k > 0 {
      SlotsApart(0, k, max);
    }
  }

  ghost function FirstFit(size: nat, max: nat, live: Blocks, len: nat): int {
    if k: nat :| Free(live, size, Slot(k, max), len) then Slot(k, max) else 0
  }

  /** There is an allocator that finds room for blocks of `max` bytes in any memory large enough. */
  lemma SpaciousExists(size: nat, max: nat, n: nat)
    requires size >= 2 + 2 * max * n + max
    ensures exists chooser: Chooser :: Spacious(chooser, size, max, n)
  {
    hide WellPlaced, Slot;
    SlotAt(n, max);
    var chooser: Chooser := (tick: nat, live: Blocks, len: nat) => FirstFit(size, max, live, len);
    forall tick: nat, live: Blocks, len: nat |
      WellPlaced(live, size) && |live| <= n && AllWithin(live, max) && 0 < len <= max
      ensures Free(live, size, chooser(tick, live, len), len)
    {
      FreeSlot(live, size, max, n, len);
    }
    assert Spacious(chooser, size, max, n);
  }

  class GuestHeap {
    const data: array<byte>
    const chooser: Chooser
    const junk: nat -> byte
    var live: Blocks
    var ticks: nat
    /**
     * How often an allocation has been refused. Only `Allocate` and `TdsAlloc` count;
     * the methods of `Guest` may change it because they call these.
     */
    ghost var refusals: nat

    ghost predicate Valid()
      reads this
    {
      0 < data.Length <= TWO_32 && WellPlaced(live, data.Length)
    }

    ghost predicate HasRoom(max: nat, n: nat)
      reads this
    {
      Room(chooser, data.Length, live, max, n)
    }

    /** What the guest holds in memory, block by block. */
    ghost function Contents(): (c: map<int, seq<byte>>)
      requires Valid()
      reads this, data
      ensures c.Keys == live.Keys && forall p | p in live :: |c[p]| == live[p]
    {
      ContentsOf(live, data[..])
    }

    constructor (data: array<byte>, chooser: Chooser, junk: nat -> byte)
      requires 0 < data.Length <= TWO_32
      ensures Valid() && this.data == data && this.chooser == chooser && live == map[] && refusals == 0
    {
      this.data, this.chooser, this.junk := data, chooser, junk;
      live, ticks, refusals := map[], 0, 0;
    }

    /** `std::alloc::alloc`: a fresh block of unspecified contents, or 0 if the one proposed is not free. */
    method Allocate(len: nat) returns (p: int)
      requires Valid() && len > 0
      modifies this`live, this`ticks, this`refusals
      ensures Valid()
      ensures var c := chooser(old(ticks), old(live), len);
              if Free(old(live), data.Length, c, len) then p == c && refusals == old(refusals)
              else p == 0 && refusals == old(refusals) + 1
      ensures p == 0 ==> live == old(live) && refusals > old(refusals)
      ensures p != 0 ==> 1 < p && p !in old(live) && p + len <= data.Length
      ensures p != 0 ==> live == old(live)[p := len] && Contents() == old(Contents())[p := data[p..p + len]]
    {
      hide ContentsOf;
      p := chooser(ticks, live, len);
      ticks := ticks + 1;
      if 1 < p && p + len <= data.Length && forall q | q in live :: q + live[q] <= p || p + len <= q {
        live := live[p := len];
        assert data[p..p + len] == data[..][p..p + len];
        ContentsWithMore(old(live), data[..], p, len);
      } else {
        p := 0;
        refusals := refusals + 1;
      }
    }

    /** `std::alloc::dealloc`: only ever for a live block, with the length it was allocated with. */
    method Release(p: int, len: nat)
      requires Valid() && p in live && live[p] == len
      modifies this`live, data
      ensures Valid() && live == old(live) - {p} && Contents() == old(Contents()) - {p}
    {
      hide ContentsOf;
      var left := seq(len, i requires 0 <= i < len => junk(i));
      Write(p, left);
      ContentsWithLess(live, data[..], p);
      live := live - {p};
    }

    /** Fill a live block. */
    method Write(p: int, bytes: seq<byte>)
      requires Valid() && p in live && |bytes| == live[p]
      modifies data
      ensures Contents() == old(Contents())[p := bytes] && data[p..p + |bytes|] == bytes
    {
      hide ContentsOf;
      ContentsOverwritten(live, data[..], p, bytes);
      forall i | 0 <= i < |bytes| {
        data[p + i] := bytes[i];
      }
      assert data[..] == old(data[..p]) + bytes + old(data[p + |bytes|..]);
    }

    method TdsAlloc(len: u32) returns (p: u32)
      requires Valid()
      modifies this`live, this`ticks, this`refusals
      ensures Valid() && refusals >= old(refusals)
      ensures len == 0 ==> p == 1 && live == old(live) && refusals == old(refusals)
      ensures len >= 0x8000_0000 ==> p == 0
      ensures var c := chooser(old(ticks), old(live), len);
              0 < len < 0x8000_0000 && Free(old(live), data.Length, c, len) ==> p == c && refusals == old(refusals)
      ensures p == 0 ==> live == old(live) && refusals > old(refusals)
      ensures len != 0 && p != 0 ==> 1 < p && p !in old(live) && p + len <= data.Length
      ensures len != 0 && p != 0 ==> live == old(live)[p := len]
      ensures len != 0 && p != 0 ==> Contents() == old(Contents())[p := data[p..p + len]]
    {
      hide ContentsOf;
      if len == 0 {
        return 1;
      }
      if len > 0x7fff_ffff {
        refusals := refusals + 1;
        return 0;
      }
      p := Allocate(len);
    }

    method TdsDealloc(p: u32, len: u32)
      requires Valid()
      requires p > 1 && len > 0 ==> p in live && live[p] == len
      modifies this`live, data
      ensures Valid()
      ensures Contents() == if p > 1 && len > 0 then old(Contents()) - {p} else old(Contents())
    {
      if p == 0 || p == 1 || len == 0 {
        return;
      }
      Release(p, len);
    }
  }

  /** Room for `n` more blocks is room for fewer. */
  lemma RoomForFewer(heap: GuestHeap, max: nat, n: nat, m: nat)
    requires m <= n
    ensures heap.HasRoom(max, n) ==> heap.HasRoom(max, m)
  {
  }
}
