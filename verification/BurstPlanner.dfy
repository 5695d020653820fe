// The START state of the AXI read and write engines: how many bytes the next burst moves.
module BurstPlanner {
  import opened Arith

  const PAGE: nat := 4096

  // The parameters the source accepts: a power-of-two strobe width (it only matters that it
  // divides a page) and AXI_MAX_BURST_LEN between 1 and 256.
  predicate Geometry(strb: nat, maxBeats: nat) {
    1 <= strb && PAGE % strb == 0 && 1 <= maxBeats <= 256
  }

  type pos = x: int | 1 <= x witness 1

  datatype Burst = Burst(addr: nat, bytes: pos)

  // tr_word_count_next.
  function BurstBytes(strb: nat, maxBeats: nat, addr: nat, left: nat): int
    requires Geometry(strb, maxBeats)
  {
    var maxSize := maxBeats * strb;
    if left <= maxSize - addr % strb || maxSize >= PAGE then
      if addr % PAGE + left % PAGE >= PAGE || left >= PAGE then PAGE - addr % PAGE else left
    else
      if addr % PAGE + maxSize >= PAGE then PAGE - addr % PAGE else maxSize - addr % strb
  }

  // arlen + 1 (awlen + 1): the beats that carry `bytes` bytes starting at `addr`.
  function BeatCount(strb: nat, addr: nat, bytes: nat): (n: nat)
    requires 1 <= strb && 1 <= bytes
    ensures 1 <= n
  {
    (bytes + addr % strb - 1) / strb + 1
  }

  // A word-aligned position short of the page end by less than a word is at the page end, so the
  // branch that stops at the boundary cannot exceed a maximal burst either.
  lemma BoundaryFits(strb: nat, maxSize: nat, place: nat)
    requires 1 <= strb && PAGE % strb == 0 && maxSize % strb == 0 && PAGE <= place + maxSize
    ensures PAGE - place + place % strb <= maxSize
  {
    var base := place - place % strb;
    DivBounds(place, strb);
    MultipleOf(place / strb, strb);
    MultipleSum(base, maxSize, strb);
    if base + maxSize < PAGE {
      NextMultiple(base + maxSize, PAGE, strb);
    }
  }

  lemma BeatsBound(strb: nat, maxBeats: nat, off: nat, n: nat)
    requires 1 <= strb && 1 <= n && off < strb && n + off <= maxBeats * strb
    ensures (n + off - 1) / strb + 1 <= maxBeats
  {
    DivBounds(n + off - 1, strb);
    MulOrder((n + off - 1) / strb, maxBeats, strb);
  }

  lemma PageEndAligned(strb: nat, addr: nat)
    requires 1 <= strb && PAGE % strb == 0
    ensures (addr + (PAGE - addr % PAGE)) % strb == 0
  {
    DivBounds(addr, PAGE);
    MultipleOf(addr / PAGE + 1, PAGE);
    ModOfMultiple(addr + (PAGE - addr % PAGE), PAGE, strb);
  }

  lemma FullBurstAligned(strb: nat, maxSize: nat, addr: nat)
    requires 1 <= strb && maxSize % strb == 0
    ensures (addr + (maxSize - addr % strb)) % strb == 0
  {
    DivBounds(addr, strb);
    MultipleOf(addr / strb, strb);
    MultipleSum(addr / strb * strb, maxSize, strb);
  }

  predicate LegalBurst(strb: nat, maxBeats: nat, b: Burst)
    requires 1 <= strb
  {
    && b.addr % PAGE + b.bytes <= PAGE
    && BeatCount(strb, b.addr, b.bytes) <= maxBeats
  }

  predicate Aligned(strb: nat, addr: nat)
    requires 1 <= strb
  {
    addr % strb == 0
  }

  // What one visit to START guarantees.
  lemma BurstIsLegal(strb: nat, maxBeats: nat, addr: nat, left: nat)
    requires Geometry(strb, maxBeats) && 1 <= left
    ensures var n := BurstBytes(strb, maxBeats, addr, left);
            && 1 <= n <= left
            && LegalBurst(strb, maxBeats, Burst(addr, n))
            && (n < left ==> Aligned(strb, addr + n))
  {
    var n, maxSize := BurstBytes(strb, maxBeats, addr, left), maxBeats * strb;
    ModOfMultiple(addr, PAGE, strb);
    MultipleOf(maxBeats, strb);
    MulOrder(0, maxBeats, strb);
    PageEndAligned(strb, addr);
    FullBurstAligned(strb, maxSize, addr);
    if PAGE <= addr % PAGE + maxSize {
      BoundaryFits(strb, maxSize, addr % PAGE);
    }
    assert n + addr % strb <= maxSize;
    BeatsBound(strb, maxBeats, addr % strb, n);
  }

  // The address register wraps at a multiple of the page size; the decision does not see it.
  lemma BurstBytesPeriodic(strb: nat, maxBeats: nat, addr: nat, left: nat, space: nat)
    requires Geometry(strb, maxBeats) && 1 <= space && space % PAGE == 0
    ensures BurstBytes(strb, maxBeats, addr % space, left) == BurstBytes(strb, maxBeats, addr, left)
    ensures (addr % space) % strb == addr % strb
  {
    ModOfMultiple(addr, space, PAGE);
    ModOfMultiple(addr, PAGE, strb);
    ModOfMultiple(addr % space, PAGE, strb);
  }

  // The bursts the START state issues for a whole descriptor.
  function Plan(strb: nat, maxBeats: nat, addr: nat, left: nat): seq<Burst>
    requires Geometry(strb, maxBeats)
    decreases left
  {
    if left == 0 then []
    else
      BurstIsLegal(strb, maxBeats, addr, left);
      var n := BurstBytes(strb, maxBeats, addr, left);
      [Burst(addr, n)] + Plan(strb, maxBeats, addr + n, left - n)
  }

  // Burst i starts where burst i - 1 ended.
  predicate Follows(p: seq<Burst>, i: nat)
    requires 0 < i < |p|
  {
    p[i].addr == p[i - 1].addr + p[i - 1].bytes
  }

  // The bursts tile [addr, addr + len): consecutive, nothing skipped, nothing twice, each legal;
  // every burst but the last ends on a word boundary.
  lemma {:induction false} PlanTiles(strb: nat, maxBeats: nat, addr: nat, len: nat)
    requires Geometry(strb, maxBeats) && 1 <= len
    ensures var p := Plan(strb, maxBeats, addr, len);
            && p != [] && p[0].addr == addr
            && (forall i :: 0 <= i < |p| ==> LegalBurst(strb, maxBeats, p[i]))
            && (forall i :: 0 < i < |p| ==> Follows(p, i))
            && (forall i :: 0 < i < |p| ==> Aligned(strb, p[i].addr))
            && p[|p| - 1].addr + p[|p| - 1].bytes == addr + len
    decreases len
  {
    hide BurstBytes, LegalBurst, Aligned, Geometry;
    BurstIsLegal(strb, maxBeats, addr, len);
    var n := BurstBytes(strb, maxBeats, addr, len);
    if n < len {
      PlanTiles(strb, maxBeats, addr + n, len - n);
      var p, rest := Plan(strb, maxBeats, addr, len), Plan(strb, maxBeats, addr + n, len - n);
      assert p == [Burst(addr, n)] + rest;
      forall i | 0 < i < |p| ensures Follows(p, i) {
        if 1 < i { assert Follows(rest, i - 1); }
      }
    } else {
      assert Plan(strb, maxBeats, addr + n, len - n) == [];
    }
  }

  predicate Holds(b: Burst, x: int) {
    b.addr <= x < b.addr + b.bytes
  }

  // Every byte of the descriptor lies in some burst ...
  lemma {:induction false} PlanCovers(strb: nat, maxBeats: nat, addr: nat, len: nat, x: nat) returns (i: nat)
    requires Geometry(strb, maxBeats) && addr <= x < addr + len
    ensures i < |Plan(strb, maxBeats, addr, len)| && Holds(Plan(strb, maxBeats, addr, len)[i], x)
    decreases len
  {
    hide BurstBytes, LegalBurst, Aligned, Geometry;
    BurstIsLegal(strb, maxBeats, addr, len);
    var n := BurstBytes(strb, maxBeats, addr, len);
    if x < addr + n {
      i := 0;
    } else {
      i := PlanCovers(strb, maxBeats, addr + n, len - n, x);
      i := i + 1;
    }
  }

  // ... and in one only, and no burst reaches outside the descriptor.
  lemma {:induction false} PlanDisjoint(strb: nat, maxBeats: nat, addr: nat, len: nat, i: nat, j: nat)
    requires Geometry(strb, maxBeats) && 1 <= len
    requires i < j < |Plan(strb, maxBeats, addr, len)|
    ensures var p := Plan(strb, maxBeats, addr, len);
            addr <= p[i].addr && p[i].addr + p[i].bytes <= p[j].addr && p[j].addr + p[j].bytes <= addr + len
    decreases j
  {
    hide BurstBytes, LegalBurst, Aligned, Geometry;
    PlanTiles(strb, maxBeats, addr, len);
    var p := Plan(strb, maxBeats, addr, len);
    EndsOrdered(p, 0, i);
    EndsOrdered(p, i, j);
    EndsOrdered(p, j, |p| - 1);
  }

  lemma {:induction false} EndsOrdered(p: seq<Burst>, i: nat, j: nat)
    requires i <= j < |p|
    requires forall k :: 0 < k < |p| ==> Follows(p, k)
    ensures i < j ==> p[i].addr + p[i].bytes <= p[j].addr
    ensures p[i].addr <= p[j].addr && p[i].addr + p[i].bytes <= p[j].addr + p[j].bytes
    decreases j - i
  {
    if i < j {
      EndsOrdered(p, i, j - 1);
      assert Follows(p, j);
    }
  }

  // ----- The word addresses a plan touches -----

  function Consecutive(first: nat, n: nat): (s: seq<nat>) {
    seq(n, i requires 0 <= i < n => first + i)
  }

  // The memory row (bus-wide word) an address falls in.
  function RowOf(strb: nat, addr: nat): nat
    requires 1 <= strb
  {
    addr / strb
  }

  // One R (or W) beat per word of the burst.
  function BurstWords(strb: nat, b: Burst): seq<nat>
    requires 1 <= strb
  {
    Consecutive(RowOf(strb, b.addr), BeatCount(strb, b.addr, b.bytes))
  }

  function PlanWords(strb: nat, p: seq<Burst>): seq<nat>
    requires 1 <= strb
  {
    if p == [] then [] else BurstWords(strb, p[0]) + PlanWords(strb, p[1..])
  }

  lemma ConsecutiveJoin(first: nat, n: nat, m: nat)
    ensures Consecutive(first, n) + Consecutive(first + n, m) == Consecutive(first, n + m)
  {
  }

  // A non-final burst ends on a word boundary, so its beats and the beats of the rest add up.
  lemma BeatsSplit(strb: nat, addr: nat, n: nat, rest: nat)
    requires 1 <= strb && 1 <= n && 1 <= rest && Aligned(strb, addr + n)
    ensures BeatCount(strb, addr, n) + BeatCount(strb, addr + n, rest) == BeatCount(strb, addr, n + rest)
    ensures RowOf(strb, addr) + BeatCount(strb, addr, n) == RowOf(strb, addr + n)
  {
    var off := addr % strb;
    DivBounds(addr, strb);
    var q := (addr + n) / strb - addr / strb;
    DivBounds(addr + n, strb);
    assert n + off == q * strb by {
      assert n + off == (addr + n) / strb * strb - addr / strb * strb;
    }
    assert (q - 1) * strb == q * strb - strb;
    DivUnique(n + off - 1, strb, q - 1);
    AddMultiple(rest - 1, q, strb);
    assert rest + n + off - 1 == rest - 1 + q * strb;
  }

  // Where the j-th word of an aligned burst lies in it.
  lemma BeatPlace(strb: nat, addr: nat, bytes: pos, j: nat)
    requires 1 <= strb && Aligned(strb, addr) && j < BeatCount(strb, addr, bytes)
    ensures j + 1 < BeatCount(strb, addr, bytes) ==> j * strb + strb < bytes
    ensures j + 1 == BeatCount(strb, addr, bytes) ==> j * strb < bytes <= j * strb + strb
    ensures j + 1 == BeatCount(strb, addr, bytes) && Aligned(strb, addr + bytes) ==> bytes == j * strb + strb
  {
    DivBounds(bytes - 1, strb);
    var q := (bytes - 1) / strb;
    assert BeatCount(strb, addr, bytes) == q + 1;
    MulOrder(j, q, strb);
    if Aligned(strb, addr + bytes) {
      MultipleSum(addr + bytes, addr, strb);
      MultipleOf(q, strb);
      if bytes < q * strb + strb {
        NextMultiple(q * strb, bytes, strb);
      }
    }
  }

  // The two read state machines agree: the beats of all the bursts are exactly the beats the
  // stream side was told to expect, and they visit consecutive words.
  lemma {:induction false} PlanWordsConsecutive(strb: nat, maxBeats: nat, addr: nat, len: nat)
    requires Geometry(strb, maxBeats) && 1 <= len
    ensures PlanWords(strb, Plan(strb, maxBeats, addr, len)) ==
      Consecutive(RowOf(strb, addr), BeatCount(strb, addr, len))
    decreases len
  {
    hide BurstBytes, LegalBurst, Aligned, BeatCount, RowOf;
    BurstIsLegal(strb, maxBeats, addr, len);
    var n := BurstBytes(strb, maxBeats, addr, len);
    var p := Plan(strb, maxBeats, addr, len);
    var rest := Plan(strb, maxBeats, addr + n, len - n);
    assert p[0] == Burst(addr, n) && p[1..] == rest;
    if n < len {
      PlanTiles(strb, maxBeats, addr + n, len - n);
      PlanWordsConsecutive(strb, maxBeats, addr + n, len - n);
      BeatsSplit(strb, addr, n, len - n);
      ConsecutiveJoin(RowOf(strb, addr), BeatCount(strb, addr, n), BeatCount(strb, addr + n, len - n));
    } else {
      assert rest == [];
      assert BurstWords(strb, p[0]) + [] == BurstWords(strb, p[0]);
    }
  }
}
