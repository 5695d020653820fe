// pcie_tlp_fifo_raw with at least two output segments: segment banks with one address register each,
// a two-stage read window, and a full flag registered a clock late.
module SegmentFifo {
  import opened Arith
  import opened Wrappers
  import opened SegmentQueue
  import opened SegmentBanks

  // Registers (one per bank) that show positions lo .. hi of the log, each in its own bank.
  predicate Window(segs: nat, valid: seq<bool>, regs: seq<Seg>, log: seq<Seg>, lo: nat, hi: nat) {
    && |valid| == |regs| == segs && lo <= hi <= lo + segs && hi <= |log|
    && forall b :: 0 <= b < segs ==> Shows(segs, b, valid[b], regs[b], log, lo, hi)
  }

  predicate Shows(segs: nat, b: nat, valid: bool, reg: Seg, log: seq<Seg>, lo: nat, hi: nat)
    requires b < segs && hi <= |log|
  {
    valid == (NextIn(segs, b, lo) < hi) && (valid ==> reg == log[NextIn(segs, b, lo)])
  }

  // One address register per bank, at the row of the first position at or after p.
  predicate Addresses(segs: nat, rows: nat, addr: seq<nat>, p: nat)
    requires 0 < rows
  {
    |addr| == segs && forall b :: 0 <= b < segs ==> addr[b] == Row(segs, rows, NextIn(segs, b, p))
  }

  // A lane of a packed word: what goes to bank b when `packed` is written from position p.
  function LaneFor(segs: nat, packed: seq<Seg>, p: nat, b: nat): Option<Seg>
    requires b < segs
  {
    if NextIn(segs, b, p) - p < |packed| then Some(packed[NextIn(segs, b, p) - p]) else None
  }

  function Wrapped(segs: nat, c: nat): nat {
    if c + 1 == segs then 0 else c + 1
  }

  lemma NextBank(segs: nat, p: nat)
    requires 0 < segs
    ensures Wrapped(segs, Bank(segs, p)) == Bank(segs, p + 1)
  {
    DivBounds(p, segs);
    if Bank(segs, p) + 1 == segs {
      assert (p / segs + 1) * segs == p / segs * segs + segs;
      DivUnique(p + 1, segs, p / segs + 1);
    } else {
      DivUnique(p + 1, segs, p / segs);
    }
  }

  function Turn(wrap: nat, p: nat): (t: nat)
    requires 0 < wrap
    ensures t < wrap
  {
    p % wrap
  }

  // ----- Input -----

  // Spread each wide segment over the output lanes: everything on lane 0, then move eop up to the
  // last lane in use.
  method SplitInput(input: seq<InSeg>) returns (lanes: seq<Lane>)
    requires forall k :: 0 <= k < |input| ==> input[k].parts != []
    ensures lanes == Split(input)
  {
    lanes := [];
    for si := 0 to |input|
      invariant lanes == Split(input[..si])
    {
      var one := SplitSegment(input[si]);
      assert input[..si + 1][..si] == input[..si];
      lanes := lanes + one;
    }
    assert input[..|input|] == input;
  }

  method SplitSegment(s: InSeg) returns (lanes: seq<Lane>)
    requires s.parts != []
    ensures lanes == Lanes(s)
  {
    var eopAt := 0;
    lanes := [];
    for so := 0 to |s.parts|
      invariant |lanes| == so && eopAt == LastUsed(s.parts[..so])
      invariant forall k :: 0 <= k < so ==>
                  lanes[k] == Lane(s.valid && (k == 0 || s.parts[k].used),
                                   Seg(s.parts[k].data, if k == 0 then s.hdr else 0, k == 0 && s.sop, false))
    {
      var p := s.parts[so];
      assert s.parts[..so + 1][..so] == s.parts[..so];
      lanes := lanes + [Lane(s.valid &&
                             (so == 0 || p.used), Seg(p.data, if so == 0 then s.hdr else 0, so == 0 && s.sop, false))];
      if p.used {
        eopAt := so;
      }
    }
    assert s.parts[..|s.parts|] == s.parts;
    lanes := lanes[eopAt := Lane(lanes[eopAt].valid, lanes[eopAt].seg.(eop := s.eop))];
  }

  predicate Laid(segs: nat, sel: seq<Option<Seg>>, packed: seq<Seg>, p: nat) {
    |sel| == segs && forall b :: 0 <= b < segs ==> sel[b] == LaneFor(segs, packed, p, b)
  }

  // One more packed segment fills the bank of its position.
  lemma LanePut(segs: nat, packed: seq<Seg>, x: Seg, p: nat, b: nat)
    requires b < segs && |packed| < segs
    ensures LaneFor(segs, packed + [x], p, b) ==
      (if b == Bank(segs, p + |packed|) then Some(x) else LaneFor(segs, packed, p, b))
  {
    OwnBank(segs, p, |packed|);
    InBank(segs, b, p);
    hide Bank, NextIn;
  }

  lemma LaidMore(segs: nat, sel: seq<Option<Seg>>, packed: seq<Seg>, x: Seg, p: nat)
    requires Laid(segs, sel, packed, p) && |packed| < segs
    ensures Laid(segs, sel[Bank(segs, p + |packed|) := Some(x)], packed + [x], p)
  {
    var sel' := sel[Bank(segs, p + |packed|) := Some(x)];
    hide LaneFor, Bank;
    forall b | 0 <= b < segs ensures sel'[b] == LaneFor(segs, packed + [x], p, b) {
      LanePut(segs, packed, x, p, b);
    }
  }

  lemma PackMore(lanes: seq<Lane>, n: nat)
    requires n < |lanes|
    ensures !lanes[n].valid ==> Pack(lanes[..n + 1]) == Pack(lanes[..n])
    ensures lanes[n].valid ==> Pack(lanes[..n + 1]) == Pack(lanes[..n]) + [lanes[n].seg]
    ensures lanes[n].valid && lanes[n].seg.eop ==> FrameEnd(Pack(lanes[..n + 1])) == |Pack(lanes[..n])| + 1
    ensures lanes[n].valid && !lanes[n].seg.eop ==> FrameEnd(Pack(lanes[..n + 1])) == FrameEnd(Pack(lanes[..n]))
  {
    assert lanes[..n + 1][..n] == lanes[..n];
    var packed := Pack(lanes[..n]);
    assert packed + [] == packed;
    assert (packed + [lanes[n].seg])[..|packed|] == packed;
  }

  // Pack the valid lanes into consecutive banks from `start`; remember how many and where the last eop was.
  method PackLanes(segs: nat, lanes: seq<Lane>, start: nat, ghost p: nat)
    returns (sel: seq<Option<Seg>>, segCount: nat, eopSeg: nat, anyEop: bool)
    requires 0 < segs && |lanes| == segs && start == Bank(segs, p)
    ensures Laid(segs, sel, Pack(lanes), p)
    ensures segCount == |Pack(lanes)| && anyEop == (FrameEnd(Pack(lanes)) > 0)
    ensures anyEop ==> eopSeg + 1 == FrameEnd(Pack(lanes))
  {
    sel := seq(segs, _ => None);
    segCount, eopSeg, anyEop := 0, 0, false;
    var curSeg := start;
    for seg := 0 to segs
      invariant segCount == |Pack(lanes[..seg])| <= seg && curSeg == Bank(segs, p + segCount)
      invariant Laid(segs, sel, Pack(lanes[..seg]), p)
      invariant anyEop == (FrameEnd(Pack(lanes[..seg])) > 0)
      invariant anyEop ==> eopSeg + 1 == FrameEnd(Pack(lanes[..seg]))
    {
      hide Laid, Bank, Wrapped, Pack, FrameEnd;
      PackMore(lanes, seg);
      if lanes[seg].valid {
        LaidMore(segs, sel, Pack(lanes[..seg]), lanes[seg].seg, p);
        NextBank(segs, p + segCount);
        LaidSize(segs, sel, Pack(lanes[..seg]), p);
        sel := sel[curSeg := Some(lanes[seg].seg)];
        curSeg := Wrapped(segs, curSeg);
        if lanes[seg].seg.eop {
          eopSeg, anyEop := segCount, true;
        }
        segCount := segCount + 1;
      }
    }
    assert lanes[..segs] == lanes;
  }

  lemma LaidSize(segs: nat, sel: seq<Option<Seg>>, packed: seq<Seg>, p: nat)
    requires Laid(segs, sel, packed, p)
    ensures |sel| == segs
  {
  }

  // ----- Output window -----

  lemma WindowAt(segs: nat, valid: seq<bool>, regs: seq<Seg>, log: seq<Seg>, lo: nat, hi: nat, i: nat)
    requires 0 < segs && Window(segs, valid, regs, log, lo, hi) && i < segs
    ensures valid[Bank(segs, lo + i)] == (lo + i < hi)
    ensures lo + i < hi ==> regs[Bank(segs, lo + i)] == log[lo + i]
  {
    OwnBank(segs, lo, i);
    hide Bank, NextIn;
    assert Shows(segs, Bank(segs, lo + i), valid[Bank(segs, lo + i)], regs[Bank(segs, lo + i)], log, lo, hi);
  }

  // Invalidate the consumed segments, from the window's first, stopping at the first that is not valid.
  method Invalidate(segs: nat, valid: seq<bool>, offset: nat, take: nat, ghost regs: seq<Seg>, ghost log: seq<Seg>,
                    ghost lo: nat, ghost hi: nat)
    returns (valid': seq<bool>, offset': nat)
    requires 0 < segs && Window(segs, valid, regs, log, lo, hi) && offset == Bank(segs, lo)
    ensures Window(segs, valid', regs, log, lo + Min(take, hi - lo), hi)
    ensures offset' == Bank(segs, lo + Min(take, hi - lo))
  {
    valid', offset' := valid, offset;
    var cur, rdValid := offset, true;
    ghost var gone := 0;
    for i := 0 to segs
      invariant cur == Bank(segs, lo + i) && gone <= i && lo + gone <= hi
      invariant Window(segs, valid', regs, log, lo + gone, hi) && offset' == Bank(segs, lo + gone)
      invariant rdValid ==> gone == i && gone <= take
      invariant !rdValid ==> gone == Min(take, hi - lo)
    {
      hide NextIn, Bank, Wrapped, Shows;
      NextBank(segs, lo + i);
      WindowAt(segs, valid, regs, log, lo, hi, i);
      if valid[cur] && i < take && rdValid {
        WindowTake(segs, valid', regs, log, lo + gone, hi);
        valid' := valid'[cur := false];
        offset' := Wrapped(segs, cur);
        gone := gone + 1;
      } else {
        rdValid := false;
      }
      cur := Wrapped(segs, cur);
    }
  }

  // Dropping the first position of a window clears exactly its bank.
  lemma WindowTake(segs: nat, valid: seq<bool>, regs: seq<Seg>, log: seq<Seg>, lo: nat, hi: nat)
    requires 0 < segs && Window(segs, valid, regs, log, lo, hi) && lo < hi
    ensures Window(segs, valid[Bank(segs, lo) := false], regs, log, lo + 1, hi)
  {
    var at := Bank(segs, lo);
    OwnBank(segs, lo, 0);
    hide Bank, NextIn;
    forall b | 0 <= b < segs ensures Shows(segs, b, valid[at := false][b], regs[b], log, lo + 1, hi) {
      assert Shows(segs, b, valid[b], regs[b], log, lo, hi);
      MovedStart(segs, b, lo, lo + 1);
      InBank(segs, b, lo);
    }
  }

  // What one bank of the window does when its output register is free: the read register moves up.
  lemma BankMoves(segs: nat, b: nat, outValid: bool, outReg: Seg, rdValid: bool, rdReg: Seg, log: seq<Seg>, lo: nat,
                  mid: nat, hi: nat)
    requires b < segs && lo <= mid <= lo + segs && mid <= hi <= mid + segs && hi <= |log|
    requires Shows(segs, b, outValid, outReg, log, lo, mid) && Shows(segs, b, rdValid, rdReg, log, mid, hi)
    ensures var mid' := Min(hi, lo + segs);
            && Shows(segs, b, outValid || rdValid, if outValid then outReg else rdReg, log, lo, mid')
            && Shows(segs, b, outValid && rdValid, rdReg, log, mid', hi)
  {
    MovedStart(segs, b, lo, mid);
    MovedStart(segs, b, mid, Min(hi, lo + segs));
    hide NextIn;
  }

  // Load every free output register from its bank's read register.
  method RegisterSegments(segs: nat, outValid: seq<bool>, outReg: seq<Seg>, rdValid: seq<bool>, rdReg: seq<Seg>,
                          ghost log: seq<Seg>, ghost lo: nat, ghost mid: nat, ghost hi: nat)
    returns (outValid': seq<bool>, outReg': seq<Seg>, rdValid': seq<bool>)
    requires Window(segs, outValid, outReg, log, lo, mid) && Window(segs, rdValid, rdReg, log, mid, hi)
    ensures Window(segs, outValid', outReg', log, lo, Min(hi, lo + segs))
    ensures Window(segs, rdValid', rdReg, log, Min(hi, lo + segs), hi)
  {
    outValid', outReg', rdValid' := outValid, outReg, rdValid;
    for b := 0 to segs
      invariant |outValid'| == |outReg'| == |rdValid'| == segs
      invariant forall k :: 0 <= k < b ==> Shows(segs, k, outValid'[k], outReg'[k], log, lo, Min(hi, lo + segs))
      invariant forall k :: 0 <= k < b ==> Shows(segs, k, rdValid'[k], rdReg[k], log, Min(hi, lo + segs), hi)
      invariant forall k :: b <= k < segs ==>
        outValid'[k] == outValid[k] && outReg'[k] == outReg[k] && rdValid'[k] == rdValid[k]
    {
      BankMoves(segs, b, outValid[b], outReg[b], rdValid[b], rdReg[b], log, lo, mid, hi);
      hide Shows;
      if !outValid[b] {
        outReg', outValid' := outReg'[b := rdReg[b]], outValid'[b := rdValid[b]];
        rdValid' := rdValid'[b := false];
      }
    }
  }

  // The banks hold every position from lo on.
  ghost predicate Cells(segs: nat, rows: nat, mem: array2<Seg>, log: seq<Seg>, lo: nat)
    requires 0 < segs && 0 < rows && mem.Length0 == segs && mem.Length1 == rows
    reads mem
  {
    forall p :: lo <= p < |log| ==> mem[Bank(segs, p), Row(segs, rows, p)] == log[p]
  }

  // Extending a window by its next position.
  lemma WindowGive(segs: nat, valid: seq<bool>, regs: seq<Seg>, log: seq<Seg>, lo: nat, hi: nat)
    requires 0 < segs && Window(segs, valid, regs, log, lo, hi) && hi < lo + segs && hi < |log|
    ensures Window(segs, valid[Bank(segs, hi) := true], regs[Bank(segs, hi) := log[hi]], log, lo, hi + 1)
  {
    var at := Bank(segs, hi);
    OwnBank(segs, lo, hi - lo);
    assert lo + (hi - lo) == hi;
    hide Bank, NextIn;
    var valid', regs' := valid[at := true], regs[at := log[hi]];
    forall b | 0 <= b < segs ensures Shows(segs, b, valid'[b], regs'[b], log, lo, hi + 1) {
      assert Shows(segs, b, valid[b], regs[b], log, lo, hi);
      InBank(segs, b, lo);
    }
  }

  lemma AddressesMove(segs: nat, rows: nat, addr: seq<nat>, p: nat, ptr: nat)
    requires 0 < segs && 0 < rows && Addresses(segs, rows, addr, p) && OnTurn(segs, rows, ptr, p)
    ensures Addresses(segs, rows, addr[Bank(segs, p) := RowAfter(segs, rows, ptr)], p + 1)
  {
    var at := Bank(segs, p);
    OwnBank(segs, p, 0);
    NextRow(segs, rows, p, ptr);
    hide Bank, NextIn, Row, RowAfter, OnTurn;
    var addr' := addr[at := RowAfter(segs, rows, ptr)];
    forall b | 0 <= b < segs ensures addr'[b] == Row(segs, rows, NextIn(segs, b, p + 1)) {
      MovedStart(segs, b, p, p + 1);
      InBank(segs, b, p);
    }
  }

  lemma AddressAt(segs: nat, rows: nat, addr: seq<nat>, p: nat)
    requires 0 < segs && 0 < rows && Addresses(segs, rows, addr, p)
    ensures addr[Bank(segs, p)] == Row(segs, rows, p)
  {
    OwnBank(segs, p, 0);
  }

  // One read: the bank's read register shows the next position, its address moves to its next row.
  lemma ReadOne(segs: nat, rows: nat, mem: array2<Seg>, valid: seq<bool>, regs: seq<Seg>, addr: seq<nat>, log: seq<Seg>,
                lo: nat, p: nat, ptr: nat)
    requires 0 < segs && 0 < rows && mem.Length0 == segs && mem.Length1 == rows
    requires p < |log| && mem[Bank(segs, p), Row(segs, rows, p)] == log[p]
    requires Window(segs, valid, regs, log, lo, p) && p < lo + segs && Addresses(segs, rows, addr, p)
    requires OnTurn(segs, rows, ptr, p)
    ensures var b := Bank(segs, p);
            && addr[b] < rows
            && Window(segs, valid[b := true], regs[b := mem[b, addr[b]]], log, lo, p + 1)
            && Addresses(segs, rows, addr[b := RowAfter(segs, rows, ptr)], p + 1)
  {
    AddressAt(segs, rows, addr, p);
    WindowGive(segs, valid, regs, log, lo, p);
    AddressesMove(segs, rows, addr, p, ptr);
    hide OnTurn;
  }

  // Read committed segments into free read registers, in order, stopping at the first bank still in use.
  method ReadSegments(segs: nat, rows: nat, mem: array2<Seg>, rdPtr: nat, count: nat, rdValid: seq<bool>,
                      rdReg: seq<Seg>, rdAddr: seq<nat>,
                      ghost log: seq<Seg>, ghost mid: nat, ghost tail: nat)
    returns (n: nat, rdValid': seq<bool>, rdReg': seq<Seg>, rdAddr': seq<nat>)
    requires 0 < segs && 0 < rows && mem.Length0 == segs && mem.Length1 == rows && Cells(segs, rows, mem, log, tail)
    requires |rdAddr| == segs && Window(segs, rdValid, rdReg, log, mid, tail) && Addresses(segs, rows, rdAddr, tail)
    requires 0 < 2 * rows * segs && rdPtr == Turn(2 * rows * segs, tail) && tail + count <= |log|
    ensures tail + n == Min(tail + count, mid + segs)
    ensures Window(segs, rdValid', rdReg', log, mid, tail + n) && Addresses(segs, rows, rdAddr', tail + n)
  {
    rdValid', rdReg', rdAddr' := rdValid, rdReg, rdAddr;
    n := 0;
    WrappedOnTurn(segs, rows, tail);
    var cur, ok := rdPtr % segs, true;
    for i := 0 to segs
      invariant |rdAddr'| == segs && n <= i && tail + n <= mid + segs && n <= count && cur == Bank(segs, tail + i)
      invariant Window(segs, rdValid', rdReg', log, mid, tail + n) && Addresses(segs, rows, rdAddr', tail + n)
      invariant OnTurn(segs, rows, rdPtr + i, tail + i)
      invariant ok ==> n == i
      invariant !ok ==> tail + n == Min(tail + count, mid + segs)
    {
      hide Bank, Row, Wrapped, Shows, NextIn, Addresses, OnTurn, RowAfter;
      OnTurnNext(segs, rows, rdPtr + i, tail + i);
      NextBank(segs, tail + i);
      if ok {
        FreeBank(segs, rdValid', rdReg', log, mid, tail + n);
      }
      if ok && !rdValid'[cur] && count > i {
        ReadOne(segs, rows, mem, rdValid', rdReg', rdAddr', log, mid, tail + n, rdPtr + i);
        rdReg' := rdReg'[cur := mem[cur, rdAddr'[cur]]];
        rdValid' := rdValid'[cur := true];
        rdAddr' := rdAddr'[cur := RowAfter(segs, rows, rdPtr + i)];
        n := n + 1;
      } else {
        ok := false;
      }
      cur := Wrapped(segs, cur);
    }
  }

  // The bank of the next position is in use exactly when the window is a full word.
  lemma FreeBank(segs: nat, valid: seq<bool>, regs: seq<Seg>, log: seq<Seg>, lo: nat, hi: nat)
    requires 0 < segs && Window(segs, valid, regs, log, lo, hi)
    ensures valid[Bank(segs, hi)] == (hi == lo + segs)
  {
    var b := Bank(segs, hi);
    assert Shows(segs, b, valid[b], regs[b], log, lo, hi);
    if hi < lo + segs {
      FirstIn(segs, b, lo, hi);
    }
    hide Bank;
  }

  // The write addresses are recomputed from the advanced pointer, rounded down per bank.
  method RoundAddresses(segs: nat, rows: nat, ptr: nat, ghost p: nat) returns (addr: seq<nat>)
    requires 0 < segs && 0 < rows && 0 < 2 * rows * segs && ptr == Turn(2 * rows * segs, p)
    ensures Addresses(segs, rows, addr, p)
  {
    addr := [];
    for b := 0 to segs
      invariant |addr| == b
      invariant forall k :: 0 <= k < b ==> addr[k] == Row(segs, rows, NextIn(segs, k, p))
    {
      RoundedPointer(segs, rows, b, p, ptr);
      var row := (ptr + (segs - 1 - b)) / segs % rows;
      hide *;
      addr := addr + [row];
    }
  }

  // Write the packed lanes, one bank at a time, each at its own address register.
  method WriteBanks(segs: nat, rows: nat, mem: array2<Seg>, sel: seq<Option<Seg>>, addr: seq<nat>,
                    ghost log: seq<Seg>, ghost packed: seq<Seg>, ghost lo: nat)
    requires 0 < segs && 0 < rows && mem.Length0 == segs && mem.Length1 == rows && lo <= |log|
    requires Cells(segs, rows, mem, log, lo) && Addresses(segs, rows, addr, |log|) && Laid(segs, sel, packed, |log|)
    requires |log| + |packed| - lo < rows * segs && |packed| <= segs
    modifies mem
    ensures Cells(segs, rows, mem, log + packed, lo)
  {
    ghost var all := log + packed;
    for b := 0 to segs
      invariant forall p :: lo <= p < |log| ==> mem[Bank(segs, p), Row(segs, rows, p)] == all[p]
      invariant forall k :: 0 <= k < b && NextIn(segs, k, |log|) < |all| ==>
                  mem[k, Row(segs, rows, NextIn(segs, k, |log|))] == all[NextIn(segs, k, |log|)]
    {
      ghost var q := NextIn(segs, b, |log|);
      InBank(segs, b, |log|);
      assert addr[b] == Row(segs, rows, q);
      assert sel[b] == LaneFor(segs, packed, |log|, b);
      forall p | lo <= p < |log| ensures q < |all| && Bank(segs, p) == b ==> Row(segs, rows, p) != Row(segs, rows, q) {
        if q < |all| && Bank(segs, p) == b {
          DistinctCells(segs, rows, p, q);
        }
      }
      hide Bank, Row, NextIn, Laid, Addresses;
      if sel[b].Some? {
        mem[b, addr[b]] := sel[b].value;
      }
    }
    forall p | lo <= p < |all| ensures mem[Bank(segs, p), Row(segs, rows, p)] == all[p] {
      if |log| <= p {
        OwnBank(segs, |log|, p - |log|);
      }
    }
  }

  lemma WindowLog(segs: nat, valid: seq<bool>, regs: seq<Seg>, log: seq<Seg>, log': seq<Seg>, lo: nat, hi: nat)
    requires Window(segs, valid, regs, log, lo, hi) && log <= log'
    ensures Window(segs, valid, regs, log', lo, hi)
  {
    hide NextIn;
    forall b | 0 <= b < segs ensures Shows(segs, b, valid[b], regs[b], log', lo, hi) {
      assert Shows(segs, b, valid[b], regs[b], log, lo, hi);
    }
  }

  lemma AddWrapped(p: nat, k: nat, wrap: nat)
    requires 0 < wrap
    ensures (p % wrap + k) % wrap == (p + k) % wrap
  {
    DivBounds(p, wrap);
    AddMultiple(p % wrap + k, p / wrap, wrap);
  }

  function PointerGap(wrap: nat, a: nat, b: nat): nat
    requires a < wrap && b < wrap
  {
    (a - b + wrap) % wrap
  }

  lemma GapIs(wrap: nat, a: nat, b: nat)
    requires 0 < wrap && b <= a < b + wrap
    ensures PointerGap(wrap, Turn(wrap, a), Turn(wrap, b)) == a - b
  {
    PointerDistance(wrap, a, b);
  }

  class Fifo {
    const inSegs: nat
    const segs: nat
    const rows: nat
    const mem: array2<Seg>

    var wrPtr: nat
    var wrPtrCur: nat
    var rdPtr: nat
    var count: nat
    var wrAddr: seq<nat>
    var rdAddr: seq<nat>
    var rdValid: seq<bool>
    var rdReg: seq<Seg>
    var outValid: seq<bool>
    var outReg: seq<Seg>
    var outOffset: nat
    var full: bool

    // The plain queue these registers stand for.
    ghost var queue: Queue

    ghost predicate Valid()
      reads this, mem
    {
      && 1 <= inSegs && 2 <= segs && 3 <= rows && 0 < 2 * rows * segs && 3 * segs <= rows * segs
      && mem.Length0 == segs && mem.Length1 == rows
      && QueueInv(segs, rows * segs, queue)
      && Pointers() && Cells(segs, rows, mem, queue.log, queue.tail)
      && Addresses(segs, rows, wrAddr, |queue.log|) && Addresses(segs, rows, rdAddr, queue.tail)
      && Window(segs, outValid, outReg, queue.log, queue.head, queue.mid)
      && Window(segs, rdValid, rdReg, queue.log, queue.mid, queue.tail)
      && outOffset == Bank(segs, queue.head) && full == queue.full
    }

    ghost predicate Pointers()
      reads this
      requires 0 < 2 * rows * segs && Ordered(queue)
    {
      var wrap := 2 * rows * segs;
      && wrPtr == Turn(wrap, queue.committed) && wrPtrCur == Turn(wrap, |queue.log|) && rdPtr == Turn(wrap, queue.tail)
      && count == queue.committed - queue.tail
    }

    constructor (inSegs: nat, segs: nat, rows: nat, blank: Seg)
      requires 1 <= inSegs && 2 <= segs && 3 <= rows
      ensures Valid() && fresh(mem) && queue == EMPTY && this.inSegs == inSegs && this.segs == segs && this.rows == rows
    {
      this.inSegs, this.segs, this.rows := inSegs, segs, rows;
      mem := new Seg[segs, rows]((i, j) => blank);
      wrPtr, wrPtrCur, rdPtr, count := 0, 0, 0, 0;
      wrAddr, rdAddr := seq(segs, _ => 0), seq(segs, _ => 0);
      rdValid, rdReg, outValid, outReg := seq(segs, _ => false), seq(segs, _ => blank), seq(segs, _ => false),
        seq(segs, _ => blank);
      outOffset, full, queue := 0, false, EMPTY;
      new;
      Initial(segs, rows);
    }

    // The read side of a clock, as next-state values.
    method ReadSide(take: nat)
      returns (n: nat, outV: seq<bool>, outR: seq<Seg>, offset: nat, rdV: seq<bool>, rdR: seq<Seg>, rdA: seq<nat>)
      requires Valid()
      ensures var q' := Step(segs, rows * segs, queue, [], take);
              && q'.tail == queue.tail + n && offset == Bank(segs, q'.head)
              && Window(segs, outV, outR, queue.log, q'.head, q'.mid) &&
                 Window(segs, rdV, rdR, queue.log, q'.mid, q'.tail)
              && Addresses(segs, rows, rdA, q'.tail)
    {
      hide Cells, Addresses, NextIn, Bank, Shows, FrameEnd;
      ghost var q := queue;
      ghost var head := q.head + Min(take, q.mid - q.head);
      ghost var mid := Min(q.tail, head + segs);
      var outFree, rdFree;
      AddressCount(segs, rows, rdAddr, q.tail);
      outFree, offset := Invalidate(segs, outValid, outOffset, take, outReg, q.log, q.head, q.mid);
      outV, outR, rdFree := RegisterSegments(segs, outFree, outReg, rdValid, rdReg, q.log, head, q.mid, q.tail);
      n, rdV, rdR, rdA := ReadSegments(segs, rows, mem, rdPtr, count, rdFree, rdReg, rdAddr, q.log, mid, q.tail);
    }

    // The write side: the accepted lanes go to the banks, the commit pointer moves to the last frame end.
    method WriteSide(lanes: seq<Lane>) returns (ptr: nat, cur: nat, addr: seq<nat>)
      requires Valid() && |lanes| == segs
      requires inSegs == 1 && FrameEnd(Pack(lanes)) > 0 ==> FrameEnd(Pack(lanes)) == |Pack(lanes)|
      modifies mem
      ensures var q' := Step(segs, rows * segs, queue, Pack(lanes), 0);
              && ptr == Turn(2 * rows * segs, q'.committed) && cur == Turn(2 * rows * segs, |q'.log|)
              && Addresses(segs, rows, addr, |q'.log|) && Cells(segs, rows, mem, q'.log, queue.tail)
    {
      hide Addresses, NextIn, Bank, Shows, FrameEnd, Pack, Laid, Turn, Window;
      ghost var q, packed := queue, Pack(lanes);
      var wrap := 2 * rows * segs;
      WrapWhole(segs, rows);
      TurnBank(wrap, segs, |q.log|);
      var sel, segCount, eopSeg, anyEop := PackLanes(segs, lanes, wrPtrCur % segs, |q.log|);
      ptr, cur, addr := wrPtr, wrPtrCur, wrAddr;
      if !full {
        WriteBanks(segs, rows, mem, sel, wrAddr, q.log, packed, q.tail);
        TurnAdd(|q.log|, segCount, wrap);
        cur := Turn(wrap, wrPtrCur + segCount);
        addr := RoundAddresses(segs, rows, cur, |q.log| + segCount);
        if anyEop {
          if inSegs > 1 {
            TurnAdd(|q.log|, eopSeg + 1, wrap);
            ptr := Turn(wrap, wrPtrCur + (eopSeg + 1));
          } else {
            ptr := cur;
          }
        }
      }
    }

    // The clocked process: every register takes its next value.
    method Latch(ptr: nat, cur: nat, addr: seq<nat>, rd: nat, fullNext: bool, rdA: seq<nat>, rdV: seq<bool>,
                 rdR: seq<Seg>,
                 outV: seq<bool>, outR: seq<Seg>, offset: nat, ghost q: Queue)
      requires 1 <= inSegs && 2 <= segs && 3 <= rows && 0 < 2 * rows * segs && 3 * segs <= rows * segs
      requires mem.Length0 == segs && mem.Length1 == rows && QueueInv(segs, rows * segs, q)
      requires ptr == Turn(2 * rows * segs, q.committed) && cur == Turn(2 * rows * segs, |q.log|) &&
        rd == Turn(2 * rows * segs, q.tail)
      requires Cells(segs, rows, mem, q.log, q.tail) && fullNext == q.full && offset == Bank(segs, q.head)
      requires Addresses(segs, rows, addr, |q.log|) && Addresses(segs, rows, rdA, q.tail)
      requires Window(segs, outV, outR, q.log, q.head, q.mid) && Window(segs, rdV, rdR, q.log, q.mid, q.tail)
      modifies this
      ensures Valid() && queue == q
    {
      hide Addresses, Bank, FrameEnd, Turn, Window, Cells, PointerGap, QueueInv, Row, Ordered;
      CountIs(segs, rows, q);
      wrPtr, wrPtrCur, wrAddr, rdPtr, count := ptr, cur, addr, rd, PointerGap(2 * rows * segs, ptr, rd);
      rdAddr, rdValid, rdReg, outValid, outReg, outOffset := rdA, rdV, rdR, outV, outR, offset;
      full, queue := fullNext, q;
    }

    // One clock is one step of the queue.
    method Clock(input: seq<InSeg>, readEn: bool, readCount: nat)
      requires Valid() && |input| == inSegs && |Split(input)| == segs
      requires forall k :: 0 <= k < |input| ==> input[k].parts != []
      modifies this, mem
      ensures Valid()
      ensures queue == Step(segs, rows * segs, old(queue), Pack(Split(input)), if readEn then readCount else 0)
    {
      hide Addresses, NextIn, Bank, FrameEnd, Pack, Split, Turn, Window, Cells, PointerGap;
      var wrap, depth, take := 2 * rows * segs, rows * segs, if readEn then readCount else 0;
      ghost var q, q' := queue, Step(segs, depth, queue, Pack(Split(input)), take);
      ClockFacts(inSegs, segs, rows, q, input, take);
      var fullNext := PointerGap(wrap, wrPtrCur, rdPtr) >= depth - 2 * segs;
      hide Step, QueueInv, Ordered;
      var lanes := SplitInput(input);
      var n, outV, outR, offset, rdV, rdR, rdA := ReadSide(take);
      TurnAdd(q.tail, n, wrap);
      var rd := Turn(wrap, rdPtr + n);
      var ptr, cur, addr := WriteSide(lanes);
      WindowLog(segs, outV, outR, q.log, q'.log, q'.head, q'.mid);
      WindowLog(segs, rdV, rdR, q.log, q'.log, q'.mid, q'.tail);
      CellsLater(segs, rows, mem, q'.log, q.tail, q'.tail);
      Latch(ptr, cur, addr, rd, fullNext, rdA, rdV, rdR, outV, outR, offset, q');
    }
  }

  // What the queue's own laws say about a clock.
  lemma ClockFacts(inSegs: nat, segs: nat, rows: nat, q: Queue, input: seq<InSeg>, take: nat)
    requires 1 <= inSegs && 2 <= segs && 3 <= rows && 0 < 2 * rows * segs && 3 * segs <= rows * segs
    requires QueueInv(segs, rows * segs, q) && |input| == inSegs && |Split(input)| == segs
    requires forall k :: 0 <= k < |input| ==> input[k].parts != []
    ensures var wrap, depth, packed := 2 * rows * segs, rows * segs, Pack(Split(input));
      var q', r, w := Step(segs, depth, q, packed, take), Step(segs, depth, q, [], take),
          Step(segs, depth, q, packed, 0);
      && |packed| <= segs && QueueInv(segs, depth, q') && Ordered(q) && Ordered(q')
      && PointerGap(wrap, Turn(wrap, |q.log|), Turn(wrap, q.tail)) == |q.log| - q.tail
      && q'.full == (|q.log| - q.tail >= depth - 2 * segs)
      && q'.head == r.head && q'.mid == r.mid && q'.tail == r.tail && q.tail <= q'.tail
      && q'.log == w.log && q'.committed == w.committed && q.log <= q'.log
      && (inSegs == 1 && FrameEnd(packed) > 0 ==> FrameEnd(packed) == |packed|)
  {
    hide *;
    TwiceDepth(segs, rows);
    DepthFacts(inSegs, segs, rows * segs, 2 * rows * segs, q, input, take);
  }

  lemma DepthFacts(inSegs: nat, segs: nat, depth: nat, wrap: nat, q: Queue, input: seq<InSeg>, take: nat)
    requires 1 <= inSegs && 2 <= segs && 0 < wrap == 2 * depth && 3 * segs <= depth
    requires QueueInv(segs, depth, q) && |input| == inSegs && |Split(input)| == segs
    requires forall k :: 0 <= k < |input| ==> input[k].parts != []
    ensures var packed := Pack(Split(input));
      var q', r, w := Step(segs, depth, q, packed, take), Step(segs, depth, q, [], take),
          Step(segs, depth, q, packed, 0);
      && |packed| <= segs && QueueInv(segs, depth, q') && Ordered(q) && Ordered(q')
      && PointerGap(wrap, Turn(wrap, |q.log|), Turn(wrap, q.tail)) == |q.log| - q.tail
      && q'.full == (|q.log| - q.tail >= depth - 2 * segs)
      && q'.head == r.head && q'.mid == r.mid && q'.tail == r.tail && q.tail <= q'.tail
      && q'.log == w.log && q'.committed == w.committed && q.log <= q'.log
      && (inSegs == 1 && FrameEnd(packed) > 0 ==> FrameEnd(packed) == |packed|)
  {
    hide *;
    var packed := Pack(Split(input));
    PackedSize(input);
    OrderedOf(segs, depth, q);
    QueueKept(segs, depth, q, packed, take);
    OrderedOf(segs, depth, Step(segs, depth, q, packed, take));
    GapIs(wrap, |q.log|, q.tail);
    WholeFrame(inSegs, input);
    StepSides(segs, depth, q, packed, take);
    TailGrows(segs, depth, q, packed, take);
  }

  lemma WholeFrame(inSegs: nat, input: seq<InSeg>)
    requires |input| == inSegs && forall k :: 0 <= k < |input| ==> input[k].parts != []
    ensures var packed := Pack(Split(input)); inSegs == 1 && FrameEnd(packed) > 0 ==> FrameEnd(packed) == |packed|
  {
    hide Pack, Split, FrameEnd;
    if inSegs == 1 {
      SingleFrame(input[0]);
      assert input == [input[0]];
    }
  }

  // The words on offer are those between the read and the commit pointer.
  lemma CountIs(segs: nat, rows: nat, q: Queue)
    requires 0 < segs && 0 < rows && 0 < 2 * rows * segs && QueueInv(segs, rows * segs, q)
    ensures Ordered(q) && 0 <= q.committed - q.tail
    ensures var wrap := 2 * rows * segs;
      PointerGap(wrap, Turn(wrap, q.committed), Turn(wrap, q.tail)) == q.committed - q.tail
  {
    hide *;
    TwiceDepth(segs, rows);
    OfferedIs(segs, rows * segs, 2 * rows * segs, q);
  }

  lemma OfferedIs(segs: nat, depth: nat, wrap: nat, q: Queue)
    requires 0 < wrap == 2 * depth && QueueInv(segs, depth, q)
    ensures Ordered(q) && 0 <= q.committed - q.tail
    ensures PointerGap(wrap, Turn(wrap, q.committed), Turn(wrap, q.tail)) == q.committed - q.tail
  {
    GapIs(wrap, q.committed, q.tail);
    hide Turn, PointerGap, FrameEnd;
  }

  lemma OrderedOf(segs: nat, depth: nat, q: Queue)
    requires QueueInv(segs, depth, q)
    ensures Ordered(q) && q.tail <= |q.log| && |q.log| - q.tail <= depth
  {
  }

  lemma TailGrows(segs: nat, depth: nat, q: Queue, packed: seq<Seg>, take: nat)
    requires QueueInv(segs, depth, q)
    ensures Ordered(q) && q.tail <= Step(segs, depth, q, packed, take).tail
  {
    hide FrameEnd;
  }

  lemma PackedSize(input: seq<InSeg>)
    ensures |Pack(Split(input))| <= |Split(input)|
  {
  }

  // Reading and writing touch different parts of the queue.
  lemma StepSides(segs: nat, depth: nat, q: Queue, packed: seq<Seg>, take: nat)
    requires Ordered(q)
    ensures var q', r, w := Step(segs, depth, q, packed, take), Step(segs, depth, q, [], take),
      Step(segs, depth, q, packed, 0);
            && q'.head == r.head && q'.mid == r.mid && q'.tail == r.tail
            && q'.log == w.log && q'.committed == w.committed && q.log <= q'.log
            && q'.full == (|q.log| - q.tail >= depth - 2 * segs)
  {
  }

  lemma AddressCount(segs: nat, rows: nat, addr: seq<nat>, p: nat)
    requires 0 < rows && Addresses(segs, rows, addr, p)
    ensures |addr| == segs
  {
  }

  lemma CellsLater(segs: nat, rows: nat, mem: array2<Seg>, log: seq<Seg>, lo: nat, lo': nat)
    requires 0 < segs && 0 < rows && mem.Length0 == segs && mem.Length1 == rows && Cells(segs, rows, mem, log, lo) &&
      lo <= lo'
    ensures Cells(segs, rows, mem, log, lo')
  {
  }

  lemma TurnBank(wrap: nat, segs: nat, p: nat)
    requires 0 < wrap && 0 < segs && wrap % segs == 0
    ensures Turn(wrap, p) % segs == Bank(segs, p)
  {
    ModOfMultiple(p, wrap, segs);
  }

  lemma TurnAdd(p: nat, k: nat, wrap: nat)
    requires 0 < wrap
    ensures Turn(wrap, Turn(wrap, p) + k) == Turn(wrap, p + k)
  {
    AddWrapped(p, k, wrap);
  }

  lemma Initial(segs: nat, rows: nat)
    requires 2 <= segs && 3 <= rows
    ensures 0 < 2 * rows * segs && 3 * segs <= rows * segs
    ensures forall b :: 0 <= b < segs ==> NextIn(segs, b, 0) == b && Row(segs, rows, b) == 0
  {
    MulOrder(3, rows + 1, segs);
    forall b | 0 <= b < segs ensures NextIn(segs, b, 0) == b && Row(segs, rows, b) == 0 {
      DivUnique(b, segs, 0);
      FirstIn(segs, b, 0, b);
    }
  }
}
