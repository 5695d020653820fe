// Values on the AXI and AXI-Stream buses, and word memory.
module AxiBus {
  import opened Arith
  import opened BurstPlanner

  type Byte = x: int | 0 <= x < 256

  // One bus-wide row: strb bytes, lane 0 first.
  type Word = seq<Byte>

  datatype Resp = OKAY | EXOKAY | SLVERR | DECERR {
    predicate Failed() {
      SLVERR? || DECERR?
    }
  }

  // The most recent failing response, OKAY if none failed.
  function LastFailure(resps: seq<Resp>): Resp {
    if resps == [] then OKAY
    else if resps[|resps| - 1].Failed() then resps[|resps| - 1]
    else LastFailure(resps[..|resps| - 1])
  }

  // A stream beat. The engines only ever produce tkeep masks with the low `keep` lanes set.
  datatype Beat = Beat(data: Word, keep: nat, last: bool, tag: nat)

  // An address request: len is the number of beats less one.
  datatype Aw = Aw(addr: nat, len: nat)

  predicate MemoryOk(strb: nat, mem: seq<Word>) {
    0 < strb && 0 < |mem| && forall i :: 0 <= i < |mem| ==> |mem[i]| == strb
  }

  // Row numbers and byte addresses wrap at the top of the memory.
  function WordAt(mem: seq<Word>, row: nat): Word
    requires 0 < |mem|
  {
    mem[row % |mem|]
  }

  lemma WordWraps(mem: seq<Word>, row: nat)
    requires 0 < |mem|
    ensures WordAt(mem, row % |mem|) == WordAt(mem, row)
  {
  }

  function ByteAt(strb: nat, mem: seq<Word>, addr: nat): Byte
    requires MemoryOk(strb, mem)
  {
    WordAt(mem, addr / strb)[addr % strb]
  }

  // Byte `lane` of the w-th word counted from address 0.
  lemma ByteInWord(strb: nat, mem: seq<Word>, w: nat, lane: nat)
    requires MemoryOk(strb, mem) && lane < strb
    ensures ByteAt(strb, mem, w * strb + lane) == WordAt(mem, w)[lane]
  {
    DivUnique(w * strb + lane, strb, w);
  }

  // The rows first, first + 1, ... of a memory of `rows` rows, wrapping at its end.
  function Rows(rows: nat, first: nat, n: nat): (s: seq<nat>)
    requires 0 < rows
    ensures |s| == n
  {
    seq(n, i requires 0 <= i < n => (first + i) % rows)
  }

  lemma RowsJoin(rows: nat, first: nat, n: nat, m: nat)
    requires 0 < rows
    ensures Rows(rows, first, n) + Rows(rows, first + n, m) == Rows(rows, first, n + m)
  {
  }

  lemma SameRows(rows: nat, q: nat, n: nat)
    requires 0 < rows
    ensures Rows(rows, q % rows, n) == Rows(rows, q, n)
  {
    forall i | 0 <= i < n ensures Rows(rows, q % rows, n)[i] == Rows(rows, q, n)[i] {
      DivBounds(q, rows);
      AddMultiple(q % rows + i, q / rows, rows);
    }
  }

  lemma RowsDrop(rows: nat, first: nat, n: nat)
    requires 0 < rows && 0 < n
    ensures Rows(rows, first, n)[0] == first % rows
    ensures Rows(rows, first, n)[1..] == Rows(rows, first + 1, n - 1)
  {
  }

  // Rows that do not reach the end of the memory are just consecutive.
  lemma RowsUnwrapped(rows: nat, first: nat, n: nat)
    requires 0 < rows && first % rows + n <= rows
    ensures Rows(rows, first, n) == Consecutive(first % rows, n)
  {
    forall i | 0 <= i < n ensures Rows(rows, first, n)[i] == Consecutive(first % rows, n)[i] {
      DivBounds(first, rows);
      DivUnique(first + i, rows, first / rows);
    }
  }

  // A burst stays in its page, so the rows it reads do not wrap even though its address register has.
  lemma BurstRows(strb: nat, maxBeats: nat, space: nat, b: Burst)
    requires Geometry(strb, maxBeats) && 0 < space && space % PAGE == 0
    requires LegalBurst(strb, maxBeats, b)
    ensures 0 < space / strb
    ensures Consecutive(RowOf(strb, b.addr % space), BeatCount(strb, b.addr, b.bytes))
         == Rows(space / strb, RowOf(strb, b.addr), BeatCount(strb, b.addr, b.bytes))
  {
    RowsInSpace(strb, maxBeats, space, b);
    ModOfMultiple(b.addr, space, strb);
    hide BeatCount, LegalBurst, Geometry;
    RowsUnwrapped(space / strb, b.addr / strb, BeatCount(strb, b.addr, b.bytes));
  }

  lemma RowsInSpace(strb: nat, maxBeats: nat, space: nat, b: Burst)
    requires Geometry(strb, maxBeats) && 0 < space && space % PAGE == 0
    requires LegalBurst(strb, maxBeats, b)
    ensures space % strb == 0 && 0 < space / strb
    ensures (b.addr % space) / strb + BeatCount(strb, b.addr, b.bytes) <= space / strb
  {
    ModOfMultiple(space, PAGE, strb);
    DivBounds(space, strb);
    var a := b.addr % space;
    ModOfMultiple(b.addr, space, PAGE);
    ModOfMultiple(b.addr, space, strb);
    PageRoom(space, a);
    assert a + b.bytes <= space;
    DivBounds(a, strb);
    DivBounds(b.bytes + a % strb - 1, strb);
    var last := a / strb + (b.bytes + a % strb - 1) / strb;
    hide *;
    assert last * strb == a / strb * strb + (b.bytes + a % strb - 1) / strb * strb;
    MulOrder(last, space / strb, strb);
  }

  lemma PageRoom(space: nat, a: nat)
    requires 0 < space && space % PAGE == 0 && a < space
    ensures a - a % PAGE + PAGE <= space
  {
    DivBounds(a, PAGE);
    MultipleOf(a / PAGE, PAGE);
    NextMultiple(a - a % PAGE, space, PAGE);
  }
}
