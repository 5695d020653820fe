// Which words a read descriptor needs, and which bytes each output beat must carry.
module AxiDmaReadData {
  import opened Arith
  import opened BurstPlanner
  import opened AxiBus
  import opened AxiDma
  import opened AxiDmaRead

  // Words fetched, and stream beats produced, for a descriptor.
  function InBeats(c: Config, d: Desc): (n: nat)
    requires c.Ok()
    ensures 0 < n
  {
    BeatCount(c.strb, LoadAddr(c, d), d.len)
  }

  function OutBeats(c: Config, d: Desc): (n: nat)
    requires c.Ok()
    ensures 0 < n
  {
    (d.len - 1) / c.strb + 1
  }

  // Byte offset of the data inside its first word; nonzero means a bubble cycle.
  function Skew(c: Config, d: Desc): (k: nat)
    requires c.Ok()
    ensures k < c.strb
  {
    LoadAddr(c, d) % c.strb
  }

  function FirstRow(c: Config, d: Desc): nat
    requires c.Ok()
  {
    RowOf(c.strb, LoadAddr(c, d))
  }

  function KeepCount(strb: nat, len: nat, j: nat): int {
    if len - j * strb < strb then len - j * strb else strb
  }

  // Beat j of descriptor d: the kept lanes are bytes j*strb .. of the requested range, in order,
  // and tlast marks the final beat only.
  predicate GoodBeat(c: Config, mem: seq<Word>, d: Desc, j: nat, b: Beat)
    requires c.Ok() && MemoryOk(c.strb, mem)
  {
    && |b.data| == c.strb
    && b.keep == KeepCount(c.strb, d.len, j)
    && b.last == (j + 1 == OutBeats(c, d))
    && b.tag == d.tag
    && forall i :: 0 <= i < b.keep <= c.strb ==> b.data[i] == ByteAt(c.strb, mem, LoadAddr(c, d) + j * c.strb + i)
  }

  // What the handed-over command says about the descriptor.
  lemma CmdMeaning(c: Config, d: Desc)
    requires c.Ok()
    ensures var m := LoadCmd(c, d);
            && m.inCount == InBeats(c, d) - 1
            && m.outCount == OutBeats(c, d) - 1
            && m.offset == (if Skew(c, d) == 0 then 0 else c.strb - Skew(c, d))
            && m.bubble == (Skew(c, d) > 0)
            && m.lastOffset == d.len % c.strb
            && m.tag == d.tag
            && (!c.unaligned ==> m.offset == 0)
  {
    if c.unaligned {
      if Skew(c, d) == 0 {
        DivUnique(c.strb, c.strb, 1);
      } else {
        DivUnique(c.strb - Skew(c, d), c.strb, 0);
      }
    } else {
      LoadAddrAligned(c, d);
    }
  }

  lemma OutBounds(strb: nat, len: pos, j: nat)
    requires 0 < strb && j < (len - 1) / strb + 1
    ensures 1 <= KeepCount(strb, len, j) <= strb
    ensures j < (len - 1) / strb ==> KeepCount(strb, len, j) == strb
    ensures j == (len - 1) / strb ==>
              KeepCount(strb, len, j) == (if len % strb > 0 then len % strb else strb)
  {
    DivBounds(len - 1, strb);
    MulOrder(j, (len - 1) / strb, strb);
    if j == (len - 1) / strb {
      if len - j * strb < strb {
        DivUnique(len, strb, j);
      } else {
        MultipleOf(j + 1, strb);
      }
    }
  }

  lemma CeilingShift(x: nat, k: nat, s: nat, q: int, q': int)
    requires k < s && q * s <= x < q * s + s && q' * s <= x + k < q' * s + s
    ensures q <= q' <= q + 1
    ensures k == 0 ==> q' == q
    ensures q' == q ==> x - q * s < s - k
  {
    MulOrder(q, q', s);
    MulOrder(q + 1, q', s);
    assert (q + 1) * s == q * s + s;
  }

  // The input and output beat counts differ by at most the bubble; when they coincide despite a
  // bubble, the tail already sits in the saved word.
  lemma BeatRelation(c: Config, d: Desc)
    requires c.Ok()
    ensures Skew(c, d) == 0 ==> InBeats(c, d) == OutBeats(c, d)
    ensures OutBeats(c, d) <= InBeats(c, d) <= OutBeats(c, d) + 1
    ensures InBeats(c, d) == OutBeats(c, d) ==>
              KeepCount(c.strb, d.len, OutBeats(c, d) - 1) <= c.strb - Skew(c, d)
  {
    var k, s := Skew(c, d), c.strb;
    DivBounds(d.len - 1, s);
    DivBounds(d.len - 1 + k, s);
    assert InBeats(c, d) - 1 == (d.len - 1 + k) / s;
    hide InBeats, Skew, LoadAddr;
    CeilingShift(d.len - 1, k, s, (d.len - 1) / s, (d.len - 1 + k) / s);
  }

  lemma Locate(s: nat, base: nat, row: nat, k: nat, j: nat, i: nat)
    requires base == row * s + k
    ensures base + j * s + i == (row + j) * s + (k + i) == (row + j + 1) * s + (k + i - s)
  {
  }

  // Byte i of output beat j sits in word j or j + 1, shifted by the skew.
  lemma ByteSource(c: Config, mem: seq<Word>, d: Desc, j: nat, i: nat)
    requires c.Ok() && MemoryOk(c.strb, mem) && i < c.strb
    ensures ByteAt(c.strb, mem, LoadAddr(c, d) + j * c.strb + i)
         == (if Skew(c, d) + i < c.strb then WordAt(mem, FirstRow(c, d) + j)[Skew(c, d) + i]
             else WordAt(mem, FirstRow(c, d) + j + 1)[Skew(c, d) + i - c.strb])
  {
    var row, k := FirstRow(c, d), Skew(c, d);
    DivBounds(LoadAddr(c, d), c.strb);
    Locate(c.strb, LoadAddr(c, d), row, k, j, i);
    hide *;
    if k + i < c.strb {
      ByteInWord(c.strb, mem, row + j, k + i);
    } else {
      ByteInWord(c.strb, mem, row + j + 1, k + i - c.strb);
    }
  }

  // The realignment shifter puts the right bytes on the kept lanes.
  lemma ShiftedIsGood(c: Config, mem: seq<Word>, d: Desc, j: nat, save: Word, rData: Word, b: Beat)
    requires c.Ok() && MemoryOk(c.strb, mem) && |save| == c.strb && |rData| == c.strb
    requires j < OutBeats(c, d)
    requires Skew(c, d) == 0 ==> rData == WordAt(mem, FirstRow(c, d) + j)
    requires Skew(c, d) > 0 ==> save == WordAt(mem, FirstRow(c, d) + j)
    requires Skew(c, d) > 0 && KeepCount(c.strb, d.len, j) > c.strb - Skew(c, d) ==>
               rData == WordAt(mem, FirstRow(c, d) + j + 1)
    requires b.data == Shifted(c, if Skew(c, d) == 0 then 0 else c.strb - Skew(c, d), save, rData)
    requires b.last == (j + 1 == OutBeats(c, d)) && b.tag == d.tag
    requires b.keep == if b.last && d.len % c.strb > 0 then d.len % c.strb else c.strb
    ensures GoodBeat(c, mem, d, j, b)
  {
    OutBounds(c.strb, d.len, j);
    hide KeepCount, ByteAt, FirstRow, LoadAddr, Skew, OutBeats, RowOf;
    forall i | 0 <= i < b.keep ensures b.data[i] == ByteAt(c.strb, mem, LoadAddr(c, d) + j * c.strb + i) {
      ByteSource(c, mem, d, j, i);
    }
  }
}
