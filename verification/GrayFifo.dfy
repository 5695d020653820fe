// logic_async_fifo: two clocks, each domain seeing the other's pointer as a Gray code that went
// through two registers. The clocks may tick in any order or together; when they tick together the
// sampled code may catch every changing bit before or after its change.
module GrayFifo {
  import opened Arith
  import opened GrayCode

  // depth: address bits; pointers have one bit more.
  datatype Regs = Regs(
    wr: nat, rd: nat, rdSync1: Bits, rdSync2: Bits, wrSync1: Bits, wrSync2: Bits,
    mem: seq<nat>, q: nat)

  // Which clocks tick, what the two sides ask for, and the codes sampled across the boundary.
  datatype Tick = Tick(wrClk: bool, rdClk: bool, wrEn: bool, rdEn: bool, data: nat, rdSample: Bits, wrSample: Bits)

  predicate Typed(depth: nat, r: Regs) {
    && 2 <= depth && r.wr < Pow2(depth + 1) && r.rd < Pow2(depth + 1)
    && |r.rdSync1| == |r.rdSync2| == |r.wrSync1| == |r.wrSync2| == depth + 1
    && |r.mem| == Pow2(depth)
  }

  predicate Full(depth: nat, r: Regs)
    requires Typed(depth, r)
  {
    Gray(depth + 1, Next(depth + 1, r.wr)) == InvertTopTwo(r.rdSync2)
  }

  predicate Empty(depth: nat, r: Regs)
    requires Typed(depth, r)
  {
    Gray(depth + 1, r.rd) == r.wrSync2
  }

  predicate Writes(depth: nat, r: Regs, t: Tick)
    requires Typed(depth, r)
  {
    t.wrClk && t.wrEn && !Full(depth, r)
  }

  predicate Reads(depth: nat, r: Regs, t: Tick)
    requires Typed(depth, r)
  {
    t.rdClk && t.rdEn && !Empty(depth, r)
  }

  function Address(depth: nat, p: nat): (a: nat)
    ensures a < Pow2(depth)
  {
    p % Pow2(depth)
  }

  lemma NextFits(n: nat, x: nat)
    ensures Next(n, x) < Pow2(n)
  {
  }

  function Step(depth: nat, r: Regs, t: Tick): (r': Regs)
    requires Typed(depth, r) && |t.rdSample| == |t.wrSample| == depth + 1
    ensures Typed(depth, r')
  {
    var w, d := Writes(depth, r, t), Reads(depth, r, t);
    NextFits(depth + 1, r.wr);
    NextFits(depth + 1, r.rd);
    Regs(
      if w then Next(depth + 1, r.wr) else r.wr, if d then Next(depth + 1, r.rd) else r.rd,
      if t.wrClk then t.rdSample else r.rdSync1, if t.wrClk then r.rdSync1 else r.rdSync2,
      if t.rdClk then t.wrSample else r.wrSync1, if t.rdClk then r.wrSync1 else r.wrSync2,
      if w then r.mem[Address(depth, r.wr) := t.data] else r.mem,
      if d then r.mem[Address(depth, r.rd)] else r.q)
  }

  // A code sampled while the source may be moving from x to y: each bit is taken before or after.
  predicate Sampled(n: nat, g: Bits, x: nat, y: nat) {
    |g| == n && forall i :: 0 <= i < n ==> g[i] == Gray(n, x)[i] || g[i] == Gray(n, y)[i]
  }

  // A single step of the source leaves no room for a third value.
  lemma SampleIsReal(n: nat, g: Bits, x: nat)
    requires 0 < n && x < Pow2(n) && Sampled(n, g, x, Next(n, x))
    ensures g == Gray(n, x) || g == Gray(n, Next(n, x))
  {
    var k := GrayOneBit(n, x);
    hide Gray, Next;
    if g[k] == Gray(n, x)[k] {
      assert forall i :: 0 <= i < n ==> g[i] == Gray(n, x)[i];
    } else {
      assert forall i :: 0 <= i < n ==> g[i] == Gray(n, Next(n, x))[i];
    }
  }

  // Ticking alone a domain samples a settled code; ticking together it may catch the change.
  predicate Environment(depth: nat, r: Regs, t: Tick)
    requires Typed(depth, r)
  {
    && (t.wrClk ==> Sampled(depth + 1, t.rdSample, r.rd, if Reads(depth, r, t) then Next(depth + 1, r.rd) else r.rd))
    && (t.rdClk ==> Sampled(depth + 1, t.wrSample, r.wr, if Writes(depth, r, t) then Next(depth + 1, r.wr) else r.wr))
    && |t.rdSample| == |t.wrSample| == depth + 1
  }

  // ----- The true counts -----

  // log: every word written; read: how many were read; the rest: the counts behind the synchronizers.
  datatype Ghost = Ghost(log: seq<nat>, read: nat, rd1: nat, rd2: nat, wr1: nat, wr2: nat)

  function Pointer(depth: nat, count: nat): (p: nat)
    ensures p < Pow2(depth + 1)
  {
    count % Pow2(depth + 1)
  }

  function GhostStep(depth: nat, r: Regs, g: Ghost, t: Tick): Ghost
    requires Typed(depth, r)
  {
    var w, d := Writes(depth, r, t), Reads(depth, r, t);
    Ghost(
      if w then g.log + [t.data] else g.log, if d then g.read + 1 else g.read,
      if t.wrClk then (if t.rdSample == Gray(depth + 1, r.rd) then g.read else g.read + 1) else g.rd1,
      if t.wrClk then g.rd1 else g.rd2,
      if t.rdClk then (if t.wrSample == Gray(depth + 1, r.wr) then |g.log| else |g.log| + 1) else g.wr1,
      if t.rdClk then g.wr1 else g.wr2)
  }

  // Every synchronized code is one the source really held, and the counts are in order.
  predicate Order(depth: nat, g: Ghost) {
    && g.rd2 <= g.rd1 <= g.read <= g.wr2 <= g.wr1 <= |g.log|
    && |g.log| - g.rd2 <= Pow2(depth) - 1
  }

  predicate Codes(depth: nat, r: Regs, g: Ghost) {
    && r.wr == Pointer(depth, |g.log|) && r.rd == Pointer(depth, g.read)
    && r.rdSync1 == Gray(depth + 1, Pointer(depth, g.rd1)) && r.rdSync2 == Gray(depth + 1, Pointer(depth, g.rd2))
    && r.wrSync1 == Gray(depth + 1, Pointer(depth, g.wr1)) && r.wrSync2 == Gray(depth + 1, Pointer(depth, g.wr2))
  }

  predicate Cells(depth: nat, mem: seq<nat>, log: seq<nat>, from: nat)
    requires |mem| == Pow2(depth)
  {
    forall p :: from <= p < |log| ==> mem[Address(depth, p)] == log[p]
  }

  predicate Inv(depth: nat, r: Regs, g: Ghost) {
    Typed(depth, r) && Order(depth, g) && Codes(depth, r, g) && Cells(depth, r.mem, g.log, g.read)
  }

  lemma PointerNext(depth: nat, count: nat)
    ensures Next(depth + 1, Pointer(depth, count)) == Pointer(depth, count + 1)
  {
    var m := Pow2(depth + 1);
    DivBounds(count, m);
    AddMultiple(count % m + 1, count / m, m);
  }

  lemma PointerSame(depth: nat, a: nat, b: nat)
    requires a <= b < a + Pow2(depth + 1) && Pointer(depth, a) == Pointer(depth, b)
    ensures a == b
  {
    var m := Pow2(depth + 1);
    DivBounds(a, m);
    DivBounds(b, m);
    MulOrder(a / m, b / m, m);
  }

  lemma PointerHalf(depth: nat, count: nat)
    ensures HalfTurn(depth + 1, Pointer(depth, count)) == Pointer(depth, count + Pow2(depth))
  {
    var m := Pow2(depth + 1);
    DivBounds(count, m);
    AddMultiple(count % m + Pow2(depth), count / m, m);
  }

  lemma PointerFits(depth: nat, count: nat)
    ensures Pointer(depth, count) < Pow2(depth + 1)
  {
  }

  lemma FullTest(depth: nat, r: Regs, g: Ghost)
    requires Typed(depth, r) && Codes(depth, r, g)
    ensures 2 <= depth + 1
    ensures Full(depth, r) == (Gray(depth + 1, Next(depth + 1, Pointer(depth, |g.log|)))
                               == InvertTopTwo(Gray(depth + 1, Pointer(depth, g.rd2))))
  {
    hide Gray, Next, Pointer, InvertTopTwo, Pow2;
  }

  // The full test compares with the code half a turn ahead of the reader.
  lemma FullCode(depth: nat, r: Regs, g: Ghost)
    requires Typed(depth, r) && Codes(depth, r, g)
    ensures Full(depth, r)
         == (Gray(depth + 1, Pointer(depth, |g.log| + 1)) == Gray(depth + 1, Pointer(depth, g.rd2 + Pow2(depth))))
  {
    hide *;
    FullTest(depth, r, g);
    PointerNext(depth, |g.log|);
    PointerHalf(depth, g.rd2);
    PointerFits(depth, g.rd2);
    GrayHalfTurn(depth + 1, Pointer(depth, g.rd2));
  }

  lemma SamePointers(depth: nat, a: nat, b: nat)
    requires a <= b < a + Pow2(depth + 1) && Gray(depth + 1, Pointer(depth, a)) == Gray(depth + 1, Pointer(depth, b))
    ensures a == b
  {
    hide Gray, Pointer, Pow2;
    GrayInjective(depth + 1, Pointer(depth, a), Pointer(depth, b));
    PointerSame(depth, a, b);
  }

  // full is asserted exactly when one more word would fill the memory, as far as the writer can tell.
  lemma FullMeans(depth: nat, r: Regs, g: Ghost)
    requires Inv(depth, r, g)
    ensures Full(depth, r) == (|g.log| - g.rd2 == Pow2(depth) - 1)
  {
    hide *;
    InvParts(depth, r, g);
    FullCode(depth, r, g);
    OrderBound(depth, g);
    if Gray(depth + 1, Pointer(depth, |g.log| + 1)) == Gray(depth + 1, Pointer(depth, g.rd2 + Pow2(depth))) {
      SamePointers(depth, |g.log| + 1, g.rd2 + Pow2(depth));
    }
  }

  lemma InvParts(depth: nat, r: Regs, g: Ghost)
    requires Inv(depth, r, g)
    ensures Typed(depth, r) && Order(depth, g) && Codes(depth, r, g) && Cells(depth, r.mem, g.log, g.read)
  {
  }

  lemma OrderBound(depth: nat, g: Ghost)
    requires Order(depth, g)
    ensures g.rd2 <= |g.log| && |g.log| + 1 <= g.rd2 + Pow2(depth) && Pow2(depth + 1) == 2 * Pow2(depth)
  {
  }

  lemma EmptyMeans(depth: nat, r: Regs, g: Ghost)
    requires Inv(depth, r, g)
    ensures Empty(depth, r) == (g.read == g.wr2)
  {
    hide Gray, Pointer, Cells;
    assert Pow2(depth + 1) == 2 * Pow2(depth);
    if Empty(depth, r) {
      GrayInjective(depth + 1, Pointer(depth, g.read), Pointer(depth, g.wr2));
      PointerSame(depth, g.read, g.wr2);
    }
  }

  lemma AddressOf(depth: nat, count: nat)
    ensures Address(depth, Pointer(depth, count)) == Address(depth, count)
  {
    assert Pow2(depth + 1) == 2 * Pow2(depth);
    MultipleOf(2, Pow2(depth));
    ModOfMultiple(count, Pow2(depth + 1), Pow2(depth));
  }

  lemma AddressesDiffer(depth: nat, p: nat, q: nat)
    requires p < q < p + Pow2(depth)
    ensures Address(depth, p) != Address(depth, q)
  {
    var m := Pow2(depth);
    DivBounds(p, m);
    DivBounds(q, m);
    MulOrder(p / m, q / m, m);
  }

  // ----- One tick of either clock, or both -----

  lemma SampledRead(depth: nat, r: Regs, g: Ghost, t: Tick)
    requires Inv(depth, r, g) && Environment(depth, r, t) && t.wrClk
    ensures t.rdSample == Gray(depth + 1, Pointer(depth, g.read))
            || (Reads(depth, r, t) && t.rdSample == Gray(depth + 1, Pointer(depth, g.read + 1)))
  {
    PointerNext(depth, g.read);
    if Reads(depth, r, t) {
      SampleIsReal(depth + 1, t.rdSample, r.rd);
    } else {
      SampledStill(depth + 1, t.rdSample, r.rd);
    }
    hide Gray, Next, Pointer, Cells, Sampled;
  }

  lemma SampledWrite(depth: nat, r: Regs, g: Ghost, t: Tick)
    requires Inv(depth, r, g) && Environment(depth, r, t) && t.rdClk
    ensures t.wrSample == Gray(depth + 1, Pointer(depth, |g.log|))
            || (Writes(depth, r, t) && t.wrSample == Gray(depth + 1, Pointer(depth, |g.log| + 1)))
  {
    PointerNext(depth, |g.log|);
    if Writes(depth, r, t) {
      SampleIsReal(depth + 1, t.wrSample, r.wr);
    } else {
      SampledStill(depth + 1, t.wrSample, r.wr);
    }
    hide Gray, Next, Pointer, Cells, Sampled;
  }

  lemma SampledStill(n: nat, g: Bits, x: nat)
    requires Sampled(n, g, x, x)
    ensures g == Gray(n, x)
  {
    hide Gray;
  }

  lemma CellsKept(depth: nat, mem: seq<nat>, log: seq<nat>, from: nat, data: nat)
    requires |mem| == Pow2(depth) && Cells(depth, mem, log, from) && |log| < from + Pow2(depth)
    ensures Cells(depth, mem[Address(depth, |log|) := data], log + [data], from)
  {
    var mem', log' := mem[Address(depth, |log|) := data], log + [data];
    forall p | from <= p < |log'| ensures mem'[Address(depth, p)] == log'[p] {
      if p < |log| {
        AddressesDiffer(depth, p, |log|);
      }
    }
  }

  lemma OrderKept(depth: nat, r: Regs, g: Ghost, t: Tick)
    requires Inv(depth, r, g) && Environment(depth, r, t)
    ensures Order(depth, GhostStep(depth, r, g, t))
  {
    FullMeans(depth, r, g);
    EmptyMeans(depth, r, g);
    if t.wrClk {
      SampledRead(depth, r, g, t);
    }
    if t.rdClk {
      SampledWrite(depth, r, g, t);
    }
    hide Gray, Next, Pointer, Cells, Sampled, Full, Empty, Environment, Pow2;
  }

  predicate WriteCodes(depth: nat, r: Regs, g: Ghost) {
    && r.wr == Pointer(depth, |g.log|)
    && r.rdSync1 == Gray(depth + 1, Pointer(depth, g.rd1)) && r.rdSync2 == Gray(depth + 1, Pointer(depth, g.rd2))
  }

  lemma WriteParts(depth: nat, r: Regs, g: Ghost, t: Tick)
    requires Inv(depth, r, g) && Environment(depth, r, t)
    ensures Typed(depth, r) && |t.rdSample| == |t.wrSample| == depth + 1
    ensures WriteCodes(depth, r, g) && r.rd == Pointer(depth, g.read)
    ensures var r', w := Step(depth, r, t), Writes(depth, r, t);
      && r'.wr == (if w then Next(depth + 1, r.wr) else r.wr)
      && r'.rdSync1 == (if t.wrClk then t.rdSample else r.rdSync1) &&
         r'.rdSync2 == (if t.wrClk then r.rdSync1 else r.rdSync2)
    ensures var g', w := GhostStep(depth, r, g, t), Writes(depth, r, t);
      && |g'.log| == (if w then |g.log| + 1 else |g.log|)
      && g'.rd1 == (if !t.wrClk then g.rd1 else if t.rdSample == Gray(depth + 1, r.rd) then g.read else g.read + 1)
      && g'.rd2 == (if t.wrClk then g.rd1 else g.rd2)
  {
    hide Gray, Next, Pointer, Cells, Sampled, Full, Empty, Pow2, Address, Order, Writes, Reads;
  }

  lemma WriteCodesAre(depth: nat, r: Regs, g: Ghost)
    requires r.wr == Pointer(depth, |g.log|)
    requires r.rdSync1 == Gray(depth + 1, Pointer(depth, g.rd1)) && r.rdSync2 == Gray(depth + 1, Pointer(depth, g.rd2))
    ensures WriteCodes(depth, r, g)
  {
  }

  lemma WriteCodesFacts(depth: nat, r: Regs, g: Ghost)
    requires WriteCodes(depth, r, g)
    ensures r.wr == Pointer(depth, |g.log|)
    ensures r.rdSync1 == Gray(depth + 1, Pointer(depth, g.rd1)) && r.rdSync2 == Gray(depth + 1, Pointer(depth, g.rd2))
  {
  }

  lemma WriteCodesKept(depth: nat, r: Regs, g: Ghost, t: Tick)
    requires Inv(depth, r, g) && Environment(depth, r, t)
    ensures WriteCodes(depth, Step(depth, r, t), GhostStep(depth, r, g, t))
  {
    hide *;
    WriteParts(depth, r, g, t);
    WriteCodesFacts(depth, r, g);
    PointerNext(depth, |g.log|);
    if t.wrClk {
      SampledRead(depth, r, g, t);
    }
    WriteCodesAre(depth, Step(depth, r, t), GhostStep(depth, r, g, t));
  }

  predicate ReadCodes(depth: nat, r: Regs, g: Ghost) {
    && r.rd == Pointer(depth, g.read)
    && r.wrSync1 == Gray(depth + 1, Pointer(depth, g.wr1)) && r.wrSync2 == Gray(depth + 1, Pointer(depth, g.wr2))
  }

  lemma ReadParts(depth: nat, r: Regs, g: Ghost, t: Tick)
    requires Inv(depth, r, g) && Environment(depth, r, t)
    ensures Typed(depth, r) && |t.rdSample| == |t.wrSample| == depth + 1
    ensures ReadCodes(depth, r, g) && r.wr == Pointer(depth, |g.log|)
    ensures var r', d := Step(depth, r, t), Reads(depth, r, t);
      && r'.rd == (if d then Next(depth + 1, r.rd) else r.rd)
      && r'.wrSync1 == (if t.rdClk then t.wrSample else r.wrSync1) &&
         r'.wrSync2 == (if t.rdClk then r.wrSync1 else r.wrSync2)
    ensures var g', d := GhostStep(depth, r, g, t), Reads(depth, r, t);
      && g'.read == (if d then g.read + 1 else g.read)
      && g'.wr1 == (if !t.rdClk then g.wr1 else if t.wrSample == Gray(depth + 1, r.wr) then |g.log| else |g.log| + 1)
      && g'.wr2 == (if t.rdClk then g.wr1 else g.wr2)
  {
    hide Gray, Next, Pointer, Cells, Sampled, Full, Empty, Pow2, Address, Order, Writes, Reads;
  }

  lemma ReadCodesAre(depth: nat, r: Regs, g: Ghost)
    requires r.rd == Pointer(depth, g.read)
    requires r.wrSync1 == Gray(depth + 1, Pointer(depth, g.wr1)) && r.wrSync2 == Gray(depth + 1, Pointer(depth, g.wr2))
    ensures ReadCodes(depth, r, g)
  {
  }

  lemma ReadCodesFacts(depth: nat, r: Regs, g: Ghost)
    requires ReadCodes(depth, r, g)
    ensures r.rd == Pointer(depth, g.read)
    ensures r.wrSync1 == Gray(depth + 1, Pointer(depth, g.wr1)) && r.wrSync2 == Gray(depth + 1, Pointer(depth, g.wr2))
  {
  }

  lemma ReadCodesKept(depth: nat, r: Regs, g: Ghost, t: Tick)
    requires Inv(depth, r, g) && Environment(depth, r, t)
    ensures ReadCodes(depth, Step(depth, r, t), GhostStep(depth, r, g, t))
  {
    hide *;
    ReadParts(depth, r, g, t);
    ReadCodesFacts(depth, r, g);
    PointerNext(depth, g.read);
    if t.rdClk {
      SampledWrite(depth, r, g, t);
    }
    ReadCodesAre(depth, Step(depth, r, t), GhostStep(depth, r, g, t));
  }

  // Any tick keeps the invariant, and a word read is the oldest not yet read.
  lemma InvKept(depth: nat, r: Regs, g: Ghost, t: Tick)
    requires Inv(depth, r, g) && Environment(depth, r, t)
    ensures Inv(depth, Step(depth, r, t), GhostStep(depth, r, g, t))
    ensures Reads(depth, r, t) ==> g.read < |g.log| && Step(depth, r, t).q == g.log[g.read]
  {
    hide *;
    InvParts(depth, r, g);
    WriteParts(depth, r, g, t);
    OrderKept(depth, r, g, t);
    WriteCodesKept(depth, r, g, t);
    ReadCodesKept(depth, r, g, t);
    MemKept(depth, r, g, t);
    ReadOldest(depth, r, g, t);
    InvFrom(depth, Step(depth, r, t), GhostStep(depth, r, g, t));
  }

  lemma InvFrom(depth: nat, r: Regs, g: Ghost)
    requires Typed(depth, r) && Order(depth, g) && WriteCodes(depth, r, g) && ReadCodes(depth, r, g)
    requires Cells(depth, r.mem, g.log, g.read)
    ensures Inv(depth, r, g)
  {
    hide Gray, Pointer, Pow2, Order, Cells;
  }

  lemma MemKept(depth: nat, r: Regs, g: Ghost, t: Tick)
    requires Inv(depth, r, g) && Environment(depth, r, t)
    ensures var r', g' := Step(depth, r, t), GhostStep(depth, r, g, t);
      Typed(depth, r') && Cells(depth, r'.mem, g'.log, g'.read)
  {
    FullMeans(depth, r, g);
    AddressOf(depth, |g.log|);
    if Writes(depth, r, t) {
      CellsKept(depth, r.mem, g.log, g.read, t.data);
    }
    hide Gray, Next, Pointer, Sampled, Full, Empty, Pow2, Address;
  }

  lemma ReadOldest(depth: nat, r: Regs, g: Ghost, t: Tick)
    requires Inv(depth, r, g) && Environment(depth, r, t)
    ensures Reads(depth, r, t) ==> g.read < |g.log| && Step(depth, r, t).q == g.log[g.read]
  {
    EmptyMeans(depth, r, g);
    AddressOf(depth, g.read);
    hide Gray, Next, Pointer, Sampled, Full, Empty, Pow2, Address;
  }

  // ----- Runs -----

  predicate IsReset(depth: nat, r: Regs) {
    && Typed(depth, r) && r.wr == 0 && r.rd == 0
    && r.rdSync1 == r.rdSync2 == r.wrSync1 == r.wrSync2 == Gray(depth + 1, 0)
  }

  const NOTHING := Ghost([], 0, 0, 0, 0, 0)

  // Any interleaving of the two clocks, each sample resolved in any way the hardware allows.
  ghost predicate Allowed(depth: nat, r: Regs, run: seq<Tick>)
    requires Typed(depth, r)
    decreases |run|
  {
    run == [] || (Environment(depth, r, run[0]) && Allowed(depth, Step(depth, r, run[0]), run[1..]))
  }

  // Words handed to the reader along the run: the contents of q after each read.
  ghost function Output(depth: nat, r: Regs, run: seq<Tick>): seq<nat>
    requires Typed(depth, r) && Allowed(depth, r, run)
    decreases |run|
  {
    if run == [] then []
    else (if Reads(depth, r, run[0]) then [Step(depth, r, run[0]).q] else []) +
         Output(depth, Step(depth, r, run[0]), run[1..])
  }

  ghost function Written(depth: nat, r: Regs, run: seq<Tick>): seq<nat>
    requires Typed(depth, r) && Allowed(depth, r, run)
    decreases |run|
  {
    if run == [] then []
    else (if Writes(depth, r, run[0]) then [run[0].data] else []) + Written(depth, Step(depth, r, run[0]), run[1..])
  }

  ghost function Counts(depth: nat, r: Regs, g: Ghost, run: seq<Tick>): Ghost
    requires Typed(depth, r) && Allowed(depth, r, run)
    decreases |run|
  {
    if run == [] then g else Counts(depth, Step(depth, r, run[0]), GhostStep(depth, r, g, run[0]), run[1..])
  }

  // What one tick does to the counts.
  lemma CountsMove(depth: nat, r: Regs, g: Ghost, t: Tick)
    requires Typed(depth, r) && Inv(depth, r, g) && Environment(depth, r, t)
    ensures var g' := GhostStep(depth, r, g, t);
            && g.read <= g'.read <= |g.log| <= |g'.log| && Order(depth, g')
            && g'.log == g.log + (if Writes(depth, r, t) then [t.data] else [])
            && g.log[g.read..g'.read] == (if Reads(depth, r, t) then [Step(depth, r, t).q] else [])
            && g.rd1 <= g'.rd1 && g.rd2 <= g'.rd2 && g.wr1 <= g'.wr1 && g.wr2 <= g'.wr2
  {
    hide *;
    InvKept(depth, r, g, t);
    OrderKept(depth, r, g, t);
    InvParts(depth, r, g);
    OrderBounds(depth, g);
    SampledEither(depth, r, g, t);
    HistoryMoves(depth, r, g, t);
    if Reads(depth, r, t) {
      assert g.log[g.read..g.read + 1] == [g.log[g.read]];
    }
  }

  lemma OrderBounds(depth: nat, g: Ghost)
    requires Order(depth, g)
    ensures g.read <= |g.log|
  {
  }

  lemma HistoryMoves(depth: nat, r: Regs, g: Ghost, t: Tick)
    requires Typed(depth, r)
    ensures var g' := GhostStep(depth, r, g, t);
      && g'.log == g.log + (if Writes(depth, r, t) then [t.data] else [])
      && g'.read == (if Reads(depth, r, t) then g.read + 1 else g.read)
  {
    hide Gray, Full, Empty, Pow2, Writes, Reads;
  }

  // Counts behind the synchronizers only move to what the source has.
  lemma SampledEither(depth: nat, r: Regs, g: Ghost, t: Tick)
    requires Inv(depth, r, g) && Environment(depth, r, t)
    ensures Typed(depth, r) && |t.rdSample| == |t.wrSample| == depth + 1
    ensures var g' := GhostStep(depth, r, g, t);
      && g.rd1 <= g'.rd1 && g.rd2 <= g'.rd2 && g.wr1 <= g'.wr1 && g.wr2 <= g'.wr2
  {
    hide Gray, Next, Pointer, Full, Empty, Pow2, Codes, Cells, Writes, Reads, Sampled;
  }

  lemma Slices(log: seq<nat>, log': seq<nat>, a: nat, b: nat, c: nat)
    requires log <= log' && a <= b <= c <= |log'| && b <= |log|
    ensures log'[a..c] == log[a..b] + log'[b..c]
  {
  }

  predicate Later(g: Ghost, g': Ghost) {
    g.read <= g'.read <= |g'.log| && g.rd1 <= g'.rd1 && g.rd2 <= g'.rd2 && g.wr1 <= g'.wr1 && g.wr2 <= g'.wr2
  }

  lemma RunUnfolds(depth: nat, r: Regs, g: Ghost, run: seq<Tick>)
    requires Typed(depth, r) && Allowed(depth, r, run) && run != []
    ensures Environment(depth, r, run[0]) && |run[0].rdSample| == |run[0].wrSample| == depth + 1
    ensures var r', rest := Step(depth, r, run[0]), run[1..];
            && Allowed(depth, r', rest)
            && Counts(depth, r, g, run) == Counts(depth, r', GhostStep(depth, r, g, run[0]), rest)
            && Output(depth, r, run) == (if Reads(depth, r, run[0]) then [r'.q] else []) + Output(depth, r', rest)
            && Written(depth, r, run) == (if Writes(depth, r, run[0]) then [run[0].data] else []) +
               Written(depth, r', rest)
  {
    hide Step, GhostStep, Reads, Writes, Pow2;
  }

  lemma RunEmpty(depth: nat, r: Regs, g: Ghost)
    requires Typed(depth, r) && Inv(depth, r, g)
    ensures Allowed(depth, r, []) && Counts(depth, r, g, []) == g && Order(depth, g) && Later(g, g)
    ensures g.log + Written(depth, r, []) == g.log && Output(depth, r, []) == g.log[g.read..g.read]
  {
    hide Pow2, Gray, Cells, Codes;
  }

  lemma {:induction false} RunKept(depth: nat, r: Regs, g: Ghost, run: seq<Tick>)
    requires Typed(depth, r) && Inv(depth, r, g) && Allowed(depth, r, run)
    ensures var g' := Counts(depth, r, g, run);
            && Order(depth, g') && Later(g, g') && g'.log == g.log + Written(depth, r, run)
            && Output(depth, r, run) == g'.log[g.read..g'.read]
    decreases |run|
  {
    hide *;
    if run == [] {
      RunEmpty(depth, r, g);
    } else {
      var t, rest := run[0], run[1..];
      RunUnfolds(depth, r, g, run);
      var r', g1 := Step(depth, r, t), GhostStep(depth, r, g, t);
      InvKept(depth, r, g, t);
      CountsMove(depth, r, g, t);
      RunKept(depth, r', g1, rest);
      Chain(depth, g, g1, Counts(depth, r', g1, rest), Output(depth, r, run), Output(depth, r', rest));
      assert g.log + (if Writes(depth, r, t) then [t.data] else []) + Written(depth, r', rest)
          == g.log + ((if Writes(depth, r, t) then [t.data] else []) + Written(depth, r', rest));
    }
  }

  lemma Chain(depth: nat, g: Ghost, g1: Ghost, g': Ghost, out: seq<nat>, rest: seq<nat>)
    requires g.read <= g1.read <= |g.log| && g.log <= g1.log <= g'.log && Later(g1, g')
    requires g.rd1 <= g1.rd1 && g.rd2 <= g1.rd2 && g.wr1 <= g1.wr1 && g.wr2 <= g1.wr2
    requires rest == g'.log[g1.read..g'.read] && out == g.log[g.read..g1.read] + rest
    ensures Later(g, g') && out == g'.log[g.read..g'.read]
  {
    Slices(g.log, g'.log, g.read, g1.read, g'.read);
  }

  lemma ResetInv(depth: nat, r: Regs)
    requires IsReset(depth, r)
    ensures Inv(depth, r, NOTHING)
  {
    DivUnique(0, Pow2(depth + 1), 0);
    hide Gray, Pow2;
  }

  // For every interleaving: what is read is what was written, in order, nothing lost or repeated; and
  // true occupancy never exceeds 2^depth - 1.
  lemma AsyncFifoCorrect(depth: nat, r: Regs, run: seq<Tick>)
    requires IsReset(depth, r) && Allowed(depth, r, run)
    ensures Output(depth, r, run) <= Written(depth, r, run)
    ensures |Written(depth, r, run)| - |Output(depth, r, run)| <= Pow2(depth) - 1
  {
    ResetInv(depth, r);
    RunKept(depth, r, NOTHING, run);
    hide Counts, Output, Written, Allowed, Inv, Pow2, IsReset;
    assert [] + Written(depth, r, run) == Written(depth, r, run);
  }

  // ----- As registers -----

  class AsyncFifo {
    const depth: nat
    const mem: array<nat>
    var wr: nat
    var rd: nat
    var rdSync1: Bits
    var rdSync2: Bits
    var wrSync1: Bits
    var wrSync2: Bits
    var q: nat

    function View(): Regs
      reads this, mem
    {
      Regs(wr, rd, rdSync1, rdSync2, wrSync1, wrSync2, mem[..], q)
    }

    constructor (depth: nat)
      requires 2 <= depth
      ensures this.depth == depth && fresh(mem) && IsReset(depth, View())
    {
      this.depth := depth;
      mem := new nat[Pow2(depth)](_ => 0);
      wr, rd, q := 0, 0, 0;
      var zero := Gray(depth + 1, 0);
      rdSync1, rdSync2, wrSync1, wrSync2 := zero, zero, zero, zero;
    }

    // An edge of the write clock, the read clock, or both at once.
    method Clock(t: Tick)
      requires Typed(depth, View()) && |t.rdSample| == |t.wrSample| == depth + 1
      modifies this, mem
      ensures View() == Step(depth, old(View()), t)
    {
      hide Gray, Next, Address, Pow2, InvertTopTwo;
      ghost var before := View();
      var full := Gray(depth + 1, Next(depth + 1, wr)) == InvertTopTwo(rdSync2);
      var empty := Gray(depth + 1, rd) == wrSync2;
      if t.rdClk {
        wrSync2, wrSync1 := wrSync1, t.wrSample;
        if t.rdEn && !empty {
          q := mem[Address(depth, rd)];
          rd := Next(depth + 1, rd);
        }
      }
      if t.wrClk {
        rdSync2, rdSync1 := rdSync1, t.rdSample;
        if t.wrEn && !full {
          mem[Address(depth, wr)] := t.data;
          assert mem[..] == before.mem[Address(depth, wr) := t.data];
          wr := Next(depth + 1, wr);
        }
      }
      assert !(t.wrClk && t.wrEn && !full) ==> mem[..] == before.mem;
    }
  }
}
