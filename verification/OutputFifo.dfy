// The output stage shared by the AXI engines and the TLP writer: a power-of-two ring with an
// extra pointer bit, a half-full flag registered one cycle late, and one output register.
module OutputFifo {
  import opened Wrappers

  // What the stage holds, as values: the ring's contents and the output register.
  datatype Fifo<T> = Fifo(q: seq<T>, half: bool, out: Option<T>)

  // One clock. A push into a full ring is dropped; the users below prove that never happens.
  function Step<T>(depth: nat, f: Fifo<T>, push: Option<T>, ready: bool): Fifo<T> {
    var pop := f.q != [] && (f.out.None? || ready);
    Fifo(
      (if pop then f.q[1..] else f.q) + (if |f.q| < depth then push.AsSeq() else []),
      2 * |f.q| >= depth,
      if pop then Some(f.q[0]) else if ready then None else f.out)
  }

  // Everything accepted and not yet handed over, oldest first.
  function Held<T>(f: Fifo<T>): seq<T> {
    f.out.AsSeq() + f.q
  }

  function Delivered<T>(f: Fifo<T>, ready: bool): seq<T> {
    if ready then f.out.AsSeq() else []
  }

  // With room in the ring the stage is an unbounded queue: nothing is lost, repeated or reordered.
  lemma StepKeepsOrder<T>(depth: nat, f: Fifo<T>, push: Option<T>, ready: bool)
    requires push.Some? ==> |f.q| < depth
    ensures Delivered(f, ready) + Held(Step(depth, f, push, ready)) == Held(f) + push.AsSeq()
  {
    if f.q != [] && (f.out.None? || ready) {
      assert f.q == [f.q[0]] + f.q[1..];
    }
  }

  // ----- The ring itself -----

  // Pointers run over twice the depth; the top bit only tells full from empty.
  function Wrap(depth: nat, p: nat): (w: nat)
    requires p < 4 * depth
    ensures w < 2 * depth
  {
    if p < 2 * depth then p else p - 2 * depth
  }

  function Slot(depth: nat, p: nat): (s: nat)
    requires p < 2 * depth
    ensures s < depth
  {
    if p < depth then p else p - depth
  }

  function Distance(depth: nat, rd: nat, wr: nat): (n: nat)
    requires rd < 2 * depth && wr < 2 * depth
    ensures n < 2 * depth && Wrap(depth, rd + n) == wr
  {
    if rd <= wr then wr - rd else wr + 2 * depth - rd
  }

  lemma PointerPush(depth: nat, rd: nat, wr: nat)
    requires 0 < depth && rd < 2 * depth && wr < 2 * depth && Distance(depth, rd, wr) < depth
    ensures Distance(depth, rd, Wrap(depth, wr + 1)) == Distance(depth, rd, wr) + 1
  {
  }

  lemma PointerPop(depth: nat, rd: nat, wr: nat)
    requires 0 < depth && rd < 2 * depth && wr < 2 * depth && 0 < Distance(depth, rd, wr) <= depth
    ensures Distance(depth, Wrap(depth, rd + 1), wr) == Distance(depth, rd, wr) - 1
  {
  }

  // out_fifo_full and out_fifo_empty compare the pointers directly.
  lemma FullAndEmpty(depth: nat, rd: nat, wr: nat)
    requires 0 < depth && rd < 2 * depth && wr < 2 * depth && Distance(depth, rd, wr) <= depth
    ensures wr == Wrap(depth, rd + depth) <==> Distance(depth, rd, wr) == depth
    ensures wr == rd <==> Distance(depth, rd, wr) == 0
  {
  }

  function Ring<T>(mem: seq<T>, rd: nat, count: nat): (q: seq<T>)
    requires rd < 2 * |mem| && count <= |mem|
    ensures |q| == count
  {
    seq(count, i requires 0 <= i < count => mem[Slot(|mem|, Wrap(|mem|, rd + i))])
  }

  // Writing at the write pointer appends; the slot is outside the live entries.
  lemma RingPush<T>(mem: seq<T>, rd: nat, count: nat, x: T)
    requires rd < 2 * |mem| && count < |mem|
    ensures Ring(mem[Slot(|mem|, Wrap(|mem|, rd + count)) := x], rd, count + 1) == Ring(mem, rd, count) + [x]
  {
    var at := Slot(|mem|, Wrap(|mem|, rd + count));
    var after := Ring(mem[at := x], rd, count + 1);
    forall i | 0 <= i < count ensures after[i] == Ring(mem, rd, count)[i] {
      assert Slot(|mem|, Wrap(|mem|, rd + i)) != at;
    }
  }

  lemma RingPop<T>(mem: seq<T>, rd: nat, count: nat)
    requires rd < 2 * |mem| && 0 < count <= |mem|
    ensures Ring(mem, rd, count)[0] == mem[Slot(|mem|, rd)]
    ensures Ring(mem, Wrap(|mem|, rd + 1), count - 1) == Ring(mem, rd, count)[1..]
  {
    assert Wrap(|mem|, rd + 0) == rd;
    var q, rest := Ring(mem, rd, count), Ring(mem, Wrap(|mem|, rd + 1), count - 1);
    forall i | 0 <= i < count - 1 ensures rest[i] == q[i + 1] {
      assert Wrap(|mem|, Wrap(|mem|, rd + 1) + i) == Wrap(|mem|, rd + (i + 1));
    }
  }

  class OutFifo<T(0)> {
    const mem: array<T>
    var wrPtr: nat
    var rdPtr: nat
    var half: bool
    var outValid: bool
    var outReg: T

    ghost predicate Valid()
      reads this
    {
      && wrPtr < 2 * mem.Length && rdPtr < 2 * mem.Length
      && Distance(mem.Length, rdPtr, wrPtr) <= mem.Length
    }

    function Count(): nat
      reads this
      requires Valid()
    {
      Distance(mem.Length, rdPtr, wrPtr)
    }

    function Contents(): (q: seq<T>)
      reads this, mem
      requires Valid()
      ensures |q| == Count()
    {
      Ring(mem[..], rdPtr, Count())
    }

    function View(): Fifo<T>
      reads this, mem
      requires Valid()
    {
      Fifo(Contents(), half, if outValid then Some(outReg) else None)
    }

    constructor (depth: nat, initial: T)
      requires 1 <= depth
      ensures Valid() && fresh(mem) && mem.Length == depth
      ensures View() == Fifo([], false, None)
    {
      mem := new T[depth](_ => initial);
      wrPtr, rdPtr := 0, 0;
      half, outValid, outReg := false, false, initial;
    }

    method Write(x: T)
      requires Valid() && Count() < mem.Length
      modifies `wrPtr, mem
      ensures Valid() && Contents() == old(Contents()) + [x]
    {
      hide Ring, Wrap, Slot, Distance;
      RingPush(mem[..], rdPtr, Count(), x);
      PointerPush(mem.Length, rdPtr, wrPtr);
      ghost var cells := mem[..];
      mem[Slot(mem.Length, wrPtr)] := x;
      assert mem[..] == cells[Slot(mem.Length, wrPtr) := x];
      wrPtr := Wrap(mem.Length, wrPtr + 1);
    }

    method Read()
      requires Valid() && 0 < Count()
      modifies `rdPtr, `outReg, `outValid
      ensures Valid() && outValid && outReg == old(Contents())[0] && Contents() == old(Contents())[1..]
    {
      hide Ring, Wrap, Slot, Distance;
      RingPop(mem[..], rdPtr, Count());
      PointerPop(mem.Length, rdPtr, wrPtr);
      outReg := mem[Slot(mem.Length, rdPtr)];
      outValid := true;
      rdPtr := Wrap(mem.Length, rdPtr + 1);
    }

    method Clock(push: Option<T>, ready: bool)
      requires Valid()
      modifies this, mem
      ensures Valid() && View() == Step(mem.Length, old(View()), push, ready)
    {
      hide Ring, Wrap, Slot, Distance;
      FullAndEmpty(mem.Length, rdPtr, wrPtr);
      var full := wrPtr == Wrap(mem.Length, rdPtr + mem.Length);
      var empty := wrPtr == rdPtr;
      var pop := !empty && (!outValid || ready);
      half := 2 * Distance(mem.Length, rdPtr, wrPtr) >= mem.Length;
      outValid := outValid && !ready;
      if !full && push.Some? {
        Write(push.value);
      }
      if pop {
        Read();
      }
    }
  }
}
