// logic_sync_fifo behind the first-word-fall-through wrapper: registered flags computed from the next
// count, a registered read port, and one prefetched word.
module SyncFifo {
  import opened Arith
  import opened GrayCode

  datatype Regs = Regs(wptr: nat, rptr: nat, count: int, full: bool, empty: bool, almostFull: bool, almostEmpty: bool,
                       mem: seq<nat>, q: nat, valid: bool)

  datatype In = In(wren: bool, rden: bool, data: nat)

  predicate Typed(depth: nat, r: Regs) {
    r.wptr < Pow2(depth) && r.rptr < Pow2(depth) && |r.mem| == Pow2(depth)
  }

  // The wrapper prefetches whenever the shown word is absent or being taken.
  predicate Pops(r: Regs, i: In) {
    !r.empty && (!r.valid || i.rden)
  }

  predicate Pushes(r: Regs, i: In) {
    i.wren && !r.full
  }

  function Step(depth: nat, r: Regs, i: In): Regs
    requires Typed(depth, r)
  {
    var push, pop := Pushes(r, i), Pops(r, i);
    var count := r.count + (if push then 1 else 0) - (if pop then 1 else 0);
    Regs(
      if push then Next(depth, r.wptr) else r.wptr, if pop then Next(depth, r.rptr) else r.rptr, count,
      count == Pow2(depth), count == 0, count >= Pow2(depth) - 1, count <= 1,
      if push then r.mem[r.wptr := i.data] else r.mem,
      if pop then r.mem[r.rptr] else r.q,
      if pop then true else r.valid && !i.rden)
  }

  // The cell k places past p, around the memory.
  function Slot(m: nat, p: nat, k: nat): (s: nat)
    requires 0 < m
    ensures s < m
  {
    (p + k) % m
  }

  // What the FIFO holds behind the shown word, oldest first.
  function Stored(depth: nat, r: Regs): (s: seq<nat>)
    requires Typed(depth, r) && 0 <= r.count
    ensures |s| == r.count
  {
    seq(r.count, k requires 0 <= k < r.count => r.mem[Slot(Pow2(depth), r.rptr, k)])
  }

  predicate Inv(depth: nat, r: Regs) {
    && Typed(depth, r) && 0 <= r.count <= Pow2(depth) && r.wptr == Slot(Pow2(depth), r.rptr, r.count)
    && r.full == (r.count == Pow2(depth)) && r.empty == (r.count == 0)
  }

  // The queue as its user sees it: the shown word, then the rest.
  function Queue(depth: nat, r: Regs): seq<nat>
    requires Inv(depth, r)
  {
    (if r.valid then [r.q] else []) + Stored(depth, r)
  }

  lemma Advance(m: nat, p: nat, k: nat)
    requires 0 < m
    ensures Slot(m, Slot(m, p, 1), k) == Slot(m, p, k + 1)
  {
    DivBounds(p + 1, m);
    AddMultiple((p + 1) % m + k, (p + 1) / m, m);
  }

  lemma Distinct(m: nat, p: nat, j: nat, k: nat)
    requires 0 < m && j < k < j + m
    ensures Slot(m, p, j) != Slot(m, p, k)
  {
    DivBounds(p + j, m);
    DivBounds(p + k, m);
    MulOrder((p + j) / m, (p + k) / m, m);
  }

  lemma PushStored(depth: nat, r: Regs, data: nat)
    requires Inv(depth, r) && r.count < Pow2(depth)
    ensures var r' := r.(mem := r.mem[r.wptr := data], count := r.count + 1);
      Stored(depth, r') == Stored(depth, r) + [data]
  {
    var r' := r.(mem := r.mem[r.wptr := data], count := r.count + 1);
    hide Slot, Pow2;
    forall k | 0 <= k < r.count ensures Stored(depth, r')[k] == Stored(depth, r)[k] {
      Distinct(Pow2(depth), r.rptr, k, r.count);
    }
  }

  lemma PopStored(depth: nat, r: Regs)
    requires Typed(depth, r) && 0 < r.count
    ensures Stored(depth, r)[0] == r.mem[r.rptr]
    ensures var r' := r.(rptr := Next(depth, r.rptr), count := r.count - 1);
            Typed(depth, r') && Stored(depth, r') == Stored(depth, r)[1..]
  {
    var r' := r.(rptr := Next(depth, r.rptr), count := r.count - 1);
    DivUnique(r.rptr, Pow2(depth), 0);
    assert Slot(Pow2(depth), r.rptr, 0) == r.rptr && Next(depth, r.rptr) == Slot(Pow2(depth), r.rptr, 1);
    hide Slot, Next, Pow2;
    forall k | 0 <= k < r.count - 1 ensures Stored(depth, r')[k] == Stored(depth, r)[k + 1] {
      Advance(Pow2(depth), r.rptr, k);
    }
  }

  lemma InvKept(depth: nat, r: Regs, i: In)
    requires Inv(depth, r)
    ensures Inv(depth, Step(depth, r, i))
  {
    var m := Pow2(depth);
    assert Next(depth, r.wptr) == Slot(m, r.wptr, 1) && Next(depth, r.rptr) == Slot(m, r.rptr, 1);
    Advance(m, r.rptr, if r.count > 0 then r.count - 1 else 0);
    Advance(m, r.rptr, r.count);
    Wrap(m, r.rptr, r.count);
    hide Pow2, Slot;
  }

  lemma Wrap(m: nat, p: nat, k: nat)
    requires 0 < m
    ensures Slot(m, Slot(m, p, k), 1) == Slot(m, p, k + 1)
  {
    DivBounds(p + k, m);
    AddMultiple((p + k) % m + 1, (p + k) / m, m);
  }

  // One clock of the wrapped FIFO is one step of a plain queue: the reader takes the shown word, the
  // writer appends unless full; prefetching is invisible.
  lemma PlainQueue(depth: nat, r: Regs, i: In)
    requires Inv(depth, r)
    ensures Inv(depth, Step(depth, r, i))
    ensures Queue(depth, Step(depth, r, i))
         == (if i.rden && r.valid then Queue(depth, r)[1..] else Queue(depth, r)) +
           (if Pushes(r, i) then [i.data] else [])
  {
    hide *;
    InvKept(depth, r, i);
    StoredMoves(depth, r, i);
    QueueIs(depth, r);
    QueueIs(depth, Step(depth, r, i));
    if Pops(r, i) {
      SameHead(depth, r, i);
      FirstOut(Stored(depth, r), if Pushes(r, i) then [i.data] else []);
    }
    ShownWord(depth, r, i);
  }

  lemma FirstOut(stored: seq<nat>, more: seq<nat>)
    requires stored != []
    ensures [stored[0]] + (stored + more)[1..] == stored + more
  {
  }

  lemma QueueIs(depth: nat, r: Regs)
    requires Inv(depth, r)
    ensures Typed(depth, r) && 0 <= r.count
    ensures Queue(depth, r) == (if r.valid then [r.q] else []) + Stored(depth, r)
  {
    hide Stored, Pow2, Slot;
  }

  lemma ShownWord(depth: nat, r: Regs, i: In)
    requires Inv(depth, r)
    ensures Pops(r, i) ==> !r.valid || i.rden
    ensures !Pops(r, i) ==> Step(depth, r, i).q == r.q && Step(depth, r, i).valid == (r.valid && !i.rden)
  {
    hide Pow2, Slot, Next;
  }

  // The stored words lose the first if it is prefetched and gain the one written.
  lemma StoredMoves(depth: nat, r: Regs, i: In)
    requires Inv(depth, r)
    ensures Inv(depth, Step(depth, r, i)) && 0 <= Step(depth, r, i).count && Typed(depth, r) && 0 <= r.count
    ensures Pops(r, i) ==> Stored(depth, r) != []
    ensures var all := Stored(depth, r) + (if Pushes(r, i) then [i.data] else []);
      Stored(depth, Step(depth, r, i)) == if Pops(r, i) then all[1..] else all
  {
    InvKept(depth, r, i);
    var r1 := if Pushes(r, i) then r.(mem := r.mem[r.wptr := i.data], count := r.count + 1) else r;
    if Pushes(r, i) {
      PushStored(depth, r, i.data);
    }
    if Pops(r, i) {
      PopStored(depth, r1);
      SameStored(depth, Step(depth, r, i), r1.(rptr := Next(depth, r1.rptr), count := r1.count - 1));
    } else {
      SameStored(depth, Step(depth, r, i), r1);
    }
    hide Stored, Pow2, Next, Slot;
  }

  // Stored words depend on the memory, the read pointer and the count only.
  lemma SameStored(depth: nat, a: Regs, b: Regs)
    requires Typed(depth, a) && Typed(depth, b) && 0 <= a.count
    requires a.mem == b.mem && a.rptr == b.rptr && a.count == b.count
    ensures Stored(depth, a) == Stored(depth, b)
  {
  }

  // The word popped was there before this clock's write.
  lemma SameHead(depth: nat, r: Regs, i: In)
    requires Inv(depth, r) && Pops(r, i)
    ensures 0 < |Stored(depth, r)|
    ensures Step(depth, r, i).q == Stored(depth, r)[0] && Step(depth, r, i).valid
  {
    PopStored(depth, r);
  }

  // ---- Runs ----

  // After reset; the memory and the read register may hold anything.
  predicate AtReset(depth: nat, r: Regs) {
    Typed(depth, r) && r.wptr == r.rptr == r.count == 0 && !r.full && r.empty && !r.valid
  }

  function After(depth: nat, r: Regs, xs: seq<In>): Regs
    requires Inv(depth, r)
    decreases |xs|
  {
    if xs == [] then r else (InvKept(depth, r, xs[0]); After(depth, Step(depth, r, xs[0]), xs[1..]))
  }

  // The words the writer got in, and the words the reader took, in order.
  function Written(depth: nat, r: Regs, xs: seq<In>): seq<nat>
    requires Inv(depth, r)
    decreases |xs|
  {
    if xs == [] then []
    else (if Pushes(r, xs[0]) then [xs[0].data] else []) +
         (InvKept(depth, r, xs[0]); Written(depth, Step(depth, r, xs[0]), xs[1..]))
  }

  function Taken(depth: nat, r: Regs, xs: seq<In>): seq<nat>
    requires Inv(depth, r)
    decreases |xs|
  {
    if xs == [] then []
    else (if xs[0].rden && r.valid then [r.q] else []) +
         (InvKept(depth, r, xs[0]); Taken(depth, Step(depth, r, xs[0]), xs[1..]))
  }

  lemma ResetEmpty(depth: nat, r: Regs)
    requires AtReset(depth, r)
    ensures Inv(depth, r) && Queue(depth, r) == []
  {
    DivUnique(0, Pow2(depth), 0);
  }

  lemma {:induction false} RunIsQueue(depth: nat, r: Regs, xs: seq<In>)
    requires Inv(depth, r)
    ensures Inv(depth, After(depth, r, xs))
    ensures Queue(depth, r) + Written(depth, r, xs) == Taken(depth, r, xs) + Queue(depth, After(depth, r, xs))
    decreases |xs|
  {
    hide Step, Queue, Inv;
    if xs == [] {
      assert Queue(depth, r) + [] == [] + Queue(depth, r);
    } else {
      var i := xs[0];
      PlainQueue(depth, r, i);
      QueueIs(depth, r);
      ShownIsHead(depth, r);
      var next := Step(depth, r, i);
      RunIsQueue(depth, next, xs[1..]);
      Rotate(if i.rden && r.valid then [r.q] else [], Queue(depth, r), if Pushes(r, i) then [i.data] else [],
             Written(depth, next, xs[1..]), Queue(depth, next), Taken(depth, next, xs[1..]),
               Queue(depth, After(depth, r, xs)));
    }
  }

  lemma ShownIsHead(depth: nat, r: Regs)
    requires Inv(depth, r)
    ensures r.valid ==> Queue(depth, r) == [r.q] + Queue(depth, r)[1..]
  {
    hide Stored;
  }

  lemma Rotate(gone: seq<nat>, queue: seq<nat>, put: seq<nat>, more: seq<nat>, next: seq<nat>, taken: seq<nat>,
               end: seq<nat>)
    requires |gone| <= |queue| && queue == gone + queue[|gone|..] && next == queue[|gone|..] + put
    requires next + more == taken + end
    ensures queue + (put + more) == (gone + taken) + end
  {
    var rest := queue[|gone|..];
    assert queue + (put + more) == gone + ((rest + put) + more);
    assert (gone + taken) + end == gone + (taken + end);
  }

  // From reset on, the words taken and then those still held are the words written while not full, in order:
  // none is lost, repeated or overtaken, and at most one more than the memory holds is in the FIFO.
  lemma FifoCorrect(depth: nat, r: Regs, xs: seq<In>)
    requires AtReset(depth, r)
    ensures Inv(depth, r) && Inv(depth, After(depth, r, xs))
    ensures Taken(depth, r, xs) + Queue(depth, After(depth, r, xs)) == Written(depth, r, xs)
    ensures |Queue(depth, After(depth, r, xs))| <= Pow2(depth) + 1
  {
    hide After, Taken, Written;
    ResetEmpty(depth, r);
    RunIsQueue(depth, r, xs);
    assert [] + Written(depth, r, xs) == Written(depth, r, xs);
  }
}
