// gen_native_fifo in its asynchronous first-word-fall-through form: the flag that says a word is shown is
// clocked by the write clock, while the reader takes words and the memory is read on the read clock.
module GrayFwft {
  import opened Arith
  import opened GrayCode
  import opened GrayFifo

  // valid: fwft_valid_reg, the shown word being the FIFO's read register.
  datatype Wrapped = Wrapped(r: Regs, valid: bool)

  predicate Pops(depth: nat, f: Wrapped, t: Tick)
    requires Typed(depth, f.r)
  {
    !Empty(depth, f.r) && (!f.valid || t.rdEn)
  }

  // What the FIFO inside sees of the reader's request.
  function Inner(depth: nat, f: Wrapped, t: Tick): Tick
    requires Typed(depth, f.r)
  {
    t.(rdEn := Pops(depth, f, t))
  }

  // The flag's next value, were its clock to tick.
  predicate ValidNext(depth: nat, f: Wrapped, t: Tick)
    requires Typed(depth, f.r)
  {
    Pops(depth, f, t) || (f.valid && !t.rdEn)
  }

  predicate Fits(depth: nat, f: Wrapped, t: Tick) {
    Typed(depth, f.r) && |t.rdSample| == |t.wrSample| == depth + 1 && Environment(depth, f.r, Inner(depth, f, t))
  }

  function Advance(depth: nat, f: Wrapped, t: Tick): (f': Wrapped)
    requires Fits(depth, f, t)
    ensures Typed(depth, f'.r)
  {
    Wrapped(GrayFifo.Step(depth, f.r, Inner(depth, f, t)), if t.wrClk then ValidNext(depth, f, t) else f.valid)
  }

  // The reader takes the shown word on its own clock.
  predicate Takes(f: Wrapped, t: Tick) {
    t.rdClk && t.rdEn && f.valid
  }

  // The true counts of the FIFO inside, and the words the reader took.
  datatype History = History(g: Ghost, taken: seq<nat>)

  function Record(depth: nat, f: Wrapped, h: History, t: Tick): History
    requires Typed(depth, f.r)
  {
    History(GhostStep(depth, f.r, h.g, Inner(depth, f, t)), if Takes(f, t) then h.taken + [f.r.q] else h.taken)
  }

  // The words taken, then the one shown, are the words read from memory.
  predicate Consistent(f: Wrapped, h: History) {
    h.g.read <= |h.g.log| && h.taken + (if f.valid then [f.r.q] else []) == h.g.log[..h.g.read]
  }

  // Both clocks tick, or neither, or the flag would keep its value.
  predicate Harmless(depth: nat, f: Wrapped, t: Tick)
    requires Typed(depth, f.r)
  {
    t.wrClk == t.rdClk || ValidNext(depth, f, t) == f.valid
  }

  // What a tick does to the counts and to the shown word.
  lemma TickParts(depth: nat, f: Wrapped, h: History, t: Tick)
    requires Fits(depth, f, t) && Inv(depth, f.r, h.g)
    ensures var f', g, g', pops := Advance(depth, f, t), h.g, Record(depth, f, h, t).g, t.rdClk && Pops(depth, f, t);
      && Inv(depth, f'.r, g') && g.read <= |g.log| && g.log <= g'.log
      && g'.read == g.read + (if pops then 1 else 0) && g'.read <= |g'.log|
      && (pops ==> g.read < |g.log| && f'.r.q == g.log[g.read])
      && (!pops ==> f'.r.q == f.r.q)
  {
    var i := Inner(depth, f, t);
    InvKept(depth, f.r, h.g, i);
    CountsMove(depth, f.r, h.g, i);
    assert Reads(depth, f.r, i) == (t.rdClk && Pops(depth, f, t));
    HistoryMoves(depth, f.r, h.g, i);
    ReadRegister(depth, f.r, i);
    hide Inv, GhostStep, GrayFifo.Step, Reads, Environment, Empty;
  }

  lemma ReadRegister(depth: nat, r: Regs, t: Tick)
    requires Typed(depth, r) && |t.rdSample| == |t.wrSample| == depth + 1
    ensures !Reads(depth, r, t) ==> GrayFifo.Step(depth, r, t).q == r.q
  {
    hide Empty, Full, Gray, GrayCode.Next, Pow2;
  }

  // The words on the reader's side of one tick. pops: the FIFO inside is asked and not empty.
  lemma Flow(taken: seq<nat>, valid: bool, q: nat, before: seq<nat>, rden: bool, pops: bool, wr: bool, rd: bool,
             q': nat, valid': bool, taken': seq<nat>, after: seq<nat>)
    requires taken + (if valid then [q] else []) == before && (pops ==> !valid || rden)
    requires valid' == if wr then pops || (valid && !rden) else valid
    requires taken' == if rd && rden && valid then taken + [q] else taken
    requires if rd && pops then after == before + [q'] else after == before && q' == q
    ensures taken' + (if valid' then [q'] else []) == after <==> wr == rd || (pops || (valid && !rden)) == valid
  {
    var shown' := if valid' then [q'] else [];
    if wr == rd || (pops || (valid && !rden)) == valid {
      assert taken' + shown' == after;
    } else {
      assert |taken' + shown'| != |after|;
    }
  }

  lemma Parts(depth: nat, f: Wrapped, h: History, t: Tick)
    requires Fits(depth, f, t)
    ensures Typed(depth, f.r) && Harmless(depth, f, t) ==
      (t.wrClk == t.rdClk || (Pops(depth, f, t) || (f.valid && !t.rdEn)) == f.valid)
    ensures Pops(depth, f, t) ==> !f.valid || t.rdEn
    ensures Advance(depth, f, t).valid == if t.wrClk then Pops(depth, f, t) || (f.valid && !t.rdEn) else f.valid
    ensures Record(depth, f, h, t).taken == if t.rdClk && t.rdEn && f.valid then h.taken + [f.r.q] else h.taken
  {
    hide Empty, Environment, GrayFifo.Step, GhostStep;
  }

  lemma ConsistentIs(f: Wrapped, h: History)
    requires h.g.read <= |h.g.log|
    ensures Consistent(f, h) <==> h.taken + (if f.valid then [f.r.q] else []) == h.g.log[..h.g.read]
  {
  }

  lemma OneRead(log: seq<nat>, log': seq<nat>, read: nat)
    requires log <= log' && read <= |log|
    ensures log'[..read] == log[..read]
    ensures read < |log| ==> log'[..read + 1] == log[..read] + [log[read]]
  {
  }

  // From a consistent state a tick leads to a consistent state exactly when it is harmless.
  lemma TickExact(depth: nat, f: Wrapped, h: History, t: Tick)
    requires Fits(depth, f, t) && Inv(depth, f.r, h.g) && Consistent(f, h)
    ensures Consistent(Advance(depth, f, t), Record(depth, f, h, t)) <==> Harmless(depth, f, t)
  {
    hide *;
    TickParts(depth, f, h, t);
    Parts(depth, f, h, t);
    var f', h' := Advance(depth, f, t), Record(depth, f, h, t);
    ConsistentIs(f, h);
    ConsistentIs(f', h');
    OneRead(h.g.log, h'.g.log, h.g.read);
    Flow(h.taken, f.valid, f.r.q, h.g.log[..h.g.read], t.rdEn, Pops(depth, f, t), t.wrClk, t.rdClk,
         f'.r.q, f'.valid, h'.taken, h'.g.log[..h'.g.read]);
  }

  // ---- Runs ----

  ghost predicate Allowed(depth: nat, f: Wrapped, run: seq<Tick>)
    requires Typed(depth, f.r)
    decreases |run|
  {
    run == [] || (Fits(depth, f, run[0]) && Allowed(depth, Advance(depth, f, run[0]), run[1..]))
  }

  ghost function After(depth: nat, f: Wrapped, run: seq<Tick>): (f': Wrapped)
    requires Typed(depth, f.r) && Allowed(depth, f, run)
    ensures Typed(depth, f'.r)
    decreases |run|
  {
    if run == [] then f else After(depth, Advance(depth, f, run[0]), run[1..])
  }

  ghost function Recorded(depth: nat, f: Wrapped, h: History, run: seq<Tick>): History
    requires Typed(depth, f.r) && Allowed(depth, f, run)
    decreases |run|
  {
    if run == [] then h else Recorded(depth, Advance(depth, f, run[0]), Record(depth, f, h, run[0]), run[1..])
  }

  // Consistent now and after every tick.
  ghost predicate AlwaysConsistent(depth: nat, f: Wrapped, h: History, run: seq<Tick>)
    requires Typed(depth, f.r) && Allowed(depth, f, run)
    decreases |run|
  {
    && Consistent(f, h)
    && (run != [] ==> AlwaysConsistent(depth, Advance(depth, f, run[0]), Record(depth, f, h, run[0]), run[1..]))
  }

  ghost predicate AllHarmless(depth: nat, f: Wrapped, run: seq<Tick>)
    requires Typed(depth, f.r) && Allowed(depth, f, run)
    decreases |run|
  {
    run != [] ==> Harmless(depth, f, run[0]) && AllHarmless(depth, Advance(depth, f, run[0]), run[1..])
  }

  lemma {:induction false} RunExact(depth: nat, f: Wrapped, h: History, run: seq<Tick>)
    requires Typed(depth, f.r) && Allowed(depth, f, run) && Inv(depth, f.r, h.g) && Consistent(f, h)
    ensures AlwaysConsistent(depth, f, h, run) <==> AllHarmless(depth, f, run)
    decreases |run|
  {
    if run != [] {
      var t, f', h' := run[0], Advance(depth, f, run[0]), Record(depth, f, h, run[0]);
      TickParts(depth, f, h, t);
      TickExact(depth, f, h, t);
      hide Advance, Record, Consistent, Harmless, Inv, Fits;
      if Consistent(f', h') {
        RunExact(depth, f', h', run[1..]);
      } else {
        FirstConsistent(depth, f', h', run[1..]);
      }
    }
  }

  lemma FirstConsistent(depth: nat, f: Wrapped, h: History, run: seq<Tick>)
    requires Typed(depth, f.r) && Allowed(depth, f, run)
    ensures AlwaysConsistent(depth, f, h, run) ==> Consistent(f, h)
  {
    hide Consistent, Advance, Record;
  }

  const START: History := History(NOTHING, [])

  predicate AtReset(depth: nat, f: Wrapped) {
    IsReset(depth, f.r) && !f.valid
  }

  lemma ResetOk(depth: nat, f: Wrapped)
    requires AtReset(depth, f)
    ensures Typed(depth, f.r) && Inv(depth, f.r, START.g) && Consistent(f, START)
  {
    ResetInv(depth, f.r);
    hide Inv;
  }

  // Over every interleaving from reset: the words taken and the one shown are at all times the words read, none
  // lost, repeated or stale, if and only if no tick of one clock alone finds the flag about to change.
  lemma WrapperExact(depth: nat, f: Wrapped, run: seq<Tick>)
    requires AtReset(depth, f) && Allowed(depth, f, run)
    ensures AlwaysConsistent(depth, f, START, run) <==> AllHarmless(depth, f, run)
  {
    ResetOk(depth, f);
    hide Inv, Consistent, AlwaysConsistent, AllHarmless, Allowed, IsReset;
    RunExact(depth, f, START, run);
  }

  lemma {:induction false} LastConsistent(depth: nat, f: Wrapped, h: History, run: seq<Tick>)
    requires Typed(depth, f.r) && Allowed(depth, f, run) && AlwaysConsistent(depth, f, h, run)
    ensures Consistent(After(depth, f, run), Recorded(depth, f, h, run))
    decreases |run|
  {
    hide Advance, Record, Consistent;
    if run != [] {
      LastConsistent(depth, Advance(depth, f, run[0]), Record(depth, f, h, run[0]), run[1..]);
    }
  }

  // Then what the reader has taken is a prefix of what was written; with one clock for both sides it always is.
  lemma HarmlessInOrder(depth: nat, f: Wrapped, run: seq<Tick>)
    requires AtReset(depth, f) && Allowed(depth, f, run)
    requires AllHarmless(depth, f, run) || forall k :: 0 <= k < |run| ==> run[k].wrClk == run[k].rdClk
    ensures var h := Recorded(depth, f, START, run); h.taken <= h.g.log
  {
    hide *;
    ResetOk(depth, f);
    if !AllHarmless(depth, f, run) {
      TogetherHarmless(depth, f, run);
    }
    WrapperExact(depth, f, run);
    LastConsistent(depth, f, START, run);
    TakenFirst(After(depth, f, run), Recorded(depth, f, START, run));
  }

  lemma TakenFirst(f: Wrapped, h: History)
    requires Consistent(f, h)
    ensures h.taken <= h.g.log
  {
    var shown := if f.valid then [f.r.q] else [];
    assert h.taken <= h.taken + shown;
  }

  lemma {:induction false} TogetherHarmless(depth: nat, f: Wrapped, run: seq<Tick>)
    requires Typed(depth, f.r) && Allowed(depth, f, run)
    requires forall k :: 0 <= k < |run| ==> run[k].wrClk == run[k].rdClk
    ensures AllHarmless(depth, f, run)
    decreases |run|
  {
    hide Advance, ValidNext;
    if run != [] {
      TogetherHarmless(depth, Advance(depth, f, run[0]), run[1..]);
    }
  }

  // ---- A lost word ----

  // One edge of the write clock, or of the read clock, alone; pointer code k is sampled.
  function Lone(depth: nat, write: bool, wrEn: bool, k: nat): Tick {
    Tick(write, !write, wrEn, false, 7, Gray(depth + 1, k), Gray(depth + 1, k))
  }

  // One lone edge, by the counts: what is written, read and seen, and the flag.
  predicate Counted(depth: nat, f: Wrapped, h: History, written: nat, read: nat, seen1: nat, seen2: nat) {
    && Typed(depth, f.r) && Inv(depth, f.r, h.g) && !f.valid && h.taken == []
    && h.g.log == (if written == 0 then [] else [7]) && h.g.read == read && written <= 1
    && h.g.wr1 == seen1 && h.g.wr2 == seen2 && h.g.rd2 == 0 && h.g.rd1 == 0
  }

  lemma ResetCounted(depth: nat, f: Wrapped)
    requires AtReset(depth, f)
    ensures Counted(depth, f, START, 0, 0, 0, 0)
  {
    ResetOk(depth, f);
    hide Inv;
  }

  lemma WriteEdge(depth: nat, f: Wrapped, h: History)
    requires Counted(depth, f, h, 0, 0, 0, 0)
    ensures var t := Lone(depth, true, true, 0);
      Fits(depth, f, t) && Counted(depth, Advance(depth, f, t), Record(depth, f, h, t), 1, 0, 0, 0)
  {
    var t := Lone(depth, true, true, 0);
    assert 4 <= Pow2(depth) by { assert Pow2(depth) == 2 * (2 * Pow2(depth - 2)); }
    PointersAre(depth, f.r, h.g);
    FullMeans(depth, f.r, h.g);
    EmptyMeans(depth, f.r, h.g);
    SampledSelf(depth + 1, f.r.rd);
    hide Gray, Full, Empty, Inv, Sampled, GrayFifo.Step, Pow2, GrayCode.Next;
    TickParts(depth, f, h, t);
  }

  // The pointers hold the counts, as long as these are 0 or 1.
  lemma PointersAre(depth: nat, r: Regs, g: Ghost)
    requires Inv(depth, r, g) && |g.log| <= 1
    ensures r.wr == |g.log| && r.rd == g.read
    ensures g.read <= |g.log|
  {
    InvParts(depth, r, g);
    SmallPointer(depth, |g.log|);
    CodesSay(depth, r, g);
    hide *;
    if g.read <= 1 {
      SmallPointer(depth, g.read);
    }
  }

  lemma CodesSay(depth: nat, r: Regs, g: Ghost)
    requires Order(depth, g) && Codes(depth, r, g)
    ensures r.wr == Pointer(depth, |g.log|) && r.rd == Pointer(depth, g.read) && g.read <= |g.log|
  {
    hide Gray, Pointer, Pow2;
  }

  lemma SmallPointer(depth: nat, k: nat)
    requires k <= 1
    ensures Pointer(depth, k) == k
  {
    assert 2 <= Pow2(depth + 1);
    DivUnique(k, Pow2(depth + 1), 0);
  }

  lemma SampledSelf(n: nat, x: nat)
    ensures |Gray(n, x)| == n && Sampled(n, Gray(n, x), x, x)
  {
  }

  lemma ReadEdge(depth: nat, f: Wrapped, h: History, seen1: nat)
    requires Counted(depth, f, h, 1, 0, seen1, 0) && seen1 <= 1
    ensures var t := Lone(depth, false, false, 1);
      Fits(depth, f, t) && Counted(depth, Advance(depth, f, t), Record(depth, f, h, t), 1, 0, 1, seen1)
  {
    var t := Lone(depth, false, false, 1);
    PointersAre(depth, f.r, h.g);
    EmptyMeans(depth, f.r, h.g);
    SampledSelf(depth + 1, f.r.wr);
    hide Gray, Full, Empty, Inv, Sampled, GrayFifo.Step, Pow2, GrayCode.Next;
    TickParts(depth, f, h, t);
  }

  // The word is seen and read, and the flag cannot follow.
  lemma LosingEdge(depth: nat, f: Wrapped, h: History)
    requires Counted(depth, f, h, 1, 0, 1, 1)
    ensures var t := Lone(depth, false, false, 1);
      Fits(depth, f, t) && !Harmless(depth, f, t)
      && Counted(depth, Advance(depth, f, t), Record(depth, f, h, t), 1, 1, 1, 1)
  {
    var t := Lone(depth, false, false, 1);
    PointersAre(depth, f.r, h.g);
    EmptyMeans(depth, f.r, h.g);
    SampledSelf(depth + 1, f.r.wr);
    hide Gray, Full, Empty, Inv, Sampled, GrayFifo.Step, Pow2, GrayCode.Next;
    TickParts(depth, f, h, t);
  }

  function Losing(depth: nat): seq<Tick> {
    var read := Lone(depth, false, false, 1);
    [Lone(depth, true, true, 0), read, read, read]
  }

  lemma LosingIs(depth: nat)
    ensures var read := Lone(depth, false, false, 1);
      Losing(depth) == [Lone(depth, true, true, 0)] + ([read] + ([read] + ([read] + [])))
  {
    hide Lone;
  }

  // Four edges from reset, for every depth: a word is written and read, no word is shown, none is left, and the
  // reader has taken none.
  lemma WordLost(depth: nat, f: Wrapped)
    requires AtReset(depth, f)
    ensures Allowed(depth, f, Losing(depth))
    ensures var f', h := After(depth, f, Losing(depth)), Recorded(depth, f, START, Losing(depth));
      h.g.log == [7] && h.taken == [] && !f'.valid && Empty(depth, f'.r)
  {
    var write, read := Lone(depth, true, true, 0), Lone(depth, false, false, 1);
    hide *;
    ResetCounted(depth, f);
    LosingIs(depth);
    ResetOk(depth, f);
    WriteEdge(depth, f, START);
    var f1, h1 := Advance(depth, f, write), Record(depth, f, START, write);
    ReadEdge(depth, f1, h1, 0);
    var f2, h2 := Advance(depth, f1, read), Record(depth, f1, h1, read);
    ReadEdge(depth, f2, h2, 1);
    var f3, h3 := Advance(depth, f2, read), Record(depth, f2, h2, read);
    LosingEdge(depth, f3, h3);
    var f4, h4 := Advance(depth, f3, read), Record(depth, f3, h3, read);
    NoMoreEdges(depth, f4, h4);
    OneMoreEdge(depth, f3, h3, read, []);
    OneMoreEdge(depth, f2, h2, read, [read] + []);
    OneMoreEdge(depth, f1, h1, read, [read] + ([read] + []));
    OneMoreEdge(depth, f, START, write, [read] + ([read] + ([read] + [])));
    CountedSays(depth, f4, h4);
  }

  lemma NoMoreEdges(depth: nat, f: Wrapped, h: History)
    requires Typed(depth, f.r)
    ensures Allowed(depth, f, []) && After(depth, f, []) == f && Recorded(depth, f, h, []) == h
  {
  }

  lemma OneMoreEdge(depth: nat, f: Wrapped, h: History, t: Tick, rest: seq<Tick>)
    requires Fits(depth, f, t) && Typed(depth, Advance(depth, f, t).r) && Allowed(depth, Advance(depth, f, t), rest)
    ensures Typed(depth, f.r) && Allowed(depth, f, [t] + rest)
    ensures After(depth, f, [t] + rest) == After(depth, Advance(depth, f, t), rest)
    ensures Recorded(depth, f, h, [t] + rest) == Recorded(depth, Advance(depth, f, t), Record(depth, f, h, t), rest)
  {
    assert ([t] + rest)[1..] == rest;
    hide Advance, Record, Fits;
  }

  lemma CountedSays(depth: nat, f: Wrapped, h: History)
    requires Counted(depth, f, h, 1, 1, 1, 1)
    ensures h.g.log == [7] && h.taken == [] && !f.valid && Typed(depth, f.r) && Empty(depth, f.r)
  {
    EmptyMeans(depth, f.r, h.g);
    hide Inv, Empty;
  }

  // ---- As registers ----

  class FwftFifo {
    const fifo: AsyncFifo
    var valid: bool

    function View(): Wrapped
      reads this, fifo, fifo.mem
    {
      Wrapped(fifo.View(), valid)
    }

    constructor (depth: nat)
      requires 2 <= depth
      ensures fresh(fifo) && fresh(fifo.mem) && fifo.depth == depth && AtReset(depth, View())
    {
      fifo := new AsyncFifo(depth);
      valid := false;
    }

    // The flag and the FIFO inside, on an edge of either clock or of both.
    method Clock(t: Tick)
      requires Fits(fifo.depth, View(), t)
      modifies this, fifo, fifo.mem
      ensures View() == Advance(fifo.depth, old(View()), t)
    {
      hide Gray, Environment, GrayFifo.Step, InvertTopTwo, Pow2;
      var depth := fifo.depth;
      var empty := Gray(depth + 1, fifo.rd) == fifo.wrSync2;
      var pops := !empty && (!valid || t.rdEn);
      fifo.Clock(t.(rdEn := pops));
      if t.wrClk {
        if pops {
          valid := true;
        } else if t.rdEn && valid {
          valid := false;
        }
      }
    }
  }
}
