// pcie_us_if_cc behind its own segmented FIFO: what the serializer assumes of its window is what the FIFO shows.
module CcPath {
  import opened GrayCode
  import Q = SegmentQueue
  import S = CcSerializer
  import P = CcSerializerProof

  // ---- A FIFO segment as the serializer's wires ----

  // Bits lo to lo + size - 1 of x.
  function Field(x: nat, lo: nat, size: nat): (f: nat)
    ensures f < Pow2(size)
  {
    x / Pow2(lo) % Pow2(size)
  }

  lemma Widths()
    ensures Pow2(2) == 4 && Pow2(3) == 8 && Pow2(7) == 0x80 && Pow2(8) == 0x100 && Pow2(10) == 0x400
    ensures Pow2(12) == 0x1000 && Pow2(16) == 0x1_0000
  {
    assert Pow2(8) == 256 && Pow2(12) == 16 * Pow2(8) && Pow2(16) == 16 * Pow2(12);
  }

  function HeaderOf(h: nat): (t: S.TlpHdr)
    ensures S.HdrOk(t)
  {
    Widths();
    S.TlpHdr(
      Field(h, 32, 7), Field(h, 106, 2), Field(h, 64, 12), Field(h, 96, 10), Field(h, 77, 3), Field(h, 110, 1) == 1,
      Field(h, 48, 16), Field(h, 40, 8), Field(h, 80, 16), Field(h, 116, 3), Field(h, 114, 1) * 4 + Field(h, 108, 2))
  }

  // 256 bits of payload, then the eight strobes.
  function Decode(s: Q.Seg): (t: S.Seg)
    ensures S.SegOk(t) && t.eop == s.eop && S.HdrOk(t.hdr)
  {
    S.Seg(seq(S.LANES, i requires 0 <= i < S.LANES => Field(s.data, 32 * i, 32)),
          seq(S.LANES, i requires 0 <= i < S.LANES => Field(s.data, 256 + i, 1) == 1),
          HeaderOf(s.hdr), s.eop)
  }

  function Decoded(log: seq<Q.Seg>): (d: seq<S.Seg>)
    ensures |d| == |log| && forall k :: 0 <= k < |d| ==> d[k] == Decode(log[k])
  {
    seq(|log|, k requires 0 <= k < |log| => Decode(log[k]))
  }

  // ---- FIFO and serializer ----

  datatype System = System(queue: Q.Queue, regs: S.Regs)

  // packed: the segments offered to the FIFO; stale: what output registers without a valid segment hold.
  datatype Input = Input(packed: seq<Q.Seg>, stale: seq<S.Seg>, ready: bool)

  predicate Fits(i: Input) {
    |i.packed| <= 2 && |i.stale| == 2 && forall k :: 0 <= k < 2 ==> S.SegOk(i.stale[k])
  }

  predicate Typed(s: System) {
    Q.Ordered(s.queue) && S.ShiftOk(s.regs.shift)
  }

  // The FIFO's output registers, from the first: the segments read and not yet taken.
  function Shown(s: System, i: Input, k: nat): (e: S.Entry)
    requires Typed(s) && Fits(i) && k < 2
    ensures S.SegOk(e.seg)
  {
    var q := s.queue;
    if q.head + k < q.mid then S.Entry(true, Decode(q.log[q.head + k])) else S.Entry(false, i.stale[k])
  }

  function Window(s: System, i: Input): (w: seq<S.Entry>)
    requires Typed(s) && Fits(i)
    ensures S.WindowOk(w)
  {
    [Shown(s, i, 0), Shown(s, i, 1)]
  }

  function Clocked(s: System, i: Input): S.Clocked
    requires Typed(s) && Fits(i)
  {
    S.Step(s.regs, Window(s, i), i.ready)
  }

  function Next(depth: nat, s: System, i: Input): (s': System)
    requires Typed(s) && Fits(i) && 6 <= depth && Q.QueueInv(2, depth, s.queue)
    ensures Typed(s') && Q.QueueInv(2, depth, s'.queue)
  {
    var c := Clocked(s, i);
    Q.QueueKept(2, depth, s.queue, i.packed, c.read);
    System(Q.Step(2, depth, s.queue, i.packed, c.read), c.regs)
  }

  function Record(s: System, h: P.History, i: Input): P.History
    requires Typed(s) && Fits(i)
  {
    P.HistoryStep(h, s.regs, Window(s, i), i.ready)
  }

  predicate Inv(depth: nat, s: System, h: P.History) {
    && Q.QueueInv(2, depth, s.queue) && P.SerializerInv(s.regs, h, Decoded(s.queue.log))
    && h.head == s.queue.head && S.ShiftOk(s.regs.shift)
  }

  // The window is what the serializer expects of it.
  lemma WindowFeeds(depth: nat, s: System, h: P.History, i: Input)
    requires Inv(depth, s, h) && Fits(i)
    ensures Typed(s) && P.WindowShows(Window(s, i), Decoded(s.queue.log), h.head)
  {
    hide P.SerializerInv, Decode;
  }

  // The serializer takes no more segments than the window shows.
  lemma TakesShown(r: S.Regs, window: seq<S.Entry>, ready: bool, shown: nat)
    requires S.WindowOk(window) && S.ShiftOk(r.shift) && shown <= 2
    requires window[0].valid == (1 <= shown) && window[1].valid == (2 <= shown)
    ensures S.Step(r, window, ready).read <= shown
  {
    hide S.Mux, S.Tail, S.Extra;
  }

  lemma ReadFits(s: System, i: Input)
    requires Typed(s) && Fits(i) && s.queue.mid <= s.queue.head + 2
    ensures Clocked(s, i).read <= s.queue.mid - s.queue.head
  {
    hide S.Step, Decode;
    TakesShown(s.regs, Window(s, i), i.ready, s.queue.mid - s.queue.head);
  }

  // More segments behind the ones read change nothing.
  lemma MoreInput(r: S.Regs, h: P.History, input: seq<S.Seg>, input': seq<S.Seg>)
    requires P.SerializerInv(r, h, input) && input <= input'
    ensures P.SerializerInv(r, h, input')
  {
    var seen := h.head + (if P.Splitting(h.track, r.flags) then 1 else 0);
    assert input[..seen] == input'[..seen];
    hide P.TrackInv, P.AllOuts, P.AllSegs, P.Held;
  }

  lemma DecodedGrows(a: seq<Q.Seg>, b: seq<Q.Seg>)
    requires a <= b
    ensures Decoded(a) <= Decoded(b)
  {
    hide Decode;
  }

  lemma QueueMoves(depth: nat, s: System, i: Input)
    requires Typed(s) && Fits(i) && 6 <= depth && Q.QueueInv(2, depth, s.queue)
    ensures var q, q', c := s.queue, Next(depth, s, i).queue, Clocked(s, i);
      && q.log <= q'.log && q'.log == q.log + (if q.full then [] else i.packed)
      && q'.head == q.head + c.read && Next(depth, s, i).regs == c.regs
  {
    hide S.Step, Window, Q.FrameEnd;
    ReadFits(s, i);
  }

  lemma RecordHead(s: System, h: P.History, i: Input)
    requires Typed(s) && Fits(i)
    ensures Record(s, h, i).head == h.head + Clocked(s, i).read
  {
    hide S.Step, Window, P.TrackStep;
  }

  lemma NextKept(depth: nat, s: System, h: P.History, i: Input)
    requires Inv(depth, s, h) && Fits(i) && 6 <= depth
    ensures Typed(s) && Inv(depth, Next(depth, s, i), Record(s, h, i))
  {
    hide *;
    WindowFeeds(depth, s, h, i);
    InvParts(depth, s, h);
    P.SerializerKept(s.regs, h, Decoded(s.queue.log), Window(s, i), i.ready);
    QueueMoves(depth, s, i);
    RecordHead(s, h, i);
    var s', h' := Next(depth, s, i), Record(s, h, i);
    DecodedGrows(s.queue.log, s'.queue.log);
    Unfolded(s, h, i);
    MoreInput(s'.regs, h', Decoded(s.queue.log), Decoded(s'.queue.log));
    InvFrom(depth, s', h');
  }

  lemma InvParts(depth: nat, s: System, h: P.History)
    requires Inv(depth, s, h)
    ensures Q.QueueInv(2, depth, s.queue) && P.SerializerInv(s.regs, h, Decoded(s.queue.log))
    ensures h.head == s.queue.head && S.ShiftOk(s.regs.shift)
  {
  }

  lemma InvFrom(depth: nat, s: System, h: P.History)
    requires Q.QueueInv(2, depth, s.queue) && P.SerializerInv(s.regs, h, Decoded(s.queue.log))
    requires h.head == s.queue.head && Typed(s)
    ensures Inv(depth, s, h)
  {
  }

  lemma Unfolded(s: System, h: P.History, i: Input)
    requires Typed(s) && Fits(i)
    ensures Clocked(s, i).regs == S.Step(s.regs, Window(s, i), i.ready).regs
    ensures Record(s, h, i) == P.HistoryStep(h, s.regs, Window(s, i), i.ready)
  {
  }

  // ---- Runs ----

  predicate AllFit(xs: seq<Input>) {
    forall k :: 0 <= k < |xs| ==> Fits(xs[k])
  }

  function After(depth: nat, s: System, xs: seq<Input>): (s': System)
    requires 6 <= depth && Typed(s) && Q.QueueInv(2, depth, s.queue) && AllFit(xs)
    ensures Typed(s') && Q.QueueInv(2, depth, s'.queue)
    decreases |xs|
  {
    if xs == [] then s else After(depth, Next(depth, s, xs[0]), xs[1..])
  }

  function Recorded(depth: nat, s: System, h: P.History, xs: seq<Input>): P.History
    requires 6 <= depth && Typed(s) && Q.QueueInv(2, depth, s.queue) && AllFit(xs)
    decreases |xs|
  {
    if xs == [] then h else Recorded(depth, Next(depth, s, xs[0]), Record(s, h, xs[0]), xs[1..])
  }

  // What the FIFO let in.
  function Accepted(depth: nat, s: System, xs: seq<Input>): seq<Q.Seg>
    requires 6 <= depth && Typed(s) && Q.QueueInv(2, depth, s.queue) && AllFit(xs)
    decreases |xs|
  {
    if xs == [] then []
    else (if s.queue.full then [] else xs[0].packed) + Accepted(depth, Next(depth, s, xs[0]), xs[1..])
  }

  lemma {:induction false} RunKept(depth: nat, s: System, h: P.History, xs: seq<Input>)
    requires 6 <= depth && Typed(s) && Inv(depth, s, h) && AllFit(xs)
    ensures Inv(depth, After(depth, s, xs), Recorded(depth, s, h, xs))
    ensures After(depth, s, xs).queue.log == s.queue.log + Accepted(depth, s, xs)
    decreases |xs|
  {
    hide *;
    InvParts(depth, s, h);
    RunStep(depth, s, h, xs);
    if xs != [] {
      NextKept(depth, s, h, xs[0]);
      QueueMoves(depth, s, xs[0]);
      var s' := Next(depth, s, xs[0]);
      RunKept(depth, s', Record(s, h, xs[0]), xs[1..]);
      var more := if s.queue.full then [] else xs[0].packed;
      assert (s.queue.log + more) + Accepted(depth, s', xs[1..]) == s.queue.log + (more + Accepted(depth, s', xs[1..]));
    }
  }

  // The run's first clock.
  lemma RunStep(depth: nat, s: System, h: P.History, xs: seq<Input>)
    requires 6 <= depth && Typed(s) && Q.QueueInv(2, depth, s.queue) && AllFit(xs)
    ensures xs == [] ==> After(depth, s, xs) == s && Recorded(depth, s, h, xs) == h && Accepted(depth, s, xs) == []
    ensures xs != [] ==> Fits(xs[0]) && AllFit(xs[1..])
    ensures xs != [] ==>
      var s' := Next(depth, s, xs[0]);
      && Typed(s') && Q.QueueInv(2, depth, s'.queue) && After(depth, s, xs) == After(depth, s', xs[1..])
      && Recorded(depth, s, h, xs) == Recorded(depth, s', Record(s, h, xs[0]), xs[1..])
      && Accepted(depth, s, xs) == (if s.queue.full then [] else xs[0].packed) + Accepted(depth, s', xs[1..])
  {
    hide Next, Record, Fits, Typed, Q.QueueInv;
  }

  predicate AtReset(s: System) {
    s.queue == Q.EMPTY && S.IsReset(s.regs)
  }

  lemma ResetOk(depth: nat, s: System)
    requires 6 <= depth && AtReset(s)
    ensures Typed(s) && Inv(depth, s, P.EMPTY)
  {
    Q.InitOk(2, depth);
    assert Decoded([]) == [];
  }

  // Over every run from reset, whatever is offered and however the receiver stalls: the segments let in are all
  // the serializer ever reads, in order; they fall into packets, every finished one of which left as its
  // descriptor and its whole payload; nothing of an unfinished TLP has been read.
  lemma PathCorrect(depth: nat, s: System, xs: seq<Input>)
    requires 6 <= depth && AtReset(s) && AllFit(xs)
    ensures var s', h := After(depth, s, xs), Recorded(depth, s, P.EMPTY, xs);
      var input := Decoded(Accepted(depth, s, xs));
      && (forall k :: 0 <= k < |h.track.done| ==> P.GoodPacket(h.track.done[k]))
      && h.delivered + P.Held(s'.regs) == P.AllOuts(h.track)
      && P.AllSegs(h.track) <= input && s'.queue.head <= |P.AllSegs(h.track)| <= s'.queue.head + 1
      && (h.track.open.None? ==> P.AllSegs(h.track) == input[..s'.queue.head])
      && s'.queue.head <= s'.queue.committed == Q.FrameEnd(Accepted(depth, s, xs))
      && |input| - s'.queue.tail < depth
  {
    hide *;
    ResetOk(depth, s);
    RunKept(depth, s, P.EMPTY, xs);
    EmptyLog(s, Accepted(depth, s, xs));
    Meaning(depth, After(depth, s, xs), Recorded(depth, s, P.EMPTY, xs));
  }

  lemma EmptyLog(s: System, more: seq<Q.Seg>)
    requires AtReset(s)
    ensures s.queue.log + more == more
  {
  }

  lemma Meaning(depth: nat, s: System, h: P.History)
    requires Inv(depth, s, h)
    ensures var input := Decoded(s.queue.log);
      && (forall k :: 0 <= k < |h.track.done| ==> P.GoodPacket(h.track.done[k]))
      && h.delivered + P.Held(s.regs) == P.AllOuts(h.track)
      && P.AllSegs(h.track) <= input && s.queue.head <= |P.AllSegs(h.track)| <= s.queue.head + 1
      && (h.track.open.None? ==> P.AllSegs(h.track) == input[..s.queue.head])
      && s.queue.head <= s.queue.committed == Q.FrameEnd(s.queue.log)
      && |input| - s.queue.tail < depth
  {
    hide P.GoodPacket, P.OpenPacket, P.AllOuts, P.AllSegs, P.Held, Decode, Q.FrameEnd;
  }
}
