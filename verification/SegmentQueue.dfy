// What pcie_tlp_fifo_raw is for: a queue of segments that shows a TLP only once it is complete.
// The registers and banks that implement it are in SegmentFifo.
module SegmentQueue {

  // One output-width segment: payload and strobes together, the header that rides along, framing.
  datatype Seg = Seg(data: nat, hdr: nat, sop: bool, eop: bool)

  // ----- Input side: splitting wide segments -----

  // A part of an input segment; used: any of its strobes is set.
  datatype Part = Part(data: nat, used: bool)

  datatype InSeg = InSeg(valid: bool, hdr: nat, sop: bool, eop: bool, parts: seq<Part>)

  datatype Lane = Lane(valid: bool, seg: Seg)

  // The last part in use carries eop; part 0 stands in when none is.
  function LastUsed(parts: seq<Part>): (n: nat)
    ensures parts != [] ==> n < |parts|
    ensures 0 < n ==> n < |parts| && parts[n].used
    ensures forall k :: n < k < |parts| ==> !parts[k].used
  {
    if parts == [] then 0
    else if parts[|parts| - 1].used then |parts| - 1
    else LastUsed(parts[..|parts| - 1])
  }

  // Part 0 of a valid segment is always kept, with header and sop; the others only if used.
  function Lanes(s: InSeg): (l: seq<Lane>)
    ensures |l| == |s.parts|
  {
    seq(|s.parts|, k requires 0 <= k < |s.parts| =>
      Lane(s.valid && (k == 0 || s.parts[k].used),
           Seg(s.parts[k].data, if k == 0 then s.hdr else 0, k == 0 && s.sop, s.eop && k == LastUsed(s.parts))))
  }

  function Split(input: seq<InSeg>): seq<Lane> {
    if input == [] then [] else Split(input[..|input| - 1]) + Lanes(input[|input| - 1])
  }

  // The valid lanes, closed up.
  function Pack(lanes: seq<Lane>): (p: seq<Seg>)
    ensures |p| <= |lanes|
  {
    if lanes == [] then []
    else Pack(lanes[..|lanes| - 1]) + (if lanes[|lanes| - 1].valid then [lanes[|lanes| - 1].seg] else [])
  }

  // One past the last eop; 0 if there is none.
  function FrameEnd(segs: seq<Seg>): (n: nat)
    ensures n <= |segs| && (n > 0 ==> segs[n - 1].eop)
    ensures forall k :: n <= k < |segs| ==> !segs[k].eop
  {
    if segs == [] then 0
    else if segs[|segs| - 1].eop then |segs|
    else FrameEnd(segs[..|segs| - 1])
  }

  lemma {:induction false} FrameEndJoin(a: seq<Seg>, b: seq<Seg>)
    ensures FrameEnd(a + b) == (if FrameEnd(b) > 0 then |a| + FrameEnd(b) else FrameEnd(a))
    decreases |b|
  {
    if b == [] {
      assert a + b == a;
    } else {
      assert (a + b)[..|a + b| - 1] == a + b[..|b| - 1];
      FrameEndJoin(a, b[..|b| - 1]);
    }
  }

  lemma {:induction false} PackJoin(a: seq<Lane>, b: seq<Lane>)
    ensures Pack(a + b) == Pack(a) + Pack(b)
    decreases |b|
  {
    if b == [] {
      assert a + b == a;
    } else {
      assert (a + b)[..|a + b| - 1] == a + b[..|b| - 1];
      PackJoin(a, b[..|b| - 1]);
    }
  }

  // A valid segment's lanes pack into sop first, eop last, nothing in between.
  lemma {:induction false} SegmentFraming(s: InSeg)
    requires s.valid && s.parts != []
    ensures var p := Pack(Lanes(s));
            && p != [] && p[0] == Seg(s.parts[0].data, s.hdr, s.sop, s.eop && LastUsed(s.parts) == 0)
            && (forall k :: 0 < k < |p| ==> !p[k].sop && p[k].hdr == 0)
            && (forall k :: 0 <= k < |p| - 1 ==> !p[k].eop)
            && p[|p| - 1].eop == s.eop
  {
    LanesFraming(s, |s.parts|);
    assert Lanes(s)[..|s.parts|] == Lanes(s);
  }

  lemma {:induction false} LanesFraming(s: InSeg, n: nat)
    requires s.valid && 0 < n <= |s.parts|
    ensures var p := Pack(Lanes(s)[..n]);
            && p != [] && p[0] == Seg(s.parts[0].data, s.hdr, s.sop, s.eop && LastUsed(s.parts) == 0)
            && (forall k :: 0 < k < |p| ==> !p[k].sop && p[k].hdr == 0)
            && (forall k :: 0 <= k < |p| - 1 ==> !p[k].eop)
            && p[|p| - 1].eop == (s.eop && n > LastUsed(s.parts))
  {
    var l := Lanes(s);
    assert l[..n][..n - 1] == l[..n - 1];
    if n > 1 {
      LanesFraming(s, n - 1);
    } else {
      assert l[..0] == [];
    }
  }

  // With one wide segment per word the frame, if it ends, ends with the word.
  lemma SingleFrame(s: InSeg)
    requires s.parts != []
    ensures Split([s]) == Lanes(s)
    ensures var p := Pack(Split([s])); FrameEnd(p) > 0 ==> FrameEnd(p) == |p|
  {
    assert [s][..0] == [] && Split([s]) == [] + Lanes(s);
    if s.valid {
      SegmentFraming(s);
    } else {
      NonePacked(Lanes(s), |s.parts|);
      assert Lanes(s)[..|s.parts|] == Lanes(s);
    }
  }

  lemma {:induction false} NonePacked(lanes: seq<Lane>, n: nat)
    requires n <= |lanes| && forall k :: 0 <= k < n ==> !lanes[k].valid
    ensures Pack(lanes[..n]) == []
  {
    if 0 < n {
      assert lanes[..n][..n - 1] == lanes[..n - 1];
      NonePacked(lanes, n - 1);
    }
  }

  // ----- The queue -----

  // log: every segment ever written; committed: how many belong to finished TLPs; tail: how many have
  // been read from the banks; mid: how many have reached the output registers; head: how many the
  // consumer took; full: the registered flag, one clock late.
  datatype Queue = Queue(log: seq<Seg>, committed: nat, head: nat, mid: nat, tail: nat, full: bool)

  const EMPTY := Queue([], 0, 0, 0, 0, false)

  function Min(a: int, b: int): int {
    if a < b then a else b
  }

  predicate Ordered(q: Queue) {
    q.head <= q.mid <= q.tail <= q.committed <= |q.log|
  }

  // segs: output segments per word; depth: capacity in segments; packed: the input's segments, closed
  // up; take: how many segments the consumer asks for.
  function Step(segs: nat, depth: nat, q: Queue, packed: seq<Seg>, take: nat): Queue
    requires Ordered(q)
  {
    var accept := !q.full;
    var head := q.head + Min(take, q.mid - q.head);
    var mid := Min(q.tail, head + segs);
    Queue(
      if accept then q.log + packed else q.log,
      if accept && FrameEnd(packed) > 0 then |q.log| + FrameEnd(packed) else q.committed,
      head, if mid < 0 then 0 else mid, Min(q.committed, mid + segs),
      |q.log| - q.tail >= depth - 2 * segs)
  }

  // Capacity is never exceeded although full is a clock late, and only finished TLPs are committed.
  predicate QueueInv(segs: nat, depth: nat, q: Queue) {
    && Ordered(q) && q.mid <= q.head + segs && q.tail <= q.mid + segs
    && q.committed == FrameEnd(q.log)
    && |q.log| - q.tail <= depth - 1
    && (!q.full ==> |q.log| - q.tail <= depth - segs - 1)
  }

  lemma QueueKept(segs: nat, depth: nat, q: Queue, packed: seq<Seg>, take: nat)
    requires 1 <= segs && 3 * segs <= depth && QueueInv(segs, depth, q) && |packed| <= segs
    ensures QueueInv(segs, depth, Step(segs, depth, q, packed, take))
  {
    FrameEndJoin(q.log, packed);
  }

  // ----- Runs -----

  datatype Clock = Clock(packed: seq<Seg>, take: nat)

  predicate RunOk(segs: nat, run: seq<Clock>) {
    forall k :: 0 <= k < |run| ==> |run[k].packed| <= segs
  }

  lemma InitOk(segs: nat, depth: nat)
    requires 1 <= segs && 3 * segs <= depth
    ensures QueueInv(segs, depth, EMPTY)
  {
  }

  function After(segs: nat, depth: nat, run: seq<Clock>): (q: Queue)
    requires 1 <= segs && 3 * segs <= depth && RunOk(segs, run)
    ensures QueueInv(segs, depth, q)
  {
    if run == [] then
      InitOk(segs, depth);
      EMPTY
    else
      var q, i := After(segs, depth, run[..|run| - 1]), run[|run| - 1];
      QueueKept(segs, depth, q, i.packed, i.take);
      Step(segs, depth, q, i.packed, i.take)
  }

  // What was accepted, in order.
  function Accepted(segs: nat, depth: nat, run: seq<Clock>): seq<Seg>
    requires 1 <= segs && 3 * segs <= depth && RunOk(segs, run)
  {
    if run == [] then []
    else
      var front := run[..|run| - 1];
      Accepted(segs, depth, front) + (if After(segs, depth, front).full then [] else run[|run| - 1].packed)
  }

  // What the consumer took: on each clock, the segments at the front of the output window.
  function Taken(segs: nat, depth: nat, run: seq<Clock>): seq<Seg>
    requires 1 <= segs && 3 * segs <= depth && RunOk(segs, run)
  {
    if run == [] then []
    else
      var front := run[..|run| - 1];
      var q := After(segs, depth, front);
      Taken(segs, depth, front) + q.log[q.head..q.head + Min(run[|run| - 1].take, q.mid - q.head)]
  }

  lemma StepOrder(segs: nat, depth: nat, q: Queue, packed: seq<Seg>, take: nat)
    requires Ordered(q)
    ensures var q' := Step(segs, depth, q, packed, take);
            && q'.head == q.head + Min(take, q.mid - q.head) <= |q.log|
            && q'.log == q.log + (if q.full then [] else packed)
            && q'.log[..q'.head] == q.log[..q.head] + q.log[q.head..q'.head]
  {
  }

  // Over every run: segments come out in the order they went in, each exactly once, and everything
  // that came out (indeed everything read from the banks) belongs to a TLP whose end was accepted.
  lemma {:induction false} FifoOrder(segs: nat, depth: nat, run: seq<Clock>)
    requires 1 <= segs && 3 * segs <= depth && RunOk(segs, run)
    ensures var q := After(segs, depth, run);
            && q.log == Accepted(segs, depth, run)
            && Taken(segs, depth, run) == Accepted(segs, depth, run)[..q.head]
            && q.tail <= FrameEnd(Accepted(segs, depth, run))
            && |q.log| - q.tail < depth
  {
    hide Step;
    if run != [] {
      hide FrameEnd;
      var front, i := run[..|run| - 1], run[|run| - 1];
      FifoOrder(segs, depth, front);
      StepOrder(segs, depth, After(segs, depth, front), i.packed, i.take);
    }
  }

  // Nothing committed is withheld: after two idle clocks the window shows as much as it can.
  lemma WindowFills(segs: nat, depth: nat, q: Queue)
    requires 1 <= segs && 3 * segs <= depth && QueueInv(segs, depth, q)
    ensures var q' := Step(segs, depth, Step(segs, depth, q, [], 0), [], 0);
            q'.head == q.head && q'.mid == Min(q.committed, q.head + segs)
  {
  }
}
