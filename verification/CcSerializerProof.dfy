// The completion serializer over every run: each completion leaves as its descriptor followed by its
// whole payload, in order, packed without gaps and framed exactly.
module CcSerializerProof {
  import opened Wrappers
  import opened CcSerializer

  // ----- What a completion must look like on the way out -----

  function Payload(segs: seq<Seg>): seq<nat>
    requires forall k :: 0 <= k < |segs| ==> SegOk(segs[k])
  {
    if segs == [] then []
    else
      var last := segs[|segs| - 1];
      assert SegOk(last);
      Payload(segs[..|segs| - 1]) + Enabled(last.data, last.strb)
  }

  predicate OutOk(o: OutSeg) {
    |o.data| == |o.strb| == LANES
  }

  function Words(outs: seq<OutSeg>): seq<nat>
    requires forall k :: 0 <= k < |outs| ==> OutOk(outs[k])
  {
    if outs == [] then []
    else
      var last := outs[|outs| - 1];
      assert OutOk(last);
      Words(outs[..|outs| - 1]) + Enabled(last.data, last.strb)
  }

  // One completion: the input segments it came as and the output segments it left as.
  datatype Packet = Packet(segs: seq<Seg>, outs: seq<OutSeg>)

  predicate Typed(p: Packet) {
    && p.segs != [] && (forall k :: 0 <= k < |p.segs| ==> SegOk(p.segs[k]))
    && (forall k :: 0 <= k < |p.outs| ==> OutOk(p.outs[k]))
  }

  function Wanted(p: Packet): seq<nat>
    requires Typed(p)
  {
    Descriptor(p.segs[0].hdr) + Payload(p.segs)
  }

  // sop on the first output segment only; eop, once the packet is finished, on the last only.
  predicate Framed(outs: seq<OutSeg>, finished: bool) {
    forall k :: 0 <= k < |outs| ==>
      outs[k].sop == (k == 0) && outs[k].eop == (finished && k == |outs| - 1)
  }

  predicate GoodPacket(p: Packet) {
    && Typed(p) && (forall k :: 0 <= k < |p.segs| ==> p.segs[k].eop == (k == |p.segs| - 1))
    && Words(p.outs) == Wanted(p) && Framed(p.outs, true)
    && |p.outs| == |p.segs| + (if Extra(p.segs[|p.segs| - 1]) then 1 else 0)
  }

  // While a packet is under way the shift register holds exactly what has come in but not gone out.
  predicate OpenPacket(split: bool, shift: Shift, p: Packet) {
    && Typed(p) && ShiftOk(shift)
    && (forall k :: 0 <= k < |p.segs| ==> p.segs[k].eop == (split && k == |p.segs| - 1))
    && (split ==> Extra(p.segs[|p.segs| - 1]) && shift == Tail(p.segs[|p.segs| - 1]))
    && Words(p.outs) + Enabled(shift.data, shift.strb) == Wanted(p) && Framed(p.outs, false)
    && |p.outs| == |p.segs|
  }

  // ----- Lanes -----

  lemma {:induction false} EnabledJoin(d: seq<nat>, m: seq<bool>, d': seq<nat>, m': seq<bool>)
    requires |d| == |m| && |d'| == |m'|
    ensures Enabled(d + d', m + m') == Enabled(d, m) + Enabled(d', m')
    decreases |d'|
  {
    if d' == [] {
      assert d + d' == d && m + m' == m;
    } else {
      var n := |d'| - 1;
      assert (d + d')[..|d| + n] == d + d'[..n] && (m + m')[..|d| + n] == m + m'[..n];
      EnabledJoin(d, m, d'[..n], m'[..n]);
    }
  }

  lemma {:induction false} NoneEnabled(d: seq<nat>, m: seq<bool>)
    requires |d| == |m| && forall k :: 0 <= k < |m| ==> !m[k]
    ensures Enabled(d, m) == []
  {
    if d != [] {
      NoneEnabled(d[..|d| - 1], m[..|m| - 1]);
    }
  }

  lemma {:induction false} AllEnabled(d: seq<nat>, m: seq<bool>)
    requires |d| == |m| && forall k :: 0 <= k < |m| ==> m[k]
    ensures Enabled(d, m) == d
  {
    if d != [] {
      AllEnabled(d[..|d| - 1], m[..|m| - 1]);
      assert d == d[..|d| - 1] + [d[|d| - 1]];
    }
  }

  // A segment's lanes are the five that go straight out and the three that wait.
  lemma SegmentLanes(s: Seg)
    requires SegOk(s)
    ensures Enabled(s.data, s.strb)
         == Enabled(s.data[..LANES - HEAD], s.strb[..LANES - HEAD]) + Enabled(Tail(s).data, Tail(s).strb)
    ensures !AnyFrom(s.strb, LANES - HEAD) ==> Enabled(Tail(s).data, Tail(s).strb) == []
  {
    assert s.data == s.data[..LANES - HEAD] + Tail(s).data && s.strb == s.strb[..LANES - HEAD] + Tail(s).strb;
    EnabledJoin(s.data[..LANES - HEAD], s.strb[..LANES - HEAD], Tail(s).data, Tail(s).strb);
    if !AnyFrom(s.strb, LANES - HEAD) {
      NoneEnabled(Tail(s).data, Tail(s).strb);
    }
  }

  lemma MuxLanes(p: Plan, s: Seg, shift: Shift)
    requires SegOk(s) && ShiftOk(shift)
    ensures var o := Mux(p, s, shift);
            && OutOk(o)
            && Enabled(o.data, o.strb)
               == (if p.sop then Descriptor(s.hdr) else Enabled(shift.data, shift.strb))
                + (if p.split2 then [] else Enabled(s.data[..LANES - HEAD], s.strb[..LANES - HEAD]))
  {
    var front, mask := if p.sop then Descriptor(s.hdr) else shift.data, if p.sop then [true, true, true]
        else shift.strb;
    var five := s.data[..LANES - HEAD];
    var rest := if p.split2 then seq(LANES - HEAD, _ => false) else s.strb[..LANES - HEAD];
    EnabledJoin(front, mask, five, rest);
    AllEnabled(Descriptor(s.hdr), [true, true, true]);
    if p.split2 {
      NoneEnabled(five, rest);
    }
    hide Enabled, Descriptor;
  }

  // ----- One output segment -----

  lemma PayloadMore(segs: seq<Seg>, s: Seg)
    requires (forall k :: 0 <= k < |segs| ==> SegOk(segs[k])) && SegOk(s)
    ensures Payload(segs + [s]) == Payload(segs) + Enabled(s.data, s.strb)
  {
    assert (segs + [s])[..|segs|] == segs;
  }

  lemma WordsMore(outs: seq<OutSeg>, o: OutSeg)
    requires (forall k :: 0 <= k < |outs| ==> OutOk(outs[k])) && OutOk(o)
    ensures Words(outs + [o]) == Words(outs) + Enabled(o.data, o.strb)
  {
    assert (outs + [o])[..|outs|] == outs;
  }

  // First segment of a completion.
  lemma OpensPacket(s: Seg, shift: Shift, eop: bool)
    requires SegOk(s) && ShiftOk(shift) && eop == (s.eop && !Extra(s))
    ensures var p := Packet([s], [Mux(Plan(0, true, eop, false), s, shift)]);
            && (eop ==> GoodPacket(p))
            && (!eop ==> OpenPacket(Extra(s), Tail(s), p))
  {
    var o := Mux(Plan(0, true, eop, false), s, shift);
    MuxLanes(Plan(0, true, eop, false), s, shift);
    SegmentLanes(s);
    PayloadMore([], s);
    WordsMore([], o);
    assert [] + [s] == [s] && [] + [o] == [o];
    var a, b, t := Descriptor(s.hdr), Enabled(s.data[..LANES - HEAD], s.strb[..LANES - HEAD]),
        Enabled(Tail(s).data, Tail(s).strb);
    assert a + b + t == a + (b + t);
    hide Enabled, Descriptor, Mux, Tail, Payload, Words;
  }

  // A further segment of the completion under way.
  lemma ExtendsPacket(p: Packet, s: Seg, shift: Shift, eop: bool)
    requires OpenPacket(false, shift, p) && SegOk(s) && eop == (s.eop && !Extra(s))
    ensures var p' := Packet(p.segs + [s], p.outs + [Mux(Plan(0, false, eop, false), s, shift)]);
            && (eop ==> GoodPacket(p'))
            && (!eop ==> OpenPacket(Extra(s), Tail(s), p'))
  {
    var o := Mux(Plan(0, false, eop, false), s, shift);
    MuxLanes(Plan(0, false, eop, false), s, shift);
    SegmentLanes(s);
    PayloadMore(p.segs, s);
    WordsMore(p.outs, o);
    Regroup(Words(p.outs), Enabled(shift.data, shift.strb), Descriptor(p.segs[0].hdr), Payload(p.segs),
            Enabled(s.data[..LANES - HEAD], s.strb[..LANES - HEAD]), Enabled(Tail(s).data, Tail(s).strb));
    hide Enabled, Descriptor, Mux, Tail, Payload, Words, Extra;
  }

  lemma Regroup(gone: seq<nat>, held: seq<nat>, head: seq<nat>, body: seq<nat>, five: seq<nat>, three: seq<nat>)
    requires gone + held == head + body
    ensures gone + (held + five) + three == head + (body + (five + three))
  {
    assert gone + (held + five) + three == gone + held + five + three;
    assert head + (body + (five + three)) == head + body + five + three;
  }

  // The extra output segment flushes what is left.
  lemma FlushesPacket(p: Packet, shift: Shift)
    requires OpenPacket(true, shift, p)
    ensures GoodPacket(p.(outs := p.outs + [Mux(Plan(0, false, true, true), p.segs[|p.segs| - 1], shift)]))
  {
    var s := p.segs[|p.segs| - 1];
    var o := Mux(Plan(0, false, true, true), s, shift);
    MuxLanes(Plan(0, false, true, true), s, shift);
    WordsMore(p.outs, o);
    hide Enabled, Descriptor, Mux, Tail, Payload, Words, Extra;
  }

  // ----- The packets so far -----

  datatype Track = Track(done: seq<Packet>, open: Option<Packet>)

  // One more output segment, fed by s.
  function Advance(t: Track, split: bool, s: Seg, o: OutSeg): Track {
    var p := match t.open
             case None => Packet([s], [o])
             case Some(p) => Packet(if split then p.segs else p.segs + [s], p.outs + [o]);
    if o.eop then Track(t.done + [p], None) else Track(t.done, Some(p))
  }

  predicate TrackInv(t: Track, f: Flags, shift: Shift) {
    && ShiftOk(shift) && (forall k :: 0 <= k < |t.done| ==> GoodPacket(t.done[k]))
    && f.frame == t.open.Some?
    && (t.open.Some? ==> !f.hdr1 && !f.split2 && OpenPacket(f.split1, shift, t.open.value))
  }

  predicate Splitting(t: Track, f: Flags) {
    t.open.Some? && f.split1
  }

  // Routing a valid segment emits the next output segment of the packet it belongs to.
  lemma RouteEmits(t: Track, r: Route, shift: Shift, window: seq<Entry>, last: bool)
    requires r.at < |window| && window[r.at].valid && SegOk(window[r.at].seg) && !r.abort
    requires TrackInv(t, r.flags, shift)
    requires Splitting(t, r.flags) ==> window[r.at].seg == t.open.value.segs[|t.open.value.segs| - 1]
    ensures var e, d := window[r.at].seg, RouteSegment(r, window, last);
            var o := Mux(d.plan, e, shift);
            && TrackInv(Advance(t, Splitting(t, r.flags), e, o), d.route.flags, Tail(e))
            && !d.route.abort && d.plan.sel == r.at && d.commit == (e.eop || last)
            && d.route.at == r.at + (if Splitting(Advance(t, Splitting(t, r.flags), e, o), d.route.flags) then 0 else 1)
            && d.route.count - r.count == d.route.at - r.at
            && (Splitting(t, r.flags) ==> d.route.at == r.at + 1)
  {
    var e, d := window[r.at].seg, RouteSegment(r, window, last);
    MuxPlan(d.plan, e, shift);
    match t.open {
      case None =>
        OpensPacket(e, shift, e.eop && !Extra(e));
      case Some(p) =>
        if r.flags.split1 {
          FlushesPacket(p, shift);
          assert p.(outs := p.outs + [Mux(Plan(0, false, true, true), e, shift)]) ==
              Packet(p.segs, p.outs + [Mux(Plan(0, false, true, true), e, shift)]);
        } else {
          ExtendsPacket(p, e, shift, e.eop && !Extra(e));
        }
    }
    hide Extra, Mux, Tail, GoodPacket, OpenPacket;
  }

  // The multiplexer does not look at which input segment was selected.
  lemma MuxPlan(p: Plan, s: Seg, shift: Shift)
    requires SegOk(s) && ShiftOk(shift)
    ensures Mux(p, s, shift) == Mux(p.(sel := 0), s, shift) && Mux(p, s, shift).eop == p.eop
  {
  }

  function DoneSegs(done: seq<Packet>): seq<Seg> {
    if done == [] then [] else DoneSegs(done[..|done| - 1]) + done[|done| - 1].segs
  }

  function DoneOuts(done: seq<Packet>): seq<OutSeg> {
    if done == [] then [] else DoneOuts(done[..|done| - 1]) + done[|done| - 1].outs
  }

  function AllSegs(t: Track): seq<Seg> {
    DoneSegs(t.done) + (if t.open.Some? then t.open.value.segs else [])
  }

  function AllOuts(t: Track): seq<OutSeg> {
    DoneOuts(t.done) + (if t.open.Some? then t.open.value.outs else [])
  }

  lemma AdvanceAll(t: Track, split: bool, s: Seg, o: OutSeg)
    ensures AllOuts(Advance(t, split, s, o)) == AllOuts(t) + [o]
    ensures AllSegs(Advance(t, split, s, o)) == (if split && t.open.Some? then AllSegs(t) else AllSegs(t) + [s])
  {
    var t' := Advance(t, split, s, o);
    if o.eop {
      assert t'.done[..|t.done|] == t.done;
    }
    if t.open.Some? {
      var p := t.open.value;
      assert DoneOuts(t.done) + (p.outs + [o]) == DoneOuts(t.done) + p.outs + [o];
      assert DoneSegs(t.done) + (p.segs + [s]) == DoneSegs(t.done) + p.segs + [s];
    } else {
      assert DoneOuts(t.done) + [] + [o] == DoneOuts(t.done) + [o];
      assert DoneSegs(t.done) + [] + [s] == DoneSegs(t.done) + [s];
    }
  }

  // ----- Clocks -----

  // The FIFO has handed over the first `head` segments of input; a segment being split is still there.
  predicate Position(t: Track, f: Flags, input: seq<Seg>, head: nat) {
    var seen := head + (if Splitting(t, f) then 1 else 0);
    seen <= |input| && AllSegs(t) == input[..seen]
  }

  lemma PositionMoves(t: Track, f: Flags, f': Flags, input: seq<Seg>, head: nat, o: OutSeg)
    requires Position(t, f, input, head) && head < |input|
    ensures var t' := Advance(t, Splitting(t, f), input[head], o);
            (Splitting(t, f) ==> !Splitting(t', f')) ==>
              Position(t', f', input, if Splitting(t', f') then head else head + 1)
  {
    AdvanceAll(t, Splitting(t, f), input[head], o);
    assert input[..head + 1] == input[..head] + [input[head]];
  }

  lemma SplitHead(t: Track, f: Flags, shift: Shift, input: seq<Seg>, head: nat)
    requires TrackInv(t, f, shift) && Position(t, f, input, head) && Splitting(t, f)
    ensures head < |input| && input[head] == t.open.value.segs[|t.open.value.segs| - 1]
  {
    var p := t.open.value;
    var all := DoneSegs(t.done) + p.segs;
    assert all[|all| - 1] == p.segs[|p.segs| - 1];
    assert all == input[..head + 1];
  }

  // The FIFO's registers show the next segments, from the first; what is not valid is stale.
  predicate WindowShows(window: seq<Entry>, input: seq<Seg>, head: nat) {
    && WindowOk(window) && (window[1].valid ==> window[0].valid)
    && forall k :: 0 <= k < 2 && window[k].valid ==> head + k < |input| && window[k].seg == input[head + k]
  }

  datatype History = History(track: Track, head: nat, delivered: seq<OutSeg>)

  function Held(r: Regs): seq<OutSeg> {
    if r.out.Some? then r.out.value else []
  }

  predicate SerializerInv(r: Regs, h: History, input: seq<Seg>) {
    && TrackInv(h.track, r.flags, r.shift) && Position(h.track, r.flags, input, h.head)
    && h.delivered + Held(r) == AllOuts(h.track)
  }

  // The history after a clock: the packets advanced by what was sent.
  function TrackStep(t: Track, r: Regs, window: seq<Entry>, ready: bool): Track
    requires WindowOk(window) && ShiftOk(r.shift)
  {
    var c := Step(r, window, ready);
    var a := RouteSegment(Route(r.flags, 0, 0, false), window, false);
    if |c.sent| == 0 then t
    else
      var t1 := Advance(t, Splitting(t, r.flags), window[0].seg, c.sent[0]);
      if |c.sent| == 1 then t1
      else Advance(t1, Splitting(t1, a.route.flags), window[a.route.at].seg, c.sent[1])
  }

  function HistoryStep(h: History, r: Regs, window: seq<Entry>, ready: bool): History
    requires WindowOk(window) && ShiftOk(r.shift)
  {
    History(TrackStep(h.track, r, window, ready), h.head + Step(r, window, ready).read,
            h.delivered + (if ready then Held(r) else []))
  }

  // The first output segment of a clock, when there is input.
  lemma FirstSegment(r: Regs, t: Track, head: nat, input: seq<Seg>, window: seq<Entry>)
    requires TrackInv(t, r.flags, r.shift) && Position(t, r.flags, input, head)
    requires WindowShows(window, input, head) && window[0].valid
    ensures var a := RouteSegment(Route(r.flags, 0, 0, false), window, false);
            var o := Mux(a.plan, window[0].seg, r.shift);
            var t1 := Advance(t, Splitting(t, r.flags), window[0].seg, o);
            && a.plan.sel == 0 && a.commit == window[0].seg.eop && !a.route.abort
            && TrackInv(t1, a.route.flags, Tail(window[0].seg)) && a.route.count == a.route.at <= 1
            && Position(t1, a.route.flags, input, head + a.route.at) && AllOuts(t1) == AllOuts(t) + [o]
  {
    hide *;
    WindowParts(r, t, head, input, window, 0);
    var a := RouteSegment(Route(r.flags, 0, 0, false), window, false);
    var o := Mux(a.plan, window[0].seg, r.shift);
    if Splitting(t, r.flags) {
      SplitHead(t, r.flags, r.shift, input, head);
    }
    RouteEmits(t, Route(r.flags, 0, 0, false), r.shift, window, false);
    PositionMoves(t, r.flags, a.route.flags, input, head, o);
    AdvanceAll(t, Splitting(t, r.flags), window[0].seg, o);
  }

  // A valid entry of the window is the next input segment.
  lemma WindowParts(r: Regs, t: Track, head: nat, input: seq<Seg>, window: seq<Entry>, k: nat)
    requires TrackInv(t, r.flags, r.shift) && WindowShows(window, input, head) && k < 2 && window[k].valid
    ensures |window| == 2 && WindowOk(window) && ShiftOk(r.shift) && SegOk(window[k].seg)
    ensures head + k < |input| && window[k].seg == input[head + k]
  {
    hide GoodPacket, OpenPacket;
  }

  // The second one.
  lemma SecondSegment(a: Route, t: Track, shift: Shift, head: nat, input: seq<Seg>, window: seq<Entry>)
    requires TrackInv(t, a.flags, shift) && a.at <= 1 && a.count == a.at && !a.abort
    requires Position(t, a.flags, input, head + a.at) && WindowShows(window, input, head)
    ensures var b := RouteSegment(a, window, true);
            && b.plan.sel == a.at && b.commit == window[a.at].valid
            && (b.commit ==>
                  var o := Mux(b.plan, window[a.at].seg, shift);
                  var t2 := Advance(t, Splitting(t, a.flags), window[a.at].seg, o);
                  && TrackInv(t2, b.route.flags, Tail(window[a.at].seg)) && b.route.count == b.route.at
                  && Position(t2, b.route.flags, input, head + b.route.at) && AllOuts(t2) == AllOuts(t) + [o])
  {
    var b := RouteSegment(a, window, true);
    var o := Mux(b.plan, window[a.at].seg, shift);
    if window[a.at].valid {
      if Splitting(t, a.flags) {
        SplitHead(t, a.flags, shift, input, head + a.at);
      }
      RouteEmits(t, a, shift, window, true);
      PositionMoves(t, a.flags, b.route.flags, input, head + a.at, o);
      AdvanceAll(t, Splitting(t, a.flags), window[a.at].seg, o);
      hide RouteSegment, Mux, Tail, TrackInv, AllOuts, AllSegs, Extra;
    }
  }

  // Nothing is lost or repeated at the output register.
  lemma Delivery(r: Regs, window: seq<Entry>, ready: bool)
    requires WindowOk(window) && ShiftOk(r.shift)
    ensures var c := Step(r, window, ready); (if ready then Held(r) else []) + Held(c.regs) == Held(r) + c.sent
  {
    hide RouteSegment, Mux, Tail;
  }

  predicate TrackKept(t: Track, head: nat, r: Regs, input: seq<Seg>, window: seq<Entry>, ready: bool)
    requires WindowOk(window) && ShiftOk(r.shift)
  {
    var c, t' := Step(r, window, ready), TrackStep(t, r, window, ready);
    && TrackInv(t', c.regs.flags, c.regs.shift) && Position(t', c.regs.flags, input, head + c.read)
    && AllOuts(t') == AllOuts(t) + c.sent
  }

  // The three things a clock can do.
  lemma StepCases(r: Regs, window: seq<Entry>, ready: bool)
    requires WindowOk(window) && ShiftOk(r.shift)
    ensures var c := Step(r, window, ready);
            var a := RouteSegment(Route(r.flags, 0, 0, false), window, false);
            var b := RouteSegment(a.route, window, true);
            var free := r.out.None? || ready;
            var s1 := window[0].seg;
            && (!free || (!a.commit && !b.commit) ==>
                  c.sent == [] && c.read == 0 && c.regs.flags == r.flags && c.regs.shift == r.shift)
            && (free && b.commit ==>
                  && c.sent == [Mux(a.plan, s1, r.shift), Mux(b.plan, window[b.plan.sel].seg, Tail(s1))]
                  && c.read == b.route.count && c.regs.flags == b.route.flags &&
                     c.regs.shift == Tail(window[b.plan.sel].seg))
            && (free && !b.commit && a.commit ==>
                  && c.sent == [Mux(a.plan, s1, r.shift)]
                  && c.read == a.route.count && c.regs.flags == a.route.flags && c.regs.shift == Tail(s1))
  {
    hide Mux, Tail, Extra;
  }

  lemma KeptIdle(r: Regs, t: Track, head: nat, input: seq<Seg>, window: seq<Entry>, ready: bool)
    requires WindowOk(window) && TrackInv(t, r.flags, r.shift) && Position(t, r.flags, input, head)
    requires var c := Step(r, window, ready);
      c.sent == [] && c.read == 0 && c.regs.flags == r.flags && c.regs.shift == r.shift
    ensures TrackKept(t, head, r, input, window, ready)
  {
    hide Step, TrackInv, AllOuts, Position, RouteSegment;
    assert AllOuts(t) + [] == AllOuts(t);
  }

  lemma KeptSending(r: Regs, t: Track, head: nat, input: seq<Seg>, window: seq<Entry>, ready: bool, t': Track)
    requires WindowOk(window) && ShiftOk(r.shift)
    requires var c := Step(r, window, ready);
             && t' == TrackStep(t, r, window, ready) && TrackInv(t', c.regs.flags, c.regs.shift)
             && Position(t', c.regs.flags, input, head + c.read) && AllOuts(t') == AllOuts(t) + c.sent
    ensures TrackKept(t, head, r, input, window, ready)
  {
    hide Step, TrackInv, AllOuts, Position, RouteSegment, TrackStep;
  }

  lemma TrackStepIs(t: Track, r: Regs, window: seq<Entry>, ready: bool)
    requires WindowOk(window) && ShiftOk(r.shift)
    ensures var c, a := Step(r, window, ready), RouteSegment(Route(r.flags, 0, 0, false), window, false);
            && (|c.sent| >= 1 ==>
                  var t1 := Advance(t, Splitting(t, r.flags), window[0].seg, c.sent[0]);
                  && (|c.sent| == 1 ==> TrackStep(t, r, window, ready) == t1)
                  && (|c.sent| > 1 ==> TrackStep(t, r, window, ready)
                                       == Advance(t1, Splitting(t1, a.route.flags), window[a.route.at].seg, c.sent[1])))
  {
    hide Step, RouteSegment, Advance, Splitting;
  }

  lemma TrackSends(r: Regs, t: Track, head: nat, input: seq<Seg>, window: seq<Entry>, ready: bool)
    requires TrackInv(t, r.flags, r.shift) && Position(t, r.flags, input, head) && WindowShows(window, input, head)
    requires WindowOk(window) && |window| == 2 && SegOk(window[0].seg) && SegOk(window[1].seg) && ShiftOk(r.shift) &&
      window[0].valid
    ensures TrackKept(t, head, r, input, window, ready)
  {
    hide *;
    var a := RouteSegment(Route(r.flags, 0, 0, false), window, false);
    FirstSegment(r, t, head, input, window);
    var c, b := Step(r, window, ready), RouteSegment(a.route, window, true);
    var o := Mux(a.plan, window[0].seg, r.shift);
    var t1 := Advance(t, Splitting(t, r.flags), window[0].seg, o);
    SecondSegment(a.route, t1, Tail(window[0].seg), head, input, window);
    StepCases(r, window, ready);
    TrackStepIs(t, r, window, ready);
    if c.sent == [] {
      KeptIdle(r, t, head, input, window, ready);
    } else if |c.sent| == 1 {
      KeptSending(r, t, head, input, window, ready, t1);
    } else {
      assert c.sent == [o] + [c.sent[1]];
      KeptSending(r, t, head, input, window, ready,
                  Advance(t1, Splitting(t1, a.route.flags), window[a.route.at].seg, c.sent[1]));
    }
  }

  lemma TrackMoves(r: Regs, t: Track, head: nat, input: seq<Seg>, window: seq<Entry>, ready: bool)
    requires TrackInv(t, r.flags, r.shift) && Position(t, r.flags, input, head) && WindowShows(window, input, head)
    ensures TrackKept(t, head, r, input, window, ready)
  {
    if window[0].valid {
      TrackSends(r, t, head, input, window, ready);
    } else {
      NoInput(r, window, ready);
      KeptIdle(r, t, head, input, window, ready);
    }
    hide *;
  }

  lemma NoInput(r: Regs, window: seq<Entry>, ready: bool)
    requires WindowOk(window) && ShiftOk(r.shift) && !window[0].valid && !window[1].valid
    ensures var c := Step(r, window, ready);
      c.sent == [] && c.read == 0 && c.regs.flags == r.flags && c.regs.shift == r.shift
  {
    hide Mux, Tail, Extra;
  }

  lemma SerializerKept(r: Regs, h: History, input: seq<Seg>, window: seq<Entry>, ready: bool)
    requires SerializerInv(r, h, input) && WindowShows(window, input, h.head)
    ensures SerializerInv(Step(r, window, ready).regs, HistoryStep(h, r, window, ready), input)
  {
    hide *;
    InvParts(r, h, input, window);
    TrackMoves(r, h.track, h.head, input, window, ready);
    Delivery(r, window, ready);
    DeliveredMoves(h.delivered, Held(r), AllOuts(h.track), Step(r, window, ready).sent, if ready then Held(r) else [],
                   Held(Step(r, window, ready).regs));
    InvFrom(r, h, input, window, ready);
  }

  lemma InvParts(r: Regs, h: History, input: seq<Seg>, window: seq<Entry>)
    requires SerializerInv(r, h, input) && WindowShows(window, input, h.head)
    ensures ShiftOk(r.shift) && WindowOk(window)
    ensures TrackInv(h.track, r.flags, r.shift) && Position(h.track, r.flags, input, h.head)
    ensures h.delivered + Held(r) == AllOuts(h.track)
  {
    hide Position, AllOuts, Held;
  }

  lemma InvFrom(r: Regs, h: History, input: seq<Seg>, window: seq<Entry>, ready: bool)
    requires WindowOk(window) && ShiftOk(r.shift) && TrackKept(h.track, h.head, r, input, window, ready)
    requires h.delivered + (if ready then Held(r) else []) + Held(Step(r, window, ready).regs)
          == AllOuts(h.track) + Step(r, window, ready).sent
    ensures SerializerInv(Step(r, window, ready).regs, HistoryStep(h, r, window, ready), input)
  {
    hide Position, AllOuts, Held, TrackInv, Step, TrackStep;
  }

  lemma DeliveredMoves(gone: seq<OutSeg>, held: seq<OutSeg>, all: seq<OutSeg>, sent: seq<OutSeg>, out: seq<OutSeg>,
                       held': seq<OutSeg>)
    requires gone + held == all && out + held' == held + sent
    ensures gone + out + held' == all + sent
  {
    assert gone + out + held' == gone + (out + held');
    assert gone + (held + sent) == gone + held + sent;
  }

  // ----- Runs -----

  datatype ClockIn = ClockIn(window: seq<Entry>, ready: bool)

  datatype Snapshot = Snapshot(regs: Regs, history: History)

  function Tick(n: Snapshot, i: ClockIn): Snapshot
    requires WindowOk(i.window) && ShiftOk(n.regs.shift)
  {
    Snapshot(Step(n.regs, i.window, i.ready).regs, HistoryStep(n.history, n.regs, i.window, i.ready))
  }

  // Along the run the FIFO always shows the next segments of input, as many as it has.
  ghost predicate Fed(n: Snapshot, input: seq<Seg>, run: seq<ClockIn>)
    requires ShiftOk(n.regs.shift)
    decreases |run|
  {
    run == [] || (WindowShows(run[0].window, input, n.history.head) && Fed(Tick(n, run[0]), input, run[1..]))
  }

  ghost function After(n: Snapshot, input: seq<Seg>, run: seq<ClockIn>): Snapshot
    requires ShiftOk(n.regs.shift) && Fed(n, input, run)
    decreases |run|
  {
    if run == [] then n else After(Tick(n, run[0]), input, run[1..])
  }

  lemma {:induction false} InvAlways(n: Snapshot, input: seq<Seg>, run: seq<ClockIn>)
    requires SerializerInv(n.regs, n.history, input) && ShiftOk(n.regs.shift) && Fed(n, input, run)
    ensures SerializerInv(After(n, input, run).regs, After(n, input, run).history, input)
    decreases |run|
  {
    hide SerializerInv, Step, HistoryStep;
    if run != [] {
      SerializerKept(n.regs, n.history, input, run[0].window, run[0].ready);
      InvAlways(Tick(n, run[0]), input, run[1..]);
    }
  }

  const EMPTY := History(Track([], None), 0, [])

  // Over every run: the segments read from the FIFO fall into packets in order; what was delivered, and
  // what the output register still holds, is the packets' output segments in order; every finished packet
  // left as its descriptor followed by its payload, framed exactly, in as few segments as possible.
  lemma SerializerCorrect(r: Regs, input: seq<Seg>, run: seq<ClockIn>)
    requires IsReset(r) && Fed(Snapshot(r, EMPTY), input, run)
    ensures var n := After(Snapshot(r, EMPTY), input, run);
            var h := n.history;
            && (forall k :: 0 <= k < |h.track.done| ==> GoodPacket(h.track.done[k]))
            && h.delivered + Held(n.regs) == AllOuts(h.track)
            && h.head <= |input| && input[..h.head] <= AllSegs(h.track) && |AllSegs(h.track)| <= h.head + 1
            && (h.track.open.None? ==> AllSegs(h.track) == input[..h.head])
  {
    assert SerializerInv(r, EMPTY, input);
    InvAlways(Snapshot(r, EMPTY), input, run);
    hide GoodPacket, AllOuts, AllSegs, After, Fed, OpenPacket;
  }

  // ----- How many segments -----

  // Completions arrive packed: every segment but the last is full, the last has its low lanes in use.
  predicate PackedLanes(s: Seg, used: nat) {
    SegOk(s) && used <= LANES && forall k :: 0 <= k < LANES ==> s.strb[k] == (k < used)
  }

  lemma {:induction false} PackedPayload(segs: seq<Seg>, used: nat)
    requires segs != [] && PackedLanes(segs[|segs| - 1], used)
    requires forall k :: 0 <= k < |segs| - 1 ==> PackedLanes(segs[k], LANES)
    ensures forall k :: 0 <= k < |segs| ==> SegOk(segs[k])
    ensures |Payload(segs)| == (|segs| - 1) * LANES + used
  {
    var n := |segs| - 1;
    assert forall k :: 0 <= k < n ==> PackedLanes(segs[k], LANES);
    EnabledCount(segs[n], used);
    if n > 0 {
      PackedPayload(segs[..n], LANES);
    }
  }

  lemma EnabledCount(s: Seg, used: nat)
    requires PackedLanes(s, used)
    ensures |Enabled(s.data, s.strb)| == used
  {
    var d, m := s.data, s.strb;
    assert d == d[..used] + d[used..] && m == m[..used] + m[used..];
    EnabledJoin(d[..used], m[..used], d[used..], m[used..]);
    AllEnabled(d[..used], m[..used]);
    NoneEnabled(d[used..], m[used..]);
  }

  // A packed completion of n payload DWORDs takes ceil((n + 3) / 8) output segments.
  lemma SegmentsNeeded(p: Packet, used: nat)
    requires GoodPacket(p) && PackedLanes(p.segs[|p.segs| - 1], used)
    requires forall k :: 0 <= k < |p.segs| - 1 ==> PackedLanes(p.segs[k], LANES)
    ensures |p.outs| == (|Payload(p.segs)| + HEAD + LANES - 1) / LANES
  {
    PackedPayload(p.segs, used);
    var last := p.segs[|p.segs| - 1];
    assert AnyFrom(last.strb, LANES - HEAD) == (used > LANES - HEAD) by {
      if used > LANES - HEAD {
        assert last.strb[LANES - HEAD];
      }
    }
  }
}
