// pcie_us_if_cc as the source writes it: two loops over the output segments, one routing, one
// multiplexing; and the sideband that tells the core where completions start and end.
module CcSerializerUnit {
  import opened Arith
  import opened Wrappers
  import opened CcSerializer

  class Serializer {
    var flags: Flags
    var shift: Shift
    var out: Option<seq<OutSeg>>

    function View(): Regs
      reads this
    {
      Regs(flags, shift, out)
    }

    constructor ()
      ensures IsReset(View())
    {
      flags, out := Flags(false, false, false, false), None;
      shift := Shift([0, 0, 0], [false, false, false]);
    }

    // One pass of the routing loop body.
    static method RouteOne(r0: Route, window: seq<Entry>, last: bool) returns (r: Route, plan: Plan, commit: bool)
      requires r0.at < |window|
      ensures Routed(r, plan, commit) == RouteSegment(r0, window, last)
    {
      r := r0;
      if !r.flags.frame && !r.abort {
        r := r.(flags := Flags(window[r.at].valid, true, false, false));
      }
      var valid, eop, frame := window[r.at].valid, window[r.at].seg.eop, r.flags.frame;
      plan := Plan(r.at, r.flags.hdr1, false, false);
      r := r.(flags := r.flags.(hdr1 := false));
      if Extra(window[r.at].seg) {
        if r.flags.split1 {
          plan := plan.(eop := true);
          r := r.(flags := Flags(false, false, false, true), at := r.at + 1, count := r.count + 1);
        } else {
          r := r.(flags := r.flags.(split1 := true));
        }
      } else {
        if eop {
          plan := plan.(eop := true);
          r := r.(flags := r.flags.(frame := false));
        }
        r := r.(at := r.at + 1, count := r.count + 1);
      }
      plan := plan.(split2 := r.flags.split2);
      commit := frame && !r.abort && valid && (eop || last);
      if frame && !valid {
        r := r.(abort := true);
      }
    }

    method Clock(window: seq<Entry>, ready: bool) returns (read: nat)
      requires WindowOk(window) && ShiftOk(shift)
      modifies this
      ensures View() == Step(old(View()), window, ready).regs && read == Step(old(View()), window, ready).read
    {
      hide Extra, Mux, Tail, RouteSegment;
      RouteBounds(flags, window);
      TailOk(window[0].seg);
      var flagsNow, shiftNow, outNow := flags, shift, out;
      var free := outNow.None? || ready;
      var route, flagsNext := Route(flagsNow, 0, 0, false), flagsNow;
      var plans: seq<Plan> := [];
      var selected := 0;
      read := 0;
      ghost var a := RouteSegment(route, window, false);
      ghost var b := RouteSegment(a.route, window, true);
      for seg := 0 to 2
        invariant |plans| == seg && selected <= seg
        invariant seg == 0 ==> route == Route(flagsNow, 0, 0, false)
        invariant seg == 1 ==> route == a.route && plans[0] == a.plan
        invariant seg == 2 ==> plans[0] == a.plan && plans[1] == b.plan
        invariant seg >= 1 ==> selected == (if seg == 2 && free && b.commit then 2 else if free &&
                                            a.commit then 1 else 0)
        invariant selected == 0 ==> read == 0 && flagsNext == flagsNow
        invariant selected == 1 ==> read == a.route.count && flagsNext == a.route.flags
        invariant selected == 2 ==> read == b.route.count && flagsNext == b.route.flags
      {
        var plan, commit;
        route, plan, commit := RouteOne(route, window, seg == 1);
        plans := plans + [plan];
        if commit && free {
          flagsNext, read, selected := route.flags, route.count, seg + 1;
        }
      }
      var sent: seq<OutSeg> := [];
      var shiftNext := shiftNow;
      for seg := 0 to selected
        invariant |sent| == seg && ShiftOk(shiftNext)
        invariant seg == 0 ==> shiftNext == shiftNow
        invariant seg >= 1 ==> sent[0] == Mux(a.plan, window[a.plan.sel].seg, shiftNow)
        invariant seg == 1 ==> shiftNext == Tail(window[a.plan.sel].seg)
        invariant seg == 2 ==> sent[1] == Mux(b.plan, window[b.plan.sel].seg, Tail(window[a.plan.sel].seg))
        invariant seg == 2 ==> shiftNext == Tail(window[b.plan.sel].seg)
      {
        var p := plans[seg];
        sent := sent + [Mux(p, window[p.sel].seg, shiftNext)];
        TailOk(window[p.sel].seg);
        shiftNext := Tail(window[p.sel].seg);
      }
      assert selected == 1 ==> sent == [sent[0]];
      assert selected == 2 ==> sent == [sent[0], sent[1]];
      out := if !free then outNow else if selected == 0 then None else Some(sent);
      flags, shift := flagsNext, shiftNext;
    }
  }

  lemma RouteBounds(f: Flags, window: seq<Entry>)
    requires WindowOk(window)
    ensures var a := RouteSegment(Route(f, 0, 0, false), window, false);
            a.route.at <= 1 && a.plan.sel == 0 && RouteSegment(a.route, window, true).plan.sel == a.route.at
  {
    hide Extra;
  }

  lemma TailOk(s: Seg)
    requires SegOk(s)
    ensures ShiftOk(Tail(s))
  {
  }

  // ----- Sideband -----

  // eop_index: the last enabled lane.
  function LastLane(strb: seq<bool>): (n: nat)
    ensures 0 < n ==> n < |strb| && strb[n]
    ensures forall k :: n < k < |strb| ==> !strb[k]
  {
    if strb == [] then 0
    else if strb[|strb| - 1] then |strb| - 1
    else LastLane(strb[..|strb| - 1])
  }

  method ScanLanes(strb: seq<bool>) returns (n: nat)
    ensures n == LastLane(strb)
  {
    n := 0;
    for lane := 0 to |strb|
      invariant n == LastLane(strb[..lane])
    {
      assert strb[..lane + 1][..lane] == strb[..lane];
      if strb[lane] {
        n := lane;
      }
    }
    assert strb[..|strb|] == strb;
  }

  // is_sop with its two pointers (in units of four DWORDs), is_eop with its two pointers (in DWORDs).
  datatype Sideband = Sideband(isSop: nat, sop0: nat, sop1: nat, isEop: nat, eop0: nat, eop1: nat)

  // beat: the valid output segments of a beat, at most two, from the first.
  function SidebandOf(beat: seq<OutSeg>): Sideband {
    var s0, s1 := |beat| > 0 && beat[0].sop, |beat| > 1 && beat[1].sop;
    var e0, e1 := |beat| > 0 && beat[0].eop, |beat| > 1 && beat[1].eop;
    var i0 := if |beat| > 0 then LastLane(beat[0].strb) else 0;
    var i1 := if |beat| > 1 then LastLane(beat[1].strb) else 0;
    Sideband(
      if s0 && s1 then 3 else if s0 || s1 then 1 else 0, if s1 && !s0 then 2 else 0, if s0 && s1 then 2 else 0,
      if e0 && e1 then 3 else if e0 || e1 then 1 else 0, if e0 then i0 else if e1 then 8 + i1 else 0, if e0 &&
        e1 then 8 + i1 else 0)
  }

  // The sideband registers' next values: the two case tables over the scanned last lanes.
  method BuildSideband(beat: seq<OutSeg>) returns (b: Sideband)
    requires |beat| <= 2
    ensures b == SidebandOf(beat)
  {
    var s0, s1, e0, e1, i0, i1 := false, false, false, false, 0, 0;
    if |beat| > 0 {
      s0, e0 := beat[0].sop, beat[0].eop;
      i0 := ScanLanes(beat[0].strb);
    }
    if |beat| > 1 {
      s1, e1 := beat[1].sop, beat[1].eop;
      i1 := ScanLanes(beat[1].strb);
    }
    var isSop, sop0, sop1 := 0, 0, 0;
    match (s1, s0) {
      case (false, false) =>
      case (false, true) => isSop := 1;
      case (true, false) => isSop, sop0 := 1, 2;
      case (true, true) => isSop, sop1 := 3, 2;
    }
    var isEop, eop0, eop1 := 0, 0, 0;
    match (e1, e0) {
      case (false, false) =>
      case (false, true) => isEop, eop0 := 1, i0;
      case (true, false) => isEop, eop0 := 1, 8 + i1;
      case (true, true) => isEop, eop0, eop1 := 3, i0, 8 + i1;
    }
    b := Sideband(isSop, sop0, sop1, isEop, eop0, eop1);
  }

  // The receiver's reading of it: DWORD positions where packets start and end, in order.
  function Starts(b: Sideband): seq<nat> {
    if b.isSop == 0 then [] else if b.isSop == 1 then [4 * b.sop0] else [4 * b.sop0, 4 * b.sop1]
  }

  function Ends(b: Sideband): seq<nat> {
    if b.isEop == 0 then [] else if b.isEop == 1 then [b.eop0] else [b.eop0, b.eop1]
  }

  // The mark of segment k of a beat.
  function StartOf(seg: OutSeg, k: nat): seq<nat> {
    if seg.sop then [k * LANES] else []
  }

  function EndOf(seg: OutSeg, k: nat): seq<nat> {
    if seg.eop then [k * LANES + LastLane(seg.strb)] else []
  }

  function StartsOf(beat: seq<OutSeg>): seq<nat> {
    if beat == [] then [] else StartsOf(beat[..|beat| - 1]) + StartOf(beat[|beat| - 1], |beat| - 1)
  }

  function EndsOf(beat: seq<OutSeg>): seq<nat> {
    if beat == [] then [] else EndsOf(beat[..|beat| - 1]) + EndOf(beat[|beat| - 1], |beat| - 1)
  }

  lemma Boundaries(beat: seq<OutSeg>)
    requires |beat| <= 2
    ensures StartsOf(beat) == (if |beat| > 0 && beat[0].sop then [0] else []) +
      (if |beat| > 1 && beat[1].sop then [8] else [])
    ensures EndsOf(beat) == (if |beat| > 0 && beat[0].eop then [LastLane(beat[0].strb)] else [])
                            + (if |beat| > 1 && beat[1].eop then [8 + LastLane(beat[1].strb)] else [])
  {
    hide *;
    if |beat| == 2 {
      TwoBoundaries(beat);
    } else if |beat| == 1 {
      OneBoundary(beat);
    } else {
      NoBoundary(beat);
    }
  }

  lemma NoBoundary(beat: seq<OutSeg>)
    requires beat == []
    ensures StartsOf(beat) == [] && EndsOf(beat) == []
  {
  }

  lemma LastBoundary(beat: seq<OutSeg>)
    requires beat != []
    ensures var n, last := |beat| - 1, beat[|beat| - 1];
      StartsOf(beat) == StartsOf(beat[..n]) + StartOf(last, n) && EndsOf(beat) == EndsOf(beat[..n]) + EndOf(last, n)
  {
    hide StartOf, EndOf, LastLane;
  }

  lemma MarksOf(seg: OutSeg)
    ensures StartOf(seg, 0) == (if seg.sop then [0] else []) && StartOf(seg, 1) == (if seg.sop then [8] else [])
    ensures EndOf(seg, 0) == if seg.eop then [LastLane(seg.strb)] else []
    ensures EndOf(seg, 1) == if seg.eop then [8 + LastLane(seg.strb)] else []
  {
    hide LastLane;
  }

  lemma TwoBoundaries(beat: seq<OutSeg>)
    requires |beat| == 2
    ensures StartsOf(beat) == (if beat[0].sop then [0] else []) + (if beat[1].sop then [8] else [])
    ensures EndsOf(beat) == (if beat[0].eop then [LastLane(beat[0].strb)] else [])
                            + (if beat[1].eop then [8 + LastLane(beat[1].strb)] else [])
  {
    hide *;
    OneBoundary(beat[..1]);
    LastBoundary(beat);
    MarksOf(beat[1]);
  }

  lemma OneBoundary(beat: seq<OutSeg>)
    requires |beat| == 1
    ensures StartsOf(beat) == if beat[0].sop then [0] else []
    ensures EndsOf(beat) == if beat[0].eop then [LastLane(beat[0].strb)] else []
  {
    hide *;
    NoBoundary(beat[..0]);
    LastBoundary(beat);
    MarksOf(beat[0]);
  }

  lemma StartsExact(beat: seq<OutSeg>)
    requires |beat| <= 2
    ensures Starts(SidebandOf(beat)) == StartsOf(beat)
  {
    Boundaries(beat);
    hide LastLane, StartsOf, EndsOf, Starts, Ends;
    StartMarks(SidebandOf(beat), |beat| > 0 && beat[0].sop, |beat| > 1 && beat[1].sop);
  }

  // The receiver reads back what the start fields were made from.
  lemma StartMarks(b: Sideband, s0: bool, s1: bool)
    requires b.isSop == (if s0 && s1 then 3 else if s0 || s1 then 1 else 0)
    requires b.sop0 == (if s1 && !s0 then 2 else 0) && b.sop1 == (if s0 && s1 then 2 else 0)
    ensures Starts(b) == (if s0 then [0] else []) + (if s1 then [8] else [])
  {
  }

  predicate EndsAt(beat: seq<OutSeg>, k: nat) {
    k < |beat| && beat[k].eop
  }

  function EndLane(beat: seq<OutSeg>, k: nat): nat {
    if k < |beat| then LastLane(beat[k].strb) else 0
  }

  lemma EndFields(beat: seq<OutSeg>)
    ensures var b, e0, e1 := SidebandOf(beat), EndsAt(beat, 0), EndsAt(beat, 1);
      && b.isEop == (if e0 && e1 then 3 else if e0 || e1 then 1 else 0)
      && b.eop0 == (if e0 then EndLane(beat, 0) else if e1 then 8 + EndLane(beat, 1) else 0)
      && b.eop1 == (if e0 && e1 then 8 + EndLane(beat, 1) else 0)
  {
    hide LastLane;
  }

  lemma EndsAre(beat: seq<OutSeg>)
    requires |beat| <= 2
    ensures EndsOf(beat) == (if EndsAt(beat, 0) then [EndLane(beat, 0)] else [])
                            + (if EndsAt(beat, 1) then [8 + EndLane(beat, 1)] else [])
  {
    Boundaries(beat);
    hide LastLane, StartsOf, EndsOf;
  }

  lemma EndsExact(beat: seq<OutSeg>)
    requires |beat| <= 2
    ensures Ends(SidebandOf(beat)) == EndsOf(beat)
  {
    hide *;
    EndFields(beat);
    EndsAre(beat);
    EndMarks(SidebandOf(beat), EndsAt(beat, 0), EndsAt(beat, 1), EndLane(beat, 0), EndLane(beat, 1));
  }

  // And the end fields.
  lemma EndMarks(b: Sideband, e0: bool, e1: bool, i0: nat, i1: nat)
    requires b.isEop == (if e0 && e1 then 3 else if e0 || e1 then 1 else 0)
    requires b.eop0 == (if e0 then i0 else if e1 then 8 + i1 else 0) && b.eop1 == (if e0 && e1 then 8 + i1 else 0)
    ensures Ends(b) == (if e0 then [i0] else []) + (if e1 then [8 + i1] else [])
  {
  }

  // The sideband marks exactly the boundaries that are there.
  lemma SidebandExact(beat: seq<OutSeg>)
    requires |beat| <= 2
    ensures Starts(SidebandOf(beat)) == StartsOf(beat) && Ends(SidebandOf(beat)) == EndsOf(beat)
  {
    hide *;
    StartsExact(beat);
    EndsExact(beat);
  }

  // ----- Descriptor -----

  lemma Dword0(a: nat, t: nat, b: nat)
    requires a < 0x80 && t < 4
    ensures var d := a + t * 0x100 + b * 0x1_0000; d % 0x100 == a && d / 0x100 % 0x100 == t && d / 0x1_0000 == b
  {
  }

  lemma Dword1(n: nat, s: nat, p: bool, r: nat)
    requires n < 0x400 && s < 8
    ensures var d := n + s * 0x800 + (if p then 0x4000 else 0) + r * 0x1_0000;
            d % 0x800 == n && d / 0x800 % 8 == s && (d / 0x4000 % 2 == 1) == p && d / 0x1_0000 == r
  {
    var high := if p then 1 else 0;
    Fields(n, 0x800, s, 8, high + 4 * r);
    assert (high + 4 * r) % 2 == high && (high + 4 * r) / 4 == r;
  }

  // lo, mid and hi packed with the given sizes.
  lemma Fields(lo: nat, size: nat, mid: nat, width: nat, hi: nat)
    requires lo < size && mid < width
    ensures var d := lo + (mid + hi * width) * size;
      d % size == lo && d / size == mid + hi * width && d / size % width == mid && d / size / width == hi
  {
    DivUnique(lo + (mid + hi * width) * size, size, mid + hi * width);
    DivUnique(mid + hi * width, width, hi);
  }

  lemma Dword2(t: nat, c: nat, k: nat, a: nat)
    requires t < 0x100 && c < 0x1_0000 && k < 8
    ensures var d := t + c * 0x100 + k * 0x200_0000 + a * 0x1000_0000;
            d % 0x100 == t && d / 0x100 % 0x1_0000 == c && d / 0x200_0000 % 8 == k && d / 0x1000_0000 == a
  {
    Fields(t, 0x100, c, 0x2_0000, k + 8 * a);
    assert (k + 8 * a) % 8 == k && (k + 8 * a) / 8 == a;
  }

  // Every field can be read back from the three DWORDs.
  lemma DescriptorFields(h: TlpHdr)
    requires HdrOk(h)
    ensures var d := Descriptor(h);
            && d[0] % 0x100 == h.lowerAddr && d[0] / 0x100 % 0x100 == h.addrType && d[0] / 0x1_0000 == h.byteCount
            && d[1] % 0x800 == h.dwCount && d[1] / 0x800 % 8 == h.status
            && (d[1] / 0x4000 % 2 == 1) == h.poisoned && d[1] / 0x1_0000 == h.requester
            && d[2] % 0x100 == h.tag && d[2] / 0x100 % 0x1_0000 == h.completer
            && d[2] / 0x200_0000 % 8 == h.tc && d[2] / 0x1000_0000 == h.attr
  {
    Dword0(h.lowerAddr, h.addrType, h.byteCount);
    Dword1(h.dwCount, h.status, h.poisoned, h.requester);
    Dword2(h.tag, h.completer, h.tc, h.attr);
  }

  // So two headers with the same descriptor are the same, and each DWORD fits 32 bits.
  lemma DescriptorInjective(h: TlpHdr, h': TlpHdr)
    requires HdrOk(h) && HdrOk(h')
    ensures Descriptor(h) == Descriptor(h') ==> h == h'
    ensures forall k :: 0 <= k < HEAD ==> Descriptor(h)[k] < 0x1_0000_0000
  {
    DescriptorFields(h);
    DescriptorFields(h');
    DescriptorWidth(h);
    hide Descriptor;
  }

  lemma DescriptorWidth(h: TlpHdr)
    requires HdrOk(h)
    ensures forall k :: 0 <= k < HEAD ==> Descriptor(h)[k] < 0x1_0000_0000
  {
  }
}
