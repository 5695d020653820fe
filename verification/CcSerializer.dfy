// pcie_us_if_cc, 512-bit bus with two 256-bit segments: puts a three-DWORD descriptor in front of each
// completion, shifts the payload behind it, and packs the results two segments to a beat.
module CcSerializer {
  import opened Wrappers

  const LANES: nat := 8
  const HEAD: nat := 3

  // Header fields the completion descriptor is built from.
  datatype TlpHdr = TlpHdr(
    lowerAddr: nat, addrType: nat, byteCount: nat, dwCount: nat, status: nat, poisoned: bool,
    requester: nat, tag: nat, completer: nat, tc: nat, attr: nat)

  predicate HdrOk(h: TlpHdr) {
    && h.lowerAddr < 0x80 && h.addrType < 4 && h.byteCount < 0x1000 && h.dwCount < 0x400 && h.status < 8
    && h.requester < 0x1_0000 && h.tag < 0x100 && h.completer < 0x1_0000 && h.tc < 8 && h.attr < 8
  }

  // seg_cc_hdr as three DWORDs.
  function Descriptor(h: TlpHdr): (d: seq<nat>)
    ensures |d| == HEAD
  {
    [h.lowerAddr + h.addrType * 0x100 + h.byteCount * 0x1_0000,
     h.dwCount + h.status * 0x800 + (if h.poisoned then 0x4000 else 0) + h.requester * 0x1_0000,
     h.tag + h.completer * 0x100 + h.tc * 0x200_0000 + h.attr * 0x1000_0000]
  }

  // A segment as the completion FIFO delivers it.
  datatype Seg = Seg(data: seq<nat>, strb: seq<bool>, hdr: TlpHdr, eop: bool)

  datatype OutSeg = OutSeg(data: seq<nat>, strb: seq<bool>, sop: bool, eop: bool)

  datatype Shift = Shift(data: seq<nat>, strb: seq<bool>)

  predicate SegOk(s: Seg) {
    |s.data| == |s.strb| == LANES
  }

  predicate ShiftOk(s: Shift) {
    |s.data| == |s.strb| == HEAD
  }

  // The enabled lanes, in order.
  function Enabled(data: seq<nat>, strb: seq<bool>): seq<nat>
    requires |data| == |strb|
  {
    if data == [] then []
    else Enabled(data[..|data| - 1], strb[..|strb| - 1]) + (if strb[|strb| - 1] then [data[|data| - 1]] else [])
  }

  predicate AnyFrom(strb: seq<bool>, n: nat) {
    exists k :: n <= k < |strb| && strb[k]
  }

  // The last payload lanes do not fit behind the descriptor: one more output segment is needed.
  predicate Extra(s: Seg) {
    s.eop && AnyFrom(s.strb, LANES - HEAD)
  }

  // ----- One output segment -----

  datatype Flags = Flags(frame: bool, hdr1: bool, split1: bool, split2: bool)

  // Which input segment feeds an output segment, and how.
  datatype Plan = Plan(sel: nat, sop: bool, eop: bool, split2: bool)

  // One of the FIFO's output registers; a register that is not valid shows stale contents.
  datatype Entry = Entry(valid: bool, seg: Seg)

  // The routing variables carried from one output segment to the next within a clock.
  datatype Route = Route(flags: Flags, at: nat, count: nat, abort: bool)

  datatype Routed = Routed(route: Route, plan: Plan, commit: bool)

  function RouteSegment(r: Route, window: seq<Entry>, last: bool): Routed
    requires r.at < |window|
  {
    var e := window[r.at];
    var f := if !r.flags.frame && !r.abort then Flags(e.valid, true, false, false) else r.flags;
    var extra := Extra(e.seg);
    var stays := extra && !f.split1;
    var f' := if stays then Flags(f.frame, false, true, f.split2)
              else if extra then Flags(false, false, false, true)
              else Flags(f.frame && !e.seg.eop, false, f.split1, f.split2);
    Routed(
      Route(f', if stays then r.at else r.at + 1, if stays then r.count else r.count + 1, r.abort ||
            (f.frame && !e.valid)),
      Plan(r.at, f.hdr1, e.seg.eop && !stays, f'.split2),
      f.frame && !r.abort && e.valid && (e.seg.eop || last))
  }

  // The output multiplexer.
  function Mux(p: Plan, s: Seg, shift: Shift): OutSeg
    requires SegOk(s) && ShiftOk(shift)
  {
    OutSeg((if p.sop then Descriptor(s.hdr) else shift.data) + s.data[..LANES - HEAD],
           (if p.sop then [true, true, true] else shift.strb)
           + (if p.split2 then seq(LANES - HEAD, _ => false) else s.strb[..LANES - HEAD]),
           p.sop, p.eop)
  }

  function Tail(s: Seg): Shift
    requires SegOk(s)
  {
    Shift(s.data[LANES - HEAD..], s.strb[LANES - HEAD..])
  }

  // ----- One clock -----

  datatype Regs = Regs(flags: Flags, shift: Shift, out: Option<seq<OutSeg>>)

  // regs': next registers; read: segments taken from the FIFO; sent: output segments loaded.
  datatype Clocked = Clocked(regs: Regs, read: nat, sent: seq<OutSeg>)

  predicate WindowOk(window: seq<Entry>) {
    |window| == 2 && forall k :: 0 <= k < 2 ==> SegOk(window[k].seg)
  }

  function Step(r: Regs, window: seq<Entry>, ready: bool): (c: Clocked)
    requires WindowOk(window) && ShiftOk(r.shift)
    ensures ShiftOk(c.regs.shift)
  {
    var free := r.out.None? || ready;
    var a := RouteSegment(Route(r.flags, 0, 0, false), window, false);
    var b := RouteSegment(a.route, window, true);
    var first := Mux(a.plan, window[a.plan.sel].seg, r.shift);
    var second := Mux(b.plan, window[b.plan.sel].seg, Tail(window[a.plan.sel].seg));
    if free && b.commit then
      Clocked(Regs(b.route.flags, Tail(window[b.plan.sel].seg), Some([first, second])), b.route.count, [first, second])
    else if free && a.commit then
      Clocked(Regs(a.route.flags, Tail(window[a.plan.sel].seg), Some([first])), a.route.count, [first])
    else
      Clocked(r.(out := if ready then None else r.out), 0, [])
  }

  predicate IsReset(r: Regs) {
    !r.flags.frame && ShiftOk(r.shift) && r.out == None
  }
}
