// axi_dma_wr with ENABLE_UNALIGNED = 0: a five-state machine turns descriptors and stream frames into
// AXI write bursts; a status FIFO pairs every burst with its write response.
module AxiDmaWrite {
  import opened Wrappers
  import opened AxiBus
  import opened AxiDma
  import OutputFifo

  const FIFO_DEPTH: nat := 32
  const STATUS_DEPTH: nat := 32

  type Mask = seq<bool>

  datatype InBeat = InBeat(data: Word, keep: Mask, last: bool)

  datatype WBeat = WBeat(data: Word, strb: Mask, last: bool)

  // One status FIFO entry per burst; last marks the one that completes the descriptor.
  datatype Entry = Entry(len: nat, tag: nat, last: bool)

  datatype Error = NoError | WrSlverr | WrDecerr

  datatype Status = Status(len: nat, tag: nat, error: Error)

  datatype State = Idle | Start | Write | FinishBurst | DropData

  datatype Regs = Regs(
    state: State, descReady: bool, dataReady: bool,
    addr: nat, left: nat, length: nat, lastOffset: nat, lastTransfer: bool, first: bool, tag: nat,
    inCount: int, inActive: bool, outCount: int, outLast: bool,
    awValid: bool, awAddr: nat, awLen: nat)

  datatype Input = Input(
    enable: bool, descValid: bool, desc: Desc,
    dataValid: bool, beat: InBeat,
    awReady: bool, wReady: bool, bValid: bool, bResp: Resp)

  function LowMask(width: nat, n: int): (m: Mask)
    ensures |m| == width
  {
    seq(width, i => i < n)
  }

  function ZeroWord(strb: nat): (w: Word)
    ensures |w| == strb
  {
    seq(strb, _ => 0)
  }

  // cycle_size: the lowest lane whose keep bit is clear.
  function CycleSize(keep: Mask): (n: nat)
    ensures n <= |keep| && (n < |keep| ==> !keep[n])
    ensures forall i :: 0 <= i < n ==> keep[i]
  {
    if keep == [] || !keep[0] then 0 else
      var rest := CycleSize(keep[1..]);
      assert forall i :: 0 < i < 1 + rest ==> keep[i] == keep[1..][i - 1];
      1 + rest
  }

  // No lane at or above n is kept.
  predicate FitsBelow(keep: Mask, n: nat) {
    forall i :: n <= i < |keep| ==> !keep[i]
  }

  // push: the W beat for the output FIFO; entry: status FIFO write; issue: inc_active.
  datatype CoreOut = CoreOut(regs: Regs, push: Option<WBeat>, entry: Option<Entry>, issue: bool)

  function LastOffset(c: Config, len: nat): nat
    requires c.Ok()
  {
    len % c.strb
  }

  function CycleCount(c: Config, n: nat): int
    requires c.Ok()
  {
    (n - 1) / c.strb
  }

  function IdleStep(c: Config, r: Regs, i: Input, av: bool): CoreOut
    requires c.Ok() && r.state.Idle?
  {
    var taken := r.descReady && i.descValid;
    CoreOut(
      r.(state := if taken then Start else Idle, descReady := i.enable && av && !taken, dataReady := false,
         addr := LoadAddr(c, i.desc), left := i.desc.len, length := 0, lastOffset := LastOffset(c, i.desc.len),
         first := true, tag := i.desc.tag, awValid := r.awValid && !i.awReady),
      None, None, false)
  }

  function StartStep(c: Config, r: Regs, i: Input, room: bool, av: bool): CoreOut
    requires c.Ok() && r.state.Start?
  {
    var n := NextBurst(c, r.addr, r.left);
    var count := CycleCount(c, n);
    var ready := r.(descReady := false, dataReady := false, awValid := r.awValid && !i.awReady,
                    inCount := count, inActive := true, outCount := count, outLast := count == 0,
                    lastTransfer := n == r.left);
    if !r.awValid && av then
      var issue := i.dataValid || !r.first;
      CoreOut(
        ready.(state := if issue then Write else Start, dataReady := issue && room,
               addr := if issue then Advance(c, r.addr, n) else r.addr,
               left := if issue then r.left - n else r.left,
               awValid := issue, awAddr := r.addr, awLen := BurstLen(c, r.addr, n)),
        None, None, issue)
    else
      CoreOut(ready, None, None, false)
  }

  // One data beat goes out. The frame may end here, the descriptor may end here, or both.
  function TransferStep(c: Config, r: Regs, i: Input, room: bool, av: bool): CoreOut
    requires c.Ok() && r.state.Write?
  {
    var b := i.beat;
    var ones := LowMask(c.strb, c.strb);
    var n := r.(descReady := false, dataReady := false, awValid := r.awValid && !i.awReady,
                inCount := if r.inActive then r.inCount - 1 else r.inCount,
                inActive := r.inActive && r.inCount > 0 && !b.last,
                outCount := r.outCount - 1, outLast := r.outCount - 1 == 0, first := false);
    if b.last then
      var cut := r.outLast && r.lastTransfer && r.lastOffset > 0 && !FitsBelow(b.keep, r.lastOffset);
      var length := r.length + if cut then r.lastOffset else CycleSize(b.keep);
      CoreOut(
        n.(state := if r.outLast then Idle else FinishBurst, length := length,
           descReady := r.outLast && i.enable && av),
        Some(WBeat(b.data, if cut then LowMask(c.strb, r.lastOffset) else b.keep, r.outLast)),
        Some(Entry(length, r.tag, true)), false)
    else if r.outLast && r.left > 0 then
      CoreOut(n.(state := Start, length := r.length + c.strb),
              Some(WBeat(b.data, ones, true)), Some(Entry(r.length + c.strb, r.tag, false)), false)
    else if r.outLast then
      var length := r.length + if r.lastOffset > 0 then r.lastOffset else c.strb;
      CoreOut(n.(state := DropData, length := length, dataReady := true),
              Some(WBeat(b.data, if r.lastOffset > 0 then LowMask(c.strb, r.lastOffset) else ones, true)),
              Some(Entry(length, r.tag, true)), false)
    else
      CoreOut(n.(length := r.length + c.strb, dataReady := room && (r.lastTransfer || n.inActive)),
              Some(WBeat(b.data, ones, false)), None, false)
  }

  function WriteStep(c: Config, r: Regs, i: Input, room: bool, av: bool): CoreOut
    requires c.Ok() && r.state.Write?
  {
    if (r.dataReady && i.dataValid) || (!r.inActive && !r.lastTransfer) then
      TransferStep(c, r, i, room, av)
    else
      CoreOut(r.(descReady := false, dataReady := room && (r.lastTransfer || r.inActive),
                 awValid := r.awValid && !i.awReady), None, None, false)
  }

  // The frame ended early: the rest of the burst is padded with unstrobed beats.
  function FinishStep(c: Config, r: Regs, i: Input, room: bool, av: bool): CoreOut
    requires c.Ok() && r.state.FinishBurst?
  {
    var n := r.(descReady := false, dataReady := false, awValid := r.awValid && !i.awReady);
    if room then
      CoreOut(
        n.(state := if r.outLast then Idle else FinishBurst, descReady := r.outLast && i.enable && av,
           inCount := if r.inActive then r.inCount - 1 else r.inCount, inActive := r.inActive && r.inCount > 0,
           outCount := r.outCount - 1, outLast := r.outCount - 1 == 0),
        Some(WBeat(ZeroWord(c.strb), LowMask(c.strb, 0), r.outLast)), None, false)
    else
      CoreOut(n, None, None, false)
  }

  // The descriptor ended early: the rest of the frame is swallowed.
  function DropStep(r: Regs, i: Input, av: bool): CoreOut
    requires r.state.DropData?
  {
    var done := i.dataValid && i.beat.last;
    CoreOut(
      r.(state := if done then Idle else DropData, descReady := done && i.enable && av, dataReady := !done,
         awValid := r.awValid && !i.awReady),
      None, None, false)
  }

  // room: the output FIFO's registered half-full flag is low; av: active_count_av_reg.
  function CoreStep(c: Config, r: Regs, i: Input, room: bool, av: bool): CoreOut
    requires c.Ok()
  {
    match r.state
    case Idle => IdleStep(c, r, i, av)
    case Start => StartStep(c, r, i, room, av)
    case Write => WriteStep(c, r, i, room, av)
    case FinishBurst => FinishStep(c, r, i, room, av)
    case DropData => DropStep(r, i, av)
  }

  // ----- Write responses -----

  // The status FIFO as memory and pointers (it has no full check), and the burst credit counter.
  datatype StatusRegs = StatusRegs(
    cells: seq<Entry>, wr: nat, rd: nat, active: nat, av: bool, bReady: bool, bresp: Resp)

  function ErrorOf(r: Resp): Error {
    match r
    case SLVERR => WrSlverr
    case DECERR => WrDecerr
    case _ => NoError
  }

  predicate StatusTyped(t: StatusRegs) {
    |t.cells| == STATUS_DEPTH && t.wr < 2 * STATUS_DEPTH && t.rd < 2 * STATUS_DEPTH
  }

  predicate Pops(t: StatusRegs, i: Input) {
    t.rd != t.wr && t.bReady && i.bValid
  }

  datatype StatusOut = StatusOut(regs: StatusRegs, status: Option<Status>)

  function StatusStep(t: StatusRegs, entry: Option<Entry>, issue: bool, i: Input): (o: StatusOut)
    requires StatusTyped(t)
    ensures StatusTyped(o.regs)
  {
    var pop := Pops(t, i);
    var head := t.cells[OutputFifo.Slot(STATUS_DEPTH, t.rd)];
    var bresp := if t.bReady && i.bValid && i.bResp.Failed() then i.bResp else t.bresp;
    var final := pop && head.last;
    var up := t.active < STATUS_DEPTH && issue && !pop;
    var down := 0 < t.active && !issue && pop;
    StatusOut(
      StatusRegs(
        if entry.Some? then t.cells[OutputFifo.Slot(STATUS_DEPTH, t.wr) := entry.value] else t.cells,
        if entry.Some? then OutputFifo.Wrap(STATUS_DEPTH, t.wr + 1) else t.wr,
        if pop then OutputFifo.Wrap(STATUS_DEPTH, t.rd + 1) else t.rd,
        if up then t.active + 1 else if down then t.active - 1 else t.active,
        if up then t.active < STATUS_DEPTH - 1 else down || t.active < STATUS_DEPTH,
        t.rd != t.wr && !pop,
        if final then OKAY else bresp),
      if final then Some(Status(head.len, head.tag, ErrorOf(bresp))) else None)
  }

  // ----- The whole engine -----

  datatype Engine = Engine(core: Regs, status: StatusRegs, fifo: OutputFifo.Fifo<WBeat>)

  function CoreNow(c: Config, e: Engine, i: Input): CoreOut
    requires c.Ok()
  {
    CoreStep(c, e.core, i, !e.fifo.half, e.status.av)
  }

  function StatusNow(c: Config, e: Engine, i: Input): StatusOut
    requires c.Ok() && StatusTyped(e.status)
  {
    StatusStep(e.status, CoreNow(c, e, i).entry, CoreNow(c, e, i).issue, i)
  }

  function EngineStep(c: Config, e: Engine, i: Input): (e': Engine)
    requires c.Ok() && StatusTyped(e.status)
    ensures StatusTyped(e'.status)
  {
    Engine(CoreNow(c, e, i).regs, StatusNow(c, e, i).regs,
           OutputFifo.Step(FIFO_DEPTH, e.fifo, CoreNow(c, e, i).push, i.wReady))
  }

  predicate IsReset(e: Engine) {
    && e.core.state.Idle? && !e.core.descReady && !e.core.dataReady && !e.core.awValid
    && StatusTyped(e.status) && e.status.wr == 0 && e.status.rd == 0 && e.status.active == 0
    && e.status.av && !e.status.bReady && e.status.bresp == OKAY
    && e.fifo == OutputFifo.Fifo([], false, None)
  }
}
