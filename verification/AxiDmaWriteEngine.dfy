// axi_dma_wr as the source writes it: registers, a status memory and an output FIFO updated in place.
// Each clock is exactly one step of the value model.
module AxiDmaWriteEngine {
  import opened Wrappers
  import opened BurstPlanner
  import opened AxiBus
  import opened AxiDma
  import opened AxiDmaWrite
  import OutputFifo

  // The status step, register by register.
  lemma StatusStepIs(t: StatusRegs, entry: Option<Entry>, issue: bool, i: Input, r: StatusRegs,
                     status: Option<Status>, pop: bool)
    requires StatusTyped(t) && pop == Pops(t, i)
    requires r.cells == if entry.Some? then t.cells[OutputFifo.Slot(STATUS_DEPTH, t.wr) := entry.value] else t.cells
    requires r.wr == if entry.Some? then OutputFifo.Wrap(STATUS_DEPTH, t.wr + 1) else t.wr
    requires r.rd == if pop then OutputFifo.Wrap(STATUS_DEPTH, t.rd + 1) else t.rd
    requires var up, down := t.active < STATUS_DEPTH && issue && !pop, 0 < t.active && !issue && pop;
      && r.active == (if up then t.active + 1 else if down then t.active - 1 else t.active)
      && r.av == (if up then t.active < STATUS_DEPTH - 1 else down || t.active < STATUS_DEPTH)
    requires r.bReady == (t.rd != t.wr && !pop)
    requires var worst := if t.bReady && i.bValid && i.bResp.Failed() then i.bResp else t.bresp;
      var head := t.cells[OutputFifo.Slot(STATUS_DEPTH, t.rd)];
      && r.bresp == (if pop && head.last then OKAY else worst)
      && status == (if pop && head.last then Some(Status(head.len, head.tag, ErrorOf(worst))) else None)
    ensures StatusOut(r, status) == StatusStep(t, entry, issue, i)
  {
    hide OutputFifo.Slot, OutputFifo.Wrap, Resp.Failed, ErrorOf, Pops;
  }

  class StatusUnit {
    const cells: array<Entry>
    var wrPtr: nat
    var rdPtr: nat
    var activeCount: nat
    var activeCountAv: bool
    var bReady: bool
    var bresp: Resp

    ghost predicate Valid()
      reads this
    {
      cells.Length == STATUS_DEPTH && wrPtr < 2 * STATUS_DEPTH && rdPtr < 2 * STATUS_DEPTH
    }

    function View(): (t: StatusRegs)
      reads this, cells
      requires Valid()
      ensures StatusTyped(t)
    {
      StatusRegs(cells[..], wrPtr, rdPtr, activeCount, activeCountAv, bReady, bresp)
    }

    constructor ()
      ensures Valid() && fresh(cells)
      ensures View().wr == 0 && View().rd == 0 && View().active == 0 && View().av && !View().bReady &&
        View().bresp == OKAY
    {
      cells := new Entry[STATUS_DEPTH](_ => Entry(0, 0, false));
      wrPtr, rdPtr, activeCount, activeCountAv, bReady, bresp := 0, 0, 0, true, false, OKAY;
    }

    // The credit counter.
    method Count(inc: bool, dec: bool)
      modifies `activeCount, `activeCountAv
      ensures var up, down := old(activeCount) < STATUS_DEPTH && inc && !dec, 0 < old(activeCount) && !inc && dec;
              && activeCount == (if up then old(activeCount) + 1
                                 else if down then old(activeCount) - 1 else old(activeCount))
              && activeCountAv == (if up then old(activeCount) < STATUS_DEPTH - 1
                                   else down || old(activeCount) < STATUS_DEPTH)
    {
      if activeCount < STATUS_DEPTH && inc && !dec {
        activeCountAv := activeCount < STATUS_DEPTH - 1;
        activeCount := activeCount + 1;
      } else if 0 < activeCount && !inc && dec {
        activeCount := activeCount - 1;
        activeCountAv := true;
      } else {
        activeCountAv := activeCount < STATUS_DEPTH;
      }
    }

    method Clock(entry: Option<Entry>, issue: bool, i: Input) returns (status: Option<Status>)
      requires Valid()
      modifies this, cells
      ensures Valid() && StatusOut(View(), status) == StatusStep(old(View()), entry, issue, i)
    {
      hide StatusStep, OutputFifo.Slot, OutputFifo.Wrap, Resp.Failed, ErrorOf;
      ghost var was := View();
      var pop;
      pop, status := Answer(i);
      Move(entry, pop);
      Count(issue, pop);
      StatusStepIs(was, entry, issue, i, View(), status, pop);
    }

    // A B response: the worst response so far, and the status if it answers the last burst.
    method Answer(i: Input) returns (pop: bool, status: Option<Status>)
      requires Valid()
      modifies `bReady, `bresp
      ensures pop == Pops(old(View()), i) && bReady == (rdPtr != wrPtr && !pop)
      ensures var worst := if old(bReady) && i.bValid && i.bResp.Failed() then i.bResp else old(bresp);
        var head := cells[OutputFifo.Slot(STATUS_DEPTH, rdPtr)];
        && bresp == (if pop && head.last then OKAY else worst)
        && status == (if pop && head.last then Some(Status(head.len, head.tag, ErrorOf(worst))) else None)
    {
      hide OutputFifo.Slot, Resp.Failed, ErrorOf;
      status := None;
      pop := rdPtr != wrPtr && bReady && i.bValid;
      var brespNext := if bReady && i.bValid && i.bResp.Failed() then i.bResp else bresp;
      if pop {
        var head := cells[OutputFifo.Slot(STATUS_DEPTH, rdPtr)];
        if head.last {
          status := Some(Status(head.len, head.tag, ErrorOf(brespNext)));
          brespNext := OKAY;
        }
      }
      bReady, bresp := rdPtr != wrPtr && !pop, brespNext;
    }

    // Queue the new entry and step over the answered one.
    method Move(entry: Option<Entry>, pop: bool)
      requires Valid()
      modifies `wrPtr, `rdPtr, cells
      ensures Valid()
      ensures cells[..] == (if entry.Some? then old(cells[..])[OutputFifo.Slot(STATUS_DEPTH, old(wrPtr)) := entry.value]
                            else old(cells[..]))
      ensures wrPtr == (if entry.Some? then OutputFifo.Wrap(STATUS_DEPTH, old(wrPtr) + 1) else old(wrPtr))
      ensures rdPtr == (if pop then OutputFifo.Wrap(STATUS_DEPTH, old(rdPtr) + 1) else old(rdPtr))
    {
      hide OutputFifo.Slot, OutputFifo.Wrap;
      if pop {
        rdPtr := OutputFifo.Wrap(STATUS_DEPTH, rdPtr + 1);
      }
      if entry.Some? {
        cells[OutputFifo.Slot(STATUS_DEPTH, wrPtr)] := entry.value;
        wrPtr := OutputFifo.Wrap(STATUS_DEPTH, wrPtr + 1);
      }
    }
  }

  class WriteEngine {
    const c: Config
    const status: StatusUnit
    const fifo: OutputFifo.OutFifo<WBeat>

    var state: State
    var descReady: bool
    var dataReady: bool
    var addr: nat
    var opWordCount: nat
    var length: nat
    var lastCycleOffset: nat
    var lastTransfer: bool
    var firstCycle: bool
    var tag: nat
    var inputCycleCount: int
    var inputActive: bool
    var outputCycleCount: int
    var outputLastCycle: bool
    var awValid: bool
    var awAddr: nat
    var awLen: nat

    ghost predicate Valid()
      reads this, status, fifo
    {
      && c.Ok() && status.Valid() && fifo.Valid() && fifo.mem.Length == FIFO_DEPTH
    }

    function Core(): Regs
      reads this
    {
      Regs(state, descReady, dataReady, addr, opWordCount, length, lastCycleOffset, lastTransfer, firstCycle, tag,
           inputCycleCount, inputActive, outputCycleCount, outputLastCycle, awValid, awAddr, awLen)
    }

    function View(): Engine
      reads this, status, status.cells, fifo, fifo.mem
      requires status.Valid() && fifo.Valid()
    {
      Engine(Core(), status.View(), fifo.View())
    }

    constructor (c: Config)
      requires c.Ok()
      ensures Valid() && this.c == c && fresh(status) && fresh(status.cells) && fresh(fifo) && fresh(fifo.mem)
      ensures IsReset(View())
    {
      this.c := c;
      status := new StatusUnit();
      fifo := new OutputFifo.OutFifo<WBeat>(FIFO_DEPTH, WBeat([], [], false));
      state, descReady, dataReady := Idle, false, false;
      addr, opWordCount, length, lastCycleOffset, lastTransfer, firstCycle, tag := 0, 0, 0, 0, false, false, 0;
      inputCycleCount, inputActive, outputCycleCount, outputLastCycle := 0, false, 0, false;
      awValid, awAddr, awLen := false, 0, 0;
    }

    // The combinational processes compute next-state values `n` from the registers.

    method NextIdle(i: Input, av: bool) returns (n: Regs)
      requires c.Ok() && state.Idle?
      ensures CoreOut(n, None, None, false) == IdleStep(c, Core(), i, av)
    {
      hide LoadAddr, LastOffset, Config.Ok;
      n := Core().(awValid := awValid && !i.awReady, dataReady := false);
      n := n.(addr := LoadAddr(c, i.desc), left := i.desc.len, tag := i.desc.tag);
      n := n.(lastOffset := LastOffset(c, i.desc.len), length := 0, first := true);
      n := n.(descReady := i.enable && av);
      if descReady && i.descValid {
        n := n.(descReady := false, state := Start);
      }
    }

    method NextStart(i: Input, room: bool, av: bool) returns (n: Regs, incActive: bool)
      requires c.Ok() && state.Start?
      ensures CoreOut(n, None, None, incActive) == StartStep(c, Core(), i, room, av)
    {
      hide NextBurst, CycleCount, BurstLen, Advance, Config.Ok;
      incActive := false;
      n := Core().(awValid := awValid && !i.awReady, descReady := false, dataReady := false);
      var trWordCount := NextBurst(c, addr, opWordCount);
      var count := CycleCount(c, trWordCount);
      n := n.(inCount := count, inActive := true, outCount := count, outLast := count == 0);
      n := n.(lastTransfer := trWordCount == opWordCount);
      if !awValid && av {
        n := n.(awAddr := addr, awLen := BurstLen(c, addr, trWordCount), awValid := i.dataValid || !firstCycle);
        if n.awValid {
          n := n.(addr := Advance(c, addr, trWordCount), left := opWordCount - trWordCount);
          n := n.(dataReady := room, state := Write);
          incActive := true;
        }
      }
    }

    // cycle_size: scan the lanes downwards, remembering every lane that is not kept.
    static method LowestMissing(keep: Mask) returns (cycleSize: nat)
      ensures cycleSize == CycleSize(keep)
    {
      cycleSize := |keep|;
      var i: nat := |keep|;
      while 0 < i
        invariant 0 <= i <= cycleSize <= |keep|
        invariant forall j :: i <= j < cycleSize ==> keep[j]
        invariant cycleSize < |keep| ==> !keep[cycleSize]
      {
        i := i - 1;
        if !keep[i] {
          cycleSize := i;
        }
      }
    }

    // STATE_WRITE with a beat going out: counters first, then the three ways it can end.
    method NextTransfer(i: Input, room: bool, av: bool) returns (n: Regs, push: WBeat, entry: Option<Entry>)
      requires c.Ok() && state.Write?
      ensures CoreOut(n, Some(push), entry, false) == TransferStep(c, Core(), i, room, av)
    {
      hide TransferStep;
      if i.beat.last {
        n, push, entry := TransferLast(i, room, av);
      } else {
        n, push, entry := TransferMore(i, room, av);
      }
    }

    method TransferLast(i: Input, room: bool, av: bool) returns (n: Regs, push: WBeat, entry: Option<Entry>)
      requires c.Ok() && state.Write? && i.beat.last
      ensures CoreOut(n, Some(push), entry, false) == TransferStep(c, Core(), i, room, av)
    {
      hide LowMask, ZeroWord, CycleSize, FitsBelow, Config.Ok;
      n := Counted(i.awReady);
      n, push, entry := NextLast(i, n, av);
    }

    method TransferMore(i: Input, room: bool, av: bool) returns (n: Regs, push: WBeat, entry: Option<Entry>)
      requires c.Ok() && state.Write? && !i.beat.last
      ensures CoreOut(n, Some(push), entry, false) == TransferStep(c, Core(), i, room, av)
    {
      hide LowMask, ZeroWord, CycleSize, FitsBelow, Config.Ok;
      n := Counted(i.awReady);
      n, push, entry := NextMore(i, n, room);
    }

    method NextLast(i: Input, n0: Regs, av: bool) returns (n: Regs, push: WBeat, entry: Option<Entry>)
      requires c.Ok()
      ensures var cut := outputLastCycle && lastTransfer && lastCycleOffset > 0 &&
        !FitsBelow(i.beat.keep, lastCycleOffset);
              && n == n0.(inActive := false, length := length + if cut then lastCycleOffset else CycleSize(i.beat.keep),
                          state := if outputLastCycle then Idle else FinishBurst,
                          descReady := outputLastCycle && i.enable && av)
              && push == WBeat(i.beat.data, if cut then LowMask(c.strb, lastCycleOffset) else i.beat.keep,
                               outputLastCycle)
              && entry == Some(Entry(n.length, tag, true))
    {
      hide LowMask, ZeroWord, CycleSize, FitsBelow, Config.Ok;
      n, push := FrameEnd(i, n0.(inActive := false), WBeat(i.beat.data, [], outputLastCycle));
      n := n.(state := if outputLastCycle then Idle else FinishBurst, descReady := outputLastCycle && i.enable && av);
      entry := Some(Entry(n.length, tag, true));
    }

    method NextMore(i: Input, n0: Regs, room: bool) returns (n: Regs, push: WBeat, entry: Option<Entry>)
      requires c.Ok()
      ensures if outputLastCycle then
                if opWordCount > 0 then
                  && n == n0.(state := Start)
                  && push == WBeat(i.beat.data, LowMask(c.strb, c.strb), true) &&
                     entry == Some(Entry(n0.length, tag, false))
                else
                  && n == n0.(state := DropData, dataReady := true,
                              length := if lastCycleOffset > 0 then length + lastCycleOffset else n0.length)
                  && push == WBeat(i.beat.data,
                                   LowMask(c.strb, if lastCycleOffset > 0 then lastCycleOffset else c.strb), true)
                  && entry == Some(Entry(n.length, tag, true))
              else
                && n == n0.(dataReady := room && (lastTransfer || n0.inActive))
                && push == WBeat(i.beat.data, LowMask(c.strb, c.strb), false) && entry == None
    {
      hide LowMask, ZeroWord, Config.Ok;
      entry := None;
      push := WBeat(i.beat.data, LowMask(c.strb, c.strb), outputLastCycle);
      if outputLastCycle {
        n, push, entry := BurstEnd(n0, push);
      } else {
        n := n0.(dataReady := room && (lastTransfer || n0.inActive));
      }
    }

    method Counted(awReady: bool) returns (n: Regs)
      requires c.Ok()
      ensures n == Core().(awValid := awValid && !awReady, descReady := false, dataReady := false,
                           length := length + c.strb, first := false,
                           inCount := if inputActive then inputCycleCount - 1 else inputCycleCount,
                           inActive := inputActive && inputCycleCount > 0,
                           outCount := outputCycleCount - 1, outLast := outputCycleCount - 1 == 0)
    {
      n := Core().(awValid := awValid && !awReady, descReady := false, dataReady := false);
      n := n.(length := length + c.strb, first := false);
      if inputActive {
        n := n.(inCount := inputCycleCount - 1, inActive := inputCycleCount > 0);
      }
      n := n.(outCount := outputCycleCount - 1, outLast := outputCycleCount - 1 == 0);
    }

    // End of a burst inside the frame: another burst, or drop what the descriptor does not cover.
    method BurstEnd(n0: Regs, push0: WBeat) returns (n: Regs, push: WBeat, entry: Option<Entry>)
      requires c.Ok()
      ensures if opWordCount > 0 then
                n == n0.(state := Start) && push == push0 && entry == Some(Entry(n0.length, tag, false))
              else
                && n == n0.(state := DropData, dataReady := true,
                            length := if lastCycleOffset > 0 then length + lastCycleOffset else n0.length)
                && push == (if lastCycleOffset > 0 then push0.(strb := LowMask(c.strb, lastCycleOffset)) else push0)
                && entry == Some(Entry(n.length, tag, true))
    {
      hide LowMask, ZeroWord, Config.Ok;
      n, push := n0, push0;
      if opWordCount > 0 {
        n := n.(state := Start);
        entry := Some(Entry(n.length, tag, false));
      } else {
        if lastCycleOffset > 0 {
          push := push.(strb := LowMask(c.strb, lastCycleOffset));
          n := n.(length := length + lastCycleOffset);
        }
        entry := Some(Entry(n.length, tag, true));
        n := n.(dataReady := true, state := DropData);
      }
    }

    // End of the frame: strobe what is kept, cut at the descriptor's last byte.
    method FrameEnd(i: Input, n0: Regs, push0: WBeat) returns (n: Regs, push: WBeat)
      requires c.Ok()
      ensures var cut := outputLastCycle && lastTransfer && lastCycleOffset > 0 &&
        !FitsBelow(i.beat.keep, lastCycleOffset);
              && push == push0.(strb := if cut then LowMask(c.strb, lastCycleOffset) else i.beat.keep)
              && n == n0.(length := length + if cut then lastCycleOffset else CycleSize(i.beat.keep))
    {
      hide LowMask, ZeroWord, CycleSize, Config.Ok;
      var cycleSize := LowestMissing(i.beat.keep);
      if outputLastCycle && lastTransfer && lastCycleOffset > 0 && !FitsBelow(i.beat.keep, lastCycleOffset) {
        push, n := push0.(strb := LowMask(c.strb, lastCycleOffset)), n0.(length := length + lastCycleOffset);
      } else {
        push, n := push0.(strb := i.beat.keep), n0.(length := length + cycleSize);
      }
    }

    method NextWrite(i: Input, room: bool, av: bool) returns (n: Regs, push: Option<WBeat>, entry: Option<Entry>)
      requires c.Ok() && state.Write?
      ensures CoreOut(n, push, entry, false) == WriteStep(c, Core(), i, room, av)
    {
      hide TransferStep, Config.Ok;
      push, entry := None, None;
      if (dataReady && i.dataValid) || (!inputActive && !lastTransfer) {
        var beat: WBeat;
        n, beat, entry := NextTransfer(i, room, av);
        push := Some(beat);
      } else {
        n := Core().(awValid := awValid && !i.awReady, descReady := false);
        n := n.(dataReady := room && (lastTransfer || inputActive));
      }
    }

    method NextFinish(i: Input, room: bool, av: bool) returns (n: Regs, push: Option<WBeat>)
      requires c.Ok() && state.FinishBurst?
      ensures CoreOut(n, push, None, false) == FinishStep(c, Core(), i, room, av)
    {
      hide LowMask, ZeroWord, Config.Ok;
      push := None;
      n := Core().(awValid := awValid && !i.awReady, descReady := false, dataReady := false);
      if room {
        if inputActive {
          n := n.(inCount := inputCycleCount - 1, inActive := inputCycleCount > 0);
        }
        n := n.(outCount := outputCycleCount - 1, outLast := outputCycleCount - 1 == 0);
        push := Some(WBeat(ZeroWord(c.strb), LowMask(c.strb, 0), outputLastCycle));
        if outputLastCycle {
          n := n.(descReady := i.enable && av, state := Idle);
        }
      }
    }

    method NextDrop(i: Input, av: bool) returns (n: Regs)
      requires state.DropData?
      ensures CoreOut(n, None, None, false) == DropStep(Core(), i, av)
    {
      n := Core().(awValid := awValid && !i.awReady, descReady := false, dataReady := true);
      if i.dataValid && i.beat.last {
        n := n.(dataReady := false, descReady := i.enable && av, state := Idle);
      }
    }

    // The clocked process.
    method Latch(n: Regs)
      modifies this
      ensures Core() == n
    {
      LatchCounters(n);
      state, descReady, dataReady, addr, opWordCount := n.state, n.descReady, n.dataReady, n.addr, n.left;
      length, lastCycleOffset, lastTransfer := n.length, n.lastOffset, n.lastTransfer;
    }

    method LatchCounters(n: Regs)
      modifies `firstCycle, `tag, `inputCycleCount, `inputActive, `outputCycleCount, `outputLastCycle, `awValid,
        `awAddr, `awLen
      ensures firstCycle == n.first && tag == n.tag && inputCycleCount == n.inCount && inputActive == n.inActive
      ensures outputCycleCount == n.outCount && outputLastCycle == n.outLast
      ensures awValid == n.awValid && awAddr == n.awAddr && awLen == n.awLen
    {
      firstCycle, tag, inputCycleCount, inputActive := n.first, n.tag, n.inCount, n.inActive;
      outputCycleCount, outputLastCycle := n.outCount, n.outLast;
      awValid, awAddr, awLen := n.awValid, n.awAddr, n.awLen;
    }

    method NextCore(i: Input, room: bool, av: bool)
      returns (n: Regs, push: Option<WBeat>, entry: Option<Entry>, incActive: bool)
      requires c.Ok()
      ensures CoreOut(n, push, entry, incActive) == CoreStep(c, Core(), i, room, av)
    {
      hide IdleStep, StartStep, WriteStep, FinishStep, DropStep, Config.Ok;
      push, entry, incActive := None, None, false;
      match state {
        case Idle => n := NextIdle(i, av);
        case Start => n, incActive := NextStart(i, room, av);
        case Write => n, push, entry := NextWrite(i, room, av);
        case FinishBurst => n, push := NextFinish(i, room, av);
        case DropData => n := NextDrop(i, av);
      }
    }

    method Clock(i: Input) returns (report: Option<Status>)
      requires Valid()
      modifies this, status, status.cells, fifo, fifo.mem
      ensures Valid() && View() == EngineStep(c, old(View()), i)
      ensures report == StatusNow(c, old(View()), i).status
    {
      hide CoreStep, StatusStep, StatusUnit.Valid, OutputFifo.Step, OutputFifo.OutFifo.Contents,
        OutputFifo.OutFifo.Valid, Geometry;
      ghost var before := View();
      var n, push, entry, incActive := NextCore(i, !fifo.half, status.activeCountAv);
      Latch(n);
      report := status.Clock(entry, incActive, i);
      fifo.Clock(push, i.wReady);
      assert View() == EngineStep(c, before, i);
    }
  }
}
