// axi_dma_rd as the source writes it: registers updated in place on every clock, next-state values
// computed by assignment. Each clock is exactly one step of the value model.
module AxiDmaReadEngine {
  import opened Wrappers
  import opened BurstPlanner
  import opened AxiBus
  import opened AxiDma
  import opened AxiDmaRead
  import OutputFifo

  class ReadEngine {
    const c: Config
    const fifo: OutputFifo.OutFifo<Beat>

    // AXI side
    var start: bool
    var descReady: bool
    var addr: nat
    var opWordCount: nat
    var arValid: bool
    var arAddr: nat
    var arLen: nat
    var cmdValid: bool
    var cmd: Cmd

    // stream side
    var reading: bool
    var work: Cmd  // the command being worked off: its offsets and remaining cycle counts
    var inputActive: bool
    var outputActive: bool
    var firstCycle: bool
    var outputLastCycle: bool
    var rresp: Resp
    var save: Word
    var rReady: bool

    ghost predicate Valid()
      reads this, fifo
    {
      fifo.Valid() && fifo.mem.Length == FIFO_DEPTH && Widths()
    }

    ghost predicate Widths()
      reads this
    {
      c.Ok() && work.offset <= c.strb && cmd.offset <= c.strb && |save| == c.strb
    }

    function AxiView(): AxiRegs
      reads this
    {
      AxiRegs(start, descReady, addr, opWordCount, arValid, arAddr, arLen, cmdValid, cmd)
    }

    function StreamView(): StreamRegs
      reads this
    {
      StreamRegs(reading, work, inputActive, outputActive, firstCycle, outputLastCycle, rresp, save, rReady)
    }

    function View(): Engine
      reads this, fifo, fifo.mem
      requires fifo.Valid()
    {
      Engine(AxiView(), StreamView(), fifo.View())
    }

    constructor (c: Config)
      requires c.Ok()
      ensures Valid() && this.c == c && fresh(fifo) && fresh(fifo.mem)
      ensures IsReset(c, View())
    {
      this.c := c;
      fifo := new OutputFifo.OutFifo<Beat>(FIFO_DEPTH, Beat([], 0, false, 0));
      start, descReady, addr, opWordCount := false, false, 0, 0;
      arValid, arAddr, arLen, cmdValid, cmd := false, 0, 0, false, Cmd(0, 0, 0, 0, false, 0);
      reading, work := false, Cmd(0, 0, 0, 0, false, 0);
      inputActive, outputActive, firstCycle := false, false, false;
      outputLastCycle, rresp, save, rReady := false, OKAY, seq(c.strb, _ => 0), false;
    }

    // The descriptor and burst state machine.
    method ClockAxi(i: Input, cmdTaken: bool)
      requires c.Ok()
      modifies `start, `descReady, `addr, `opWordCount, `arValid, `arAddr, `arLen, `cmdValid, `cmd
      ensures AxiView() == AxiStep(c, old(AxiView()), i, cmdTaken)
    {
      hide LoadAddr, LoadCmd, NextBurst, BurstLen, Advance, Geometry;
      var startNext, readyNext, addrNext, opWordCountNext := start, false, addr, opWordCount;
      var arValidNext, arAddrNext, arLenNext := arValid && !i.arReady, arAddr, arLen;
      var cmdNext, cmdValidNext := cmd, cmdValid && !cmdTaken;
      if !start {
        readyNext := !cmdValid && i.enable;
        if descReady && i.desc.Some? {
          addrNext, cmdNext := LoadAddr(c, i.desc.value), LoadCmd(c, i.desc.value);
          opWordCountNext := i.desc.value.len;
          cmdValidNext := true;
          readyNext := false;
          startNext := true;
        }
      } else if !arValid {
        var trWordCount := NextBurst(c, addr, opWordCount);
        arAddrNext, arLenNext, arValidNext := addr, BurstLen(c, addr, trWordCount), true;
        addrNext := Advance(c, addr, trWordCount);
        opWordCountNext := opWordCount - trWordCount;
        if opWordCountNext == 0 {
          readyNext := !cmdValid && i.enable;
          startNext := false;
        }
      }
      start, descReady, addr, opWordCount := startNext, readyNext, addrNext, opWordCountNext;
      arValid, arAddr, arLen := arValidNext, arAddrNext, arLenNext;
      cmdValid, cmd := cmdValidNext, cmdNext;
    }

    // AXIS_STATE_IDLE: load whatever command is on offer, start if it is valid.
    method ClockIdle(i: Input, room: bool)
      requires Widths() && |i.rData| == c.strb && !reading
      modifies `reading, `work, `inputActive, `outputActive, `firstCycle, `outputLastCycle, `rresp, `rReady
      ensures StreamOut(StreamView(), None, None)
           == StreamStep(c, old(StreamView()), cmdValid, cmd, i, room)
      ensures work.offset <= c.strb
    {
      hide Shifted, Geometry;
      if rReady && i.rValid && i.rResp.Failed() {
        rresp := i.rResp;
      }
      work := cmd;
      if !c.unaligned {
        work := work.(offset := 0);
      }
      outputLastCycle := cmd.outCount == 0;
      inputActive, outputActive, firstCycle := true, true, true;
      reading := cmdValid;
      rReady := cmdValid && room;
    }

    // AXIS_STATE_READ, input half: count a word and save it.
    method TakeWord(i: Input, hit: bool)
      modifies `work, `inputActive, `firstCycle, `save, `rresp
      ensures work == old(work).(inCount := if old(inputActive) then old(work).inCount - 1 else old(work).inCount,
                                 bubble := false)
      ensures inputActive == (old(inputActive) && old(work).inCount > 0)
      ensures !firstCycle && save == (if hit then i.rData else old(save))
      ensures rresp == (if hit && i.rResp.Failed() then i.rResp else old(rresp))
    {
      if hit {
        save := i.rData;
        if i.rResp.Failed() {
          rresp := i.rResp;
        }
      }
      if inputActive {
        inputActive := work.inCount > 0;
        work := work.(inCount := work.inCount - 1);
      }
      work, firstCycle := work.(bubble := false), false;
    }

    // AXIS_STATE_READ, output half: emit one realigned beat, and the status with the last one.
    method EmitBeat(data: Word) returns (push: Option<Beat>, status: Option<Status>)
      modifies `work, `outputActive, `outputLastCycle, `reading, `rresp
      ensures push == Some(Beat(data, if old(outputLastCycle) && work.lastOffset > 0 then work.lastOffset else c.strb,
                                old(outputLastCycle), work.tag))
      ensures status == (if old(outputLastCycle) then Some(Status(work.tag, ErrorOf(old(rresp)))) else None)
      ensures work == old(work).(outCount := if old(outputActive) then old(work).outCount - 1 else old(work).outCount)
      ensures outputActive == (old(outputActive) && old(work).outCount > 0)
      ensures outputLastCycle == (work.outCount == 0) && reading == (old(reading) && !old(outputLastCycle))
      ensures rresp == (if old(outputLastCycle) then OKAY else old(rresp))
    {
      status := None;
      if outputActive {
        outputActive := work.outCount > 0;
        work := work.(outCount := work.outCount - 1);
      }
      var keep := c.strb;
      if outputLastCycle {
        if work.lastOffset > 0 {
          keep := work.lastOffset;
        }
        status := Some(Status(work.tag, ErrorOf(rresp)));
        rresp := OKAY;
        reading := false;
      }
      push := Some(Beat(data, keep, outputLastCycle, work.tag));
      outputLastCycle := work.outCount == 0;
    }

    // A word in, if there is one, and a realigned beat out.
    method PassWord(i: Input, room: bool) returns (push: Option<Beat>, status: Option<Status>)
      requires Widths() && |i.rData| == c.strb && reading && ((rReady && i.rValid) || !inputActive)
      requires !(c.unaligned && firstCycle && work.bubble)
      modifies `reading, `work, `inputActive, `outputActive, `firstCycle, `outputLastCycle, `rresp, `save, `rReady
      ensures StreamOut(StreamView(), push, status)
           == StreamStep(c, old(StreamView()), cmdValid, cmd, i, room)
      ensures work.offset == old(work).offset && |save| == c.strb
    {
      hide Shifted, Geometry, Resp.Failed, ErrorOf, Config.Ok;
      var shifted := Shifted(c, work.offset, save, i.rData);
      TakeWord(i, rReady && i.rValid);
      push, status := EmitBeat(shifted);
      rReady := reading && room && inputActive;
    }

    method ClockRead(i: Input, room: bool) returns (push: Option<Beat>, status: Option<Status>)
      requires Widths() && |i.rData| == c.strb && reading
      modifies `reading, `work, `inputActive, `outputActive, `firstCycle, `outputLastCycle, `rresp, `save, `rReady
      ensures StreamOut(StreamView(), push, status)
           == StreamStep(c, old(StreamView()), cmdValid, cmd, i, room)
      ensures work.offset == old(work).offset && |save| == c.strb
    {
      hide Shifted, Geometry, Resp.Failed, ErrorOf, Config.Ok;
      push, status := None, None;
      var hit, bubble := rReady && i.rValid, c.unaligned && firstCycle && work.bubble;
      if !hit && inputActive {
        rReady := room && inputActive;
      } else if bubble {
        TakeWord(i, hit);
        rReady := reading && room && inputActive;
      } else {
        push, status := PassWord(i, room);
      }
    }

    // What the realignment state machine writes to the output FIFO is returned. room: the FIFO's
    // registered half-full flag is low.
    method ClockStream(i: Input, room: bool) returns (push: Option<Beat>, status: Option<Status>)
      requires Widths() && |i.rData| == c.strb
      modifies `reading, `work, `inputActive, `outputActive, `firstCycle, `outputLastCycle, `rresp, `save, `rReady
      ensures StreamOut(StreamView(), push, status)
           == StreamStep(c, old(StreamView()), cmdValid, cmd, i, room)
      ensures work.offset <= c.strb && |save| == c.strb
    {
      hide StreamStep, Geometry;
      push, status := None, None;
      if reading {
        push, status := ClockRead(i, room);
      } else {
        ClockIdle(i, room);
      }
    }

    method Clock(i: Input) returns (status: Option<Status>)
      requires Valid() && |i.rData| == c.strb
      modifies this, fifo, fifo.mem
      ensures Valid() && View() == EngineStep(c, old(View()), i)
      ensures status == StreamNow(c, old(View()), i).status
    {
      hide AxiStep, StreamStep, OutputFifo.Step, Geometry, OutputFifo.OutFifo.Contents;
      var cmdTaken := !reading && cmdValid;
      ghost var before := View();
      var push: Option<Beat>;
      push, status := ClockStream(i, !fifo.half);
      ClockAxi(i, cmdTaken);
      fifo.Clock(push, i.outReady);
      assert View() == EngineStep(c, before, i);
    }
  }
}
