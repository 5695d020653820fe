// axi_dma_rd: one state machine turns descriptors into AXI read bursts, a second one turns the
// returning words into a byte-aligned stream, and an output FIFO decouples the reader.
module AxiDmaRead {
  import opened Wrappers
  import opened AxiBus
  import opened AxiDma
  import OutputFifo

  const FIFO_DEPTH: nat := 32

  datatype Error = NoError | RdSlverr | RdDecerr

  datatype Status = Status(tag: nat, error: Error)

  // The command handed from the AXI side to the stream side (axis_cmd_*).
  datatype Cmd = Cmd(offset: nat, lastOffset: nat, inCount: int, outCount: int, bubble: bool, tag: nat)

  datatype AxiRegs = AxiRegs(
    start: bool, ready: bool, addr: nat, left: nat,
    arValid: bool, arAddr: nat, arLen: nat,
    cmdValid: bool, cmd: Cmd)

  datatype StreamRegs = StreamRegs(
    reading: bool, cmd: Cmd, inActive: bool, outActive: bool, first: bool, outLast: bool,
    resp: Resp, save: Word, rReady: bool)

  datatype Input = Input(
    enable: bool, desc: Option<Desc>, arReady: bool,
    rValid: bool, rData: Word, rResp: Resp, outReady: bool)

  function LoadCmd(c: Config, d: Desc): (m: Cmd)
    requires c.Ok()
    ensures m.offset <= c.strb
  {
    var offset := if c.unaligned then (c.strb - d.addr % c.strb) % c.strb else 0;
    var inCount := if c.unaligned then (d.len + d.addr % c.strb - 1) / c.strb else (d.len - 1) / c.strb;
    Cmd(offset, d.len % c.strb, inCount, (d.len - 1) / c.strb, offset > 0, d.tag)
  }

  function AxiStep(c: Config, a: AxiRegs, i: Input, cmdTaken: bool): AxiRegs
    requires c.Ok()
  {
    var arValid := a.arValid && !i.arReady;
    var cmdValid := a.cmdValid && !cmdTaken;
    var readyNext := !a.cmdValid && i.enable;
    if !a.start then
      if a.ready && i.desc.Some? then
        AxiRegs(true, false, LoadAddr(c, i.desc.value), i.desc.value.len, arValid, a.arAddr, a.arLen,
                true, LoadCmd(c, i.desc.value))
      else
        a.(ready := readyNext, arValid := arValid, cmdValid := cmdValid)
    else if !a.arValid then
      var n := NextBurst(c, a.addr, a.left);
      AxiRegs(n < a.left, n == a.left && readyNext, Advance(c, a.addr, n), a.left - n,
              true, a.addr, BurstLen(c, a.addr, n), cmdValid, a.cmd)
    else
      a.(ready := false, arValid := arValid, cmdValid := cmdValid)
  }

  // shift_axi_rdata: the incoming word above the saved one, shifted down.
  function Shifted(c: Config, offset: nat, save: Word, rData: Word): Word
    requires offset <= c.strb && |save| == c.strb && |rData| == c.strb
  {
    (save + rData)[c.strb - offset..2 * c.strb - offset]
  }

  function ErrorOf(r: Resp): Error {
    match r
    case SLVERR => RdSlverr
    case DECERR => RdDecerr
    case _ => NoError
  }

  datatype StreamOut = StreamOut(regs: StreamRegs, push: Option<Beat>, status: Option<Status>)

  predicate StreamTyped(c: Config, s: StreamRegs, i: Input) {
    s.cmd.offset <= c.strb && |s.save| == c.strb && |i.rData| == c.strb
  }

  // room: the output FIFO's registered half-full flag is low.
  function StreamStep(c: Config, s: StreamRegs, cmdValid: bool, cmd: Cmd, i: Input, room: bool): StreamOut
    requires c.Ok() && StreamTyped(c, s, i)
  {
    var hit := s.rReady && i.rValid;
    var resp := if hit && i.rResp.Failed() then i.rResp else s.resp;
    if !s.reading then
      StreamOut(
        s.(reading := cmdValid, cmd := if c.unaligned then cmd else cmd.(offset := 0),
           inActive := true, outActive := true, first := true, outLast := cmd.outCount == 0,
           resp := resp, rReady := cmdValid && room),
        None, None)
    else if hit || !s.inActive then
      var inCount := if s.inActive then s.cmd.inCount - 1 else s.cmd.inCount;
      var inActive := s.inActive && s.cmd.inCount > 0;
      var save := if hit then i.rData else s.save;
      if c.unaligned && s.first && s.cmd.bubble then
        StreamOut(
          s.(cmd := s.cmd.(inCount := inCount, bubble := false), inActive := inActive, first := false,
             resp := resp, save := save, rReady := room && inActive),
          None, None)
      else
        var outCount := if s.outActive then s.cmd.outCount - 1 else s.cmd.outCount;
        var keep := if s.outLast && s.cmd.lastOffset > 0 then s.cmd.lastOffset else c.strb;
        StreamOut(
          s.(reading := !s.outLast,
             cmd := s.cmd.(inCount := inCount, outCount := outCount, bubble := false),
             inActive := inActive, outActive := s.outActive && s.cmd.outCount > 0, first := false,
             outLast := outCount == 0, resp := if s.outLast then OKAY else resp, save := save,
             rReady := !s.outLast && room && inActive),
          Some(Beat(Shifted(c, s.cmd.offset, s.save, i.rData), keep, s.outLast, s.cmd.tag)),
          if s.outLast then Some(Status(s.cmd.tag, ErrorOf(resp))) else None)
    else
      StreamOut(s.(resp := resp, rReady := room && s.inActive), None, None)
  }

  // ----- The whole engine -----

  datatype Engine = Engine(axi: AxiRegs, stream: StreamRegs, fifo: OutputFifo.Fifo<Beat>)

  function StreamNow(c: Config, e: Engine, i: Input): StreamOut
    requires c.Ok() && StreamTyped(c, e.stream, i)
  {
    StreamStep(c, e.stream, e.axi.cmdValid, e.axi.cmd, i, !e.fifo.half)
  }

  // axis_cmd_ready.
  predicate CmdTaken(e: Engine) {
    !e.stream.reading && e.axi.cmdValid
  }

  // Register widths.
  predicate Typed(c: Config, e: Engine) {
    e.stream.cmd.offset <= c.strb && e.axi.cmd.offset <= c.strb && |e.stream.save| == c.strb
  }

  function EngineStep(c: Config, e: Engine, i: Input): (e': Engine)
    requires c.Ok() && StreamTyped(c, e.stream, i)
    ensures e.axi.cmd.offset <= c.strb ==> Typed(c, e')
  {
    var o := StreamNow(c, e, i);
    Engine(AxiStep(c, e.axi, i, CmdTaken(e)), o.regs, OutputFifo.Step(FIFO_DEPTH, e.fifo, o.push, i.outReady))
  }

  predicate IsReset(c: Config, e: Engine) {
    && !e.axi.start && !e.axi.ready && !e.axi.arValid && !e.axi.cmdValid
    && !e.stream.reading && !e.stream.rReady && e.stream.resp == OKAY
    && Typed(c, e)
    && e.fifo == OutputFifo.Fifo([], false, None)
  }
}
