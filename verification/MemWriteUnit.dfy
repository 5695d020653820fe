// The registers of dma_if_pcie_axis_wr_v1 with its output stage.
module MemWriteUnit {
  import opened Wrappers
  import opened MemWrite
  import OutputFifo

  class Segmenter {
    const cfg: Config
    const fifo: OutputFifo.OutFifo<Beat>
    var active: bool
    var started: bool
    var cycle: nat
    var op: nat
    var tr: nat
    var len: nat
    var addr: nat
    var ready: bool
    var bytes: nat

    function View(): Writer
      reads this
    {
      Writer(active, started, cycle, op, tr, len, addr, ready, bytes)
    }

    constructor (cfg: Config)
      ensures this.cfg == cfg && View() == Writer(false, false, 0, 0, 0, 0, 0, false, 0)
      ensures fresh(fifo) && fresh(fifo.mem) && fifo.Valid() && fifo.mem.Length == DEPTH
      ensures fifo.View() == OutputFifo.Fifo([], false, None)
    {
      this.cfg := cfg;
      fifo := new OutputFifo.OutFifo<Beat>(DEPTH, Beat(Header(0, 0, [], []), 0, [], false, false));
      active, started, cycle, op, tr, len, addr, ready, bytes := false, false, 0, 0, 0, 0, 0, false, 0;
    }

    // One clock of the machine and its output stage; gone is the TLP beat taken.
    method Clock(x: In) returns (gone: Option<Beat>)
      requires cfg.Ok() && fifo.Valid() && fifo.mem.Length == DEPTH
      modifies this, fifo, fifo.mem
      ensures fifo.Valid()
      ensures System(View(), fifo.View()) == Next(cfg, old(System(View(), fifo.View())), x)
      ensures gone.AsSeq() == OutputFifo.Delivered(old(fifo.View()), x.outReady)
    {
      hide Step, Push, OutputFifo.Step, OutputFifo.Ring, OutputFifo.Distance;
      gone := if x.outReady && fifo.outValid then Some(fifo.outReg) else None;
      var push := Segment(fifo.half, x);
      fifo.Clock(push, x.outReady);
    }

    // The segmenting machine: one clock, and the beat it hands to the output stage.
    method Segment(half: bool, x: In) returns (push: Option<Beat>)
      requires cfg.Ok()
      modifies this
      ensures View() == Step(cfg, old(View()), half, x) && push == Push(cfg, old(View()), x)
    {
      hide Config.Payload, Config.PerTlp, MakeHeader, Ceil, Strobes;
      push := None;
      bytes := if x.start then 0 else if ready && x.chunk.Some? then bytes + cfg.bus else bytes;
      if active {
        if ready && x.chunk.Some? {
          op := op + 1;
          push := Emit(x.chunk.value);
        }
        active, ready := op != cycle, !half;
      } else if x.start && !started {
        Accept(x);
      } else {
        cycle, op, tr, ready := 0, 0, 0, false;
      }
      started := x.start;
    }

    method Emit(chunk: Chunk) returns (push: Option<Beat>)
      requires cfg.Ok() && 0 < op
      modifies this`tr, this`addr
      ensures var per, w := cfg.PerTlp(), old(View());
        var eop := (op % per == 0 && op / per != 0) || op == cycle;
        && push == Some(Beat(MakeHeader(cfg, len, w.addr, w.tr == 1), chunk.data, Strobes(chunk.keep), op % per == 1,
                             eop))
        && tr == (if eop && 0 < w.tr then w.tr - 1 else w.tr)
        && addr == (if eop then w.addr + cfg.Payload() else w.addr)
    {
      var per := cfg.PerTlp();
      var sop, eop := op % per == 1, (op % per == 0 && op / per != 0) || op == cycle;
      push := Some(Beat(MakeHeader(cfg, len, addr, tr == 1), chunk.data, Strobes(chunk.keep), sop, eop));
      if eop {
        addr := addr + cfg.Payload();
        tr := if 0 < tr then tr - 1 else 0;
      }
    }

    method Accept(x: In)
      requires cfg.Ok()
      modifies this`active, this`cycle, this`op, this`tr, this`len, this`addr, this`ready
      ensures active && cycle == Ceil(x.len, cfg.bus) && op == 0 && tr == Ceil(x.len, cfg.Payload())
      ensures len == x.len && addr == x.addr && !ready
    {
      active, cycle, op, tr := true, Ceil(x.len, cfg.bus), 0, Ceil(x.len, cfg.Payload());
      len, addr, ready := x.len, x.addr, false;
    }
  }
}
