// dma_if_pcie_axis_wr_v1: a byte stream is cut into memory-write TLPs of at most the payload size.
module MemWrite {
  import opened Wrappers
  import OutputFifo

  const DEPTH := 32

  // bus: bytes per beat; code: MaxPayloadSize, for which the source has formulas up to 3.
  datatype Config = Config(bus: nat, code: nat) {
    function Payload(): (m: nat)
      ensures 128 <= m <= 1024
    {
      if code == 0 then 128 else if code == 1 then 256 else if code == 2 then 512 else 1024
    }

    // Beats per full TLP.
    function PerTlp(): nat {
      if bus == 0 then 0 else Payload() / bus
    }

    predicate Ok() {
      code <= 3 && 0 < bus && 2 <= PerTlp() && PerTlp() * bus == Payload()
    }
  }

  // Lane i of the first and last DW is written.
  datatype Header = Header(dwords: nat, addr: nat, firstBe: seq<bool>, lastBe: seq<bool>)

  datatype Beat = Beat(hdr: Header, data: nat, strb: seq<bool>, sop: bool, eop: bool)

  // An input beat: its bytes and which of them are kept.
  datatype Chunk = Chunk(data: nat, keep: seq<bool>)

  // The registers. addr is where the current TLP starts, tr how many TLPs are still to come.
  datatype Writer = Writer(
    active: bool, started: bool, cycle: nat, op: nat, tr: nat, len: nat, addr: nat, ready: bool, bytes: nat)

  datatype In = In(start: bool, len: nat, addr: nat, chunk: Option<Chunk>, outReady: bool)

  function Ceil(x: nat, d: nat): nat
    requires 0 < d
  {
    x / d + (if x % d == 0 then 0 else 1)
  }

  // The ten-bit length field. For the last TLP it comes from the low bits of the length.
  function LengthField(cfg: Config, len: nat, last: bool): nat {
    var rest := len % cfg.Payload() / 4 + (if len % 4 != 0 then 1 else 0);
    if cfg.code < 3 then (if last && rest != 0 then rest else cfg.Payload() / 4)
    else if last then rest else 0
  }

  function LastLanes(len: nat, last: bool): nat {
    ((if last then len % 4 else 0) + 3) % 4
  }

  function MakeHeader(cfg: Config, len: nat, addr: nat, last: bool): Header {
    var dwords, top := LengthField(cfg, len, last), LastLanes(len, last);
    if dwords == 1 then Header(dwords, addr - addr % 4, seq(4, i => i <= top), [false, false, false, false])
    else Header(dwords, addr - addr % 4, [true, true, true, true], seq(4, i => i <= top))
  }

  // A DW is strobed if any of its bytes is kept.
  function Strobes(keep: seq<bool>): (s: seq<bool>)
    ensures |s| == |keep| / 4
  {
    seq(|keep| / 4, i requires 0 <= i < |keep| / 4 => keep[4 * i] || keep[4 * i + 1] || keep[4 * i + 2] ||
        keep[4 * i + 3])
  }

  predicate Takes(w: Writer, x: In) {
    w.ready && x.chunk.Some?
  }

  function Push(cfg: Config, w: Writer, x: In): Option<Beat>
    requires cfg.Ok()
  {
    if w.active && Takes(w, x) then
      var op, per := w.op + 1, cfg.PerTlp();
      Some(Beat(MakeHeader(cfg, w.len, w.addr, w.tr == 1), x.chunk.value.data, Strobes(x.chunk.value.keep),
                op % per == 1, (op % per == 0 && op / per != 0) || op == w.cycle))
    else None
  }

  function BytesAfter(cfg: Config, w: Writer, x: In): nat {
    if x.start then 0 else if Takes(w, x) then w.bytes + cfg.bus else w.bytes
  }

  function Step(cfg: Config, w: Writer, half: bool, x: In): Writer
    requires cfg.Ok()
  {
    var push, bytes := Push(cfg, w, x), BytesAfter(cfg, w, x);
    if !w.active then
      if x.start && !w.started then
        Writer(true, x.start, Ceil(x.len, cfg.bus), 0, Ceil(x.len, cfg.Payload()), x.len, x.addr, false, bytes)
      else Writer(false, x.start, 0, 0, 0, w.len, w.addr, false, bytes)
    else
      var op := if push.Some? then w.op + 1 else w.op;
      var ends := push.Some? && push.value.eop;
      w.(active := op != w.cycle, started := x.start, op := op, ready := !half, bytes := bytes,
         tr := if ends && 0 < w.tr then w.tr - 1 else w.tr,
         addr := if ends then w.addr + cfg.Payload() else w.addr)
  }

  // tx_wr_req_tlp_done
  predicate Done(w: Writer) {
    w.len <= w.bytes && w.bytes != 0
  }

  datatype System = System(writer: Writer, fifo: OutputFifo.Fifo<Beat>)

  function Next(cfg: Config, s: System, x: In): System
    requires cfg.Ok()
  {
    System(Step(cfg, s.writer, s.fifo.half, x), OutputFifo.Step(DEPTH, s.fifo, Push(cfg, s.writer, x), x.outReady))
  }
}
