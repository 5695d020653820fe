// pcie_axil_master, request side: memory requests become AXI-Lite accesses and entries of the response queue.
module AxilRequest {
  import opened Wrappers

  // Enables of one DW, lane 0 first.
  type Enables = e: seq<bool> | |e| == 4 witness [false, false, false, false]

  // A parsed request header. addr counts DWs; rawLength is the ten-bit field; id is requester, tag, class and
  // attributes.
  datatype Header = Header(fmt: nat, kind: nat, rawLength: nat, addr: nat, firstBe: Enables, lastBe: Enables, id: nat)

  // One entry of the response queue.
  datatype Entry =
    | ReadEntry(first: bool, last: bool, dwords: nat, bytes: nat, lower: nat, id: nat)
    | WriteEntry
    | Refused(id: nat)

  // What one clock issues: an access with its entry, or only an entry.
  datatype Op =
    | Read(addr: nat, entry: Entry)
    | Write(addr: nat, data: nat, strb: Enables)
    | Answer(entry: Entry)

  datatype Phase = Idle | Read1 | Read2 | Write1 | Write2 | WaitEnd

  datatype Req = Req(
    phase: Phase, ready: bool, addr: nat, data: seq<nat>, opCount: nat, dwCount: nat, byteCount: int,
    chunk: nat, lastBe: Enables, last: bool, id: nat)

  // AXI-Lite request channels: read and write share the address register.
  datatype Bus = Bus(ar: bool, aw: bool, w: bool, addr: nat, data: nat, strb: Enables)

  datatype In = In(
    valid: bool, sop: bool, eop: bool, hdr: Header, data: seq<nat>,
    arReady: bool, awReady: bool, wReady: bool, halfFull: bool)

  const ALL: Enables := [true, true, true, true]

  function Length(h: Header): (n: nat)
    ensures h.rawLength < 1024 ==> 1 <= n <= 1024
  {
    if h.rawLength == 0 then 1024 else h.rawLength
  }

  predicate IsRead(h: Header) {
    h.fmt / 2 % 2 == 0 && h.kind == 0
  }

  predicate IsWrite(h: Header) {
    h.fmt / 2 % 2 == 1 && h.kind == 0
  }

  predicate IsCompletion(h: Header) {
    h.fmt % 2 == 0 && (h.kind == 10 || h.kind == 11)
  }

  // Bytes skipped before the first and after the last enabled byte.
  function FirstOffset(e: Enables): nat {
    if e[0] then 0 else if e[1] then 1 else if e[2] then 2 else if e[3] then 3 else 0
  }

  function LastOffset(e: Enables): nat {
    if e[3] then 0 else if e[2] then 1 else if e[1] then 2 else if e[0] then 3 else 0
  }

  // Byte count of a one-DW read, by the pattern of its enables.
  function SingleLength(e: Enables): nat {
    match (e[3], e[2], e[1], e[0])
    case (false, false, true, true) => 2
    case (false, true, true, false) => 2
    case (true, true, false, false) => 2
    case (false, true, _, true) => 3
    case (true, _, true, false) => 3
    case (true, _, _, true) => 4
    case _ => 1
  }

  // Counting down in a register of a given number of values.
  function Dec(x: nat, size: nat): nat
    requires 0 < size
  {
    if x == 0 then size - 1 else x - 1
  }

  function ChunkLength(op: nat, dwAddr: nat): nat {
    if op <= 32 then op else 32 - dwAddr % 32
  }

  predicate BusFree(b: Bus, x: In) {
    (!b.aw || x.awReady) && (!b.ar || x.arReady) && (!b.w || x.wReady) && !x.halfFull
  }

  predicate ReadGate(b: Bus, x: In) {
    (!b.ar || x.arReady) && !x.halfFull
  }

  predicate WriteGate(b: Bus, x: In) {
    (!b.aw || x.awReady) && (!b.w || x.wReady) && !x.halfFull
  }

  predicate Accepts(r: Req, x: In) {
    r.phase.Idle? && r.ready && x.valid && x.sop
  }

  // The op issued while in a read phase.
  function ReadOp(r: Req): Op {
    var dw := if r.phase.Read1? then ChunkLength(r.opCount, r.addr / 4) else r.dwCount;
    Read(r.addr, ReadEntry(r.phase.Read1?, if r.phase.Read1? then r.opCount == 1 else r.last, dw, Bits(r.byteCount),
                           r.addr % 128, r.id))
  }

  // The byte count register is thirteen bits, its header field twelve.
  function Bits(n: int): nat {
    n % 4096
  }

  function AfterRead(r: Req): Req {
    var dw := Dec(if r.phase.Read1? then ChunkLength(r.opCount, r.addr / 4) else r.dwCount, 64);
    var op := Dec(r.opCount, 2048);
    var done := if r.phase.Read1? then r.opCount == 1 else r.last && op == 0;
    r.(addr := r.addr / 4 * 4 + 4, opCount := op, dwCount := dw, last := dw == 1, byteCount := r.byteCount - 4,
       ready := false,
       phase := if done then Idle else if r.phase.Read2? && r.last then Read1 else Read2)
  }

  function FirstReadOp(h: Header): Op {
    var n, addr := Length(h), 4 * h.addr + FirstOffset(h.firstBe);
    var bytes := if n == 1 then SingleLength(h.firstBe) else 4 * n - FirstOffset(h.firstBe) - LastOffset(h.lastBe);
    Read(addr, ReadEntry(true, n == 1, ChunkLength(n, h.addr), Bits(bytes), addr % 128, h.id))
  }

  function AfterTlp(x: In): Phase {
    if x.eop then Idle else WaitEnd
  }

  function AfterFirstRead(r: Req, x: In): Req {
    var h := x.hdr;
    var n, dw := Length(h), Dec(ChunkLength(Length(h), h.addr), 64);
    r.(addr := 4 * h.addr + 4, opCount := Dec(n, 2048), dwCount := dw, last := dw == 1,
       byteCount := 4 * (n - 1) - LastOffset(h.lastBe), lastBe := h.lastBe, id := h.id,
       ready := n == 1 && !x.eop, phase := if n == 1 then AfterTlp(x) else Read2)
  }

  function FirstWriteOp(x: In): Op
    requires x.data != []
  {
    Write(4 * x.hdr.addr + FirstOffset(x.hdr.firstBe), x.data[0], x.hdr.firstBe)
  }

  function AfterFirstWrite(r: Req, x: In): Req {
    var n := Length(x.hdr);
    r.(addr := 4 * x.hdr.addr + 4, data := x.data, opCount := Dec(n, 2048), last := n == 2, chunk := 1,
       lastBe := x.hdr.lastBe, id := x.hdr.id,
       ready := n == 1 && !x.eop, phase := if n == 1 then AfterTlp(x) else Write2)
  }

  // A request that is neither memory read nor write. The test for messages never holds, so every such
  // request except a stray completion is refused with a completion of its own.
  function OtherOp(h: Header): Option<Op> {
    if IsCompletion(h) then None else Some(Answer(Refused(h.id)))
  }

  function WriteOp(r: Req, data: seq<nat>): Op
    requires r.chunk < |data|
  {
    Write(r.addr, data[r.chunk], if r.last then r.lastBe else ALL)
  }

  function AfterWrite(width: nat, r: Req, data: seq<nat>): Req {
    var op := Dec(r.opCount, 2048);
    r.(addr := r.addr / 4 * 4 + 4, data := data, opCount := op, last := op == 1, ready := false,
       chunk := if r.chunk + 1 == width then 0 else r.chunk + 1,
       phase := if r.last then Idle else if r.chunk + 1 == width then Write1 else Write2)
  }

  datatype Out = Out(req: Req, op: Option<Op>)

  predicate Typed(width: nat, r: Req) {
    2 <= width && r.chunk < width && |r.data| == width
  }

  predicate Fits(width: nat, x: In) {
    |x.data| == width && x.hdr.rawLength < 1024
  }

  function AcceptOut(r: Req, b: Bus, x: In): Out
    requires x.data != []
  {
    if IsRead(x.hdr) then Out(AfterFirstRead(r, x), Some(FirstReadOp(x.hdr)))
    else if IsWrite(x.hdr) then Out(AfterFirstWrite(r, x), Some(FirstWriteOp(x)))
    else Out(r.(ready := if x.eop then BusFree(b, x) else true, phase := AfterTlp(x), id := x.hdr.id), OtherOp(x.hdr))
  }

  function Step(width: nat, r: Req, b: Bus, x: In): (o: Out)
    requires Typed(width, r) && Fits(width, x)
    ensures Typed(width, o.req)
  {
    match r.phase
    case Idle => if Accepts(r, x) then AcceptOut(r, b, x) else Out(r.(ready := BusFree(b, x)), None)
    case Read1 => if ReadGate(b, x) then Out(AfterRead(r), Some(ReadOp(r))) else Out(r.(ready := false), None)
    case Read2 => if ReadGate(b, x) then Out(AfterRead(r), Some(ReadOp(r))) else Out(r.(ready := false), None)
    case Write1 =>
      if r.ready && x.valid then Out(AfterWrite(width, r, x.data), Some(WriteOp(r, x.data)))
      else Out(r.(ready := WriteGate(b, x)), None)
    case Write2 =>
      if WriteGate(b, x) then Out(AfterWrite(width, r, r.data), Some(WriteOp(r, r.data)))
        else Out(r.(ready := false), None)
    case WaitEnd =>
      if r.ready && x.valid && x.eop then Out(r.(ready := BusFree(b, x), phase := Idle), None)
      else Out(r.(ready := true), None)
  }

  // The channel registers: a new access, or the old one until it is taken.
  function BusStep(b: Bus, x: In, op: Option<Op>): Bus {
    var kept := b.(ar := b.ar && !x.arReady, aw := b.aw && !x.awReady, w := b.w && !x.wReady);
    match op
    case Some(Read(addr, _)) => kept.(ar := true, addr := addr)
    case Some(Write(addr, data, strb)) => kept.(aw := true, w := true, addr := addr, data := data, strb := strb)
    case _ => kept
  }
}
