// dma_if_pcie_axis_rd_v1 on a 64-byte bus with 512-byte reads: memory reads are issued under tags,
// completions come back in any order across tags, and the stream must leave in address order.
// One step is one protocol action, so completions, drains and tag releases interleave freely.
module TagReorder {
  import opened AxiBus

  const BUS := 64
  const READ := 512
  const READ_BEATS := 8
  const READ_DWORDS := 128

  // tags: size of the tag table; room: capacity of the tag FIFO.
  datatype Config = Config(tags: nat, room: nat) {
    predicate Ok() {
      0 < room <= tags
    }
  }

  datatype Job = Job(addr: nat, len: nat) {
    predicate Ok() {
      addr % BUS == 0 && 0 < len
    }
  }

  // Lane i of the first and of the last DW is wanted.
  datatype Enables = Enables(first: seq<bool>, last: seq<bool>)

  datatype Request = Request(tag: nat, addr: nat, dwords: nat, enables: Enables)

  datatype Out = Out(data: Word, keep: nat, last: bool)

  datatype Device = Device(
    job: Job, requests: nat, issued: nat, tlpAddr: nat,
    table: seq<nat>, wrTag: nat, rdTag: nat, held: nat, releasing: bool,
    fifos: seq<seq<Word>>, expected: nat, got: nat, irq: bool,
    cycle: nat, left: nat)

  datatype Event = Allocate | Completion(tag: nat, data: Word) | Drain | Release

  function Ceil(x: nat, d: nat): nat
    requires 0 < d
  {
    x / d + (if x % d == 0 then 0 else 1)
  }

  // Entry of the tag table for the request about to be issued.
  function TableEntry(len: nat, last: bool): nat {
    if !last then READ / BUS
    else
      var beats := len % READ / BUS + (if len % BUS != 0 then 1 else 0);
      if beats == 0 then READ / BUS else beats
  }

  function DwordLength(len: nat, last: bool): nat {
    if !last then READ_DWORDS
    else if len % READ == 0 then READ_DWORDS
    else len % READ / 4 + (if len % 4 != 0 then 1 else 0)
  }

  function ByteEnables(addr: nat, len: nat, dwords: nat, last: bool): Enables {
    var top := (addr % 4 + (if last then len % 4 else 0) + 3) % 4;
    var first := seq(4, i => addr % 4 <= i);
    var final := seq(4, i => i <= top);
    if dwords == 1 then Enables(seq(4, i => addr % 4 <= i && i <= top), [false, false, false, false])
    else Enables(first, final)
  }

  function Header(job: Job, tlpAddr: nat, tag: nat, last: bool): Request {
    var dwords := DwordLength(job.len, last);
    Request(tag, tlpAddr - tlpAddr % 4, dwords, ByteEnables(job.addr, job.len, dwords, last))
  }

  function ClearTable(tags: nat): (s: seq<nat>)
    ensures |s| == tags && forall t :: 0 <= t < tags ==> s[t] == 0
  {
    seq(tags, _ => 0)
  }

  function EmptyQueues(tags: nat): (s: seq<seq<Word>>)
    ensures |s| == tags && forall t :: 0 <= t < tags ==> s[t] == []
  {
    seq(tags, _ => [])
  }

  function Start(cfg: Config, job: Job): Device {
    Device(job, Ceil(job.len, READ), 0, job.addr,
           ClearTable(cfg.tags), 0, 0, 0, false,
           EmptyQueues(cfg.tags), Ceil(job.len, BUS), 0, false,
           0, Ceil(job.len, BUS))
  }

  predicate Typed(cfg: Config, d: Device) {
    && cfg.Ok()
    && |d.table| == |d.fifos| == cfg.tags
    && d.wrTag < cfg.tags && d.rdTag < cfg.tags
  }

  predicate CanAllocate(cfg: Config, d: Device) {
    d.issued < d.requests && d.held < cfg.room
  }

  function IsLast(d: Device): bool {
    d.issued + 1 == d.requests
  }

  predicate CanDrain(cfg: Config, d: Device)
    requires Typed(cfg, d)
  {
    0 < d.left && d.fifos[d.rdTag] != []
  }

  function OutBeat(cfg: Config, d: Device): Out
    requires Typed(cfg, d) && CanDrain(cfg, d)
  {
    var last := d.left == 1;
    Out(d.fifos[d.rdTag][0], if last && d.job.len % BUS != 0 then d.job.len % BUS else BUS, last)
  }

  function Allocated(cfg: Config, d: Device): (d': Device)
    requires Typed(cfg, d) && CanAllocate(cfg, d)
    ensures Typed(cfg, d')
  {
    d.(issued := d.issued + 1, tlpAddr := d.tlpAddr + READ, held := d.held + 1,
       table := d.table[d.wrTag := TableEntry(d.job.len, IsLast(d))],
       wrTag := (d.wrTag + 1) % cfg.tags, irq := false)
  }

  // The header carries ten tag bits; the device uses the low ones.
  function Received(cfg: Config, d: Device, tag: nat, data: Word): (d': Device)
    requires Typed(cfg, d)
    ensures Typed(cfg, d')
  {
    if d.got < d.expected then
      var t := tag % cfg.tags;
      d.(fifos := d.fifos[t := d.fifos[t] + [data]], got := d.got + 1, irq := d.got + 1 == d.expected)
    else
      d.(irq := false)
  }

  function Drained(cfg: Config, d: Device): (d': Device)
    requires Typed(cfg, d) && CanDrain(cfg, d)
    ensures Typed(cfg, d')
  {
    var full := d.cycle + 1 == d.table[d.rdTag];
    d.(fifos := d.fifos[d.rdTag := d.fifos[d.rdTag][1..]], left := d.left - 1,
       cycle := if full then 0 else d.cycle + 1, releasing := full || d.releasing, irq := false)
  }

  function Released(cfg: Config, d: Device): (d': Device)
    requires Typed(cfg, d) && d.releasing
    ensures Typed(cfg, d')
  {
    d.(table := d.table[d.rdTag := 0], rdTag := (d.rdTag + 1) % cfg.tags,
       held := if d.held == 0 then 0 else d.held - 1, releasing := false, irq := false)
  }

  function Step(cfg: Config, d: Device, e: Event): (d': Device)
    requires Typed(cfg, d)
    ensures Typed(cfg, d')
  {
    match e
    case Allocate => if CanAllocate(cfg, d) then Allocated(cfg, d) else d.(irq := false)
    case Completion(tag, data) => Received(cfg, d, tag, data)
    case Drain => if CanDrain(cfg, d) then Drained(cfg, d) else d.(irq := false)
    case Release => if d.releasing then Released(cfg, d) else d.(irq := false)
  }

  function Issues(cfg: Config, d: Device, e: Event): seq<Request>
    requires Typed(cfg, d)
  {
    if e.Allocate? && CanAllocate(cfg, d) then [Header(d.job, d.tlpAddr, d.wrTag, IsLast(d))] else []
  }

  function Emits(cfg: Config, d: Device, e: Event): seq<Out>
    requires Typed(cfg, d)
  {
    if e.Drain? && CanDrain(cfg, d) then [OutBeat(cfg, d)] else []
  }
}
