// What tag reordering guarantees over every run.
module TagReorderRun {
  import opened AxiBus
  import opened SegmentBanks
  import opened TagReorder
  import opened TagReorderProof

  ghost function HostBytes(host: Host, addr: nat, n: nat): seq<Byte> {
    seq(n, i => host(addr + i))
  }

  // The kept bytes of a stream.
  function Kept(out: seq<Out>): seq<Byte> {
    if out == [] then []
    else
      var o := out[|out| - 1];
      Kept(out[..|out| - 1]) + (if o.keep <= |o.data| then o.data[..o.keep] else o.data)
  }

  function Least(x: nat, y: nat): nat {
    if x <= y then x else y
  }

  lemma {:induction false} KeptIsRange(host: Host, job: Job, out: seq<Out>)
    requires StreamOk(host, job, out)
    ensures Kept(out) == HostBytes(host, job.addr, Least(job.len, BUS * |out|))
  {
    if out != [] {
      var n := |out| - 1;
      assert StreamOk(host, job, out[..n]);
      KeptIsRange(host, job, out[..n]);
      assert OutOk(host, job, n, out[n]);
      KeptBeat(host, job, n, out[n]);
    }
  }

  lemma KeptBeat(host: Host, job: Job, n: nat, o: Out)
    requires OutOk(host, job, n, o)
    ensures o.keep <= |o.data| && BUS * n <= job.len && Least(job.len, BUS * (n + 1)) == BUS * n + o.keep
    ensures HostBytes(host, job.addr, BUS * n) + o.data[..o.keep] == HostBytes(host, job.addr, BUS * n + o.keep)
  {
  }

  // For every interleaving the stream so far is the start of the requested range, in address order;
  // once nothing is left it is the whole range, with tlast on its last beat alone.
  lemma StreamInOrder(cfg: Config, host: Host, job: Job, run: seq<Action>)
    requires cfg.Ok() && job.Ok() && LegalRun(cfg, host, Begin(cfg, job), run)
    ensures var s := After(cfg, host, Begin(cfg, job), run);
      && Kept(s.out) == HostBytes(host, job.addr, Least(job.len, BUS * |s.out|))
      && (forall i :: 0 <= i < |s.out| ==> (s.out[i].last <==> i + 1 == Ceil(job.len, BUS)))
      && |s.out| + s.dev.left == Ceil(job.len, BUS)
      && (s.dev.left == 0 <==> Kept(s.out) == HostBytes(host, job.addr, job.len))
  {
    BeginOk(cfg, host, job);
    RunKept(cfg, host, job, Begin(cfg, job), run);
    var s := After(cfg, host, Begin(cfg, job), run);
    KeptIsRange(host, job, s.out);
    assert forall i :: 0 <= i < |s.out| ==> OutOk(host, job, i, s.out[i]);
    assert |HostBytes(host, job.addr, job.len)| == job.len;
    hide Inv, BeatOk, Kept, HostBytes, TagsOk, After, LegalRun;
  }

  // ---- Tags ----

  // Request i was given back only after its last beat had left.
  lemma BackMeansStreamed(cfg: Config, host: Host, job: Job, s: System, i: nat)
    requires Inv(cfg, host, job, s) && i < Back(s.dev)
    ensures READ_BEATS * i + Beats(job.len, i) <= |s.out|
  {
    BeatsTile(job.len, i);
    hide Ceil, Beats, TagsOk, StreamOk, AsksOk, SentOk;
  }

  // Requests in flight carry different tags.
  lemma TagsDistinct(cfg: Config, host: Host, job: Job, s: System, i: nat, j: nat)
    requires Inv(cfg, host, job, s) && Back(s.dev) <= i < j < s.dev.issued
    ensures s.reqs[i].tag != s.reqs[j].tag
  {
    if i % cfg.tags == j % cfg.tags {
      SameBank(cfg.tags, i, j);
    }
    hide Beats, TagsOk, StreamOk, SentOk;
  }

  // A tag is handed out again only when every beat of every earlier request under it has left,
  // its queue is empty and its table entry is clear.
  lemma TagReused(cfg: Config, host: Host, job: Job, s: System, i: nat)
    requires Inv(cfg, host, job, s) && CanAllocate(cfg, s.dev)
    requires i < s.dev.issued && s.reqs[i].tag == s.dev.wrTag
    ensures READ_BEATS * i + Beats(job.len, i) <= |s.out|
    ensures s.dev.fifos[s.dev.wrTag] == [] && s.dev.table[s.dev.wrTag] == 0
  {
    var d := s.dev;
    assert s.reqs[i].tag == i % cfg.tags;
    if Back(d) <= i {
      SameBank(cfg.tags, i, d.issued);
    }
    BackMeansStreamed(cfg, host, job, s, i);
    OwnerOf(cfg, d, d.issued);
    assert TagOk(cfg, host, d, s.sent, d.wrTag);
    hide Ceil, Beats, NextIn, StreamOk, SentOk, AsksOk;
  }

  // No tag ever queues more beats than its table entry says, and that is at most eight.
  lemma QueueBounded(cfg: Config, host: Host, job: Job, run: seq<Action>, t: nat)
    requires cfg.Ok() && job.Ok() && LegalRun(cfg, host, Begin(cfg, job), run) && t < cfg.tags
    ensures var d := After(cfg, host, Begin(cfg, job), run).dev;
      |d.fifos[t]| <= d.table[t] <= READ_BEATS
  {
    BeginOk(cfg, host, job);
    RunKept(cfg, host, job, Begin(cfg, job), run);
    var s := After(cfg, host, Begin(cfg, job), run);
    assert TagOk(cfg, host, s.dev, s.sent, t);
    hide Counters, BeatOk, NextIn, After, LegalRun;
  }

  // The interrupt marks the last beat: it is raised exactly when every request is out and answered in full.
  lemma InterruptExact(cfg: Config, host: Host, job: Job, s: System, k: nat, data: Word)
    requires Inv(cfg, host, job, s) && Legal(host, s, Deliver(k, data))
    ensures var s' := Next(cfg, host, s, Deliver(k, data));
      s'.dev.irq <==> s'.dev.issued == Ceil(job.len, READ) && SentOk(job.len, s'.sent, |s'.sent|)
  {
    AnswerIsNext(cfg, host, job, s, k, data);
    DeliverKept(cfg, host, job, s, k, data);
    var s' := Next(cfg, host, s, Deliver(k, data));
    assert s'.dev.irq <==> s'.dev.got == s'.dev.expected;
    SumFull(job.len, s'.sent);
    if s'.dev.issued < Ceil(job.len, READ) {
      BeatsTile(job.len, s'.dev.issued);
    }
    hide Ceil, Beats, TagsOk, StreamOk, AsksOk, BeatOk, Sum;
  }

  // ---- Completion ----

  predicate Finished(d: Device) {
    d.left == 0 && d.held == 0
  }

  predicate Acts(cfg: Config, s: System, a: Action)
    requires Typed(cfg, s.dev)
  {
    match a
    case Allocate => CanAllocate(cfg, s.dev)
    case Deliver(_, _) => true
    case Drain => CanDrain(cfg, s.dev)
    case Release => s.dev.releasing
  }

  // Until the job is finished the device can move, or the host owes it a beat of the oldest request.
  lemma NeverStuck(cfg: Config, host: Host, job: Job, s: System)
    requires Inv(cfg, host, job, s) && !Finished(s.dev)
    ensures || Acts(cfg, s, Action.Allocate) || Acts(cfg, s, Action.Drain) || Acts(cfg, s, Action.Release)
            || (Back(s.dev) < s.dev.issued && s.sent[Back(s.dev)] < Beats(job.len, Back(s.dev)))
  {
    var d := s.dev;
    if 0 < d.held && !d.releasing {
      OwnerOf(cfg, d, Back(d));
      BeatsTile(job.len, Back(d));
      assert TagOk(cfg, host, d, s.sent, d.rdTag);
    }
    hide Ceil, Beats, NextIn, BeatOk, StreamOk, AsksOk;
  }

  function Work(d: Device): int {
    2 * (d.requests - d.issued) + d.held + (d.expected - d.got) + d.left
  }

  lemma WorkFalls(cfg: Config, host: Host, job: Job, s: System, a: Action)
    requires Inv(cfg, host, job, s) && Legal(host, s, a)
    ensures Work(Next(cfg, host, s, a).dev) == Work(s.dev) - (if Acts(cfg, s, a) then 1 else 0)
  {
    if a.Deliver? {
      AnswerIsNext(cfg, host, job, s, a.k, a.data);
    }
    hide Ceil, Beats, TagsOk, StreamOk, AsksOk, SentOk, BeatOk, Legal;
  }

  ghost function Moves(cfg: Config, host: Host, s: System, run: seq<Action>): nat
    requires Typed(cfg, s.dev) && |s.sent| == |s.reqs| && LegalRun(cfg, host, s, run)
    decreases |run|
  {
    if run == [] then 0
    else (if Acts(cfg, s, run[0]) then 1 else 0) + Moves(cfg, host, Next(cfg, host, s, run[0]), run[1..])
  }

  lemma {:induction false} WorkSpent(cfg: Config, host: Host, job: Job, s: System, run: seq<Action>)
    requires Inv(cfg, host, job, s) && LegalRun(cfg, host, s, run)
    ensures Work(After(cfg, host, s, run).dev) + Moves(cfg, host, s, run) == Work(s.dev)
    decreases |run|
  {
    if run != [] {
      WorkFalls(cfg, host, job, s, run[0]);
      StepKept(cfg, host, job, s, run[0]);
      WorkSpent(cfg, host, job, Next(cfg, host, s, run[0]), run[1..]);
      hide Inv, Legal, Next, Work, Acts;
    }
  }

  // No run makes more than two moves a request and two a beat, and one that makes them all has
  // streamed the whole range and given every tag back.
  lemma JobEnds(cfg: Config, host: Host, job: Job, run: seq<Action>)
    requires cfg.Ok() && job.Ok() && LegalRun(cfg, host, Begin(cfg, job), run)
    ensures var s := After(cfg, host, Begin(cfg, job), run);
      var all := 2 * Ceil(job.len, READ) + 2 * Ceil(job.len, BUS);
      && Moves(cfg, host, Begin(cfg, job), run) <= all
      && (Moves(cfg, host, Begin(cfg, job), run) == all ==>
            Finished(s.dev) && Kept(s.out) == HostBytes(host, job.addr, job.len))
      && (Finished(s.dev) ==>
            s.dev.table == ClearTable(cfg.tags) && s.dev.fifos == EmptyQueues(cfg.tags) && !s.dev.releasing)
  {
    BeginOk(cfg, host, job);
    RunKept(cfg, host, job, Begin(cfg, job), run);
    WorkSpent(cfg, host, job, Begin(cfg, job), run);
    StreamInOrder(cfg, host, job, run);
    var s := After(cfg, host, Begin(cfg, job), run);
    Received(cfg, host, job, s);
    if Finished(s.dev) {
      forall t | 0 <= t < cfg.tags ensures s.dev.table[t] == 0 && s.dev.fifos[t] == [] {
        assert TagOk(cfg, host, s.dev, s.sent, t);
      }
    }
    hide Ceil, Beats, TagsOk, StreamOk, AsksOk, SentOk, BeatOk, Legal, Kept, HostBytes, After, LegalRun, Moves, NextIn;
  }

  lemma Received(cfg: Config, host: Host, job: Job, s: System)
    requires Inv(cfg, host, job, s)
    ensures s.dev.got <= s.dev.expected
  {
    SumFull(job.len, s.sent);
    if 0 < s.dev.issued {
      BeatsTile(job.len, s.dev.issued - 1);
    }
    hide Ceil, Beats, TagsOk, StreamOk, AsksOk, BeatOk, Sum;
  }

  // ---- The requests themselves ----

  // Byte b is asked for: its DW is in the request and its lane is enabled there.
  predicate Wants(r: Request, b: nat)
  {
    && |r.enables.first| == |r.enables.last| == 4
    && r.addr <= b < r.addr + 4 * r.dwords
    && var dw, lane := (b - r.addr) / 4, (b - r.addr) % 4;
    if dw == 0 then r.enables.first[lane] else if dw == r.dwords - 1 then r.enables.last[lane] else true
  }

  function Share(len: nat, k: nat): nat
    requires k < Ceil(len, READ)
  {
    if k + 1 == Ceil(len, READ) then len - READ * k else READ
  }

  ghost predicate AsksExactly(cfg: Config, job: Job, k: nat)
    requires cfg.Ok() && k < Ceil(job.len, READ)
  {
    forall b: nat :: Wants(RequestOf(cfg, job, k), b) <==>
      job.addr + READ * k <= b < job.addr + READ * k + Share(job.len, k)
  }

  // Read k covers exactly its share of the range if and only if the misalignment of the address plus
  // the bytes in the share's last DW fit one DW; for an aligned address that is always so.
  lemma ReadIsExact(cfg: Config, job: Job, k: nat)
    requires cfg.Ok() && k < Ceil(job.len, READ)
    ensures AsksExactly(cfg, job, k) <==> job.addr % 4 + (Share(job.len, k) - 1) % 4 <= 3
  {
    var r, a, share := RequestOf(cfg, job, k), job.addr % 4, Share(job.len, k);
    var base, tail := job.addr + READ * k, (share - 1) % 4;
    HeaderFields(cfg, job, k);
    hide RequestOf, Ceil, ByteEnables, Share, Wants;
    if a + tail <= 3 {
      forall b: nat ensures Wants(r, b) <==> base <= b < base + share {
        WantsRange(r, a, tail, b);
      }
    } else {
      BeyondEnd(r, base + share - 1);
      hide EnablesAre;
    }
  }

  // The smallest such read: one full request from an address one past a multiple of four.
  lemma ReadInexact(cfg: Config)
    requires cfg.Ok()
    ensures 0 < Ceil(512, READ) && !AsksExactly(cfg, Job(1, 512), 0)
  {
    assert Ceil(512, READ) == 1 && Share(512, 0) == 512;
    ReadIsExact(cfg, Job(1, 512), 0);
    hide AsksExactly;
  }

  lemma BeyondEnd(r: Request, b: nat)
    requires |r.enables.first| == |r.enables.last| == 4 && r.addr + 4 * r.dwords <= b
    ensures !Wants(r, b)
  {
  }

  // A one-DW read enables one run of lanes in its only DW; a longer read trims its first and last DW.
  predicate EnablesAre(r: Request, a: nat, top: nat) {
    && |r.enables.first| == |r.enables.last| == 4
    && forall i :: 0 <= i < 4 ==>
         && (r.enables.first[i] <==> a <= i && (r.dwords == 1 ==> i <= top))
         && (r.dwords != 1 ==> (r.enables.last[i] <==> i <= top))
  }

  lemma WantsRange(r: Request, a: nat, tail: nat, b: nat)
    requires a + tail <= 3 && 1 <= r.dwords && EnablesAre(r, a, a + tail)
    ensures Wants(r, b) <==> r.addr + a <= b <= r.addr + 4 * (r.dwords - 1) + a + tail
  {
    if r.addr <= b < r.addr + 4 * r.dwords {
      var dw, lane := (b - r.addr) / 4, (b - r.addr) % 4;
      assert b == r.addr + 4 * dw + lane && 0 <= dw < r.dwords;
    }
  }

  lemma ShareSize(len: nat, k: nat)
    requires k < Ceil(len, READ)
    ensures var share, d := Share(len, k), DwordLength(len, k + 1 == Ceil(len, READ));
      && 1 <= share && share == 4 * (d - 1) + (share - 1) % 4 + 1
      && share % 4 == (if k + 1 == Ceil(len, READ) then len % 4 else 0)
  {
    hide DwordLength, Ceil, Beats;
    LengthsAgree(len, k);
    LastIndex(len, k);
    WholeDwords(Share(len, k), DwordLength(len, k + 1 == Ceil(len, READ)));
    TailOf(len, k);
  }

  lemma TailOf(len: int, k: nat)
    ensures (len - READ * k) % 4 == len % 4 && READ % 4 == 0
  {
  }

  lemma WholeDwords(share: int, d: nat)
    requires 4 * (d - 1) < share <= 4 * d
    ensures share == 4 * (d - 1) + (share - 1) % 4 + 1
  {
  }

  lemma EnablesFit(addr: nat, len: nat, d: nat, last: bool, r: Request)
    requires r.enables == ByteEnables(addr, len, d, last) && r.dwords == d
    ensures EnablesAre(r, addr % 4, (addr % 4 + (if last then len % 4 else 0) + 3) % 4)
  {
  }

  lemma HeaderFields(cfg: Config, job: Job, k: nat)
    requires cfg.Ok() && k < Ceil(job.len, READ)
    ensures var r, a, share := RequestOf(cfg, job, k), job.addr % 4, Share(job.len, k);
      && 1 <= share && 1 <= r.dwords && share == 4 * (r.dwords - 1) + (share - 1) % 4 + 1
      && r.addr + a == job.addr + READ * k
      && EnablesAre(r, a, (a + (share - 1) % 4) % 4)
  {
    var last := k + 1 == Ceil(job.len, READ);
    hide DwordLength, ByteEnables, EnablesAre, Share, Ceil;
    ShareSize(job.len, k);
    EnablesFit(job.addr, job.len, DwordLength(job.len, last), last, RequestOf(cfg, job, k));
    TopLane(job.addr % 4, if last then job.len % 4 else 0, Share(job.len, k));
  }

  lemma TopLane(a: nat, rest: nat, share: nat)
    requires 1 <= share && rest == share % 4
    ensures (a + rest + 3) % 4 == (a + (share - 1) % 4) % 4
  {
  }

  // From a 512-byte boundary no read crosses a 4 KB boundary (section 2.2.7 of the PCI Express Base Specification).
  lemma ReadStaysInPage(job: Job, k: nat)
    requires k < Ceil(job.len, READ) && job.addr % READ == 0
    ensures (job.addr + READ * k) / 4096 == (job.addr + READ * k + Share(job.len, k) - 1) / 4096
  {
    assert job.addr == READ * (job.addr / READ);
    assert 1 <= Share(job.len, k) <= READ;
    var n := job.addr / READ + k;
    assert job.addr + READ * k == READ * n;
    assert n == 8 * (n / 8) + n % 8;
  }
}
