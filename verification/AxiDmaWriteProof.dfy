// axi_dma_wr, data side: what every job (one descriptor and the frame it consumed) puts on the bus.
module AxiDmaWriteProof {
  import opened Arith
  import opened Wrappers
  import opened BurstPlanner
  import opened AxiBus
  import opened AxiDma
  import opened AxiDmaWrite

  // A burst on the AW channel and the W beats that went with it.
  datatype Issued = Issued(burst: Burst, beats: seq<WBeat>)

  datatype Job = Job(desc: Desc, frame: seq<InBeat>, bursts: seq<Issued>, entries: seq<Entry>)

  // ----- What a job must look like -----

  // The frame as bytes.
  function Bytes(frame: seq<InBeat>): seq<Byte>
    requires forall k :: 0 <= k < |frame| ==> |frame[k].data| == |frame[k].keep|
  {
    if frame == [] then []
    else Bytes(frame[..|frame| - 1]) + frame[|frame| - 1].data[..CycleSize(frame[|frame| - 1].keep)]
  }

  // Frames are packed: keep masks are contiguous from lane 0, and full except on the last beat.
  predicate BeatOk(strb: nat, b: InBeat) {
    && |b.data| == |b.keep| == strb
    && (forall i :: CycleSize(b.keep) <= i < strb ==> !b.keep[i])
    && (!b.last ==> CycleSize(b.keep) == strb)
  }

  predicate FrameOk(strb: nat, frame: seq<InBeat>, ended: bool) {
    && (forall k :: 0 <= k < |frame| ==> BeatOk(strb, frame[k]))
    && (forall k :: 0 <= k < |frame| ==> frame[k].last == (ended && k == |frame| - 1))
    && (ended ==> frame != [])
  }

  function Clamp(n: int, width: nat): (r: nat)
    ensures r <= width
  {
    if n < 0 then 0 else if n < width then n else width
  }

  // A W beat carrying byte positions x .. x + strb of the frame, of which the first `total` are wanted.
  predicate GoodWBeat(strb: nat, bytes: seq<Byte>, total: nat, x: nat, w: WBeat)
    requires total <= |bytes|
  {
    && |w.data| == strb && w.strb == LowMask(strb, Clamp(total - x, strb))
    && forall i :: 0 <= i < strb && x + i < total ==> w.data[i] == bytes[x + i]
  }

  function At(strb: nat, start: nat, j: nat): nat {
    start + j * strb
  }

  predicate GoodWBeats(strb: nat, bytes: seq<Byte>, total: nat, start: nat, count: nat, beats: seq<WBeat>)
    requires total <= |bytes|
  {
    forall j :: 0 <= j < |beats| ==>
      GoodWBeat(strb, bytes, total, At(strb, start, j), beats[j]) && beats[j].last == (j + 1 == count)
  }

  function BurstStart(c: Config, d: Desc, b: Burst): nat
    requires c.Ok()
  {
    if LoadAddr(c, d) <= b.addr then b.addr - LoadAddr(c, d) else 0
  }

  function BurstBeats(c: Config, b: Burst): (n: nat)
    requires c.Ok()
    ensures 0 < n
  {
    BeatCount(c.strb, b.addr, b.bytes)
  }

  // wlast is on the final beat only; a complete burst has awlen + 1 beats.
  predicate GoodBurst(c: Config, d: Desc, bytes: seq<Byte>, total: nat, b: Issued)
    requires c.Ok() && total <= |bytes|
  {
    GoodWBeats(c.strb, bytes, total, BurstStart(c, d, b.burst), BurstBeats(c, b.burst), b.beats)
  }

  predicate Complete(c: Config, b: Issued)
    requires c.Ok()
  {
    |b.beats| == BurstBeats(c, b.burst)
  }

  function Planned(bursts: seq<Issued>): (p: seq<Burst>)
    ensures |p| == |bursts|
  {
    seq(|bursts|, k requires 0 <= k < |bursts| => bursts[k].burst)
  }

  // Bytes covered by the bursts issued so far.
  function Sent(c: Config, d: Desc, bursts: seq<Issued>): (n: nat)
    requires c.Ok()
  {
    if bursts == [] then 0 else
      var b := bursts[|bursts| - 1].burst;
      if LoadAddr(c, d) <= b.addr then b.addr + b.bytes - LoadAddr(c, d) else 0
  }

  function Min(a: nat, b: nat): nat {
    if a < b then a else b
  }

  // The bytes that end up strobed: the shorter of descriptor and frame.
  function Total(len: nat, bytes: seq<Byte>): (n: nat)
    ensures n <= |bytes|
  {
    Min(len, |bytes|)
  }

  // The bursts issued so far are a prefix of the descriptor's plan; all are good and all but possibly
  // the last are complete.
  predicate GoodBursts(c: Config, d: Desc, bytes: seq<Byte>, bursts: seq<Issued>)
    requires c.Ok()
  {
    && (forall k :: 0 <= k < |bursts| ==> GoodBurst(c, d, bytes, Total(d.len, bytes), bursts[k]))
    && (forall k :: 0 <= k < |bursts| - 1 ==> Complete(c, bursts[k]))
    && OnPlan(c, d, bursts)
  }

  predicate OnPlan(c: Config, d: Desc, bursts: seq<Issued>)
    requires c.Ok()
  {
    var sent := Sent(c, d, bursts);
    && sent <= d.len
    && Planned(bursts) + Plan(c.strb, c.maxBeats, LoadAddr(c, d) + sent, d.len - sent)
       == Plan(c.strb, c.maxBeats, LoadAddr(c, d), d.len)
  }

  predicate EntriesOk(entries: seq<Entry>, tag: nat, ended: bool, total: nat) {
    && (forall k :: 0 <= k < |entries| ==> entries[k].tag == tag)
    && (forall k :: 0 <= k < |entries| ==> entries[k].last == (ended && k == |entries| - 1))
    && (ended ==> entries != [] && entries[|entries| - 1].len == total)
  }

  function JobTotal(job: Job): (n: nat)
    requires forall k :: 0 <= k < |job.frame| ==> |job.frame[k].data| == |job.frame[k].keep|
  {
    Total(job.desc.len, Bytes(job.frame))
  }

  // A finished job: the strobed bytes are exactly the first min(len, frame length) bytes of the frame,
  // in plan order from the descriptor's address; only needed bursts were issued; every burst is
  // complete; one entry per burst, and the last one reports that same min.
  predicate GoodJob(c: Config, job: Job)
    requires c.Ok()
  {
    && FrameOk(c.strb, job.frame, true) && job.bursts != []
    && GoodBursts(c, job.desc, Bytes(job.frame), job.bursts) && Complete(c, job.bursts[|job.bursts| - 1])
    && BurstStart(c, job.desc, job.bursts[|job.bursts| - 1].burst) < |job.frame| * c.strb
    && JobTotal(job) <= Sent(c, job.desc, job.bursts)
    && |job.entries| == |job.bursts| && EntriesOk(job.entries, job.desc.tag, true, JobTotal(job))
  }

  // ----- What holds while a job is under way -----

  // Every beat of the burst so far was full.
  predicate Behind(c: Config, d: Desc, total: nat, b: Issued)
    requires c.Ok()
  {
    forall j :: 0 <= j < |b.beats| ==> At(c.strb, BurstStart(c, d, b.burst), j) + c.strb <= total
  }

  predicate AllBehind(c: Config, d: Desc, total: nat, bursts: seq<Issued>)
    requires c.Ok()
  {
    forall k :: 0 <= k < |bursts| ==> Behind(c, d, total, bursts[k])
  }

  predicate GoodSoFar(c: Config, job: Job)
    requires c.Ok() && FrameOk(c.strb, job.frame, false)
  {
    && GoodBursts(c, job.desc, Bytes(job.frame), job.bursts)
    && AllBehind(c, job.desc, JobTotal(job), job.bursts)
  }

  predicate Waiting(c: Config, r: Regs, job: Job)
    requires c.Ok()
  {
    && FrameOk(c.strb, job.frame, false) && GoodSoFar(c, job)
    && 1 <= r.left && r.length == Sent(c, job.desc, job.bursts)
    && (job.bursts != [] ==> Complete(c, job.bursts[|job.bursts| - 1]))
    && |job.entries| == |job.bursts| && EntriesOk(job.entries, r.tag, false, 0)
  }

  // The burst in progress: beats out so far, and the cycle counters.
  predicate InBurst(c: Config, r: Regs, job: Job)
    requires c.Ok() && job.bursts != []
  {
    var cur := job.bursts[|job.bursts| - 1];
    && r.outCount == BurstBeats(c, cur.burst) - 1 - |cur.beats| && 0 <= r.outCount
    && r.outLast == (r.outCount == 0)
    && LoadAddr(c, job.desc) <= cur.burst.addr && Aligned(c.strb, cur.burst.addr)
    && (0 < r.left ==> Aligned(c.strb, cur.burst.addr + cur.burst.bytes))
  }

  predicate Writing(c: Config, r: Regs, job: Job)
    requires c.Ok()
  {
    && FrameOk(c.strb, job.frame, false) && GoodSoFar(c, job)
    && job.bursts != [] && InBurst(c, r, job)
    && r.length == At(c.strb, BurstStart(c, job.desc, job.bursts[|job.bursts| - 1].burst),
                      |job.bursts[|job.bursts| - 1].beats|)
    && r.inActive && r.inCount == r.outCount && r.lastTransfer == (r.left == 0)
    && |job.entries| + 1 == |job.bursts| && EntriesOk(job.entries, r.tag, false, 0)
  }

  predicate Padding(c: Config, r: Regs, job: Job)
    requires c.Ok()
  {
    && FrameOk(c.strb, job.frame, true) && GoodBursts(c, job.desc, Bytes(job.frame), job.bursts)
    && job.bursts != [] && InBurst(c, r, job)
    && var cur := job.bursts[|job.bursts| - 1];
       && JobTotal(job) <= At(c.strb, BurstStart(c, job.desc, cur.burst), |cur.beats|)
       && JobTotal(job) <= Sent(c, job.desc, job.bursts)
       && BurstStart(c, job.desc, cur.burst) < |job.frame| * c.strb
       && |job.entries| == |job.bursts| && EntriesOk(job.entries, r.tag, true, JobTotal(job))
  }

  predicate Dropping(c: Config, r: Regs, job: Job)
    requires c.Ok()
  {
    && FrameOk(c.strb, job.frame, false) && GoodBursts(c, job.desc, Bytes(job.frame), job.bursts)
    && job.bursts != [] && Complete(c, job.bursts[|job.bursts| - 1])
    && job.desc.len <= |Bytes(job.frame)| && Sent(c, job.desc, job.bursts) == job.desc.len
    && BurstStart(c, job.desc, job.bursts[|job.bursts| - 1].burst) < |job.frame| * c.strb
    && |job.entries| == |job.bursts| && EntriesOk(job.entries, r.tag, true, job.desc.len)
    && r.dataReady
  }

  predicate AddressOk(c: Config, addr: nat, next: nat)
    requires c.Ok()
  {
    addr == next % c.space && Aligned(c.strb, next)
  }

  predicate JobInv(c: Config, r: Regs, job: Job)
    requires c.Ok()
  {
    && r.tag == job.desc.tag && r.lastOffset == LastOffset(c, job.desc.len)
    && r.left == job.desc.len - Sent(c, job.desc, job.bursts)
    && (r.state.Start? || r.state.Write? ==>
          (&& |job.frame| * c.strb == r.length && r.length <= job.desc.len && r.first == (job.frame == [])
           && (0 < r.left ==> AddressOk(c, r.addr, LoadAddr(c, job.desc) + Sent(c, job.desc, job.bursts)))))
    && match r.state
       case Idle => true
       case Start => Waiting(c, r, job)
       case Write => Writing(c, r, job)
       case FinishBurst => Padding(c, r, job)
       case DropData => Dropping(c, r, job)
  }

  // ----- One clock -----

  function JobStep(c: Config, r: Regs, job: Job, i: Input, o: CoreOut): Job
    requires c.Ok()
  {
    Job(job.desc,
        if r.dataReady && i.dataValid then job.frame + [i.beat] else job.frame,
        if o.issue then
          job.bursts + [Issued(Burst(LoadAddr(c, job.desc) + Sent(c, job.desc, job.bursts), BurstSize(c, r)), [])]
        else if o.push.Some? then Extend(job.bursts, o.push.value)
        else job.bursts,
        job.entries + o.entry.AsSeq())
  }

  function BurstSize(c: Config, r: Regs): pos
    requires c.Ok()
  {
    var n := NextBurst(c, r.addr, r.left);
    if n == 0 then 1 else n
  }

  function Extend(bursts: seq<Issued>, w: WBeat): seq<Issued> {
    if bursts == [] then [] else
      var cur := bursts[|bursts| - 1];
      bursts[..|bursts| - 1] + [cur.(beats := cur.beats + [w])]
  }

  // ----- Frames as bytes -----

  lemma BytesGrow(frame: seq<InBeat>, b: InBeat)
    requires forall k :: 0 <= k < |frame| ==> |frame[k].data| == |frame[k].keep|
    requires |b.data| == |b.keep|
    ensures Bytes(frame + [b]) == Bytes(frame) + b.data[..CycleSize(b.keep)]
  {
    assert (frame + [b])[..|frame|] == frame;
  }

  lemma {:induction false} FullFrameLength(strb: nat, frame: seq<InBeat>)
    requires FrameOk(strb, frame, false)
    ensures |Bytes(frame)| == |frame| * strb
  {
    if frame != [] {
      var front := frame[..|frame| - 1];
      FullFrameLength(strb, front);
      assert BeatOk(strb, frame[|frame| - 1]);
      assert |Bytes(frame)| == |Bytes(front)| + strb;
      MulStep(|front|, strb);
      hide *;
    }
  }

  // A contiguous keep mask is its own cycle size.
  lemma KeepIsLow(strb: nat, b: InBeat)
    requires BeatOk(strb, b)
    ensures b.keep == LowMask(strb, CycleSize(b.keep))
    ensures forall n: nat :: n <= strb ==> FitsBelow(b.keep, n) == (CycleSize(b.keep) <= n)
  {
    forall n: nat | n <= strb ensures FitsBelow(b.keep, n) == (CycleSize(b.keep) <= n) {
      if n < CycleSize(b.keep) {
        assert b.keep[n];
      }
    }
  }

  // ----- Growing a job -----

  lemma BurstGrows(c: Config, d: Desc, bytes: seq<Byte>, bytes': seq<Byte>, b: Issued)
    requires c.Ok() && bytes <= bytes' && GoodBurst(c, d, bytes, Total(d.len, bytes), b)
    requires Behind(c, d, Total(d.len, bytes), b) || Total(d.len, bytes') == Total(d.len, bytes)
    ensures GoodBurst(c, d, bytes', Total(d.len, bytes'), b)
  {
    hide LoadAddr, BurstStart, BurstBeats, At, Config.Ok, Geometry;
  }

  // Where the next beat of a burst belongs.
  function NextAt(c: Config, d: Desc, b: Issued): nat
    requires c.Ok()
  {
    At(c.strb, BurstStart(c, d, b.burst), |b.beats|)
  }

  lemma ExtendSame(c: Config, d: Desc, bursts: seq<Issued>, w: WBeat)
    requires c.Ok() && bursts != []
    ensures |Extend(bursts, w)| == |bursts|
    ensures Sent(c, d, Extend(bursts, w)) == Sent(c, d, bursts)
    ensures OnPlan(c, d, bursts) ==> OnPlan(c, d, Extend(bursts, w))
  {
    hide LoadAddr, Plan;
    assert Planned(Extend(bursts, w)) == Planned(bursts);
  }

  // Sending one more good beat of the current burst; bytes' is the frame after it.
  lemma BeatAdded(c: Config, d: Desc, bytes: seq<Byte>, bytes': seq<Byte>, bursts: seq<Issued>, w: WBeat)
    requires c.Ok() && GoodBursts(c, d, bytes, bursts) && bursts != [] && bytes <= bytes'
    requires AllBehind(c, d, Total(d.len, bytes), bursts) || Total(d.len, bytes') == Total(d.len, bytes)
    requires GoodWBeat(c.strb, bytes', Total(d.len, bytes'), NextAt(c, d, bursts[|bursts| - 1]), w)
    requires w.last == (|bursts[|bursts| - 1].beats| + 1 == BurstBeats(c, bursts[|bursts| - 1].burst))
    ensures GoodBursts(c, d, bytes', Extend(bursts, w))
  {
    hide LoadAddr, BurstStart, BurstBeats, At, Config.Ok, Geometry, GoodWBeat, OnPlan, Total, Sent, Behind;
    ExtendSame(c, d, bursts, w);
    forall k | 0 <= k < |bursts| ensures GoodBurst(c, d, bytes', Total(d.len, bytes'), Extend(bursts, w)[k]) {
      BurstGrows(c, d, bytes, bytes', bursts[k]);
    }
  }

  lemma StillBehind(c: Config, d: Desc, total: nat, total': nat, bursts: seq<Issued>, w: WBeat)
    requires c.Ok() && bursts != [] && AllBehind(c, d, total, bursts) && total <= total'
    requires NextAt(c, d, bursts[|bursts| - 1]) + c.strb <= total'
    ensures AllBehind(c, d, total', Extend(bursts, w))
  {
    hide BurstStart, At, Geometry;
  }

  // ----- START -----

  lemma StartMath(c: Config, r: Regs, job: Job)
    requires c.Ok() && !c.unaligned && 1 <= r.left &&
      AddressOk(c, r.addr, LoadAddr(c, job.desc) + Sent(c, job.desc, job.bursts))
    ensures var next := LoadAddr(c, job.desc) + Sent(c, job.desc, job.bursts);
            var n := NextBurst(c, r.addr, r.left);
            && 1 <= n <= r.left && n == BurstBytes(c.strb, c.maxBeats, next, r.left)
            && (n < r.left ==> AddressOk(c, Advance(c, r.addr, n), next + n))
            && Aligned(c.strb, next) && (n < r.left ==> Aligned(c.strb, next + n))
            && r.addr == next % c.space
            && BurstBeats(c, Burst(next, n)) == CycleCount(c, n) + 1
            && BurstLen(c, r.addr, n) + 1 == BurstBeats(c, Burst(next, n)) <= c.maxBeats
  {
    var next := LoadAddr(c, job.desc) + Sent(c, job.desc, job.bursts);
    var n := NextBurst(c, r.addr, r.left);
    BurstBytesPeriodic(c.strb, c.maxBeats, next, r.left, c.space);
    BurstIsLegal(c.strb, c.maxBeats, next, r.left);
    BurstLenExact(c, r.addr, r.left);
    DivBounds(next, c.space);
    AddMultiple(r.addr + n, next / c.space, c.space);
    assert next + n == r.addr + n + next / c.space * c.space;
    hide LoadAddr, Sent, BurstBytes, BurstLen, Geometry;
  }

  // What a START that issues puts on AW is the next burst of the plan.
  lemma IssuesPlan(c: Config, r: Regs, job: Job, i: Input, room: bool, av: bool)
    requires c.Ok() && !c.unaligned && r.state.Start? && JobInv(c, r, job)
    ensures var o := StartStep(c, r, i, room, av);
            var job' := JobStep(c, r, job, i, o);
            o.issue ==> (
              && !r.awValid && job'.bursts != []
              && var b := job'.bursts[|job'.bursts| - 1].burst;
                 && o.regs.awValid && o.regs.awAddr == b.addr % c.space
                 && o.regs.awLen + 1 == BurstBeats(c, b) <= c.maxBeats)
  {
    StartMath(c, r, job);
    hide Aligned, AddressOk, Advance, CycleCount, BurstBeats, BurstLen, NextBurst, LoadAddr, Sent, GoodBursts, Geometry;
  }

  function Opened(c: Config, d: Desc, bursts: seq<Issued>, n: pos): (b: Issued)
    requires c.Ok()
  {
    Issued(Burst(LoadAddr(c, d) + Sent(c, d, bursts), n), [])
  }

  lemma SentGrows(c: Config, d: Desc, bursts: seq<Issued>, n: pos)
    requires c.Ok()
    ensures Sent(c, d, bursts + [Opened(c, d, bursts, n)]) == Sent(c, d, bursts) + n
  {
    hide LoadAddr;
  }

  lemma PlanHead(c: Config, next: nat, left: nat, n: pos)
    requires c.Ok() && n <= left && n == BurstBytes(c.strb, c.maxBeats, next, left)
    ensures Plan(c.strb, c.maxBeats, next, left) == [Burst(next, n)] + Plan(c.strb, c.maxBeats, next + n, left - n)
  {
    hide BurstBytes, Geometry;
  }

  lemma PlannedGrows(bursts: seq<Issued>, b: Issued, rest: seq<Burst>, all: seq<Burst>)
    requires Planned(bursts) + ([b.burst] + rest) == all
    ensures Planned(bursts + [b]) + rest == all
  {
    assert Planned(bursts + [b]) == Planned(bursts) + [b.burst];
    assert Planned(bursts) + [b.burst] + rest == Planned(bursts) + ([b.burst] + rest);
  }

  // Opening the next burst of the plan.
  lemma PlanExtended(c: Config, d: Desc, bursts: seq<Issued>, n: pos)
    requires c.Ok() && OnPlan(c, d, bursts) && n <= d.len - Sent(c, d, bursts)
    requires n == BurstBytes(c.strb, c.maxBeats, LoadAddr(c, d) + Sent(c, d, bursts), d.len - Sent(c, d, bursts))
    ensures OnPlan(c, d, bursts + [Opened(c, d, bursts, n)])
  {
    var next, left := LoadAddr(c, d) + Sent(c, d, bursts), d.len - Sent(c, d, bursts);
    SentGrows(c, d, bursts, n);
    PlanHead(c, next, left, n);
    hide LoadAddr, Geometry, BurstBytes, Sent, Plan, Planned, Config.Ok;
    PlannedGrows(bursts, Opened(c, d, bursts, n), Plan(c.strb, c.maxBeats, next + n, left - n),
                 Plan(c.strb, c.maxBeats, LoadAddr(c, d), d.len));
  }

  lemma OpenedGood(c: Config, d: Desc, bytes: seq<Byte>, bursts: seq<Issued>, b: Issued)
    requires c.Ok() && GoodBursts(c, d, bytes, bursts) && b.beats == []
    requires bursts != [] ==> Complete(c, bursts[|bursts| - 1])
    requires OnPlan(c, d, bursts + [b])
    ensures GoodBursts(c, d, bytes, bursts + [b])
    ensures AllBehind(c, d, Total(d.len, bytes), bursts) ==> AllBehind(c, d, Total(d.len, bytes), bursts + [b])
  {
    hide LoadAddr, BurstStart, BurstBeats, At, Geometry, Total, Sent, GoodWBeat, OnPlan;
  }

  lemma StartWaits(c: Config, r: Regs, job: Job, i: Input, room: bool, av: bool)
    requires c.Ok() && r.state.Start? && !r.dataReady && JobInv(c, r, job)
    ensures var o := StartStep(c, r, i, room, av); !o.issue ==> JobInv(c, o.regs, JobStep(c, r, job, i, o))
  {
    hide Aligned, AddressOk, Advance, CycleCount, BurstBeats, BurstLen, NextBurst, LoadAddr, GoodSoFar, Geometry,
      BurstBytes, FrameOk, EntriesOk, Sent, Complete;
    var o := StartStep(c, r, i, room, av);
    assert !o.issue ==> JobStep(c, r, job, i, o) == job;
  }

  // A new burst starts where the previous ones ended.
  lemma StartPlace(c: Config, d: Desc, bursts: seq<Issued>, n: pos)
    requires c.Ok()
    ensures NextAt(c, d, Opened(c, d, bursts, n)) == Sent(c, d, bursts)
  {
    hide LoadAddr, Sent;
  }

  // The registers a burst starts with.
  predicate Opens(c: Config, r: Regs, r': Regs, n: pos, next: nat)
    requires c.Ok()
  {
    && n <= r.left && r'.state.Write? && r'.tag == r.tag && r'.lastOffset == r.lastOffset && r'.first == r.first
    && r'.left == r.left - n && r'.length == r.length
    && r'.outCount == BurstBeats(c, Burst(next, n)) - 1 && r'.inCount == r'.outCount
    && r'.outLast == (r'.outCount == 0) && r'.inActive && r'.lastTransfer == (r'.left == 0)
    && Aligned(c.strb, next)
    && (0 < r'.left ==> AddressOk(c, r'.addr, next + n) && Aligned(c.strb, next + n))
  }

  lemma OpensWriting(c: Config, r: Regs, r': Regs, job: Job, n: pos)
    requires c.Ok() && r.state.Start? && JobInv(c, r, job)
    requires Opens(c, r, r', n, LoadAddr(c, job.desc) + Sent(c, job.desc, job.bursts))
    requires OnPlan(c, job.desc, job.bursts + [Opened(c, job.desc, job.bursts, n)])
    ensures JobInv(c, r', job.(bursts := job.bursts + [Opened(c, job.desc, job.bursts, n)]))
  {
    OpenedGood(c, job.desc, Bytes(job.frame), job.bursts, Opened(c, job.desc, job.bursts, n));
    SentGrows(c, job.desc, job.bursts, n);
    StartPlace(c, job.desc, job.bursts, n);
    hide Aligned, AddressOk, BurstBeats, LoadAddr, GoodBursts, AllBehind, Geometry, FrameOk, EntriesOk, Sent,
      Complete, At, BurstStart, JobTotal, Bytes, LastOffset, OnPlan, Total, Config.Ok;
  }

  lemma StartOpens(c: Config, r: Regs, job: Job, i: Input, room: bool, av: bool)
    requires c.Ok() && !c.unaligned && r.state.Start? && JobInv(c, r, job) && StartStep(c, r, i, room, av).issue
    ensures Opens(c, r, StartStep(c, r, i, room, av).regs, BurstSize(c, r),
                  LoadAddr(c, job.desc) + Sent(c, job.desc, job.bursts))
  {
    StartMath(c, r, job);
    hide Aligned, AddressOk, Advance, CycleCount, BurstBeats, BurstLen, NextBurst, LoadAddr, GoodSoFar, Geometry,
      BurstBytes, FrameOk, EntriesOk, Sent, Complete, LastOffset, OnPlan;
  }

  lemma OpeningStep(c: Config, r: Regs, job: Job, i: Input, o: CoreOut)
    requires c.Ok() && o.issue && o.push.None? && o.entry.None? && !r.dataReady
    ensures JobStep(c, r, job, i, o) == job.(bursts := job.bursts + [Opened(c, job.desc, job.bursts, BurstSize(c, r))])
  {
    hide NextBurst, LoadAddr, Sent;
  }

  lemma StartIssues(c: Config, r: Regs, job: Job, i: Input, room: bool, av: bool)
    requires c.Ok() && !c.unaligned && r.state.Start? && !r.dataReady && JobInv(c, r, job)
    ensures var o := StartStep(c, r, i, room, av); o.issue ==> JobInv(c, o.regs, JobStep(c, r, job, i, o))
  {
    var o := StartStep(c, r, i, room, av);
    if o.issue {
      var n := BurstSize(c, r);
      StartMath(c, r, job);
      PlanExtended(c, job.desc, job.bursts, n);
      StartOpens(c, r, job, i, room, av);
      OpensWriting(c, r, o.regs, job, n);
      hide JobInv, Opens, NextBurst, BurstBytes, LoadAddr, Sent, OnPlan, Geometry, BurstSize, Advance, CycleCount,
        BurstLen, JobStep;
      OpeningStep(c, r, job, i, o);
    }
  }

  // ----- WRITE -----

  // lastOffset is the descriptor's residue in its last word.
  lemma LastWord(c: Config, len: nat, words: nat, x: nat)
    requires c.Ok() && words * c.strb == x && x < len <= x + c.strb
    ensures len - x == (if LastOffset(c, len) > 0 then LastOffset(c, len) else c.strb)
  {
    if len < x + c.strb {
      DivUnique(len, c.strb, words);
    } else {
      MulStep(words, c.strb);
      DivUnique(len, c.strb, words + 1);
    }
  }

  // How the next beat relates to the ends of the burst and of the descriptor.
  lemma TransferMath(c: Config, r: Regs, job: Job)
    requires c.Ok() && r.state.Write? && JobInv(c, r, job)
    ensures var x, sent := r.length, Sent(c, job.desc, job.bursts);
            && x == NextAt(c, job.desc, job.bursts[|job.bursts| - 1])
            && BurstStart(c, job.desc, job.bursts[|job.bursts| - 1].burst) <= x < sent <= job.desc.len
            && (!r.outLast ==> x + c.strb < sent)
            && (r.outLast && 0 < r.left ==> x + c.strb == sent)
            && (r.outLast && r.left == 0 ==>
                  sent - x == (if r.lastOffset > 0 then r.lastOffset else c.strb) && sent - x <= c.strb)
  {
    var cur := job.bursts[|job.bursts| - 1];
    var j := |cur.beats|;
    BeatPlace(c.strb, cur.burst.addr, cur.burst.bytes, j);
    if r.outLast && r.left == 0 {
      hide GoodSoFar, EntriesOk, LastOffset, LoadAddr, BeatCount, Aligned, Geometry, FrameOk, AddressOk;
      LastWord(c, job.desc.len, |job.frame|, r.length);
    }
    hide GoodSoFar, EntriesOk, LastOffset, LoadAddr, BeatCount, Aligned, Geometry, FrameOk, AddressOk;
  }

  lemma NewBeatGood(strb: nat, bytes: seq<Byte>, data: Word, kept: nat, total: nat, w: WBeat)
    requires kept <= |data| == strb && |bytes| <= total <= |bytes| + kept
    requires w.data == data && w.strb == LowMask(strb, total - |bytes|)
    ensures GoodWBeat(strb, bytes + data[..kept], total, |bytes|, w)
  {
  }

  // Consuming a frame beat and sending its W beat, cut at the descriptor's end.
  lemma Transferred(c: Config, r: Regs, job: Job, b: InBeat, w: WBeat)
    requires c.Ok() && r.state.Write? && JobInv(c, r, job) && BeatOk(c.strb, b)
    requires w.data == b.data && w.last == r.outLast
    requires w.strb == LowMask(c.strb, Min(job.desc.len - r.length, CycleSize(b.keep)))
    ensures var bytes' := Bytes(job.frame + [b]);
            && |Bytes(job.frame)| == r.length && |bytes'| == r.length + CycleSize(b.keep)
            && GoodBursts(c, job.desc, bytes', Extend(job.bursts, w))
            && (CycleSize(b.keep) == c.strb && r.length + c.strb <= job.desc.len ==>
                  AllBehind(c, job.desc, Total(job.desc.len, bytes'), Extend(job.bursts, w)))
  {
    TransferMath(c, r, job);
    FullFrameLength(c.strb, job.frame);
    BytesGrow(job.frame, b);
    var bytes, kept := Bytes(job.frame), CycleSize(b.keep);
    var bytes' := Bytes(job.frame + [b]);
    NewBeatGood(c.strb, bytes, b.data, kept, Total(job.desc.len, bytes'), w);
    hide LoadAddr, BurstStart, BurstBeats, At, Geometry, OnPlan, LastOffset, Bytes, GoodWBeat, LowMask, Extend,
      CycleSize, AllBehind, NextAt, GoodBursts, EntriesOk;
    BeatAdded(c, job.desc, bytes, bytes', job.bursts, w);
    if kept == c.strb && r.length + c.strb <= job.desc.len {
      StillBehind(c, job.desc, Total(job.desc.len, bytes), Total(job.desc.len, bytes'), job.bursts, w);
    }
  }

  // Whichever branch is taken, the strobes are the kept lanes short of the descriptor's end.
  lemma TransferBeat(c: Config, r: Regs, job: Job, i: Input, room: bool, av: bool)
    requires c.Ok() && r.state.Write? && JobInv(c, r, job) && BeatOk(c.strb, i.beat)
    ensures var o := TransferStep(c, r, i, room, av);
            && o.push.Some? && o.push.value.data == i.beat.data && o.push.value.last == r.outLast && !o.issue
            && o.push.value.strb == LowMask(c.strb, Min(job.desc.len - r.length, CycleSize(i.beat.keep)))
            && (o.entry.Some? == (i.beat.last || r.outLast))
            && (o.entry.Some? ==>
                  o.entry.value == Entry(r.length + Min(job.desc.len - r.length, CycleSize(i.beat.keep)), r.tag,
                                                         i.beat.last || r.left == 0))
            && (o.regs.length == r.length + Min(job.desc.len - r.length, CycleSize(i.beat.keep)))
  {
    TransferMath(c, r, job);
    KeepIsLow(c.strb, i.beat);
    hide LoadAddr, BurstStart, BurstBeats, At, Geometry, LastOffset, CycleSize, FitsBelow, GoodSoFar, EntriesOk,
      FrameOk, Sent, NextAt, AddressOk, Aligned, LowMask;
  }

  lemma FrameGrows(strb: nat, frame: seq<InBeat>, b: InBeat)
    requires FrameOk(strb, frame, false) && BeatOk(strb, b)
    ensures FrameOk(strb, frame + [b], b.last)
  {
    hide BeatOk;
  }

  // Inside a burst: on to its next beat.
  lemma NextBeat(c: Config, r: Regs, job: Job, i: Input, room: bool, av: bool)
    requires c.Ok() && r.state.Write? && JobInv(c, r, job) && BeatOk(c.strb, i.beat) && r.dataReady && i.dataValid
    requires !i.beat.last && !r.outLast
    ensures var o := TransferStep(c, r, i, room, av); o.regs.state.Write? && JobInv(c, o.regs, JobStep(c, r, job, i, o))
  {
    var o := TransferStep(c, r, i, room, av);
    TransferMath(c, r, job);
    TransferBeat(c, r, job, i, room, av);
    FrameGrows(c.strb, job.frame, i.beat);
    Transferred(c, r, job, i.beat, o.push.value);
    ExtendSame(c, job.desc, job.bursts, o.push.value);
    MulStep(|job.frame|, c.strb);
    MulStep(|job.bursts[|job.bursts| - 1].beats|, c.strb);
    hide LoadAddr, BurstStart, BurstBeats, Geometry, LastOffset, CycleSize, FitsBelow, GoodBursts, AllBehind, FrameOk,
      Sent, AddressOk, Aligned, LowMask, Bytes, BeatOk, OnPlan, Behind, Config.Ok;
  }

  // End of a burst with more to move: back to START.
  lemma BurstDone(c: Config, r: Regs, job: Job, i: Input, room: bool, av: bool)
    requires c.Ok() && r.state.Write? && JobInv(c, r, job) && BeatOk(c.strb, i.beat) && r.dataReady && i.dataValid
    requires !i.beat.last && r.outLast && 0 < r.left
    ensures var o := TransferStep(c, r, i, room, av);
            o.regs.state.Start? && !o.regs.dataReady && JobInv(c, o.regs, JobStep(c, r, job, i, o))
  {
    var o := TransferStep(c, r, i, room, av);
    TransferMath(c, r, job);
    TransferBeat(c, r, job, i, room, av);
    FrameGrows(c.strb, job.frame, i.beat);
    Transferred(c, r, job, i.beat, o.push.value);
    ExtendSame(c, job.desc, job.bursts, o.push.value);
    MulStep(|job.frame|, c.strb);
    hide LoadAddr, BurstStart, BurstBeats, Geometry, LastOffset, CycleSize, FitsBelow, GoodBursts, AllBehind, FrameOk,
      Sent, AddressOk, Aligned, LowMask, Bytes, BeatOk, OnPlan, Behind, Config.Ok;
  }

  // The frame ends with its burst: the job is done.
  lemma FrameDone(c: Config, r: Regs, job: Job, i: Input, room: bool, av: bool)
    requires c.Ok() && r.state.Write? && JobInv(c, r, job) && BeatOk(c.strb, i.beat) && r.dataReady && i.dataValid
    requires i.beat.last && r.outLast
    ensures GoodJob(c, JobStep(c, r, job, i, TransferStep(c, r, i, room, av)))
  {
    var o := TransferStep(c, r, i, room, av);
    TransferMath(c, r, job);
    TransferBeat(c, r, job, i, room, av);
    FrameGrows(c.strb, job.frame, i.beat);
    Transferred(c, r, job, i.beat, o.push.value);
    ExtendSame(c, job.desc, job.bursts, o.push.value);
    MulStep(|job.frame|, c.strb);
    MulStep(|job.bursts[|job.bursts| - 1].beats|, c.strb);
    hide LoadAddr, BurstStart, BurstBeats, Geometry, LastOffset, CycleSize, FitsBelow, GoodBursts, AllBehind, FrameOk,
      Sent, AddressOk, Aligned, LowMask, Bytes, BeatOk, OnPlan, Behind, Config.Ok;
  }

  // The frame ends inside a burst: the rest is padded.
  lemma FramePads(c: Config, r: Regs, job: Job, i: Input, room: bool, av: bool)
    requires c.Ok() && r.state.Write? && JobInv(c, r, job) && BeatOk(c.strb, i.beat) && r.dataReady && i.dataValid
    requires i.beat.last && !r.outLast
    ensures var o := TransferStep(c, r, i, room, av); JobInv(c, o.regs, JobStep(c, r, job, i, o))
  {
    var o := TransferStep(c, r, i, room, av);
    TransferMath(c, r, job);
    TransferBeat(c, r, job, i, room, av);
    FrameGrows(c.strb, job.frame, i.beat);
    Transferred(c, r, job, i.beat, o.push.value);
    ExtendSame(c, job.desc, job.bursts, o.push.value);
    MulStep(|job.frame|, c.strb);
    MulStep(|job.bursts[|job.bursts| - 1].beats|, c.strb);
    hide LoadAddr, BurstStart, BurstBeats, Geometry, LastOffset, CycleSize, FitsBelow, GoodBursts, AllBehind, FrameOk,
      Sent, AddressOk, Aligned, LowMask, Bytes, BeatOk, OnPlan, Behind, Config.Ok;
  }

  lemma FrameState(c: Config, r: Regs, i: Input, room: bool, av: bool)
    requires c.Ok() && r.state.Write? && i.beat.last
    ensures var o := TransferStep(c, r, i, room, av);
            !o.regs.dataReady && o.regs.state == (if r.outLast then Idle else FinishBurst)
  {
  }

  // The frame ends: done, or pad the burst.
  lemma FrameEnds(c: Config, r: Regs, job: Job, i: Input, room: bool, av: bool)
    requires c.Ok() && r.state.Write? && JobInv(c, r, job) && BeatOk(c.strb, i.beat) && r.dataReady && i.dataValid
    requires i.beat.last
    ensures var o := TransferStep(c, r, i, room, av);
            var job' := JobStep(c, r, job, i, o);
            && !o.regs.dataReady && o.regs.state == (if r.outLast then Idle else FinishBurst)
            && (r.outLast ==> GoodJob(c, job'))
            && (!r.outLast ==> JobInv(c, o.regs, job'))
  {
    hide *;
    FrameState(c, r, i, room, av);
    if r.outLast {
      FrameDone(c, r, job, i, room, av);
    } else {
      FramePads(c, r, job, i, room, av);
    }
  }

  // The descriptor ends before the frame: drop the rest of the frame.
  lemma DescriptorEnds(c: Config, r: Regs, job: Job, i: Input, room: bool, av: bool)
    requires c.Ok() && r.state.Write? && JobInv(c, r, job) && BeatOk(c.strb, i.beat) && r.dataReady && i.dataValid
    requires !i.beat.last && r.outLast && r.left == 0
    ensures var o := TransferStep(c, r, i, room, av);
      o.regs.state.DropData? && JobInv(c, o.regs, JobStep(c, r, job, i, o))
  {
    var o := TransferStep(c, r, i, room, av);
    TransferMath(c, r, job);
    TransferBeat(c, r, job, i, room, av);
    FrameGrows(c.strb, job.frame, i.beat);
    Transferred(c, r, job, i.beat, o.push.value);
    ExtendSame(c, job.desc, job.bursts, o.push.value);
    MulStep(|job.frame|, c.strb);
    hide LoadAddr, BurstStart, BurstBeats, Geometry, LastOffset, CycleSize, FitsBelow, GoodBursts, AllBehind, FrameOk,
      Sent, AddressOk, Aligned, LowMask, Bytes, BeatOk, OnPlan, Behind, Config.Ok;
  }

  // ----- FINISH_BURST and DROP_DATA -----

  lemma PadBeatGood(c: Config, bytes: seq<Byte>, total: nat, x: nat)
    requires c.Ok() && total <= |bytes| && total <= x
    ensures GoodWBeat(c.strb, bytes, total, x, WBeat(ZeroWord(c.strb), LowMask(c.strb, 0), true))
    ensures GoodWBeat(c.strb, bytes, total, x, WBeat(ZeroWord(c.strb), LowMask(c.strb, 0), false))
  {
  }

  lemma FinishKept(c: Config, r: Regs, job: Job, i: Input, room: bool, av: bool)
    requires c.Ok() && r.state.FinishBurst? && !r.dataReady && JobInv(c, r, job)
    ensures var o := FinishStep(c, r, i, room, av);
            var job' := JobStep(c, r, job, i, o);
            && !o.regs.dataReady && (o.regs.state.Idle? || o.regs.state.FinishBurst?)
            && (o.regs.state.Idle? ==> GoodJob(c, job'))
            && (!o.regs.state.Idle? ==> JobInv(c, o.regs, job'))
  {
    if room {
      FinishPads(c, r, job, i, av);
    } else {
      assert JobStep(c, r, job, i, FinishStep(c, r, i, room, av)) == job;
      hide LoadAddr, BurstStart, BurstBeats, Geometry, Total, AddressOk, Aligned, LowMask, ZeroWord, Bytes,
        GoodBursts, Sent, FrameOk, EntriesOk, LastOffset, At;
    }
  }

  lemma FinishPads(c: Config, r: Regs, job: Job, i: Input, av: bool)
    requires c.Ok() && r.state.FinishBurst? && !r.dataReady && JobInv(c, r, job)
    ensures var o := FinishStep(c, r, i, true, av);
            var job' := JobStep(c, r, job, i, o);
            && !o.regs.dataReady && (o.regs.state.Idle? || o.regs.state.FinishBurst?)
            && (o.regs.state.Idle? ==> GoodJob(c, job'))
            && (!o.regs.state.Idle? ==> JobInv(c, o.regs, job'))
  {
    var o := FinishStep(c, r, i, true, av);
    var bytes, cur := Bytes(job.frame), job.bursts[|job.bursts| - 1];
    MulStep(|cur.beats|, c.strb);
    PadBeatGood(c, bytes, JobTotal(job), NextAt(c, job.desc, cur));
    hide LoadAddr, BurstStart, BurstBeats, Geometry, Total, AddressOk, Aligned, LowMask, ZeroWord, Bytes, OnPlan,
      GoodWBeat, Sent, FrameOk, EntriesOk, LastOffset;
    BeatAdded(c, job.desc, bytes, bytes, job.bursts, o.push.value);
    ExtendSame(c, job.desc, job.bursts, o.push.value);
    hide GoodBursts;
  }

  lemma Swallow(c: Config, d: Desc, bytes: seq<Byte>, bytes': seq<Byte>, bursts: seq<Issued>)
    requires c.Ok() && GoodBursts(c, d, bytes, bursts) && bytes <= bytes' && d.len <= |bytes|
    ensures GoodBursts(c, d, bytes', bursts)
  {
    hide LoadAddr, BurstStart, BurstBeats, At, Geometry, OnPlan, Behind, GoodBurst, Complete;
    forall k | 0 <= k < |bursts| ensures GoodBurst(c, d, bytes', Total(d.len, bytes'), bursts[k]) {
      BurstGrows(c, d, bytes, bytes', bursts[k]);
    }
  }

  lemma DropKept(c: Config, r: Regs, job: Job, i: Input, av: bool)
    requires c.Ok() && r.state.DropData? && JobInv(c, r, job) && (i.dataValid ==> BeatOk(c.strb, i.beat))
    ensures var o := DropStep(r, i, av);
            var job' := JobStep(c, r, job, i, o);
            && (o.regs.state.Idle? || o.regs.state.DropData?)
            && (o.regs.state.Idle? ==> !o.regs.dataReady && GoodJob(c, job'))
            && (!o.regs.state.Idle? ==> JobInv(c, o.regs, job'))
  {
    if i.dataValid {
      FrameGrows(c.strb, job.frame, i.beat);
      BytesGrow(job.frame, i.beat);
      MulStep(|job.frame|, c.strb);
      Swallow(c, job.desc, Bytes(job.frame), Bytes(job.frame + [i.beat]), job.bursts);
    }
    assert JobStep(c, r, job, i, DropStep(r, i, av)) ==
        job.(frame := if i.dataValid then job.frame + [i.beat] else job.frame);
    hide LoadAddr, BurstStart, BurstBeats, Geometry, AddressOk, Aligned, Bytes, OnPlan, Sent, FrameOk, EntriesOk,
      LastOffset, GoodBursts, CycleSize, JobStep;
  }

  // ----- All states -----

  // One clock of the core with a job under way.
  lemma JobKept(c: Config, r: Regs, job: Job, i: Input, room: bool, av: bool)
    requires c.Ok() && !c.unaligned && !r.state.Idle? && JobInv(c, r, job)
    requires r.dataReady ==> r.state.Write? || r.state.DropData?
    requires i.dataValid ==> BeatOk(c.strb, i.beat)
    ensures var o := CoreStep(c, r, i, room, av);
            && (o.push.Some? ==> job.bursts != [])
            && var job' := JobStep(c, r, job, i, o);
               && (o.regs.state.Idle? ==> GoodJob(c, job'))
               && (!o.regs.state.Idle? ==> JobInv(c, o.regs, job'))
               && (o.regs.dataReady ==> o.regs.state.Write? || o.regs.state.DropData?)
  {
    match r.state {
      case Start =>
        StartWaits(c, r, job, i, room, av);
        StartIssues(c, r, job, i, room, av);
      case Write =>
        if r.dataReady && i.dataValid {
          if i.beat.last { FrameEnds(c, r, job, i, room, av); }
          else if !r.outLast { NextBeat(c, r, job, i, room, av); }
          else if 0 < r.left { BurstDone(c, r, job, i, room, av); }
          else { DescriptorEnds(c, r, job, i, room, av); }
          hide TransferStep;
        } else {
          WriteWaits(c, r, job, i, room, av);
        }
      case FinishBurst => FinishKept(c, r, job, i, room, av);
      case DropData => DropKept(c, r, job, i, av);
    }
    hide JobInv, GoodJob, BeatOk, TransferStep, FinishStep, DropStep, JobStep, StartStep;
  }

  lemma WriteWaits(c: Config, r: Regs, job: Job, i: Input, room: bool, av: bool)
    requires c.Ok() && r.state.Write? && JobInv(c, r, job) && !(r.dataReady && i.dataValid)
    ensures var o := WriteStep(c, r, i, room, av);
            o.push.None? && o.regs.state.Write? && JobInv(c, o.regs, JobStep(c, r, job, i, o))
  {
    hide TransferStep, GoodSoFar, BurstBeats, NextAt, At, BurstStart, LoadAddr, Sent, AddressOk, FrameOk, EntriesOk,
      LastOffset, Aligned, Geometry;
    assert JobStep(c, r, job, i, WriteStep(c, r, i, room, av)) == job;
  }
}
