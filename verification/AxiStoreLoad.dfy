// Store then load is the identity: what axi_dma_wr puts into axi_ram, axi_dma_rd gets back.
module AxiStoreLoad {
  import opened Arith
  import opened BurstPlanner
  import opened AxiBus
  import opened AxiDma
  import W = AxiDmaWrite
  import opened AxiDmaWriteProof
  import opened AxiDmaWriteRun
  import opened AxiRam
  import opened AxiStore
  import R = AxiDmaReadData
  import RP = AxiDmaReadProof
  import Load = AxiLoad

  // ----- A finished job as one run of words -----

  // Beats of the first k bursts.
  function Sofar(bursts: seq<Issued>, k: nat): (n: nat)
    requires k <= |bursts|
  {
    |JobBeats(bursts[..k])|
  }

  lemma SofarNext(c: Config, bursts: seq<Issued>, k: nat)
    requires c.Ok() && k < |bursts| && Complete(c, bursts[k])
    ensures Sofar(bursts, k + 1) == Sofar(bursts, k) + BurstBeats(c, bursts[k].burst)
    ensures JobBeats(bursts[..k + 1]) == JobBeats(bursts[..k]) + bursts[k].beats
  {
    assert bursts[..k + 1][..k] == bursts[..k];
  }

  predicate AllComplete(c: Config, bursts: seq<Issued>)
    requires c.Ok()
  {
    forall k :: 0 <= k < |bursts| ==> Complete(c, bursts[k])
  }

  // Burst k starts right behind the words of the bursts before it.
  lemma {:induction false} BurstPlace(c: Config, d: Desc, bursts: seq<Issued>, k: nat)
    requires c.Ok() && !c.unaligned && OnPlan(c, d, bursts) && AllComplete(c, bursts) && k < |bursts|
    ensures bursts[k].burst.addr == LoadAddr(c, d) + Sofar(bursts, k) * c.strb
    ensures Aligned(c.strb, bursts[k].burst.addr)
  {
    var p := Plan(c.strb, c.maxBeats, LoadAddr(c, d), d.len);
    PlanTiles(c.strb, c.maxBeats, LoadAddr(c, d), d.len);
    LoadAddrAligned(c, d);
    PlanPrefix(c, d, bursts, k);
    if k == 0 {
      assert bursts[..0] == [];
    } else {
      BurstPlace(c, d, bursts, k - 1);
      PlanPrefix(c, d, bursts, k - 1);
      SofarNext(c, bursts, k - 1);
      assert Follows(p, k);
      BurstEnds(c, bursts[k - 1].burst);
      MulSum(Sofar(bursts, k - 1), BurstBeats(c, bursts[k - 1].burst), c.strb);
      hide *;
    }
  }

  // A burst between two word boundaries fills its words.
  lemma BurstEnds(c: Config, b: Burst)
    requires c.Ok() && Aligned(c.strb, b.addr)
    ensures Aligned(c.strb, b.addr + b.bytes) ==> b.bytes == BurstBeats(c, b) * c.strb
  {
    BeatPlace(c.strb, b.addr, b.bytes, BurstBeats(c, b) - 1);
    MulStep(BurstBeats(c, b) - 1, c.strb);
    hide BeatCount, Aligned, Geometry;
  }

  lemma PlanPrefix(c: Config, d: Desc, bursts: seq<Issued>, k: nat)
    requires c.Ok() && OnPlan(c, d, bursts) && k < |bursts|
    ensures k < |Plan(c.strb, c.maxBeats, LoadAddr(c, d), d.len)|
    ensures bursts[k].burst == Plan(c.strb, c.maxBeats, LoadAddr(c, d), d.len)[k]
  {
    hide LoadAddr, Plan;
    assert Planned(bursts)[k] == bursts[k].burst;
  }

  // The AW requests of the first k bursts cover consecutive rows from the descriptor's first.
  lemma {:induction false} JobRows(c: Config, d: Desc, bursts: seq<Issued>, k: nat)
    requires c.Ok() && !c.unaligned && OnPlan(c, d, bursts) && AllComplete(c, bursts) && k <= |bursts|
    ensures RowsOf(c, JobAws(c, bursts[..k])) == Rows(RowCount(c), RowOf(c.strb, LoadAddr(c, d)), Sofar(bursts, k))
  {
    if k == 0 {
      assert bursts[..0] == [];
    } else {
      JobRows(c, d, bursts, k - 1);
      BurstPlace(c, d, bursts, k - 1);
      SofarNext(c, bursts, k - 1);
      var b := bursts[k - 1].burst;
      assert JobAws(c, bursts[..k]) == JobAws(c, bursts[..k - 1]) + [Aw(b.addr % c.space, BurstBeats(c, b) - 1)];
      RowsOfMore(c, JobAws(c, bursts[..k - 1]), Aw(b.addr % c.space, BurstBeats(c, b) - 1));
      RowInSpace(c, b.addr, BurstBeats(c, b));
      AddMultiple(LoadAddr(c, d), Sofar(bursts, k - 1), c.strb);
      hide LoadAddr, OnPlan, Plan, BurstBeats, Geometry, RowsOf, JobAws, Sofar, Rows;
      RowsJoin(RowCount(c), RowOf(c.strb, LoadAddr(c, d)), Sofar(bursts, k - 1), BurstBeats(c, b));
    }
  }

  lemma RowInSpace(c: Config, addr: nat, n: nat)
    requires c.Ok()
    ensures Rows(RowCount(c), RowOf(c.strb, addr % c.space), n) == Rows(RowCount(c), RowOf(c.strb, addr), n)
  {
    ModOfMultiple(c.space, PAGE, c.strb);
    ModOfMultiple(addr, c.space, c.strb);
    assert RowOf(c.strb, addr % c.space) == RowOf(c.strb, addr) % RowCount(c);
    hide RowOf, RowCount;
    SameRows(RowCount(c), RowOf(c.strb, addr), n);
  }

  // Word g of the first k bursts carries bytes g * strb .. of the frame.
  predicate Packed(strb: nat, bytes: seq<Byte>, total: nat, beats: seq<W.WBeat>)
    requires total <= |bytes|
  {
    forall g :: 0 <= g < |beats| ==> GoodWBeat(strb, bytes, total, At(strb, 0, g), beats[g])
  }

  lemma {:induction false} JobPacked(c: Config, d: Desc, bytes: seq<Byte>, bursts: seq<Issued>, k: nat)
    requires c.Ok() && !c.unaligned && GoodBursts(c, d, bytes, bursts) && AllComplete(c, bursts) && k <= |bursts|
    ensures Packed(c.strb, bytes, Total(d.len, bytes), JobBeats(bursts[..k]))
  {
    if 0 < k {
      JobPacked(c, d, bytes, bursts, k - 1);
      SofarNext(c, bursts, k - 1);
      BurstPlace(c, d, bursts, k - 1);
      var n, last := Sofar(bursts, k - 1), bursts[k - 1];
      assert GoodBurst(c, d, bytes, Total(d.len, bytes), last);
      assert BurstStart(c, d, last.burst) == n * c.strb;
      hide LoadAddr, GoodBursts, GoodWBeats, BurstBeats, Geometry, Total, JobBeats, BurstStart, OnPlan, Complete,
        Packed;
      PackedAppend(c.strb, bytes, Total(d.len, bytes), JobBeats(bursts[..k - 1]), BurstBeats(c, last.burst),
                   last.beats);
    }
  }

  lemma PackedAppend(strb: nat, bytes: seq<Byte>, total: nat, front: seq<W.WBeat>, count: nat, beats: seq<W.WBeat>)
    requires total <= |bytes| && Packed(strb, bytes, total, front)
    requires GoodWBeats(strb, bytes, total, |front| * strb, count, beats)
    ensures Packed(strb, bytes, total, front + beats)
  {
    hide GoodWBeat, At;
    forall g | 0 <= g < |front| + |beats| ensures GoodWBeat(strb, bytes, total, At(strb, 0, g), (front + beats)[g]) {
      if |front| <= g {
        AtShift(strb, |front|, g - |front|);
      }
    }
  }

  lemma AtShift(strb: nat, n: nat, j: nat)
    ensures At(strb, n * strb, j) == At(strb, 0, n + j)
  {
  }

  // ----- The memory after a job -----

  lemma RowsDistinct(rows: nat, first: nat, a: nat, b: nat)
    requires 0 < rows && a < rows && b < rows
    ensures (first + a) % rows == (first + b) % rows ==> a == b
  {
    DivBounds(first + a, rows);
    DivBounds(first + b, rows);
    MulOrder((first + a) / rows, (first + b) / rows, rows);
  }

  // Where byte y past an aligned base lies.
  lemma ByteOf(c: Config, mem: seq<Word>, base: nat, y: nat)
    requires c.Ok() && MemoryOk(c.strb, mem) && Aligned(c.strb, base)
    ensures ByteAt(c.strb, mem, base + y) == WordAt(mem, RowOf(c.strb, base) + y / c.strb)[y % c.strb]
    ensures y == At(c.strb, 0, y / c.strb) + y % c.strb
  {
    DivBounds(base, c.strb);
    AddMultiple(y, base / c.strb, c.strb);
    assert base + y == y + base / c.strb * c.strb;
    hide WordAt, Geometry;
  }

  // One more word of a packed run: it changes exactly its own bytes below `total`.
  lemma WordStored(c: Config, mem: seq<Word>, base: nat, bytes: seq<Byte>, total: nat, g: nat, w: W.WBeat, y: nat)
    requires c.Ok() && MemoryOk(c.strb, mem) && |mem| == RowCount(c) && Aligned(c.strb, base) && g < |mem|
    requires total <= |bytes| && GoodWBeat(c.strb, bytes, total, At(c.strb, 0, g), w) && y / c.strb < |mem|
    ensures BeatFits(c, w)
    ensures ByteAt(c.strb, WriteWord(c, mem, (RowOf(c.strb, base) + g) % |mem|, w), base + y)
         == (if y / c.strb == g && y < total then bytes[y] else ByteAt(c.strb, mem, base + y))
  {
    var first := RowOf(c.strb, base);
    var m' := WriteWord(c, mem, (first + g) % |mem|, w);
    ByteOf(c, mem, base, y);
    ByteOf(c, m', base, y);
    RowsDistinct(|mem|, first, g, y / c.strb);
    hide RowOf, RowCount, Geometry, ByteAt, Aligned, At;
    WordWraps(mem, first + g);
    WordWraps(m', first + g);
    Written(c, mem, first, g, w, y / c.strb, y % c.strb);
  }

  lemma Written(c: Config, mem: seq<Word>, first: nat, g: nat, w: W.WBeat, row: nat, lane: nat)
    requires MemoryOk(c.strb, mem) && BeatFits(c, w) && lane < c.strb
    requires (first + g) % |mem| == (first + row) % |mem| ==> g == row
    ensures WordAt(WriteWord(c, mem, (first + g) % |mem|, w), first + row)[lane]
         == (if row == g && w.strb[lane] then w.data[lane] else WordAt(mem, first + row)[lane])
  {
    var at, seen := (first + g) % |mem|, (first + row) % |mem|;
    DivUnique(at, |mem|, 0);
    assert WriteWord(c, mem, at, w) == mem[at := Merge(mem[at], w)];
    assert WordAt(mem, first + row) == mem[seen];
    assert WordAt(mem[at := Merge(mem[at], w)], first + row) == mem[at := Merge(mem[at], w)][seen];
    assert row == g ==> at == seen;
    hide *;
  }

  // A packed run of words from an aligned base stores exactly its first `total` bytes.
  lemma {:induction false} RunStored(c: Config, mem: seq<Word>, base: nat, bytes: seq<Byte>, total: nat,
                                     beats: seq<W.WBeat>, y: nat)
    requires c.Ok() && MemoryOk(c.strb, mem) && |mem| == RowCount(c) && Aligned(c.strb, base) && |beats| <= |mem|
    requires total <= |bytes| && Packed(c.strb, bytes, total, beats) && y / c.strb < |mem| && AllFit(c, beats)
    ensures ByteAt(c.strb, WriteAll(c, mem, Rows(RowCount(c), RowOf(c.strb, base), |beats|), beats), base + y)
         == (if y / c.strb < |beats| && y < total then bytes[y] else ByteAt(c.strb, mem, base + y))
    decreases |beats|
  {
    if beats != [] {
      var n := |beats| - 1;
      var rows := Rows(RowCount(c), RowOf(c.strb, base), n + 1);
      assert rows[..n] == Rows(RowCount(c), RowOf(c.strb, base), n);
      assert rows[n] == (RowOf(c.strb, base) + n) % |mem|;
      RunStored(c, mem, base, bytes, total, beats[..n], y);
      hide ByteAt, RowOf, RowCount, Geometry, Aligned, GoodWBeat, WriteWord, BeatFits, Rows, At;
      assert GoodWBeat(c.strb, bytes, total, At(c.strb, 0, n), beats[n]);
      WordStored(c, WriteAll(c, mem, rows[..n], beats[..n]), base, bytes, total, n, beats[n], y);
    }
  }

  // How many words a finished job takes.
  lemma JobExtent(c: Config, job: Job)
    requires c.Ok() && !c.unaligned && GoodJob(c, job)
    ensures var n := |JobBeats(job.bursts)|;
            && AllComplete(c, job.bursts) && 0 < n
            && JobTotal(job) <= n * c.strb && (n - 1) * c.strb < job.desc.len
  {
    var m := |job.bursts| - 1;
    var cur := job.bursts[m].burst;
    hide FrameOk, EntriesOk, GoodBurst;
    BurstPlace(c, job.desc, job.bursts, m);
    SofarNext(c, job.bursts, m);
    assert job.bursts[..m + 1] == job.bursts;
    BeatPlace(c.strb, cur.addr, cur.bytes, BurstBeats(c, cur) - 1);
    MulStep(BurstBeats(c, cur) - 1, c.strb);
    MulSum(Sofar(job.bursts, m), BurstBeats(c, cur), c.strb);
    MulSum(Sofar(job.bursts, m), BurstBeats(c, cur) - 1, c.strb);
    assert Sent(c, job.desc, job.bursts) == cur.addr + cur.bytes - LoadAddr(c, job.desc);
    assert |JobBeats(job.bursts)| == Sofar(job.bursts, m) + BurstBeats(c, cur);
    hide *;
  }

  lemma PackedFits(c: Config, bytes: seq<Byte>, total: nat, beats: seq<W.WBeat>)
    requires c.Ok() && total <= |bytes| && Packed(c.strb, bytes, total, beats)
    ensures AllFit(c, beats)
  {
    hide At;
    forall g | 0 <= g < |beats| ensures BeatFits(c, beats[g]) {
      assert GoodWBeat(c.strb, bytes, total, At(c.strb, 0, g), beats[g]);
    }
  }

  lemma SpaceRows(c: Config, n: nat, len: nat, y: nat)
    requires c.Ok() && (n - 1) * c.strb < len <= c.space && y < c.space
    ensures n <= RowCount(c) && y / c.strb < RowCount(c)
  {
    ModOfMultiple(c.space, PAGE, c.strb);
    DivBounds(c.space, c.strb);
    DivBounds(y, c.strb);
    hide Geometry;
    MulOrder(RowCount(c), n - 1, c.strb);
    MulOrder(RowCount(c), y / c.strb, c.strb);
  }

  // What a finished job does to the memory: the first min(len, frame length) bytes of its frame appear
  // at the descriptor's address, every other byte keeps its value.
  lemma JobStored(c: Config, mem: seq<Word>, job: Job, y: nat)
    requires c.Ok() && !c.unaligned && MemoryOk(c.strb, mem) && |mem| == RowCount(c)
    requires GoodJob(c, job) && job.desc.len <= c.space && y < c.space
    ensures var rows, beats := RowsOf(c, JobAws(c, job.bursts)), JobBeats(job.bursts);
            && |rows| == |beats| && AllFit(c, beats)
            && ByteAt(c.strb, WriteAll(c, mem, rows, beats), LoadAddr(c, job.desc) + y)
               == (if y < JobTotal(job) then Bytes(job.frame)[y] else ByteAt(c.strb, mem, LoadAddr(c, job.desc) + y))
  {
    var m, beats, base := |job.bursts|, JobBeats(job.bursts), LoadAddr(c, job.desc);
    assert job.bursts[..m] == job.bursts;
    JobExtent(c, job);
    LoadAddrAligned(c, job.desc);
    JobRows(c, job.desc, job.bursts, m);
    JobPacked(c, job.desc, Bytes(job.frame), job.bursts, m);
    PackedFits(c, Bytes(job.frame), JobTotal(job), beats);
    SpaceRows(c, |beats|, job.desc.len, y);
    DivBounds(y, c.strb);
    MulOrder(|beats|, y / c.strb, c.strb);
    assert y / c.strb < |beats| || JobTotal(job) <= y;
    hide *;
    RunStored(c, mem, base, Bytes(job.frame), JobTotal(job), beats, y);
  }

  // ----- Several jobs -----

  lemma Assoc<T>(a: seq<T>, b: seq<T>, t: seq<T>)
    ensures a + b + t == a + (b + t)
  {
  }

  lemma {:induction false} RowsOfJoin(c: Config, a: seq<Aw>, b: seq<Aw>)
    requires c.Ok()
    ensures RowsOf(c, a + b) == RowsOf(c, a) + RowsOf(c, b)
    decreases |b|
  {
    if b == [] {
      assert a + b == a;
    } else {
      var n := |b| - 1;
      RowsOfJoin(c, a, b[..n]);
      assert a + b == (a + b[..n]) + [b[n]] && b == b[..n] + [b[n]];
      RowsOfMore(c, a + b[..n], b[n]);
      RowsOfMore(c, b[..n], b[n]);
      var last := Rows(RowCount(c), RowOf(c.strb, b[n].addr), b[n].len + 1);
      hide *;
      Assoc(RowsOf(c, a), RowsOf(c, b[..n]), last);
    }
  }

  lemma {:induction false} WriteJoin(c: Config, mem: seq<Word>, ra: seq<nat>, a: seq<W.WBeat>, rb: seq<nat>,
                                     b: seq<W.WBeat>)
    requires MemoryOk(c.strb, mem) && |ra| == |a| && |rb| == |b| && AllFit(c, a) && AllFit(c, b)
    ensures AllFit(c, a + b)
    ensures WriteAll(c, mem, ra + rb, a + b) == WriteAll(c, WriteAll(c, mem, ra, a), rb, b)
    decreases |b|
  {
    if b == [] {
      assert a + b == a && ra + rb == ra;
    } else {
      var n := |b| - 1;
      WriteJoin(c, mem, ra, a, rb[..n], b[..n]);
      assert a + b == (a + b[..n]) + [b[n]] && ra + rb == (ra + rb[..n]) + [rb[n]];
      WriteOneMore(c, mem, ra + rb[..n], a + b[..n], rb[n], b[n]);
      hide WriteWord, BeatFits;
    }
  }

  predicate GoodJobs(c: Config, jobs: seq<Job>)
    requires c.Ok()
  {
    forall k :: 0 <= k < |jobs| ==> GoodJob(c, jobs[k]) && jobs[k].desc.len <= c.space
  }

  // mem0 overwritten by the words of all jobs, in order.
  function MemoryAfter(c: Config, mem0: seq<Word>, jobs: seq<Job>): (m: seq<Word>)
    requires c.Ok() && MemoryOk(c.strb, mem0)
    ensures MemoryOk(c.strb, m) && |m| == |mem0|
  {
    var t := TrafficOf(c, jobs);
    if |RowsOf(c, t.aws)| == |t.beats| && AllFit(c, t.beats) then WriteAll(c, mem0, RowsOf(c, t.aws), t.beats) else mem0
  }

  // Every list of good jobs lines up: as many rows as words.
  predicate LinedUp(c: Config, t: Traffic)
    requires c.Ok()
  {
    |RowsOf(c, t.aws)| == |t.beats| && AllFit(c, t.beats)
  }

  // The memory after all jobs is the memory after all but the last, then the last job stored.
  lemma {:induction false} LastJob(c: Config, mem: seq<Word>, jobs: seq<Job>)
    requires c.Ok() && !c.unaligned && MemoryOk(c.strb, mem) && |mem| == RowCount(c) && GoodJobs(c, jobs)
    ensures LinedUp(c, TrafficOf(c, jobs))
    ensures jobs != [] ==>
              var job := jobs[|jobs| - 1];
              && |RowsOf(c, JobAws(c, job.bursts))| == |JobBeats(job.bursts)| && AllFit(c, JobBeats(job.bursts))
              && MemoryAfter(c, mem, jobs)
                 == WriteAll(c, MemoryAfter(c, mem, jobs[..|jobs| - 1]), RowsOf(c, JobAws(c, job.bursts)),
                             JobBeats(job.bursts))
    decreases |jobs|
  {
    if jobs != [] {
      var front, job := jobs[..|jobs| - 1], jobs[|jobs| - 1];
      LastJob(c, mem, front);
      JobStored(c, mem, job, 0);
      var t := TrafficOf(c, front);
      RowsOfJoin(c, t.aws, JobAws(c, job.bursts));
      hide RowsOf, JobAws, JobBeats, WriteAll, AllFit, GoodJob;
      WriteJoin(c, mem, RowsOf(c, t.aws), t.beats, RowsOf(c, JobAws(c, job.bursts)), JobBeats(job.bursts));
    }
  }

  // ----- Reading back -----

  // The kept bytes of a stream, in order.
  function StreamBytes(beats: seq<Beat>): seq<Byte> {
    if beats == [] then []
    else
      var b := beats[|beats| - 1];
      StreamBytes(beats[..|beats| - 1]) + (if b.keep <= |b.data| then b.data[..b.keep] else b.data)
  }

  function ByteRange(strb: nat, mem: seq<Word>, addr: nat, n: nat): (s: seq<Byte>)
    requires MemoryOk(strb, mem)
    ensures |s| == n
    ensures forall i :: 0 <= i < n ==> s[i] == ByteAt(strb, mem, addr + i)
  {
    if n == 0 then [] else ByteRange(strb, mem, addr, n - 1) + [ByteAt(strb, mem, addr + n - 1)]
  }

  lemma {:induction false} BeatsAreBytes(c: Config, mem: seq<Word>, d: Desc, beats: seq<Beat>)
    requires c.Ok() && MemoryOk(c.strb, mem) && |beats| <= R.OutBeats(c, d) && RP.GoodBeats(c, mem, d, beats)
    ensures StreamBytes(beats) == ByteRange(c.strb, mem, LoadAddr(c, d), Min(d.len, |beats| * c.strb))
    decreases |beats|
  {
    if beats != [] {
      var j := |beats| - 1;
      GoodPrefix(c, mem, d, beats, j);
      LastBeat(c, mem, d, beats);
      StreamStep(beats);
      hide *;
      BeatsAreBytes(c, mem, d, beats[..j]);
      RangeJoin(c.strb, mem, LoadAddr(c, d), j * c.strb, R.KeepCount(c.strb, d.len, j), beats[j].data[..beats[j].keep]);
    } else {
      NoBytes(c, mem, d, beats);
    }
  }

  lemma NoBytes(c: Config, mem: seq<Word>, d: Desc, beats: seq<Beat>)
    requires c.Ok() && MemoryOk(c.strb, mem) && beats == []
    ensures StreamBytes(beats) == ByteRange(c.strb, mem, LoadAddr(c, d), Min(d.len, |beats| * c.strb))
  {
    assert |beats| * c.strb == 0;
    hide ByteAt, LoadAddr, Geometry;
  }

  lemma GoodPrefix(c: Config, mem: seq<Word>, d: Desc, beats: seq<Beat>, j: nat)
    requires c.Ok() && MemoryOk(c.strb, mem) && |beats| <= R.OutBeats(c, d) && RP.GoodBeats(c, mem, d, beats) &&
      j <= |beats|
    ensures RP.GoodBeats(c, mem, d, beats[..j])
  {
    hide R.GoodBeat, R.OutBeats;
  }

  // The last beat's kept bytes and where they lie.
  lemma LastBeat(c: Config, mem: seq<Word>, d: Desc, beats: seq<Beat>)
    requires c.Ok() && MemoryOk(c.strb, mem) && |beats| <= R.OutBeats(c, d) && RP.GoodBeats(c, mem, d, beats) &&
      beats != []
    ensures var j, b := |beats| - 1, beats[|beats| - 1];
      var keep := R.KeepCount(c.strb, d.len, j);
      && b.keep == keep <= |b.data|
      && (forall i :: 0 <= i < keep ==> b.data[i] == ByteAt(c.strb, mem, LoadAddr(c, d) + j * c.strb + i))
      && Min(d.len, j * c.strb) == j * c.strb && Min(d.len, |beats| * c.strb) == j * c.strb + keep
  {
    var j := |beats| - 1;
    assert R.GoodBeat(c, mem, d, j, beats[j]);
    R.OutBounds(c.strb, d.len, j);
    MulStep(j, c.strb);
    hide ByteAt, LoadAddr, Geometry, RP.GoodBeats, R.OutBeats;
  }

  lemma StreamStep(beats: seq<Beat>)
    requires beats != [] && beats[|beats| - 1].keep <= |beats[|beats| - 1].data|
    ensures var b := beats[|beats| - 1];
      StreamBytes(beats) == StreamBytes(beats[..|beats| - 1]) + b.data[..b.keep]
  {
  }

  lemma RangeJoin(strb: nat, mem: seq<Word>, addr: nat, n: nat, m: nat, tail: seq<Byte>)
    requires MemoryOk(strb, mem) && |tail| == m
    requires forall i :: 0 <= i < m ==> tail[i] == ByteAt(strb, mem, addr + n + i)
    ensures ByteRange(strb, mem, addr, n) + tail == ByteRange(strb, mem, addr, n + m)
  {
    var got, all := ByteRange(strb, mem, addr, n) + tail, ByteRange(strb, mem, addr, n + m);
    hide ByteAt;
    forall i | 0 <= i < n + m ensures got[i] == all[i] {
    }
  }

  // A served read descriptor streamed exactly its range of the memory.
  lemma ServedIsRange(c: Config, mem: seq<Word>, d: Desc, v: RP.Served)
    requires c.Ok() && MemoryOk(c.strb, mem) && RP.GoodService(c, mem, d, v)
    ensures StreamBytes(v.beats) == ByteRange(c.strb, mem, LoadAddr(c, d), d.len)
  {
    BeatsAreBytes(c, mem, d, v.beats);
    DivBounds(d.len - 1, c.strb);
    MulStep((d.len - 1) / c.strb, c.strb);
    assert d.len <= R.OutBeats(c, d) * c.strb;
    hide ByteAt, LoadAddr, Geometry, StreamBytes, RP.GoodBeats, R.OutBeats;
  }

  // The memory once all jobs are done, byte by byte: inside what the last job stored it is that job's
  // frame, elsewhere it is what the jobs before left.
  lemma StoredByte(c: Config, mem0: seq<Word>, jobs: seq<Job>, y: nat)
    requires c.Ok() && !c.unaligned && MemoryOk(c.strb, mem0) && |mem0| == RowCount(c) && GoodJobs(c, jobs) &&
      y < c.space
    requires jobs != []
    ensures var front, job := jobs[..|jobs| - 1], jobs[|jobs| - 1];
            && GoodJob(c, job)
            && ByteAt(c.strb, MemoryAfter(c, mem0, jobs), LoadAddr(c, job.desc) + y)
               == (if y < JobTotal(job) then Bytes(job.frame)[y]
                   else ByteAt(c.strb, MemoryAfter(c, mem0, front), LoadAddr(c, job.desc) + y))
  {
    hide *;
    FrontGood(c, jobs);
    LastJob(c, mem0, jobs);
    JobStored(c, MemoryAfter(c, mem0, jobs[..|jobs| - 1]), jobs[|jobs| - 1], y);
  }

  lemma FrontGood(c: Config, jobs: seq<Job>)
    requires c.Ok() && GoodJobs(c, jobs) && jobs != []
    ensures GoodJobs(c, jobs[..|jobs| - 1]) && GoodJob(c, jobs[|jobs| - 1]) && jobs[|jobs| - 1].desc.len <= c.space
  {
    hide GoodJob;
  }

  lemma StoredRange(c: Config, mem0: seq<Word>, jobs: seq<Job>, offset: nat, n: nat)
    requires c.Ok() && !c.unaligned && MemoryOk(c.strb, mem0) && |mem0| == RowCount(c) && GoodJobs(c, jobs) &&
      jobs != []
    requires offset + n <= JobTotal(jobs[|jobs| - 1])
    ensures var job := jobs[|jobs| - 1];
            ByteRange(c.strb, MemoryAfter(c, mem0, jobs), LoadAddr(c, job.desc) + offset, n)
            == Bytes(job.frame)[offset..offset + n]
  {
    var job := jobs[|jobs| - 1];
    var got := ByteRange(c.strb, MemoryAfter(c, mem0, jobs), LoadAddr(c, job.desc) + offset, n);
    var want := Bytes(job.frame)[offset..offset + n];
    assert job.desc.len <= c.space;
    hide GoodJob, MemoryAfter, LoadAddr, ByteAt, Bytes, Geometry;
    forall i | 0 <= i < n ensures got[i] == want[i] {
      StoredByte(c, mem0, jobs, offset + i);
    }
  }

  // The descriptor read back lies inside what the job stored, at this offset.
  predicate Inside(c: Config, job: Job, c': Config, d: Desc, offset: nat)
    requires c.Ok() && c'.Ok() && GoodJob(c, job)
  {
    LoadAddr(c', d) == LoadAddr(c, job.desc) + offset && offset + d.len <= JobTotal(job)
  }

  lemma LoadedIs(c: Config, mem0: seq<Word>, jobs: seq<Job>, c': Config, d: Desc, v: RP.Served, offset: nat)
    requires c.Ok() && !c.unaligned && MemoryOk(c.strb, mem0) && |mem0| == RowCount(c) && GoodJobs(c, jobs) &&
      jobs != []
    requires c'.Ok() && c'.strb == c.strb && RP.GoodService(c', MemoryAfter(c, mem0, jobs), d, v)
    requires Inside(c, jobs[|jobs| - 1], c', d, offset)
    ensures StreamBytes(v.beats) == Bytes(jobs[|jobs| - 1].frame)[offset..offset + d.len]
  {
    ServedIsRange(c', MemoryAfter(c, mem0, jobs), d, v);
    StoredRange(c, mem0, jobs, offset, d.len);
    hide RP.GoodService, MemoryAfter, StreamBytes, ByteRange, LoadAddr, GoodJob, Bytes;
  }

  // A run of the write engine against the memory, from reset to rest: the jobs it did and the memory it left.
  predicate StoreRun(c: Config, mem0: seq<Word>, y: System, run: seq<Outside>, jobs: seq<Job>, mem: seq<Word>)
    requires c.Ok() && MemoryOk(c.strb, mem0)
  {
    && IsReset(c, y, mem0) && (forall j :: 0 <= j < |run| ==> InputOk(c, run[j]))
    && var n := AxiStore.After(c, y, run); Resting(n) && jobs == n.history.jobs && mem == n.mem
  }

  // A run of the read engine against a memory holding mem: what it accepted and served.
  predicate LoadRun(c: Config, pipelined: bool, mem: seq<Word>, z: Load.System, run: seq<Load.Outside>, h: RP.History)
    requires c.Ok() && MemoryOk(c.strb, mem)
  {
    Load.IsReset(c, z) && Load.AddressesOk(c, run) && h == Load.After(c, pipelined, mem, z, run).history
  }

  lemma StoreRunLeaves(c: Config, mem0: seq<Word>, y: System, run: seq<Outside>, jobs: seq<Job>, mem: seq<Word>)
    requires c.Ok() && !c.unaligned && MemoryOk(c.strb, mem0) && |mem0| == RowCount(c) &&
      StoreRun(c, mem0, y, run, jobs, mem)
    ensures (forall j :: 0 <= j < |jobs| ==> GoodJob(c, jobs[j])) && mem == MemoryAfter(c, mem0, jobs)
    ensures (forall j :: 0 <= j < |jobs| ==> jobs[j].desc.len <= c.space) ==> GoodJobs(c, jobs)
  {
    StoreCorrect(c, mem0, y, run);
    hide AxiStore.After, IsReset, Resting, RowsOf, WriteAll, GoodJob, TrafficOf, InputOk, AllFit;
  }

  lemma LoadRunServes(c: Config, pipelined: bool, mem: seq<Word>, z: Load.System, run: seq<Load.Outside>,
                      h: RP.History, k: nat)
    requires c.Ok() && MemoryOk(c.strb, mem) && |mem| == RowCount(c) && LoadRun(c, pipelined, mem, z, run, h) &&
      k < |h.served|
    ensures k < |h.accepted| && RP.GoodService(c, mem, h.accepted[k], h.served[k])
  {
    Load.LoadCorrect(c, pipelined, mem, z, run);
    hide Load.After, Load.IsReset, RP.GoodService, Load.AddressesOk;
  }

  lemma SameRowCount(c: Config, c': Config)
    requires c.Ok() && c'.Ok() && c'.strb == c.strb && c'.space == c.space
    ensures RowCount(c') == RowCount(c)
  {
    hide Geometry;
  }

  // Store, then load. A run of the write engine against the memory comes to rest; then a run of the
  // read engine against that memory serves a descriptor lying inside what the last job stored, at any
  // offset and length. The stream carries exactly those bytes of the frame.
  lemma StoreThenLoad(c: Config, mem0: seq<Word>, y: System, run: seq<Outside>, jobs: seq<Job>, mem: seq<Word>,
                      c': Config, pipelined: bool, z: Load.System, run': seq<Load.Outside>, h: RP.History, k: nat,
                      offset: nat)
    requires c.Ok() && !c.unaligned && MemoryOk(c.strb, mem0) && |mem0| == RowCount(c) &&
      StoreRun(c, mem0, y, run, jobs, mem)
    requires jobs != [] && forall j :: 0 <= j < |jobs| ==> jobs[j].desc.len <= c.space
    requires c'.Ok() && c'.strb == c.strb && c'.space == c.space && MemoryOk(c.strb, mem)
    requires LoadRun(c', pipelined, mem, z, run', h) && k < |h.served|
    ensures GoodJob(c, jobs[|jobs| - 1]) && k < |h.accepted|
    ensures Inside(c, jobs[|jobs| - 1], c', h.accepted[k], offset) ==>
              StreamBytes(h.served[k].beats) == Bytes(jobs[|jobs| - 1].frame)[offset..offset + h.accepted[k].len]
  {
    hide *;
    StoreRunLeaves(c, mem0, y, run, jobs, mem);
    SameRowCount(c, c');
    LoadRunServes(c', pipelined, mem, z, run', h, k);
    if Inside(c, jobs[|jobs| - 1], c', h.accepted[k], offset) {
      LoadedIs(c, mem0, jobs, c', h.accepted[k], h.served[k], offset);
    }
  }
}
