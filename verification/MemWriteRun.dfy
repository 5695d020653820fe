// The memory-write segmenter over whole runs.
module MemWriteRun {
  import opened Wrappers
  import opened Arith
  import opened MemWrite
  import opened MemWriteProof
  import OutputFifo

  // Jobs taken with their stream beats, and the TLP beats delivered.
  datatype Hist = Hist(jobs: seq<Job>, delivered: seq<Beat>)

  // A stream beat offered in the clock after a job's last beat finds ready still up and no job.
  predicate Late(w: Writer, x: In) {
    !w.active && Takes(w, x)
  }

  // Start rises between jobs, or is still up before the job's first beat.
  predicate Pulsed(w: Writer, x: In) {
    x.start ==> if w.active then w.op == 0 && !Takes(w, x) else !w.started
  }

  function Taken(w: Writer, x: In, h: Hist): seq<Job> {
    if w.active && Takes(w, x) && h.jobs != [] then
      var job := h.jobs[|h.jobs| - 1];
      h.jobs[..|h.jobs| - 1] + [job.(chunks := job.chunks + [x.chunk.value])]
    else if !w.active && x.start && !w.started then h.jobs + [Job(x.addr, x.len, [])]
    else h.jobs
  }

  function Record(s: System, x: In, h: Hist): Hist {
    Hist(Taken(s.writer, x, h), h.delivered + OutputFifo.Delivered(s.fifo, x.outReady))
  }

  predicate Full(cfg: Config, jobs: seq<Job>)
    requires cfg.Ok()
  {
    forall k :: 0 <= k < |jobs| ==> |jobs[k].chunks| == Beats(cfg, jobs[k].len)
  }

  // The ready flag is one clock behind the half-full flag, and that one clock behind the ring.
  predicate RoomOk(s: System) {
    && |s.fifo.q| <= DEPTH / 2 + 2
    && (!s.fifo.half ==> |s.fifo.q| <= DEPTH / 2)
    && (s.writer.ready ==> |s.fifo.q| <= DEPTH / 2 + 1)
  }

  predicate JobsOk(cfg: Config, w: Writer, jobs: seq<Job>)
    requires cfg.Ok()
  {
    && (w.active ==> jobs != [] && InJob(cfg, w, jobs[|jobs| - 1]) && (w.op == w.cycle ==> !w.ready)
                     && Full(cfg, jobs[..|jobs| - 1]))
    && (!w.active ==> Full(cfg, jobs))
    && (!w.active && jobs != [] ==> w.len == jobs[|jobs| - 1].len)
  }

  // The byte counter: whole beats of the job; after it at least as many.
  predicate BytesOk(cfg: Config, w: Writer, jobs: seq<Job>) {
    && (w.active ==> w.bytes == w.op * cfg.bus)
    && (!w.active && jobs != [] ==> |jobs[|jobs| - 1].chunks| * cfg.bus <= w.bytes)
  }

  predicate Inv(cfg: Config, s: System, h: Hist)
    requires cfg.Ok()
  {
    && JobsOk(cfg, s.writer, h.jobs) && RoomOk(s)
    && h.delivered + OutputFifo.Held(s.fifo) == Expected(cfg, h.jobs)
  }

  lemma RoomKept(cfg: Config, s: System, x: In)
    requires cfg.Ok() && RoomOk(s)
    ensures RoomOk(Next(cfg, s, x)) && (Push(cfg, s.writer, x).Some? ==> |s.fifo.q| < DEPTH)
  {
    hide Ceil, Config.Payload, Config.PerTlp, MakeHeader;
  }

  lemma JobsKept(cfg: Config, w: Writer, half: bool, x: In, h: Hist)
    requires cfg.Ok() && JobsOk(cfg, w, h.jobs)
    ensures JobsOk(cfg, Step(cfg, w, half, x), Taken(w, x, h))
    ensures Expected(cfg, Taken(w, x, h)) == Expected(cfg, h.jobs) + Push(cfg, w, x).AsSeq()
  {
    if w.active && Takes(w, x) {
      TakeKept(cfg, w, half, x, h);
    } else if !w.active && x.start && !w.started {
      StartKept(cfg, w, half, x, h);
    } else {
      WaitKept(cfg, w, half, x, h);
    }
  }

  lemma TakeKept(cfg: Config, w: Writer, half: bool, x: In, h: Hist)
    requires cfg.Ok() && JobsOk(cfg, w, h.jobs) && w.active && Takes(w, x)
    ensures JobsOk(cfg, Step(cfg, w, half, x), Taken(w, x, h))
    ensures Expected(cfg, Taken(w, x, h)) == Expected(cfg, h.jobs) + Push(cfg, w, x).AsSeq()
  {
    var n := |h.jobs| - 1;
    var job := h.jobs[n];
    var job' := job.(chunks := job.chunks + [x.chunk.value]);
    StepInJob(cfg, w, half, x, job);
    MoreBeats(cfg, job, x.chunk.value);
    var jobs' := Taken(w, x, h);
    assert jobs'[..n] == h.jobs[..n] && jobs'[n] == job';
    StepShape(cfg, w, half, x);
    hide BeatOf, BeatsOf, Beats, InJob, Step, Push, Config.Ok, Config.Payload, Config.PerTlp;
    assert (Expected(cfg, h.jobs[..n]) + BeatsOf(cfg, job)) + [BeatOf(cfg, job', |job.chunks|)]
        == Expected(cfg, h.jobs[..n]) + (BeatsOf(cfg, job) + [BeatOf(cfg, job', |job.chunks|)]);
  }

  lemma StepShape(cfg: Config, w: Writer, half: bool, x: In)
    requires cfg.Ok() && w.active && Takes(w, x)
    ensures var w' := Step(cfg, w, half, x);
      && w'.len == w.len && w'.cycle == w.cycle && w'.op == w.op + 1
      && w'.active == (w'.op != w.cycle)
  {
    hide MakeHeader, Config.Payload, Config.PerTlp;
  }

  lemma MoreBeats(cfg: Config, job: Job, c: Chunk)
    requires cfg.Ok()
    ensures var job' := job.(chunks := job.chunks + [c]);
      BeatsOf(cfg, job') == BeatsOf(cfg, job) + [BeatOf(cfg, job', |job.chunks|)]
  {
    hide MakeHeader, AddrOf, Tlps, TlpOf, PlaceOf, Beats, Strobes, Config.Ok;
  }

  lemma StartKept(cfg: Config, w: Writer, half: bool, x: In, h: Hist)
    requires cfg.Ok() && JobsOk(cfg, w, h.jobs) && !w.active && x.start && !w.started
    ensures JobsOk(cfg, Step(cfg, w, half, x), Taken(w, x, h))
    ensures Expected(cfg, Taken(w, x, h)) == Expected(cfg, h.jobs) + Push(cfg, w, x).AsSeq()
  {
    var jobs' := Taken(w, x, h);
    assert jobs'[..|h.jobs|] == h.jobs;
    assert BeatsOf(cfg, jobs'[|h.jobs|]) == [];
    DivBounds(0, cfg.PerTlp());
    assert TlpOf(cfg, 0) == 0 && AddrOf(cfg, x.addr, 0) == x.addr;
    hide Ceil, BeatsOf, TlpOf, AddrOf, Config.Ok, Config.Payload, Config.PerTlp;
  }

  lemma WaitKept(cfg: Config, w: Writer, half: bool, x: In, h: Hist)
    requires cfg.Ok() && JobsOk(cfg, w, h.jobs)
    requires !(w.active && Takes(w, x)) && !(!w.active && x.start && !w.started)
    ensures JobsOk(cfg, Step(cfg, w, half, x), Taken(w, x, h))
    ensures Expected(cfg, Taken(w, x, h)) == Expected(cfg, h.jobs) + Push(cfg, w, x).AsSeq()
  {
    hide Ceil, Expected, TlpOf, AddrOf, Config.Ok, Config.Payload, Config.PerTlp, Tlps;
  }

  lemma NextKept(cfg: Config, s: System, x: In, h: Hist)
    requires cfg.Ok() && Inv(cfg, s, h)
    ensures Inv(cfg, Next(cfg, s, x), Record(s, x, h))
  {
    RoomKept(cfg, s, x);
    JobsKept(cfg, s.writer, s.fifo.half, x, h);
    var push := Push(cfg, s.writer, x);
    OutputFifo.StepKeepsOrder(DEPTH, s.fifo, push, x.outReady);
    hide OutputFifo.Step, OutputFifo.Held, OutputFifo.Delivered, Push, Step, JobsOk, RoomOk, Taken, Expected, Config.Ok;
    Regroup(h.delivered, OutputFifo.Delivered(s.fifo, x.outReady), OutputFifo.Held(Next(cfg, s, x).fifo),
            OutputFifo.Held(s.fifo), push.AsSeq());
  }

  lemma Regroup<T>(d: seq<T>, gone: seq<T>, held': seq<T>, held: seq<T>, push: seq<T>)
    requires gone + held' == held + push
    ensures (d + gone) + held' == (d + held) + push
  {
    assert (d + gone) + held' == d + (gone + held');
    assert d + (held + push) == (d + held) + push;
  }

  function After(cfg: Config, s: System, xs: seq<In>): System
    requires cfg.Ok()
    decreases |xs|
  {
    if xs == [] then s else After(cfg, Next(cfg, s, xs[0]), xs[1..])
  }

  function Recorded(cfg: Config, s: System, xs: seq<In>, h: Hist): Hist
    requires cfg.Ok()
    decreases |xs|
  {
    if xs == [] then h else Recorded(cfg, Next(cfg, s, xs[0]), xs[1..], Record(s, xs[0], h))
  }

  lemma {:induction false} RunKept(cfg: Config, s: System, xs: seq<In>, h: Hist)
    requires cfg.Ok() && Inv(cfg, s, h)
    ensures Inv(cfg, After(cfg, s, xs), Recorded(cfg, s, xs, h))
    decreases |xs|
  {
    if xs != [] {
      NextKept(cfg, s, xs[0], h);
      RunKept(cfg, Next(cfg, s, xs[0]), xs[1..], Record(s, xs[0], h));
      hide Inv, Next, Record;
    }
  }

  const RESET: System := System(Writer(false, false, 0, 0, 0, 0, 0, false, 0), OutputFifo.Fifo([], false, None))

  const NOTHING: Hist := Hist([], [])

  lemma ResetOk(cfg: Config)
    requires cfg.Ok()
    ensures Inv(cfg, RESET, NOTHING) && BytesOk(cfg, RESET.writer, [])
  {
  }

  // Over every run the beats delivered and those still queued are, job by job and beat by beat, the TLPs of
  // the jobs taken, and no job starts before the one before it is complete.
  lemma WritesCorrect(cfg: Config, xs: seq<In>)
    requires cfg.Ok()
    ensures var s, h := After(cfg, RESET, xs), Recorded(cfg, RESET, xs, NOTHING);
      && h.delivered + OutputFifo.Held(s.fifo) == Expected(cfg, h.jobs)
      && h.delivered <= Expected(cfg, h.jobs)
      && (h.jobs != [] ==> Full(cfg, h.jobs[..|h.jobs| - 1]))
      && (!s.writer.active ==> Full(cfg, h.jobs))
  {
    hide *;
    ResetOk(cfg);
    RunKept(cfg, RESET, xs, NOTHING);
    Meaning(cfg, After(cfg, RESET, xs), Recorded(cfg, RESET, xs, NOTHING));
  }

  // What the invariant says to an observer.
  lemma Meaning(cfg: Config, s: System, h: Hist)
    requires cfg.Ok() && Inv(cfg, s, h)
    ensures h.delivered + OutputFifo.Held(s.fifo) == Expected(cfg, h.jobs) && h.delivered <= Expected(cfg, h.jobs)
    ensures h.jobs != [] ==> Full(cfg, h.jobs[..|h.jobs| - 1])
    ensures !s.writer.active ==> Full(cfg, h.jobs)
  {
    hide Expected, Beats, OutputFifo.Held, Config.Ok, Tlps, TlpOf, AddrOf;
  }

  lemma FullSplit(cfg: Config, jobs: seq<Job>)
    requires cfg.Ok() && jobs != []
    ensures Full(cfg, jobs) <==>
      Full(cfg, jobs[..|jobs| - 1]) && |jobs[|jobs| - 1].chunks| == Beats(cfg, jobs[|jobs| - 1].len)
  {
    hide Beats, Config.Ok;
  }

  // ---- Which stream beats are dropped ----

  // Every stream beat handshaken, late ones included; and those that belong to a job.
  function Accepted(cfg: Config, s: System, xs: seq<In>): seq<Chunk>
    requires cfg.Ok()
    decreases |xs|
  {
    if xs == [] then []
    else (if Takes(s.writer, xs[0]) then [xs[0].chunk.value] else []) + Accepted(cfg, Next(cfg, s, xs[0]), xs[1..])
  }

  function Chunks(jobs: seq<Job>): seq<Chunk> {
    if jobs == [] then [] else Chunks(jobs[..|jobs| - 1]) + jobs[|jobs| - 1].chunks
  }

  function LateOffers(cfg: Config, s: System, xs: seq<In>): nat
    requires cfg.Ok()
    decreases |xs|
  {
    if xs == [] then 0
    else (if Late(s.writer, xs[0]) then 1 else 0) + LateOffers(cfg, Next(cfg, s, xs[0]), xs[1..])
  }

  lemma ChunksMove(w: Writer, x: In, h: Hist)
    requires w.active ==> h.jobs != []
    ensures Chunks(Taken(w, x, h)) == Chunks(h.jobs) + (if w.active && Takes(w, x) then [x.chunk.value] else [])
  {
    var jobs' := Taken(w, x, h);
    if w.active && Takes(w, x) {
      assert jobs'[..|h.jobs| - 1] == h.jobs[..|h.jobs| - 1];
    } else if !w.active && x.start && !w.started {
      assert jobs'[..|h.jobs|] == h.jobs;
    }
  }

  lemma {:induction false} ChunksCounted(cfg: Config, s: System, xs: seq<In>, h: Hist)
    requires cfg.Ok() && Inv(cfg, s, h)
    ensures |Chunks(Recorded(cfg, s, xs, h).jobs)| + LateOffers(cfg, s, xs) == |Chunks(h.jobs)| + |Accepted(cfg, s, xs)|
    ensures LateOffers(cfg, s, xs) == 0 ==>
      Chunks(Recorded(cfg, s, xs, h).jobs) == Chunks(h.jobs) + Accepted(cfg, s, xs)
    decreases |xs|
  {
    hide *;
    RunStep(cfg, s, xs, h);
    if xs != [] {
      NextKept(cfg, s, xs[0], h);
      ActiveHasJob(cfg, s, h);
      ChunksMove(s.writer, xs[0], h);
      ChunksCounted(cfg, Next(cfg, s, xs[0]), xs[1..], Record(s, xs[0], h));
    }
  }

  // One clock of the run's histories.
  lemma RunStep(cfg: Config, s: System, xs: seq<In>, h: Hist)
    requires cfg.Ok()
    ensures xs == [] ==> Recorded(cfg, s, xs, h) == h && LateOffers(cfg, s, xs) == 0 && Accepted(cfg, s, xs) == []
    ensures xs != [] ==>
      var w, x, s' := s.writer, xs[0], Next(cfg, s, xs[0]);
      && Recorded(cfg, s, xs, h) == Recorded(cfg, s', xs[1..], Record(s, x, h)) &&
         Record(s, x, h).jobs == Taken(w, x, h)
      && (Takes(w, x) ==> x.chunk.Some? && Accepted(cfg, s, xs) == [x.chunk.value] + Accepted(cfg, s', xs[1..]))
      && (!Takes(w, x) ==> Accepted(cfg, s, xs) == Accepted(cfg, s', xs[1..]))
      && LateOffers(cfg, s, xs) == (if !w.active && Takes(w, x) then 1 else 0) + LateOffers(cfg, s', xs[1..])
  {
    hide Next, Taken;
  }

  lemma ActiveHasJob(cfg: Config, s: System, h: Hist)
    requires cfg.Ok() && Inv(cfg, s, h)
    ensures s.writer.active ==> h.jobs != []
  {
    hide InJob, Expected;
  }

  // Every accepted stream beat goes into a TLP if and only if none is offered while ready is up and no job
  // is running; a beat offered then is accepted and lost.
  lemma DroppedExactly(cfg: Config, xs: seq<In>)
    requires cfg.Ok()
    ensures Chunks(Recorded(cfg, RESET, xs, NOTHING).jobs) == Accepted(cfg, RESET, xs) <==>
      LateOffers(cfg, RESET, xs) == 0
  {
    ResetOk(cfg);
    ChunksCounted(cfg, RESET, xs, NOTHING);
    assert Chunks([]) == [];
    hide Recorded, Accepted, LateOffers;
  }

  // Such a clock is reachable: a one-beat job, and a second beat right behind it.
  const SMALL: Config := Config(64, 0)

  function Script(k: nat): In {
    var beat := Some(Chunk(7, []));
    match k
    case 0 => In(true, 64, 0, None, true)
    case 1 => In(false, 0, 0, None, true)
    case _ => In(false, 0, 0, beat, true)
  }

  lemma LateOfferHappens()
    ensures SMALL.Ok() && LateOffers(SMALL, RESET, [Script(0), Script(1), Script(2), Script(3)]) == 1
  {
    var run := [Script(0), Script(1), Script(2), Script(3)];
    var s1 := Next(SMALL, RESET, Script(0));
    assert s1.writer.active && s1.writer.cycle == 1 && !s1.writer.ready;
    var s2 := Next(SMALL, s1, Script(1));
    assert s2.writer.active && s2.writer.ready && s2.writer.op == 0;
    var s3 := Next(SMALL, s2, Script(2));
    assert !s3.writer.active && s3.writer.ready;
    var s4 := Next(SMALL, s3, Script(3));
    hide Step, Push, OutputFifo.Step, Next;
    assert run[1..] == [Script(1), Script(2), Script(3)] && run[1..][1..] == [Script(2), Script(3)];
    assert run[1..][1..][1..] == [Script(3)] && run[1..][1..][1..][1..] == [];
    assert LateOffers(SMALL, s4, []) == 0;
    assert LateOffers(SMALL, s3, [Script(3)]) == 1;
    assert LateOffers(SMALL, s2, [Script(2), Script(3)]) == 1;
    assert LateOffers(SMALL, s1, [Script(1), Script(2), Script(3)]) == 1;
  }

  // ---- The done flag ----

  predicate PulsedRun(cfg: Config, s: System, xs: seq<In>)
    requires cfg.Ok()
    decreases |xs|
  {
    xs == [] || (Pulsed(s.writer, xs[0]) && PulsedRun(cfg, Next(cfg, s, xs[0]), xs[1..]))
  }

  lemma BytesKept(cfg: Config, w: Writer, half: bool, x: In, h: Hist)
    requires cfg.Ok() && JobsOk(cfg, w, h.jobs) && BytesOk(cfg, w, h.jobs) && Pulsed(w, x)
    ensures BytesOk(cfg, Step(cfg, w, half, x), Taken(w, x, h))
  {
    MulStep(w.op, cfg.bus);
    hide MakeHeader, Ceil, Config.Payload, Config.PerTlp, Tlps, Beats, TlpOf, AddrOf, Full, Strobes;
  }

  lemma {:induction false} BytesAlways(cfg: Config, s: System, xs: seq<In>, h: Hist)
    requires cfg.Ok() && Inv(cfg, s, h) && BytesOk(cfg, s.writer, h.jobs) && PulsedRun(cfg, s, xs)
    ensures BytesOk(cfg, After(cfg, s, xs).writer, Recorded(cfg, s, xs, h).jobs)
    decreases |xs|
  {
    if xs != [] {
      NextKept(cfg, s, xs[0], h);
      BytesKept(cfg, s.writer, s.fifo.half, xs[0], h);
      hide Inv, Step, Push, Taken, BytesOk, Pulsed, OutputFifo.Step;
      BytesAlways(cfg, Next(cfg, s, xs[0]), xs[1..], Record(s, xs[0], h));
    }
  }

  // The done flag is up exactly when the last job has all its beats.
  lemma DoneExact(cfg: Config, xs: seq<In>)
    requires cfg.Ok() && PulsedRun(cfg, RESET, xs)
    ensures var s, h := After(cfg, RESET, xs), Recorded(cfg, RESET, xs, NOTHING);
      h.jobs != [] && 0 < h.jobs[|h.jobs| - 1].len ==> (Done(s.writer) <==> Full(cfg, h.jobs))
  {
    hide *;
    ResetOk(cfg);
    RunKept(cfg, RESET, xs, NOTHING);
    ResetBytes(cfg);
    BytesAlways(cfg, RESET, xs, NOTHING);
    DoneNow(cfg, After(cfg, RESET, xs), Recorded(cfg, RESET, xs, NOTHING));
  }

  lemma ResetBytes(cfg: Config)
    ensures BytesOk(cfg, RESET.writer, NOTHING.jobs)
  {
  }

  lemma DoneNow(cfg: Config, s: System, h: Hist)
    requires cfg.Ok() && Inv(cfg, s, h) && BytesOk(cfg, s.writer, h.jobs)
    ensures h.jobs != [] && 0 < h.jobs[|h.jobs| - 1].len ==> (Done(s.writer) <==> Full(cfg, h.jobs))
  {
    if h.jobs != [] && 0 < h.jobs[|h.jobs| - 1].len {
      var job := h.jobs[|h.jobs| - 1];
      FullSplit(cfg, h.jobs);
      if |job.chunks| <= Beats(cfg, job.len) {
        DoneMeans(cfg, job.len, |job.chunks|);
      }
    }
    hide Expected, Beats, OutputFifo.Held, Config.Ok, Tlps, TlpOf, AddrOf, Full, RoomOk;
  }

  // Counting whole beats, the bytes reach the length with the last beat and not before.
  lemma DoneMeans(cfg: Config, len: nat, op: nat)
    requires cfg.Ok() && 0 < len && op <= Beats(cfg, len)
    ensures (len <= op * cfg.bus && op * cfg.bus != 0) <==> op == Beats(cfg, len)
  {
    CeilOf(len, cfg.bus);
    DivBounds(len - 1, cfg.bus);
    var c := (len - 1) / cfg.bus + 1;
    MulStep(c - 1, cfg.bus);
    MulOrder(op, c - 1, cfg.bus);
    hide Ceil, Config.Ok;
  }

  // Stream beats accepted since start was last high.
  function SinceStart(cfg: Config, s: System, xs: seq<In>, n: nat): nat
    requires cfg.Ok()
    decreases |xs|
  {
    if xs == [] then n
    else SinceStart(cfg, Next(cfg, s, xs[0]), xs[1..],
                    if xs[0].start then 0 else if Takes(s.writer, xs[0]) then n + 1 else n)
  }

  lemma {:induction false} BytesCount(cfg: Config, s: System, xs: seq<In>, n: nat)
    requires cfg.Ok() && s.writer.bytes == n * cfg.bus
    ensures After(cfg, s, xs).writer.bytes == SinceStart(cfg, s, xs, n) * cfg.bus
    decreases |xs|
  {
    if xs != [] {
      var n' := if xs[0].start then 0 else if Takes(s.writer, xs[0]) then n + 1 else n;
      MulStep(n, cfg.bus);
      BytesNext(cfg, s, xs[0]);
      hide Next, Takes;
      BytesCount(cfg, Next(cfg, s, xs[0]), xs[1..], n');
    }
  }

  lemma BytesNext(cfg: Config, s: System, x: In)
    requires cfg.Ok()
    ensures Next(cfg, s, x).writer.bytes == BytesAfter(cfg, s.writer, x)
  {
    hide Push, OutputFifo.Step, Ceil, Config.Payload;
  }

  // Over every run, starts in running jobs included: the done flag is up exactly when as many beats were
  // accepted since start was last high as the last job needs.
  lemma DoneCounts(cfg: Config, xs: seq<In>)
    requires cfg.Ok()
    ensures var s, h := After(cfg, RESET, xs), Recorded(cfg, RESET, xs, NOTHING);
      h.jobs != [] && 0 < h.jobs[|h.jobs| - 1].len ==>
        (Done(s.writer) <==> Beats(cfg, h.jobs[|h.jobs| - 1].len) <= SinceStart(cfg, RESET, xs, 0))
  {
    ResetOk(cfg);
    RunKept(cfg, RESET, xs, NOTHING);
    assert RESET.writer.bytes == 0 * cfg.bus;
    BytesCount(cfg, RESET, xs, 0);
    var s, h := After(cfg, RESET, xs), Recorded(cfg, RESET, xs, NOTHING);
    hide After, Recorded, SinceStart;
    if h.jobs != [] && 0 < h.jobs[|h.jobs| - 1].len {
      LastLength(cfg, s, h);
      EnoughBeats(cfg, s.writer.len, SinceStart(cfg, RESET, xs, 0));
    }
    hide Inv, Beats;
  }

  lemma LastLength(cfg: Config, s: System, h: Hist)
    requires cfg.Ok() && Inv(cfg, s, h) && h.jobs != []
    ensures s.writer.len == h.jobs[|h.jobs| - 1].len
  {
    hide Expected, Beats, Full, RoomOk;
  }

  lemma EnoughBeats(cfg: Config, len: nat, op: nat)
    requires cfg.Ok() && 0 < len
    ensures (len <= op * cfg.bus && op * cfg.bus != 0) <==> Beats(cfg, len) <= op
  {
    var c := Beats(cfg, len);
    CeilOf(len, cfg.bus);
    DivBounds(len - 1, cfg.bus);
    if c <= op {
      DoneMeans(cfg, len, c);
      MulOrder(c - 1, op, cfg.bus);
      MulStep(c - 1, cfg.bus);
    } else {
      DoneMeans(cfg, len, op);
    }
    hide Ceil, Config.Ok;
  }

  // A start in the clock of the last beat: the job is complete and the flag stays down.
  function Restart(k: nat): In {
    var beat := Some(Chunk(7, []));
    match k
    case 0 => In(true, 128, 0, None, true)
    case 1 => In(false, 0, 0, None, true)
    case 2 => In(false, 0, 0, beat, true)
    case _ => In(true, 0, 0, beat, true)
  }

  // The states that run goes through.
  predicate Passes(k: nat, s: System, h: Hist) {
    var w := s.writer;
    if k == 0 then s == RESET && h == NOTHING
    else if k == 4 then w.bytes == 0 && w.len == 128 && |h.jobs| == 1 && h.jobs[0].len == 128 && |h.jobs[0].chunks| == 2
    else
      && w.active && w.cycle == 2 && w.op == (if k == 3 then 1 else 0) && w.len == 128 && w.ready == (k >= 2)
      && w.started == (k == 1) && !s.fifo.half
      && |h.jobs| == 1 && h.jobs[0].len == 128 && |h.jobs[0].chunks| == w.op
      && (k < 3 ==> s.fifo.q == [])
  }

  lemma Restarts(k: nat, s: System, h: Hist)
    requires k < 4 && Passes(k, s, h)
    ensures Passes(k + 1, Next(SMALL, s, Restart(k)), Record(s, Restart(k), h))
  {
    hide MakeHeader, Strobes, OutputFifo.Delivered;
    var w, x := s.writer, Restart(k);
    assert w.active && k >= 2 ==> Takes(w, x);
    if k == 0 {
      assert Ceil(128, 64) == 2;
    }
  }

  lemma RunOne(cfg: Config, s: System, xs: seq<In>, h: Hist)
    requires cfg.Ok() && xs != []
    ensures var s', h' := Next(cfg, s, xs[0]), Record(s, xs[0], h);
      && After(cfg, s, xs) == After(cfg, s', xs[1..]) && Recorded(cfg, s, xs, h) == Recorded(cfg, s', xs[1..], h')
      && After(cfg, s, []) == s && Recorded(cfg, s, [], h) == h
      && (xs[1..] == [] ==> After(cfg, s, xs) == s' && Recorded(cfg, s, xs, h) == h')
  {
    hide Next, Record;
  }

  function RestartsFrom(k: nat): seq<In>
    decreases 4 - k
  {
    if 4 <= k then [] else [Restart(k)] + RestartsFrom(k + 1)
  }

  lemma {:induction false} PassesOn(k: nat, s: System, h: Hist)
    requires k <= 4 && Passes(k, s, h)
    ensures Passes(4, After(SMALL, s, RestartsFrom(k)), Recorded(SMALL, s, RestartsFrom(k), h))
    decreases 4 - k
  {
    hide Next, Record, Restart, Passes;
    if k < 4 {
      Restarts(k, s, h);
      PassesOn(k + 1, Next(SMALL, s, Restart(k)), Record(s, Restart(k), h));
      assert RestartsFrom(k)[0] == Restart(k) && RestartsFrom(k)[1..] == RestartsFrom(k + 1);
      RunOne(SMALL, s, RestartsFrom(k), h);
    }
  }

  lemma RestartHidesDone()
    ensures var xs := [Restart(0), Restart(1), Restart(2), Restart(3)];
      var s, h := After(SMALL, RESET, xs), Recorded(SMALL, RESET, xs, NOTHING);
      SMALL.Ok() && |h.jobs| == 1 && h.jobs[0].len == 128 && Full(SMALL, h.jobs) && !Done(s.writer)
  {
    hide After, Recorded, Restart;
    PassesOn(0, RESET, NOTHING);
    assert RestartsFrom(2) == [Restart(2), Restart(3)];
    assert RestartsFrom(0) == [Restart(0), Restart(1), Restart(2), Restart(3)];
    assert Beats(SMALL, 128) == 2;
  }
}
