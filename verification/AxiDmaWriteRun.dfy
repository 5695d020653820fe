// axi_dma_wr end to end: over every run, job by job, what appears on the AW and W channels, which
// frame beats are consumed, and which status is reported.
module AxiDmaWriteRun {
  import opened Arith
  import opened Wrappers
  import opened BurstPlanner
  import opened AxiBus
  import opened AxiDma
  import opened AxiDmaWrite
  import opened AxiDmaWriteProof
  import opened AxiDmaWriteStatus
  import OutputFifo

  // The observable past. The last job is under way unless the core is idle.
  datatype History = History(jobs: seq<Job>, accepted: seq<Desc>, consumed: seq<InBeat>, aws: seq<Aw>,
                             delivered: seq<WBeat>, ledger: Ledger)

  const EMPTY := History([], [], [], [], [], NO_LEDGER)

  function JobBeats(bursts: seq<Issued>): seq<WBeat> {
    if bursts == [] then [] else JobBeats(bursts[..|bursts| - 1]) + bursts[|bursts| - 1].beats
  }

  function JobAws(c: Config, bursts: seq<Issued>): seq<Aw>
    requires c.Ok()
  {
    seq(|bursts|, k requires 0 <= k < |bursts| => Aw(bursts[k].burst.addr % c.space,
                                                     BurstBeats(c, bursts[k].burst) - 1))
  }

  // Everything a list of jobs accepted, consumed, put on AW and W, and queued, in order.
  datatype Traffic = Traffic(accepted: seq<Desc>, consumed: seq<InBeat>, aws: seq<Aw>, beats: seq<WBeat>,
                             entries: seq<Entry>)

  function Plus(t: Traffic, d: Traffic): Traffic {
    Traffic(t.accepted + d.accepted, t.consumed + d.consumed, t.aws + d.aws, t.beats + d.beats, t.entries + d.entries)
  }

  function JobAll(c: Config, job: Job): Traffic
    requires c.Ok()
  {
    Traffic([job.desc], job.frame, JobAws(c, job.bursts), JobBeats(job.bursts), job.entries)
  }

  function TrafficOf(c: Config, jobs: seq<Job>): Traffic
    requires c.Ok()
  {
    if jobs == [] then Traffic([], [], [], [], [])
    else Plus(TrafficOf(c, jobs[..|jobs| - 1]), JobAll(c, jobs[|jobs| - 1]))
  }

  predicate Accepts(r: Regs, i: Input) {
    r.state.Idle? && r.descReady && i.descValid
  }

  predicate Consumes(r: Regs, i: Input) {
    r.dataReady && i.dataValid
  }

  function JobsStep(c: Config, e: Engine, jobs: seq<Job>, i: Input): seq<Job>
    requires c.Ok()
  {
    if Accepts(e.core, i) then jobs + [Job(i.desc, [], [], [])]
    else if e.core.state.Idle? || jobs == [] then jobs
    else jobs[..|jobs| - 1] + [JobStep(c, e.core, jobs[|jobs| - 1], i, CoreNow(c, e, i))]
  }

  // What one clock adds to the traffic.
  function Added(e: Engine, i: Input, o: CoreOut): Traffic {
    Traffic(
      if Accepts(e.core, i) then [i.desc] else [],
      if Consumes(e.core, i) then [i.beat] else [],
      if o.issue then [Aw(o.regs.awAddr, o.regs.awLen)] else [],
      o.push.AsSeq(), o.entry.AsSeq())
  }

  function HistoryStep(c: Config, h: History, e: Engine, i: Input): History
    requires c.Ok() && StatusTyped(e.status)
  {
    var o := CoreNow(c, e, i);
    var d := Added(e, i, o);
    History(
      JobsStep(c, e, h.jobs, i), h.accepted + d.accepted, h.consumed + d.consumed, h.aws + d.aws,
      h.delivered + OutputFifo.Delivered(e.fifo, i.wReady),
      LedgerStep(h.ledger, e.status, o.entry, o.issue, i))
  }

  // ----- The invariant -----

  predicate CoreInv(c: Config, r: Regs, jobs: seq<Job>)
    requires c.Ok()
  {
    && (r.dataReady ==> r.state.Write? || r.state.DropData?)
    && (!r.state.Idle? ==> jobs != [] && JobInv(c, r, jobs[|jobs| - 1]))
    && (forall k :: 0 <= k < |jobs| - (if r.state.Idle? then 0 else 1) ==> GoodJob(c, jobs[k]))
  }

  // Half-full is a cycle late on both sides, yet at most 18 of the 32 slots are ever used.
  predicate RoomInv(e: Engine) {
    var n := |e.fifo.q|;
    n <= 18 && (!e.fifo.half ==> n <= 16) && (e.core.dataReady && e.core.state.Write? ==> n <= 17)
  }

  predicate TrafficInv(c: Config, e: Engine, h: History)
    requires c.Ok()
  {
    TrafficOf(c, h.jobs) ==
    Traffic(h.accepted, h.consumed, h.aws, h.delivered + OutputFifo.Held(e.fifo), h.ledger.pushed)
  }

  predicate EngineInv(c: Config, e: Engine, h: History)
    requires c.Ok()
  {
    && StatusTyped(e.status) && CoreInv(c, e.core, h.jobs) && RoomInv(e) && TrafficInv(c, e, h)
    && StatusInv(e.status, h.ledger, e.core.state.Write?)
  }

  // ----- Its preservation -----

  // Who may write the status FIFO and the output FIFO, and when.
  predicate Flows(r: Regs, i: Input, room: bool, av: bool, o: CoreOut) {
    && (o.issue ==> av && !r.state.Write? && o.regs.state.Write? && o.entry.None? && o.push.None?)
    && (o.entry.Some? ==> r.state.Write? && !o.regs.state.Write?)
    && (!o.issue && o.entry.None? ==> o.regs.state.Write? == r.state.Write?)
    && (o.issue ==> r.state.Start?)
    && (r.state.Idle? ==> o.push.None? && o.entry.None? && !r.dataReady)
    && (o.push.Some? ==> (r.state.Write? && r.dataReady) || room)
    && (o.regs.dataReady && o.regs.state.Write? ==> room)
    && (r.state.Idle? ==> !o.regs.dataReady && o.regs.state == (if Accepts(r, i) then Start else Idle))
  }

  lemma RestFlows(c: Config, r: Regs, i: Input, room: bool, av: bool)
    requires c.Ok() && (r.dataReady ==> r.state.Write? || r.state.DropData?)
    ensures r.state.Idle? ==> Flows(r, i, room, av, IdleStep(c, r, i, av))
    ensures r.state.FinishBurst? ==> Flows(r, i, room, av, FinishStep(c, r, i, room, av))
    ensures r.state.DropData? ==> Flows(r, i, room, av, DropStep(r, i, av))
  {
    hide BurstLen, NextBurst, LoadAddr, LastOffset, CycleCount, Advance, LowMask, ZeroWord, CycleSize, FitsBelow,
      Geometry;
  }

  lemma StartFlows(c: Config, r: Regs, i: Input, room: bool, av: bool)
    requires c.Ok() && r.state.Start? && (r.dataReady ==> r.state.Write? || r.state.DropData?)
    ensures Flows(r, i, room, av, StartStep(c, r, i, room, av))
  {
    hide BurstLen, NextBurst, LoadAddr, LastOffset, CycleCount, Advance, LowMask, ZeroWord, CycleSize, FitsBelow,
      Geometry;
  }

  lemma WriteFlows(c: Config, r: Regs, i: Input, room: bool, av: bool)
    requires c.Ok() && r.state.Write? && r.inActive
    ensures Flows(r, i, room, av, WriteStep(c, r, i, room, av))
  {
    hide BurstLen, NextBurst, LoadAddr, LastOffset, CycleCount, Advance, LowMask, ZeroWord, CycleSize, FitsBelow,
      Geometry;
  }

  // Who may write the status FIFO and the output FIFO, and when.
  lemma CoreFlow(c: Config, r: Regs, i: Input, room: bool, av: bool)
    requires c.Ok() && (r.state.Write? ==> r.inActive) && (r.dataReady ==> r.state.Write? || r.state.DropData?)
    ensures var o := CoreStep(c, r, i, room, av);
            && (o.issue ==> av && !r.state.Write? && o.regs.state.Write? && o.entry.None? && o.push.None?)
            && (o.entry.Some? ==> r.state.Write? && !o.regs.state.Write?)
            && (!o.issue && o.entry.None? ==> o.regs.state.Write? == r.state.Write?)
            && (o.issue ==> r.state.Start?)
            && (r.state.Idle? ==> o.push.None? && o.entry.None? && !r.dataReady)
            && (o.push.Some? ==> (r.state.Write? && r.dataReady) || room)
            && (o.regs.dataReady && o.regs.state.Write? ==> room)
            && (r.state.Idle? ==> !o.regs.dataReady && o.regs.state == (if Accepts(r, i) then Start else Idle))
  {
    hide IdleStep, StartStep, WriteStep, FinishStep, DropStep;
    RestFlows(c, r, i, room, av);
    if r.state.Start? {
      StartFlows(c, r, i, room, av);
    } else if r.state.Write? {
      WriteFlows(c, r, i, room, av);
    }
  }

  lemma RoomKept(c: Config, e: Engine, i: Input)
    requires c.Ok() && StatusTyped(e.status) && RoomInv(e)
    requires e.core.dataReady ==> e.core.state.Write? || e.core.state.DropData?
    requires e.core.state.Write? ==> e.core.inActive
    ensures RoomInv(EngineStep(c, e, i))
    ensures CoreNow(c, e, i).push.Some? ==> |e.fifo.q| < FIFO_DEPTH
  {
    CoreFlow(c, e.core, i, !e.fifo.half, e.status.av);
    hide CoreStep, StatusNow, Config.Ok;
  }

  lemma JobTraffic(c: Config, r: Regs, job: Job, i: Input, o: CoreOut)
    requires c.Ok() && (o.push.Some? ==> job.bursts != []) && (o.issue ==> o.push.None?)
    requires var job' := JobStep(c, r, job, i, o);
             o.issue ==> (
               Aw(o.regs.awAddr, o.regs.awLen)
               == Aw(job'.bursts[|job.bursts|].burst.addr % c.space,
                     BurstBeats(c, job'.bursts[|job.bursts|].burst) - 1))
    ensures var job' := JobStep(c, r, job, i, o);
            && job'.desc == job.desc
            && job'.frame == job.frame + (if r.dataReady && i.dataValid then [i.beat] else [])
            && JobAws(c, job'.bursts) == JobAws(c, job.bursts) +
               (if o.issue then [Aw(o.regs.awAddr, o.regs.awLen)] else [])
            && JobBeats(job'.bursts) == JobBeats(job.bursts) + o.push.AsSeq()
            && job'.entries == job.entries + o.entry.AsSeq()
  {
    hide BurstBeats, NextBurst, LoadAddr, Sent, Config.Ok;
    var job' := JobStep(c, r, job, i, o);
    if o.issue {
      assert job'.bursts[..|job.bursts|] == job.bursts;
    } else if o.push.Some? {
      var n := |job.bursts| - 1;
      assert job'.bursts[..n] == job.bursts[..n];
      assert JobBeats(job.bursts) == JobBeats(job.bursts[..n]) + job.bursts[n].beats;
    }
  }

  lemma PlusAssoc(t: Traffic, d: Traffic, x: Traffic)
    ensures Plus(Plus(t, d), x) == Plus(t, Plus(d, x))
  {
    assert (t.accepted + d.accepted) + x.accepted == t.accepted + (d.accepted + x.accepted);
    assert (t.consumed + d.consumed) + x.consumed == t.consumed + (d.consumed + x.consumed);
    assert (t.aws + d.aws) + x.aws == t.aws + (d.aws + x.aws);
    assert (t.beats + d.beats) + x.beats == t.beats + (d.beats + x.beats);
    assert (t.entries + d.entries) + x.entries == t.entries + (d.entries + x.entries);
  }

  lemma WriteActive(c: Config, r: Regs, jobs: seq<Job>)
    requires c.Ok() && CoreInv(c, r, jobs)
    ensures r.state.Write? ==> r.inActive
  {
    hide GoodSoFar, InBurst, GoodJob, EntriesOk, FrameOk, AddressOk, Sent, LoadAddr, At, BurstStart;
  }

  lemma IdleTraffic(c: Config, e: Engine, jobs: seq<Job>, i: Input)
    requires c.Ok() && e.core.state.Idle? && !e.core.dataReady
    ensures TrafficOf(c, JobsStep(c, e, jobs, i)) == Plus(TrafficOf(c, jobs), Added(e, i, CoreNow(c, e, i)))
  {
    CoreFlow(c, e.core, i, !e.fifo.half, e.status.av);
    hide CoreStep, BurstBeats, Config.Ok;
    assert Accepts(e.core, i) ==> JobsStep(c, e, jobs, i)[..|jobs|] == jobs;
  }

  lemma BusyTraffic(c: Config, e: Engine, jobs: seq<Job>, i: Input)
    requires c.Ok() && !c.unaligned && CoreInv(c, e.core, jobs) && !e.core.state.Idle?
    requires CoreNow(c, e, i).push.Some? ==> jobs[|jobs| - 1].bursts != []
    ensures TrafficOf(c, JobsStep(c, e, jobs, i)) == Plus(TrafficOf(c, jobs), Added(e, i, CoreNow(c, e, i)))
  {
    var o, n := CoreNow(c, e, i), |jobs| - 1;
    var jobs' := JobsStep(c, e, jobs, i);
    LastTraffic(c, e, jobs[n], i);
    assert jobs'[..n] == jobs[..n] && jobs'[n] == JobStep(c, e.core, jobs[n], i, o);
    hide CoreInv, CoreStep, JobStep, JobAll, Added, Plus;
    PlusAssoc(TrafficOf(c, jobs[..n]), JobAll(c, jobs[n]), Added(e, i, o));
  }

  lemma LastTraffic(c: Config, e: Engine, job: Job, i: Input)
    requires c.Ok() && !c.unaligned && CoreInv(c, e.core, [job]) && !e.core.state.Idle?
    requires CoreNow(c, e, i).push.Some? ==> job.bursts != []
    ensures JobAll(c, JobStep(c, e.core, job, i, CoreNow(c, e, i))) ==
      Plus(JobAll(c, job), Added(e, i, CoreNow(c, e, i)))
  {
    var o := CoreNow(c, e, i);
    WriteActive(c, e.core, [job]);
    CoreFlow(c, e.core, i, !e.fifo.half, e.status.av);
    if o.issue {
      IssuesPlan(c, e.core, job, i, !e.fifo.half, e.status.av);
      hide JobInv, BurstBeats, StartStep;
    }
    hide CoreNow, JobInv, GoodJob, BurstBeats, Config.Ok;
    JobTraffic(c, e.core, job, i, o);
    hide JobStep, JobAws, JobBeats;
  }

  lemma CoreOpens(c: Config, e: Engine, jobs: seq<Job>, i: Input)
    requires c.Ok() && !c.unaligned && CoreInv(c, e.core, jobs) && e.core.state.Idle? && i.desc.addr < c.space
    ensures CoreInv(c, CoreNow(c, e, i).regs, JobsStep(c, e, jobs, i))
  {
    CoreFlow(c, e.core, i, !e.fifo.half, e.status.av);
    JobOpens(c, e.core, i, e.status.av);
    assert CoreNow(c, e, i) == IdleStep(c, e.core, i, e.status.av);
    hide CoreNow, JobInv, GoodJob, IdleStep, Config.Ok;
  }

  lemma CoreKept(c: Config, e: Engine, jobs: seq<Job>, i: Input)
    requires c.Ok() && !c.unaligned && CoreInv(c, e.core, jobs) && (i.dataValid ==> BeatOk(c.strb, i.beat))
    requires i.desc.addr < c.space
    ensures CoreInv(c, CoreNow(c, e, i).regs, JobsStep(c, e, jobs, i))
    ensures CoreNow(c, e, i).push.Some? ==> jobs != [] && jobs[|jobs| - 1].bursts != []
  {
    CoreIdleFlow(c, e, i);
    if e.core.state.Idle? {
      CoreOpens(c, e, jobs, i);
    } else {
      JobKept(c, e.core, jobs[|jobs| - 1], i, !e.fifo.half, e.status.av);
    }
    hide CoreStep, JobInv, GoodJob, JobStep, BeatOk, Config.Ok;
  }

  lemma CoreIdleFlow(c: Config, e: Engine, i: Input)
    requires c.Ok()
    ensures e.core.state.Idle? ==> CoreNow(c, e, i).push.None?
  {
    hide LoadAddr, LastOffset, BurstLen, NextBurst, Advance, CycleCount, TransferStep, FinishStep, Geometry;
  }

  lemma JobOpens(c: Config, r: Regs, i: Input, av: bool)
    requires c.Ok() && !c.unaligned && r.state.Idle? && i.desc.addr < c.space
    ensures var o := IdleStep(c, r, i, av);
            o.regs.state.Start? ==> JobInv(c, o.regs, Job(i.desc, [], [], []))
  {
    LoadAddrAligned(c, i.desc);
    assert LoadAddr(c, i.desc) < c.space;
    hide LastOffset, LoadAddr, Plan;
    DivUnique(LoadAddr(c, i.desc), c.space, 0);
    assert Planned([]) + Plan(c.strb, c.maxBeats, LoadAddr(c, i.desc), i.desc.len) ==
        Plan(c.strb, c.maxBeats, LoadAddr(c, i.desc), i.desc.len);
  }

  // Frames on the input are packed, and descriptors lie in the address space. When beats, responses
  // and ready signals come is arbitrary.
  predicate EnvironmentOk(c: Config, i: Input) {
    (i.dataValid ==> BeatOk(c.strb, i.beat)) && i.desc.addr < c.space
  }

  lemma BeatsMove(gone: seq<WBeat>, held: seq<WBeat>, push: seq<WBeat>, out: seq<WBeat>, held': seq<WBeat>)
    requires out + held' == held + push
    ensures gone + held + push == gone + out + held'
  {
    assert gone + held + push == gone + (held + push);
    assert gone + out + held' == gone + (out + held');
  }

  lemma OutputKept(c: Config, e: Engine, h: History, i: Input)
    requires c.Ok() && StatusTyped(e.status) && TrafficInv(c, e, h)
    requires CoreNow(c, e, i).push.Some? ==> |e.fifo.q| < FIFO_DEPTH
    requires TrafficOf(c, JobsStep(c, e, h.jobs, i)) == Plus(TrafficOf(c, h.jobs), Added(e, i, CoreNow(c, e, i)))
    ensures TrafficInv(c, EngineStep(c, e, i), HistoryStep(c, h, e, i))
  {
    var push := CoreNow(c, e, i).push;
    OutputFifo.StepKeepsOrder(FIFO_DEPTH, e.fifo, push, i.wReady);
    hide OutputFifo.Step, OutputFifo.Held, OutputFifo.Delivered, CoreNow, StatusNow, StatusStep, TrafficOf, JobsStep,
      StatusTyped, Config.Ok;
    BeatsMove(h.delivered, OutputFifo.Held(e.fifo), push.AsSeq(), OutputFifo.Delivered(e.fifo, i.wReady),
              OutputFifo.Held(OutputFifo.Step(FIFO_DEPTH, e.fifo, push, i.wReady)));
  }

  lemma EngineParts(c: Config, e: Engine, h: History)
    requires c.Ok() && EngineInv(c, e, h)
    ensures StatusTyped(e.status) && CoreInv(c, e.core, h.jobs) && RoomInv(e) && TrafficInv(c, e, h)
    ensures StatusInv(e.status, h.ledger, e.core.state.Write?)
    ensures e.core.dataReady ==> e.core.state.Write? || e.core.state.DropData?
  {
    hide JobInv, GoodJob, StatusInv, TrafficOf;
  }

  lemma EngineFrom(c: Config, e: Engine, h: History)
    requires c.Ok() && StatusTyped(e.status) && CoreInv(c, e.core, h.jobs) && RoomInv(e) && TrafficInv(c, e, h)
    requires StatusInv(e.status, h.ledger, e.core.state.Write?)
    ensures EngineInv(c, e, h)
  {
  }

  lemma EngineStepIs(c: Config, e: Engine, h: History, i: Input)
    requires c.Ok() && StatusTyped(e.status)
    ensures var o, e', h' := CoreNow(c, e, i), EngineStep(c, e, i), HistoryStep(c, h, e, i);
      && o == CoreStep(c, e.core, i, !e.fifo.half, e.status.av) && e'.core == o.regs && StatusTyped(e'.status)
      && e'.status == StatusStep(e.status, o.entry, o.issue, i).regs
      && h'.jobs == JobsStep(c, e, h.jobs, i) && h'.ledger == LedgerStep(h.ledger, e.status, o.entry, o.issue, i)
  {
    hide CoreStep, StatusStep, JobsStep, LedgerStep, OutputFifo.Step;
  }

  lemma Environment(c: Config, i: Input)
    requires EnvironmentOk(c, i)
    ensures (i.dataValid ==> BeatOk(c.strb, i.beat)) && i.desc.addr < c.space
  {
  }

  lemma JobsTraffic(c: Config, e: Engine, h: History, i: Input)
    requires c.Ok() && !c.unaligned && CoreInv(c, e.core, h.jobs)
    requires e.core.state.Idle? ==> !e.core.dataReady
    requires CoreNow(c, e, i).push.Some? ==> h.jobs != [] && h.jobs[|h.jobs| - 1].bursts != []
    ensures TrafficOf(c, JobsStep(c, e, h.jobs, i)) == Plus(TrafficOf(c, h.jobs), Added(e, i, CoreNow(c, e, i)))
  {
    hide *;
    if e.core.state.Idle? {
      IdleTraffic(c, e, h.jobs, i);
    } else {
      BusyTraffic(c, e, h.jobs, i);
    }
  }

  lemma EngineKept(c: Config, e: Engine, h: History, i: Input)
    requires c.Ok() && !c.unaligned && EngineInv(c, e, h) && EnvironmentOk(c, i)
    ensures Pops(e.status, i) ==> h.ledger.queued != []
    ensures EngineInv(c, EngineStep(c, e, i), HistoryStep(c, h, e, i))
  {
    hide *;
    EngineParts(c, e, h);
    EngineStepIs(c, e, h, i);
    Environment(c, i);
    var o := CoreNow(c, e, i);
    WriteActive(c, e.core, h.jobs);
    CoreFlow(c, e.core, i, !e.fifo.half, e.status.av);
    StatusKept(e.status, h.ledger, o.entry, o.issue, i, e.core.state.Write?, o.regs.state.Write?);
    CoreKept(c, e, h.jobs, i);
    RoomKept(c, e, i);
    JobsTraffic(c, e, h, i);
    OutputKept(c, e, h, i);
    EngineFrom(c, EngineStep(c, e, i), HistoryStep(c, h, e, i));
  }

  // ----- Runs -----

  datatype Snapshot = Snapshot(engine: Engine, history: History)

  function After(c: Config, e: Engine, run: seq<Input>): (n: Snapshot)
    requires c.Ok() && StatusTyped(e.status)
    ensures StatusTyped(n.engine.status)
  {
    if run == [] then Snapshot(e, EMPTY)
    else
      var n, i := After(c, e, run[..|run| - 1]), run[|run| - 1];
      Snapshot(EngineStep(c, n.engine, i), HistoryStep(c, n.history, n.engine, i))
  }

  lemma {:induction false} InvAlways(c: Config, e: Engine, run: seq<Input>)
    requires c.Ok() && !c.unaligned && IsReset(e) && forall k :: 0 <= k < |run| ==> EnvironmentOk(c, run[k])
    ensures EngineInv(c, After(c, e, run).engine, After(c, e, run).history)
  {
    if run == [] {
      hide LoadAddr, Plan;
      assert OutputFifo.Ring(e.status.cells, 0, 0) == [];
    } else {
      hide EngineInv, EngineStep, HistoryStep, EnvironmentOk, IsReset;
      var front := run[..|run| - 1];
      assert forall k :: 0 <= k < |front| ==> front[k] == run[k];
      InvAlways(c, e, front);
      var n := After(c, e, front);
      EngineKept(c, n.engine, n.history, run[|run| - 1]);
    }
  }

  // Over every run: descriptors become jobs in the order they were accepted and frames are consumed
  // one per job; every job but the one under way is good; the AW requests, the W beats (delivered and
  // still held) and the status entries are exactly those of the jobs, in order; reports match jobs.
  lemma WriteEngineCorrect(c: Config, e: Engine, run: seq<Input>)
    requires c.Ok() && !c.unaligned && IsReset(e) && forall k :: 0 <= k < |run| ==> EnvironmentOk(c, run[k])
    ensures var n, h := After(c, e, run).engine, After(c, e, run).history;
            && (forall k :: 0 <= k < |h.jobs| - (if n.core.state.Idle? then 0 else 1) ==> GoodJob(c, h.jobs[k]))
            && TrafficOf(c, h.jobs)
               == Traffic(h.accepted, h.consumed, h.aws, h.delivered + OutputFifo.Held(n.fifo), h.ledger.pushed)
  {
    InvAlways(c, e, run);
    hide GoodJob, TrafficOf, JobInv, StatusInv, After;
  }

  // ----- Reports -----

  function EntriesOf(jobs: seq<Job>): (g: seq<seq<Entry>>)
    ensures |g| == |jobs|
  {
    seq(|jobs|, k requires 0 <= k < |jobs| => jobs[k].entries)
  }

  lemma {:induction false} EntriesFlat(c: Config, jobs: seq<Job>)
    requires c.Ok()
    ensures TrafficOf(c, jobs).entries == Flatten(EntriesOf(jobs))
  {
    if jobs != [] {
      var front := jobs[..|jobs| - 1];
      EntriesFlat(c, front);
      assert EntriesOf(jobs)[..|jobs| - 1] == EntriesOf(front);
      hide BurstBeats, JobBeats, JobAws;
    }
  }

  predicate Unfinished(entries: seq<Entry>) {
    forall k :: 0 <= k < |entries| ==> !entries[k].last
  }

  // Finished jobs have complete entries, the one under way may still lack its last.
  lemma EntriesShape(c: Config, r: Regs, jobs: seq<Job>)
    requires c.Ok() && CoreInv(c, r, jobs)
    ensures forall k :: 0 <= k < |jobs| - 1 ==> Closed(jobs[k].entries)
    ensures jobs != [] && !Closed(jobs[|jobs| - 1].entries) ==> !r.state.Idle? && Unfinished(jobs[|jobs| - 1].entries)
  {
    hide GoodSoFar, InBurst, GoodBursts, FrameOk, AddressOk, Sent, LoadAddr, At, BurstStart, Complete, JobTotal,
      LastOffset, Bytes;
  }

  lemma GroupsMatch(answers: seq<Answer>, open: seq<Entry>, queued: seq<Entry>, jobs: seq<Job>)
    requires Flatten(Groups(answers)) + open + queued == Flatten(EntriesOf(jobs))
    requires forall k :: 0 <= k < |answers| ==> GoodAnswer(answers[k])
    requires forall k :: 0 <= k < |jobs| - 1 ==> Closed(jobs[k].entries)
    requires jobs != [] && !Closed(jobs[|jobs| - 1].entries) ==> Unfinished(jobs[|jobs| - 1].entries)
    ensures Groups(answers) <= EntriesOf(jobs)
  {
    var all, rest := EntriesOf(jobs), open + queued;
    assert Flatten(Groups(answers)) + open + queued == Flatten(Groups(answers)) + rest;
    if jobs != [] && !Closed(jobs[|jobs| - 1].entries) {
      SameGroups(Groups(answers), rest, all[..|all| - 1], all[|all| - 1]);
    } else {
      assert Flatten(all) + [] == Flatten(all);
      SameGroups(Groups(answers), rest, all, []);
    }
  }

  predicate GoodReport(c: Config, a: Answer, job: Job)
    requires c.Ok() && GoodJob(c, job)
  {
    |a.resps| == |job.bursts| && a.status == Status(JobTotal(job), job.desc.tag, ErrorOf(LastFailure(a.resps)))
  }

  lemma ReportGood(c: Config, a: Answer, job: Job)
    requires c.Ok() && GoodJob(c, job) && GoodAnswer(a) && a.entries == job.entries
    ensures GoodReport(c, a, job)
  {
    hide GoodBursts, FrameOk, Complete, Sent, BurstStart, JobTotal, LastFailure;
  }

  lemma EntriesMatch(c: Config, e: Engine, h: History)
    requires c.Ok() && EngineInv(c, e, h)
    ensures Groups(h.ledger.answers) <= EntriesOf(h.jobs)
  {
    EntriesFlat(c, h.jobs);
    EntriesShape(c, e.core, h.jobs);
    assert TrafficOf(c, h.jobs).entries == h.ledger.pushed;
    hide TrafficOf, CoreInv, TrafficInv, Queue, CountInv, RoomInv, LastFailure, Flatten, Groups, EntriesOf,
      GoodAnswer, Closed, Unfinished, StatusTyped;
    GroupsMatch(h.ledger.answers, h.ledger.openEntries, h.ledger.queued, h.jobs);
  }

  // The k-th status reported is the k-th job's: its length is the number of bytes strobed, its error the
  // last failure among that job's own write responses, one per burst.
  lemma ReportsMatch(c: Config, e: Engine, run: seq<Input>, k: nat)
    requires c.Ok() && !c.unaligned && IsReset(e) && forall j :: 0 <= j < |run| ==> EnvironmentOk(c, run[j])
    requires k < |After(c, e, run).history.ledger.answers|
    ensures var n, h := After(c, e, run).engine, After(c, e, run).history;
            && k < |h.jobs| && h.ledger.answers[k].entries == h.jobs[k].entries
            && (k < |h.jobs| - (if n.core.state.Idle? then 0 else 1) ==>
                  GoodJob(c, h.jobs[k]) && GoodReport(c, h.ledger.answers[k], h.jobs[k]))
  {
    InvAlways(c, e, run);
    var n, h := After(c, e, run).engine, After(c, e, run).history;
    EntriesMatch(c, n, h);
    hide After, TrafficOf, JobInv, Queue, CountInv, RoomInv, GoodAnswer, GoodJob, Flatten, GoodReport, StatusTyped;
    assert Groups(h.ledger.answers)[k] == EntriesOf(h.jobs)[k];
    if k < |h.jobs| - (if n.core.state.Idle? then 0 else 1) {
      ReportGood(c, h.ledger.answers[k], h.jobs[k]);
    }
  }
}
