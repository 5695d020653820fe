// Progress of axi_dma_wr: the work the engine still has is raised only by accepting a descriptor or by
// taking in a frame beat, and every clock lowers it in which the stream, the bus and the memory answer.
module AxiDmaWriteProgress {
  import opened Arith
  import opened AxiDma
  import opened AxiDmaProgress
  import opened AxiDmaWrite
  import opened AxiDmaWriteProof
  import opened AxiDmaWriteRun
  import opened AxiDmaWriteStatus
  import opened BurstPlanner
  import opened Wrappers
  import OutputFifo

  // AW and W take what is offered, the frame of a job under way has a beat ready, and once everything
  // is on the bus the responses still due are given.
  predicate Answers(e: Engine, h: History, i: Input) {
    && i.awReady && i.wReady
    && (e.core.state.Start? || e.core.state.Write? || e.core.state.DropData? ==> i.dataValid)
    && (OutputFifo.Held(e.fifo) == [] && !e.core.awValid && h.ledger.queued != [] ==> i.bValid)
  }

  predicate AtRest(e: Engine, h: History) {
    e.core.state.Idle? && !e.core.awValid && OutputFifo.Held(e.fifo) == [] && h.ledger.queued == []
  }

  // ----- The measure -----

  // A byte still to be sent stands for at most one beat and one burst; a burst under way has its
  // remaining beats and one response to come.
  function CoreWork(r: Regs, half: bool, full: bool): nat {
    match r.state
    case Idle => 0
    case Start => 16 * r.left
    case Write => 16 * r.left + 7 * NonNegative(r.outCount + 1) + 3 + Stall(r.dataReady, half, full)
    case FinishBurst => 7 * NonNegative(r.outCount + 1)
    case DropData => 1
  }

  function NonNegative(n: int): nat {
    if n < 0 then 0 else n
  }

  function DueWork(t: StatusRegs, l: Ledger): nat {
    2 * |l.queued| + One(l.queued != [] && !t.bReady)
  }

  function Full(e: Engine): bool {
    2 * |e.fifo.q| >= FIFO_DEPTH
  }

  function Work(e: Engine, h: History): nat {
    CoreWork(e.core, e.fifo.half, Full(e)) + One(e.core.awValid) + FifoWork(e.fifo) + DueWork(e.status, h.ledger)
  }

  // ----- One clock of each part -----

  // What the counters satisfy in every state.
  predicate CoreFacts(c: Config, r: Regs)
    requires c.Ok()
  {
    match r.state
    case Idle => true
    case Start => 1 <= r.left
    case Write => r.inActive && 0 <= r.outCount && r.inCount == r.outCount && r.outLast == (r.outCount == 0)
                  && r.lastTransfer == (r.left == 0)
    case FinishBurst => 0 <= r.outCount && r.outLast == (r.outCount == 0)
    case DropData => r.dataReady
  }

  predicate CoreMoves(r: Regs, i: Input, half: bool, av: bool) {
    || (r.awValid && i.awReady)
    || (r.state.Start? && !r.awValid && av && i.dataValid)
    || (r.state.Write? && if r.dataReady then i.dataValid else !half)
    || (r.state.FinishBurst? && !half)
    || (r.state.DropData? && i.dataValid)
  }

  // What the clock brings in: a descriptor's bytes, a frame beat.
  function Brought(r: Regs, i: Input): nat {
    (if Accepts(r, i) then 16 * i.desc.len else 0) + One(Consumes(r, i))
  }

  function Spent(o: CoreOut, half: bool, full: bool): nat {
    CoreWork(o.regs, half, full) + One(o.regs.awValid) + 2 * |o.push.AsSeq()| + 3 * One(o.entry.Some?)
  }

  lemma BurstFits(c: Config, n: nat)
    requires c.Ok() && 1 <= n
    ensures 0 <= CycleCount(c, n) <= n - 1
  {
    DivBounds(n - 1, c.strb);
    MulOrder((n - 1) / c.strb, n, c.strb);
  }

  lemma StartFalls(c: Config, r: Regs, i: Input, half: bool, av: bool, full: bool, full': bool)
    requires c.Ok() && r.state.Start? && CoreFacts(c, r)
    requires var o := StartStep(c, r, i, !half, av); o.push.None? ==> full' ==> full
    ensures Spent(StartStep(c, r, i, !half, av), full, full') + One(CoreMoves(r, i, half, av))
            <= CoreWork(r, half, full) + One(r.awValid)
  {
    BurstIsLegal(c.strb, c.maxBeats, r.addr, r.left);
    var n := NextBurst(c, r.addr, r.left);
    BurstFits(c, n);
    hide NextBurst, CycleCount, BurstLen, Advance, Geometry, BurstBytes;
  }

  lemma TransferFalls(c: Config, r: Regs, i: Input, half: bool, av: bool, full: bool, full': bool)
    requires c.Ok() && r.state.Write? && CoreFacts(c, r)
    ensures Spent(TransferStep(c, r, i, !half, av), full, full') + 1 <= CoreWork(r, half, full) + One(r.awValid)
  {
    hide LowMask, CycleSize, FitsBelow, Config.Ok, Stall;
  }

  lemma WriteFalls(c: Config, r: Regs, i: Input, half: bool, av: bool, full: bool, full': bool)
    requires c.Ok() && r.state.Write? && CoreFacts(c, r)
    requires var o := WriteStep(c, r, i, !half, av); o.push.None? ==> full' ==> full
    ensures Spent(WriteStep(c, r, i, !half, av), full, full') + One(CoreMoves(r, i, half, av))
            <= CoreWork(r, half, full) + One(r.awValid) + One(Consumes(r, i))
  {
    if r.dataReady && i.dataValid {
      TransferFalls(c, r, i, half, av, full, full');
      hide TransferStep, Spent, CoreMoves, CoreWork, Config.Ok;
    } else {
      StallFalls(r.dataReady, half, full, full');
      hide TransferStep, Stall, Config.Ok;
    }
  }

  lemma IdleFalls(c: Config, r: Regs, i: Input, half: bool, av: bool, full: bool, full': bool)
    requires c.Ok() && r.state.Idle?
    ensures Spent(IdleStep(c, r, i, av), full, full') + One(CoreMoves(r, i, half, av))
            <= CoreWork(r, half, full) + One(r.awValid) + Brought(r, i)
  {
    hide LoadAddr, LastOffset, Geometry;
  }

  lemma FinishFalls(c: Config, r: Regs, i: Input, half: bool, av: bool, full: bool, full': bool)
    requires c.Ok() && r.state.FinishBurst? && CoreFacts(c, r)
    ensures Spent(FinishStep(c, r, i, !half, av), full, full') + One(CoreMoves(r, i, half, av))
            <= CoreWork(r, half, full) + One(r.awValid)
  {
    hide ZeroWord, LowMask, Geometry;
  }

  lemma DropFalls(c: Config, r: Regs, i: Input, half: bool, av: bool, full: bool, full': bool)
    requires c.Ok() && r.state.DropData? && CoreFacts(c, r)
    ensures Spent(DropStep(r, i, av), full, full') + One(CoreMoves(r, i, half, av))
            <= CoreWork(r, half, full) + One(r.awValid) + One(Consumes(r, i))
  {
  }

  lemma CoreFalls(c: Config, r: Regs, i: Input, half: bool, av: bool, full: bool, full': bool)
    requires c.Ok() && CoreFacts(c, r)
    requires var o := CoreStep(c, r, i, !half, av); o.push.None? ==> full' ==> full
    ensures Spent(CoreStep(c, r, i, !half, av), full, full') + One(CoreMoves(r, i, half, av))
            <= CoreWork(r, half, full) + One(r.awValid) + Brought(r, i)
  {
    hide IdleStep, StartStep, WriteStep, FinishStep, DropStep, Spent, CoreMoves, CoreWork, CoreFacts, Accepts, Consumes,
      One;
    match r.state
    case Idle => IdleFalls(c, r, i, half, av, full, full');
    case Start => StartFalls(c, r, i, half, av, full, full');
    case Write => WriteFalls(c, r, i, half, av, full, full');
    case FinishBurst => FinishFalls(c, r, i, half, av, full, full');
    case DropData => DropFalls(c, r, i, half, av, full, full');
  }

  predicate DueMoves(t: StatusRegs, l: Ledger, i: Input) {
    l.queued != [] && (i.bValid || !t.bReady)
  }

  lemma DueFalls(t: StatusRegs, l: Ledger, entry: Option<Entry>, issue: bool, i: Input)
    requires StatusTyped(t) && (t.rd == t.wr) == (l.queued == []) && t.active <= STATUS_DEPTH
    ensures var t', l' := StatusStep(t, entry, issue, i).regs, LedgerStep(l, t, entry, issue, i);
            && DueWork(t', l') + One(DueMoves(t, l, i)) <= DueWork(t, l) + 3 * One(entry.Some?)
            && t'.av == (t'.active < STATUS_DEPTH)
  {
    hide OutputFifo.Slot, OutputFifo.Wrap;
  }

  // ----- One clock of the engine -----

  predicate Steady(c: Config, e: Engine, h: History)
    requires c.Ok()
  {
    && EngineInv(c, e, h) && (e.fifo.half ==> e.fifo.q != [])
    && e.status.av == (e.status.active < STATUS_DEPTH)
  }

  lemma CountersKnown(c: Config, r: Regs, jobs: seq<Job>)
    requires c.Ok() && CoreInv(c, r, jobs)
    ensures CoreFacts(c, r)
  {
    hide GoodSoFar, GoodBursts, GoodJob, EntriesOk, FrameOk, AddressOk, Sent, LoadAddr, At, BurstStart, BurstBeats,
      Aligned, JobTotal, Complete;
  }

  // A free credit is visible at once, and short of a credit a response is due.
  lemma CreditsKnown(c: Config, e: Engine, h: History)
    requires c.Ok() && Steady(c, e, h)
    ensures (e.status.rd == e.status.wr) == (h.ledger.queued == []) && e.status.active <= STATUS_DEPTH
    ensures !e.core.state.Write? && h.ledger.queued == [] ==> e.status.av
  {
    hide CoreInv, RoomInv, TrafficInv, AnswersInv, OutputFifo.Ring;
    OutputFifo.FullAndEmpty(STATUS_DEPTH, e.status.rd, e.status.wr);
    hide OutputFifo.Distance;
  }

  lemma SomethingMoves(c: Config, e: Engine, h: History, i: Input)
    requires c.Ok() && Steady(c, e, h) && Answers(e, h, i)
    ensures
      || AtRest(e, h) || CoreMoves(e.core, i, e.fifo.half, e.status.av) || DueMoves(e.status, h.ledger, i)
      || OutputFifo.Held(e.fifo) != []
  {
    CreditsKnown(c, e, h);
    CountersKnown(c, e.core, h.jobs);
    hide EngineInv;
  }

  lemma SteadyKept(c: Config, e: Engine, h: History, i: Input)
    requires c.Ok() && !c.unaligned && Steady(c, e, h) && EnvironmentOk(c, i)
    ensures Steady(c, EngineStep(c, e, i), HistoryStep(c, h, e, i))
  {
    var o := CoreNow(c, e, i);
    EngineKept(c, e, h, i);
    FifoWorkFalls(FIFO_DEPTH, e.fifo, o.push, i.wReady);
    CreditsKnown(c, e, h);
    DueFalls(e.status, h.ledger, o.entry, o.issue, i);
    hide EngineInv, OutputFifo.Step, HistoryStep, CoreNow, StatusStep, FifoWork, DueWork, DueMoves;
  }

  lemma WorkIs(c: Config, e: Engine, h: History, i: Input)
    requires c.Ok() && StatusTyped(e.status)
    ensures var o, e', h' := CoreNow(c, e, i), EngineStep(c, e, i), HistoryStep(c, h, e, i);
            && o == CoreStep(c, e.core, i, !e.fifo.half, e.status.av)
            && e'.fifo == OutputFifo.Step(FIFO_DEPTH, e.fifo, o.push, i.wReady)
            && Work(e', h') + 2 * |o.push.AsSeq()| + 3 * One(o.entry.Some?)
               == Spent(o, e'.fifo.half, 2 * |e'.fifo.q| >= FIFO_DEPTH) + FifoWork(e'.fifo)
                  + DueWork(StatusStep(e.status, o.entry, o.issue, i).regs,
                            LedgerStep(h.ledger, e.status, o.entry, o.issue, i))
  {
    hide CoreStep, StatusStep, LedgerStep, OutputFifo.Step, CoreWork, FifoWork, DueWork, JobsStep, Added,
      OutputFifo.Delivered, Config.Ok;
  }

  lemma OutputFalls(e: Engine, push: Option<WBeat>, ready: bool, fifo': OutputFifo.Fifo<WBeat>)
    requires fifo' == OutputFifo.Step(FIFO_DEPTH, e.fifo, push, ready)
    ensures fifo'.half == Full(e) && (push.None? ==> 2 * |fifo'.q| >= FIFO_DEPTH ==> Full(e))
    ensures FifoWork(fifo') + One(ready && OutputFifo.Held(e.fifo) != []) <= FifoWork(e.fifo) + 2 * |push.AsSeq()|
  {
    FifoWorkFalls(FIFO_DEPTH, e.fifo, push, ready);
  }

  lemma AnyOf(a: bool, b: bool, d: bool)
    ensures One(a || b || d) <= One(a) + One(b) + One(d)
  {
  }

  lemma PartsFall(c: Config, e: Engine, h: History, i: Input)
    requires c.Ok() && StatusTyped(e.status) && CoreFacts(c, e.core)
    requires (e.status.rd == e.status.wr) == (h.ledger.queued == []) && e.status.active <= STATUS_DEPTH
    ensures var m := CoreMoves(e.core, i, e.fifo.half, e.status.av) || DueMoves(e.status, h.ledger, i)
                     || (i.wReady && OutputFifo.Held(e.fifo) != []);
            Work(EngineStep(c, e, i), HistoryStep(c, h, e, i)) + One(m) <= Work(e, h) + Brought(e.core, i)
  {
    hide *;
    var o, e' := CoreNow(c, e, i), EngineStep(c, e, i);
    WorkIs(c, e, h, i);
    OutputFalls(e, o.push, i.wReady, e'.fifo);
    CoreFalls(c, e.core, i, e.fifo.half, e.status.av, Full(e), 2 * |e'.fifo.q| >= FIFO_DEPTH);
    DueFalls(e.status, h.ledger, o.entry, o.issue, i);
    WorkParts(e, h);
    AnyOf(CoreMoves(e.core, i, e.fifo.half, e.status.av), DueMoves(e.status, h.ledger, i),
          i.wReady && OutputFifo.Held(e.fifo) != []);
  }

  lemma WorkParts(e: Engine, h: History)
    ensures Work(e, h) == CoreWork(e.core, e.fifo.half, Full(e)) + One(e.core.awValid) + FifoWork(e.fifo)
                          + DueWork(e.status, h.ledger)
  {
  }

  lemma WorkFalls(c: Config, e: Engine, h: History, i: Input)
    requires c.Ok() && !c.unaligned && Steady(c, e, h) && EnvironmentOk(c, i)
    ensures Work(EngineStep(c, e, i), HistoryStep(c, h, e, i)) + One(Answers(e, h, i) && !AtRest(e, h))
            <= Work(e, h) + Brought(e.core, i)
  {
    EngineParts(c, e, h);
    CountersKnown(c, e.core, h.jobs);
    CreditsKnown(c, e, h);
    PartsFall(c, e, h, i);
    if Answers(e, h, i) {
      SomethingMoves(c, e, h, i);
    }
    hide EngineInv, Work, Brought, CoreMoves, DueMoves, OutputFifo.Held, EngineStep, HistoryStep;
  }

  lemma RestIsDone(c: Config, e: Engine, h: History)
    requires c.Ok() && Steady(c, e, h)
    ensures AtRest(e, h) <==> Work(e, h) == 0
  {
    CountersKnown(c, e.core, h.jobs);
    hide EngineInv;
  }

  // ----- Runs -----

  function Lengths(ds: seq<Desc>): nat {
    if ds == [] then 0 else Lengths(ds[..|ds| - 1]) + ds[|ds| - 1].len
  }

  // All that ever came in: the bytes of the descriptors, and the frame beats.
  function Total(h: History): nat {
    16 * Lengths(h.accepted) + |h.consumed|
  }

  // Clocks that find the engine short of rest and are answered.
  function Busy(c: Config, e: Engine, run: seq<Input>): nat
    requires c.Ok() && StatusTyped(e.status)
  {
    if run == [] then 0 else
      var n, i := After(c, e, run[..|run| - 1]), run[|run| - 1];
      Busy(c, e, run[..|run| - 1]) + One(Answers(n.engine, n.history, i) && !AtRest(n.engine, n.history))
  }

  // Answered clocks from clock k on.
  function AnsweredFrom(c: Config, e: Engine, run: seq<Input>, k: nat): nat
    requires c.Ok() && StatusTyped(e.status)
  {
    if |run| <= k then 0 else
      var n, i := After(c, e, run[..|run| - 1]), run[|run| - 1];
      AnsweredFrom(c, e, run[..|run| - 1], k) + One(Answers(n.engine, n.history, i))
  }

  lemma TotalGrows(c: Config, e: Engine, h: History, i: Input)
    requires c.Ok() && StatusTyped(e.status)
    ensures Total(HistoryStep(c, h, e, i)) == Total(h) + Brought(e.core, i)
  {
    hide CoreNow, JobsStep, LedgerStep, OutputFifo.Delivered;
    if Accepts(e.core, i) {
      assert (h.accepted + [i.desc])[..|h.accepted|] == h.accepted;
    } else {
      assert h.accepted + [] == h.accepted;
    }
  }

  lemma WorkTick(c: Config, n: Snapshot, i: Input)
    requires c.Ok() && !c.unaligned && Steady(c, n.engine, n.history) && EnvironmentOk(c, i)
    ensures var e', h' := EngineStep(c, n.engine, i), HistoryStep(c, n.history, n.engine, i);
            && Steady(c, e', h')
            && Work(e', h') + One(Answers(n.engine, n.history, i) && !AtRest(n.engine, n.history)) + Total(n.history)
               <= Work(n.engine, n.history) + Total(h')
            && (AtRest(n.engine, n.history) && !i.descValid ==> AtRest(e', h'))
  {
    SteadyKept(c, n.engine, n.history, i);
    WorkFalls(c, n.engine, n.history, i);
    TotalGrows(c, n.engine, n.history, i);
    RestIsDone(c, n.engine, n.history);
    RestIsDone(c, EngineStep(c, n.engine, i), HistoryStep(c, n.history, n.engine, i));
    if AtRest(n.engine, n.history) && !i.descValid {
      assert Brought(n.engine.core, i) == 0 by {
        EngineParts(c, n.engine, n.history);
      }
    }
    hide Steady, Work, Total, EngineStep, HistoryStep, Brought, Answers, AtRest, One;
  }

  lemma FreshSteady(c: Config, e: Engine)
    requires c.Ok() && !c.unaligned && IsReset(e)
    ensures Steady(c, e, EMPTY) && Work(e, EMPTY) == 0 && Total(EMPTY) == 0
  {
    InvAlways(c, e, []);
    hide EngineInv;
  }

  lemma {:induction false} WorkSpent(c: Config, e: Engine, run: seq<Input>)
    requires c.Ok() && !c.unaligned && IsReset(e) && forall k :: 0 <= k < |run| ==> EnvironmentOk(c, run[k])
    ensures var n := After(c, e, run);
            Steady(c, n.engine, n.history) && Work(n.engine, n.history) + Busy(c, e, run) <= Total(n.history)
  {
    if run == [] {
      FreshSteady(c, e);
    } else {
      var front := run[..|run| - 1];
      assert forall k :: 0 <= k < |front| ==> front[k] == run[k];
      WorkSpent(c, e, front);
      hide Steady, Work, Total, EngineStep, HistoryStep, Answers, AtRest, EnvironmentOk, IsReset;
      assert EnvironmentOk(c, run[|run| - 1]);
      WorkTick(c, After(c, e, front), run[|run| - 1]);
    }
  }

  // From clock k on no descriptor comes: either rest has been reached or every answered clock since
  // has taken something off what came in.
  lemma {:induction false} Settles(c: Config, e: Engine, run: seq<Input>, k: nat)
    requires c.Ok() && !c.unaligned && IsReset(e) && forall j :: 0 <= j < |run| ==> EnvironmentOk(c, run[j])
    requires k <= |run| && forall j :: k <= j < |run| ==> !run[j].descValid
    ensures var n := After(c, e, run);
            && Steady(c, n.engine, n.history)
            && (AtRest(n.engine, n.history)
                || Work(n.engine, n.history) + AnsweredFrom(c, e, run, k) <= Total(n.history))
  {
    if |run| == k {
      WorkSpent(c, e, run);
      hide Steady, Work, Total;
    } else {
      var front, i := run[..|run| - 1], run[|run| - 1];
      assert forall j :: 0 <= j < |front| ==> front[j] == run[j];
      Settles(c, e, front, k);
      hide Steady, Work, Total, EngineStep, HistoryStep, Answers, AtRest, EnvironmentOk, IsReset;
      assert EnvironmentOk(c, i);
      WorkTick(c, After(c, e, front), i);
    }
  }

  // ----- The results -----

  // However everything is timed, the engine is short of rest in no more answered clocks than what came
  // in accounts for: sixteen a byte of every descriptor, one a frame beat.
  lemma BusyBounded(c: Config, e: Engine, run: seq<Input>)
    requires c.Ok() && !c.unaligned && IsReset(e) && forall k :: 0 <= k < |run| ==> EnvironmentOk(c, run[k])
    ensures Busy(c, e, run) <= 16 * Lengths(After(c, e, run).history.accepted) + |After(c, e, run).history.consumed|
  {
    WorkSpent(c, e, run);
    hide Work, Steady, Busy, After;
  }

  // With no entry waiting and no job under way every job has its report.
  lemma AllReported(c: Config, e: Engine, h: History)
    requires c.Ok() && EngineInv(c, e, h) && e.core.state.Idle? && h.ledger.queued == []
    ensures Groups(h.ledger.answers) == EntriesOf(h.jobs)
  {
    EntriesMatch(c, e, h);
    EntriesFlat(c, h.jobs);
    EntriesShape(c, e.core, h.jobs);
    hide TrafficOf, CoreInv, RoomInv, Queue, CountInv, Flatten, Groups, EntriesOf, StatusTyped;
    assert TrafficOf(c, h.jobs).entries == h.ledger.pushed;
    var a, b := EntriesOf(h.jobs), Groups(h.ledger.answers);
    assert Flatten(a) + [] == Flatten(b) + h.ledger.openEntries by {
      assert Flatten(b) + h.ledger.openEntries + [] == Flatten(b) + h.ledger.openEntries;
    }
    forall k | 0 <= k < |a| ensures Closed(a[k]) {
    }
    SameGroups(a, [], b, h.ledger.openEntries);
  }

  lemma TotalIs(h: History)
    ensures Total(h) == 16 * Lengths(h.accepted) + |h.consumed|
  {
  }

  lemma RestMeans(c: Config, e: Engine, h: History)
    requires c.Ok() && Steady(c, e, h) && AtRest(e, h)
    ensures EngineInv(c, e, h) && e.core.state.Idle? && h.ledger.queued == [] && OutputFifo.Held(e.fifo) == []
  {
    hide EngineInv;
  }

  // Whatever happened before clock k, once no more descriptors come and enough clocks are answered, with
  // any delays in between, every job is complete, its requests and beats are on the bus and its status
  // is reported. Only a frame that never ends holds the engine up: its beats count on the left.
  lemma WriteEngineFinishes(c: Config, e: Engine, run: seq<Input>, k: nat)
    requires c.Ok() && !c.unaligned && IsReset(e) && forall j :: 0 <= j < |run| ==> EnvironmentOk(c, run[j])
    requires k <= |run| && forall j :: k <= j < |run| ==> !run[j].descValid
    requires var h := After(c, e, run).history;
             16 * Lengths(h.accepted) + |h.consumed| <= AnsweredFrom(c, e, run, k)
    ensures var h := After(c, e, run).history;
            && (forall j :: 0 <= j < |h.jobs| ==> GoodJob(c, h.jobs[j]))
            && TrafficOf(c, h.jobs) == Traffic(h.accepted, h.consumed, h.aws, h.delivered, h.ledger.pushed)
            && |h.ledger.answers| == |h.jobs|
            && forall j :: 0 <= j < |h.jobs| ==> GoodReport(c, h.ledger.answers[j], h.jobs[j])
  {
    var n := After(c, e, run);
    hide *;
    Settles(c, e, run, k);
    RestIsDone(c, n.engine, n.history);
    TotalIs(n.history);
    RestMeans(c, n.engine, n.history);
    AllReported(c, n.engine, n.history);
    WriteEngineCorrect(c, e, run);
    forall j | 0 <= j < |n.history.jobs|
      ensures GoodJob(c, n.history.jobs[j]) && GoodReport(c, n.history.ledger.answers[j], n.history.jobs[j])
    {
      ReportsMatch(c, e, run, j);
    }
    assert n.history.delivered + OutputFifo.Held(n.engine.fifo) == n.history.delivered;
  }
}
