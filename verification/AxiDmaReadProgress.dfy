// Progress of axi_dma_rd: a measure of the work the engine still has, which no clock raises except by
// accepting a descriptor and which every clock lowers in which the memory and the consumer answer.
module AxiDmaReadProgress {
  import opened BurstPlanner
  import opened AxiBus
  import opened AxiDma
  import opened AxiDmaProgress
  import opened AxiDmaRead
  import opened AxiDmaReadData
  import opened AxiDmaReadProof
  import opened AxiDmaReadRun
  import OutputFifo

  // The AR channel takes what is offered, the stream is read, and once no request is on its way R
  // holds a word whenever one is owed.
  predicate Answers(e: Engine, h: History, i: Input) {
    i.arReady && i.outReady && (h.inflight != [] && !e.axi.arValid ==> i.rValid)
  }

  predicate AtRest(e: Engine) {
    !e.stream.reading && !e.axi.cmdValid && !e.axi.arValid && OutputFifo.Held(e.fifo) == []
  }

  // ----- The measure -----

  function AxiWork(a: AxiRegs): nat {
    (if a.start then 2 * a.left else 0) + One(a.arValid)
  }

  function Waiting(e: Engine): (n: nat)
    ensures n <= 4
  {
    if e.stream.reading && e.stream.inActive then
      Stall(e.stream.rReady, e.fifo.half, 2 * |e.fifo.q| >= FIFO_DEPTH)
    else 0
  }

  function StreamWork(e: Engine): nat {
    3 * One(e.stream.reading) + Waiting(e) + FifoWork(e.fifo)
  }

  function Work(c: Config, e: Engine, h: History): nat
    requires c.Ok() && LinkInv(c, e, h)
  {
    AxiWork(e.axi) + 8 * One(e.axi.cmdValid) + 7 * |Expected(c, e, h)| + StreamWork(e)
  }

  // What one descriptor adds.
  function Cost(c: Config, d: Desc): nat
    requires c.Ok()
  {
    2 * d.len + 8 + 7 * InBeats(c, d)
  }

  function Added(c: Config, a: AxiRegs, i: Input): nat
    requires c.Ok()
  {
    if Accepts(a, i) then Cost(c, i.desc.value) else 0
  }

  function Total(c: Config, ds: seq<Desc>): nat
    requires c.Ok()
  {
    if ds == [] then 0 else Total(c, ds[..|ds| - 1]) + Cost(c, ds[|ds| - 1])
  }

  // ----- One clock of each part -----

  // A pending address leaves when it is taken, and START always issues.
  predicate AxiMoves(a: AxiRegs, i: Input) {
    if a.arValid then i.arReady else a.start
  }

  lemma AxiWorkFalls(c: Config, a: AxiRegs, next: nat, i: Input, taken: bool)
    requires c.Ok() && AddressOk(c, a, next)
    ensures AxiWork(AxiStep(c, a, i, taken)) + One(AxiMoves(a, i))
            <= AxiWork(a) + (if Accepts(a, i) then 2 * i.desc.value.len else 0)
  {
    if a.start && !a.arValid {
      BurstIsLegal(c.strb, c.maxBeats, a.addr, a.left);
    }
    hide BurstBytes, BurstLen, LoadAddr, LoadCmd, Advance, Geometry;
  }

  // While the stream side goes on reading, its ready flag is the half-full flag of the clock before.
  lemma ReadyFollows(c: Config, s: StreamRegs, cmdValid: bool, cmd: Cmd, i: Input, room: bool)
    requires c.Ok() && StreamTyped(c, s, i) && (s.rReady ==> s.reading && s.inActive)
    requires s.reading && !s.inActive ==> s.outLast && !s.cmd.bubble
    ensures var o := StreamStep(c, s, cmdValid, cmd, i, room);
            && (o.regs.reading && o.regs.inActive ==> o.regs.rReady == room)
            && (o.push.Some? ==> s.reading && ((s.rReady && i.rValid) || !s.inActive))
            && (s.reading && !s.inActive ==> !o.regs.reading)
            && (s.reading && o.regs.inActive ==> s.inActive)
            && o.regs.reading == (if s.reading then o.status.None? else cmdValid)
  {
    hide Shifted;
  }

  // ----- The stream side and the FIFO together -----

  // A word comes in, the final beat is made, a flag settles, or a beat leaves.
  predicate StreamMoves(e: Engine, i: Input) {
    || CmdTaken(e) || Hit(e, i)
    || (e.stream.reading && !e.stream.inActive)
    || (e.stream.reading && !e.stream.rReady && !e.fifo.half)
    || (i.outReady && OutputFifo.Held(e.fifo) != [])
  }

  lemma StreamWorkFalls(c: Config, e: Engine, i: Input)
    requires c.Ok() && StreamTyped(c, e.stream, i) && (e.stream.rReady ==> e.stream.reading && e.stream.inActive)
    requires e.stream.reading && !e.stream.inActive ==> e.stream.outLast && !e.stream.cmd.bubble
    ensures StreamWork(EngineStep(c, e, i)) + One(StreamMoves(e, i))
            <= StreamWork(e) + 8 * One(CmdTaken(e)) + 7 * One(Hit(e, i))
  {
    var o, e' := StreamNow(c, e, i), EngineStep(c, e, i);
    ReadyFollows(c, e.stream, e.axi.cmdValid, e.axi.cmd, i, !e.fifo.half);
    FifoWorkFalls(FIFO_DEPTH, e.fifo, o.push, i.outReady);
    hide StreamStep, AxiStep, OutputFifo.Step, OutputFifo.Held, FifoWork;
    if e.stream.reading && e.stream.inActive && !Hit(e, i) && e'.stream.reading && e'.stream.inActive {
      StallFalls(e.stream.rReady, e.fifo.half, 2 * |e.fifo.q| >= FIFO_DEPTH, 2 * |e'.fifo.q| >= FIFO_DEPTH);
    }
    hide Stall;
  }

  // ----- One clock of the engine -----

  // Half-full is up only while the ring still holds something.
  predicate Steady(c: Config, mem: seq<Word>, e: Engine, h: History)
    requires c.Ok() && MemoryOk(c.strb, mem)
  {
    EngineInv(c, mem, e, h) && (e.fifo.half ==> e.fifo.q != [])
  }

  lemma FinalBeatLeft(c: Config, mem: seq<Word>, e: Engine, h: History)
    requires c.Ok() && MemoryOk(c.strb, mem) && EngineInv(c, mem, e, h)
    requires e.stream.reading && !e.stream.inActive
    ensures e.stream.outLast && !e.stream.cmd.bubble
  {
    FinalBeatOnly(c, mem, e.stream, h.accepted[|h.served|], h.resps, h.beats);
    hide InBeats, OutBeats, Skew, GoodBeats, FirstRow, WordsInv, RoomInv, ServedGood;
  }

  lemma SteadyKept(c: Config, mem: seq<Word>, e: Engine, h: History, i: Input)
    requires c.Ok() && MemoryOk(c.strb, mem) && |mem| == RowCount(c) && Steady(c, mem, e, h)
    requires MemoryAnswers(c, mem, h, i)
    ensures Steady(c, mem, EngineStep(c, e, i), HistoryStep(c, h, e, i))
  {
    EngineKept(c, mem, e, h, i);
    FifoWorkFalls(FIFO_DEPTH, e.fifo, StreamNow(c, e, i).push, i.outReady);
    hide EngineInv, OutputFifo.Step, HistoryStep, StreamNow, AxiStep;
  }

  // What is still expected loses the word that came in and gains what a new descriptor needs.
  lemma ExpectedCount(c: Config, mem: seq<Word>, e: Engine, h: History, i: Input)
    requires c.Ok() && MemoryOk(c.strb, mem) && |mem| == RowCount(c) && EngineInv(c, mem, e, h)
    requires MemoryAnswers(c, mem, h, i) && LinkInv(c, EngineStep(c, e, i), HistoryStep(c, h, e, i))
    ensures |Expected(c, EngineStep(c, e, i), HistoryStep(c, h, e, i))| + One(Hit(e, i))
            == |Expected(c, e, h)| + (if Accepts(e.axi, i) then InBeats(c, i.desc.value) else 0)
  {
    if e.stream.reading {
      BusyExpected(c, mem, e, h, i);
    } else {
      IdleExpected(c, e, h, i);
    }
    hide EngineStep, HistoryStep, Expected, EngineInv, InBeats, FirstRow, MemoryOk;
  }

  // A stream side that is ready but has no word coming still has rows to request.
  lemma StillToIssue(c: Config, mem: seq<Word>, e: Engine, h: History)
    requires c.Ok() && MemoryOk(c.strb, mem) && EngineInv(c, mem, e, h)
    requires e.stream.reading && e.stream.inActive && h.inflight == []
    ensures e.axi.start
  {
    assert Expected(c, e, h) != [] by {
      hide InBeats, OutBeats, Skew, GoodBeats, FirstRow, RoomInv, ServedGood, ToIssue, AddressOk, WordsInv;
      assert Reading(c, true, h.accepted, |h.served|, |h.resps|) != [];
    }
    hide Expected, StreamPart, RoomInv, ServedGood, LinkInv;
    assert h.inflight + ToIssue(c, e.axi, h.next) == ToIssue(c, e.axi, h.next);
  }

  // Short of rest some part always moves.
  lemma SomethingMoves(c: Config, mem: seq<Word>, e: Engine, h: History, i: Input)
    requires c.Ok() && MemoryOk(c.strb, mem) && Steady(c, mem, e, h) && Answers(e, h, i)
    ensures AtRest(e) || AxiMoves(e.axi, i) || StreamMoves(e, i)
  {
    if e.stream.reading && e.stream.inActive && h.inflight == [] {
      StillToIssue(c, mem, e, h);
    }
    hide EngineInv;
  }

  // The parts of the measure after one clock, summed up.
  lemma PartsFall(c: Config, e: Engine, h: History, i: Input, taken: bool, hit: bool)
    requires c.Ok() && LinkInv(c, e, h) && StreamTyped(c, e.stream, i)
    requires LinkInv(c, EngineStep(c, e, i), HistoryStep(c, h, e, i))
    requires taken == CmdTaken(e) && hit == Hit(e, i)
    ensures var e', h' := EngineStep(c, e, i), HistoryStep(c, h, e, i);
            var n := if Accepts(e.axi, i) then InBeats(c, i.desc.value) else 0;
            |Expected(c, e', h')| + One(hit) == |Expected(c, e, h)| + n
            && StreamWork(e') + One(StreamMoves(e, i)) <= StreamWork(e) + 8 * One(taken) + 7 * One(hit)
            ==> Work(c, e', h') + One(AxiMoves(e.axi, i) || StreamMoves(e, i)) <= Work(c, e, h) + Added(c, e.axi, i)
  {
    AxiWorkFalls(c, e.axi, h.next, i, taken);
    AxiFlags(c, e.axi, i, taken);
    hide AxiMoves, StreamMoves, Expected, AxiWork, StreamWork, AxiStep, StreamNow, HistoryStep, InBeats,
      AddressOk, Config.Ok, OutputFifo.Step, StreamTyped, LoadCmd;
  }

  lemma WorkFalls(c: Config, mem: seq<Word>, e: Engine, h: History, i: Input)
    requires c.Ok() && MemoryOk(c.strb, mem) && |mem| == RowCount(c) && Steady(c, mem, e, h)
    requires MemoryAnswers(c, mem, h, i)
    ensures LinkInv(c, EngineStep(c, e, i), HistoryStep(c, h, e, i))
    ensures Work(c, EngineStep(c, e, i), HistoryStep(c, h, e, i)) + One(Answers(e, h, i) && !AtRest(e))
            <= Work(c, e, h) + Added(c, e.axi, i)
  {
    EngineKept(c, mem, e, h, i);
    ExpectedCount(c, mem, e, h, i);
    if e.stream.reading && !e.stream.inActive {
      FinalBeatLeft(c, mem, e, h);
    }
    StreamWorkFalls(c, e, i);
    if Answers(e, h, i) {
      SomethingMoves(c, mem, e, h, i);
    }
    hide *;
    PartsFall(c, e, h, i, CmdTaken(e), Hit(e, i));
  }

  // ----- Runs -----

  // Clocks that find the engine short of rest and are answered.
  ghost function Busy(c: Config, mem: seq<Word>, n: Snapshot, run: seq<Input>): nat
    requires c.Ok() && MemoryOk(c.strb, mem) && Typed(c, n.engine) && Behaves(c, mem, n, run)
    decreases |run|
  {
    if run == [] then 0
    else One(Answers(n.engine, n.history, run[0]) && !AtRest(n.engine)) + Busy(c, mem, Tick(c, n, run[0]), run[1..])
  }

  ghost function Answered(c: Config, mem: seq<Word>, n: Snapshot, run: seq<Input>): nat
    requires c.Ok() && MemoryOk(c.strb, mem) && Typed(c, n.engine) && Behaves(c, mem, n, run)
    decreases |run|
  {
    if run == [] then 0 else One(Answers(n.engine, n.history, run[0])) + Answered(c, mem, Tick(c, n, run[0]), run[1..])
  }

  lemma TotalGrows(c: Config, h: History, e: Engine, i: Input)
    requires c.Ok() && StreamTyped(c, e.stream, i)
    ensures Total(c, HistoryStep(c, h, e, i).accepted) == Total(c, h.accepted) + Added(c, e.axi, i)
  {
    hide Cost, StreamNow, Issued, NextAfter, OutputFifo.Delivered;
    if Accepts(e.axi, i) {
      assert (h.accepted + [i.desc.value])[..|h.accepted|] == h.accepted;
    }
  }

  lemma WorkTick(c: Config, mem: seq<Word>, n: Snapshot, i: Input)
    requires c.Ok() && MemoryOk(c.strb, mem) && |mem| == RowCount(c) && Steady(c, mem, n.engine, n.history)
    requires Typed(c, n.engine) && MemoryAnswers(c, mem, n.history, i)
    ensures var n' := Tick(c, n, i);
            && Steady(c, mem, n'.engine, n'.history) && Typed(c, n'.engine)
            && Work(c, n'.engine, n'.history) + One(Answers(n.engine, n.history, i) && !AtRest(n.engine)) +
               Total(c, n.history.accepted)
               <= Work(c, n.engine, n.history) + Total(c, n'.history.accepted)
            && (i.desc.None? ==> n'.history.accepted == n.history.accepted)
  {
    SteadyKept(c, mem, n.engine, n.history, i);
    WorkFalls(c, mem, n.engine, n.history, i);
    TotalGrows(c, n.history, n.engine, i);
    assert Typed(c, EngineStep(c, n.engine, i));
    hide Work, Steady, EngineStep, Added, Total, StreamNow, Issued, NextAfter, OutputFifo.Delivered, Answers, AtRest,
      One;
  }

  lemma {:induction false} WorkSpent(c: Config, mem: seq<Word>, n: Snapshot, run: seq<Input>)
    requires c.Ok() && MemoryOk(c.strb, mem) && |mem| == RowCount(c) && Steady(c, mem, n.engine, n.history)
    requires Typed(c, n.engine) && Behaves(c, mem, n, run)
    ensures var n' := After(c, mem, n, run);
            && Steady(c, mem, n'.engine, n'.history)
            && Work(c, n'.engine, n'.history) + Busy(c, mem, n, run) + Total(c, n.history.accepted)
               <= Work(c, n.engine, n.history) + Total(c, n'.history.accepted)
    decreases |run|
  {
    if run != [] {
      WorkTick(c, mem, n, run[0]);
      WorkSpent(c, mem, Tick(c, n, run[0]), run[1..]);
    }
    hide Work, Steady, Tick, Total, Answers, AtRest;
  }

  lemma RestIsDone(c: Config, mem: seq<Word>, e: Engine, h: History)
    requires c.Ok() && MemoryOk(c.strb, mem) && Steady(c, mem, e, h)
    ensures AtRest(e) <==> Work(c, e, h) == 0
  {
    if AtRest(e) {
      ReadEngineDrains(c, mem, e, h);
    }
    hide EngineInv, Wanted;
  }

  lemma {:induction false} Settles(c: Config, mem: seq<Word>, n: Snapshot, run: seq<Input>)
    requires c.Ok() && MemoryOk(c.strb, mem) && |mem| == RowCount(c) && Steady(c, mem, n.engine, n.history)
    requires Typed(c, n.engine) && Behaves(c, mem, n, run) && forall i <- run :: i.desc.None?
    requires Work(c, n.engine, n.history) <= Answered(c, mem, n, run)
    ensures var n' := After(c, mem, n, run);
            && Steady(c, mem, n'.engine, n'.history) && AtRest(n'.engine)
            && n'.history.accepted == n.history.accepted
    decreases |run|
  {
    RestIsDone(c, mem, n.engine, n.history);
    if run != [] {
      WorkTick(c, mem, n, run[0]);
      Settles(c, mem, Tick(c, n, run[0]), run[1..]);
    }
    hide Work, Steady, Tick, Total, Answers, AtRest;
  }

  // ----- The results -----

  lemma FreshSteady(c: Config, mem: seq<Word>, e: Engine)
    requires c.Ok() && MemoryOk(c.strb, mem) && IsReset(c, e)
    ensures Steady(c, mem, e, EMPTY) && Work(c, e, EMPTY) == 0
  {
    ResetOk(c, mem, e);
    hide EngineInv, Wanted;
    assert LinkInv(c, e, EMPTY) by {
      hide LoadCmd;
    }
  }

  // However the memory, the consumer and the descriptors are timed, the engine is short of rest in no
  // more answered clocks than the accepted descriptors cost, so it never waits for anything that is
  // not owed to it.
  lemma BusyBounded(c: Config, mem: seq<Word>, e: Engine, run: seq<Input>)
    requires c.Ok() && MemoryOk(c.strb, mem) && |mem| == RowCount(c) && IsReset(c, e)
    requires Behaves(c, mem, Snapshot(e, EMPTY), run)
    ensures Busy(c, mem, Snapshot(e, EMPTY), run)
            <= Total(c, After(c, mem, Snapshot(e, EMPTY), run).history.accepted)
  {
    FreshSteady(c, mem, e);
    WorkSpent(c, mem, Snapshot(e, EMPTY), run);
    hide Work, Steady;
  }

  // Whatever happened before, once no more descriptors come and enough clocks are answered, with any
  // delays in between, every accepted descriptor is served and all its beats are handed over.
  lemma ReadEngineFinishes(c: Config, mem: seq<Word>, e: Engine, before: seq<Input>, after: seq<Input>)
    requires c.Ok() && MemoryOk(c.strb, mem) && |mem| == RowCount(c) && IsReset(c, e)
    requires Behaves(c, mem, Snapshot(e, EMPTY), before)
    requires var n := After(c, mem, Snapshot(e, EMPTY), before);
             && Typed(c, n.engine) && Behaves(c, mem, n, after) && (forall i <- after :: i.desc.None?)
             && Total(c, n.history.accepted) <= Answered(c, mem, n, after)
    ensures var n := After(c, mem, Snapshot(e, EMPTY), before);
            var n' := After(c, mem, n, after);
            && n'.history.accepted == n.history.accepted
            && |n'.history.served| == |n'.history.accepted|
            && n'.history.delivered == AllBeats(n'.history.served)
            && forall k :: 0 <= k < |n'.history.served| ==>
                 GoodService(c, mem, n'.history.accepted[k], n'.history.served[k])
  {
    FreshSteady(c, mem, e);
    WorkSpent(c, mem, Snapshot(e, EMPTY), before);
    var n := After(c, mem, Snapshot(e, EMPTY), before);
    Settles(c, mem, n, after);
    var n' := After(c, mem, n, after);
    ReadEngineDrains(c, mem, n'.engine, n'.history);
    hide Work, LinkInv, StreamPart, WordsInv, RoomInv, GoodService, AllBeats;
  }
}
