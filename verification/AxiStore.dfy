// axi_dma_wr connected to axi_ram: what the memory holds after any run.
module AxiStore {
  import opened Wrappers
  import opened BurstPlanner
  import opened AxiBus
  import opened AxiDma
  import opened AxiDmaWrite
  import opened AxiDmaWriteProof
  import opened AxiDmaWriteStatus
  import opened AxiDmaWriteRun
  import opened AxiRam
  import OutputFifo

  // What the outside does on one clock.
  datatype Outside = Outside(enable: bool, descValid: bool, desc: Desc, dataValid: bool, beat: InBeat)

  datatype System = System(engine: Engine, ram: WriteSide, mem: seq<Word>, history: History)

  function EngineInput(y: System, o: Outside): Input {
    Input(o.enable, o.descValid, o.desc, o.dataValid, o.beat, y.ram.awReady, y.ram.wReady, y.ram.bValid, OKAY)
  }

  predicate SystemTyped(c: Config, y: System) {
    StatusTyped(y.engine.status) && MemoryOk(c.strb, y.mem)
  }

  // The beat on the W channel.
  function OnBus(e: Engine): WBeat {
    match e.fifo.out
    case Some(w) => w
    case None => WBeat([], [], false)
  }

  function SystemStep(c: Config, y: System, o: Outside): (y': System)
    requires c.Ok() && SystemTyped(c, y)
    ensures SystemTyped(c, y') && |y'.mem| == |y.mem|
  {
    var i, core, wValid := EngineInput(y, o), y.engine.core, y.engine.fifo.out.Some?;
    System(EngineStep(c, y.engine, i),
           WriteSideStep(c, y.ram, core.awValid, Aw(core.awAddr, core.awLen), wValid, y.engine.status.bReady),
           MemStep(c, y.ram, y.mem, wValid, OnBus(y.engine)),
           HistoryStep(c, y.history, y.engine, i))
  }

  function After(c: Config, y: System, run: seq<Outside>): (y': System)
    requires c.Ok() && SystemTyped(c, y)
    ensures SystemTyped(c, y') && |y'.mem| == |y.mem|
  {
    if run == [] then y else SystemStep(c, After(c, y, run[..|run| - 1]), run[|run| - 1])
  }

  // ----- Where the words go -----

  // The rows a list of AW requests covers, in order.
  function RowsOf(c: Config, aws: seq<Aw>): seq<nat>
    requires c.Ok()
  {
    if aws == [] then []
    else RowsOf(c, aws[..|aws| - 1]) + Rows(RowCount(c), RowOf(c.strb, aws[|aws| - 1].addr), aws[|aws| - 1].len + 1)
  }

  lemma RowsOfMore(c: Config, aws: seq<Aw>, a: Aw)
    requires c.Ok()
    ensures RowsOf(c, aws + [a]) == RowsOf(c, aws) + Rows(RowCount(c), RowOf(c.strb, a.addr), a.len + 1)
  {
    assert (aws + [a])[..|aws|] == aws;
  }

  predicate AllFit(c: Config, beats: seq<WBeat>) {
    forall k :: 0 <= k < |beats| ==> BeatFits(c, beats[k])
  }

  // Writing beats to rows, one after the other.
  function WriteAll(c: Config, mem: seq<Word>, rows: seq<nat>, beats: seq<WBeat>): (m: seq<Word>)
    requires MemoryOk(c.strb, mem) && |rows| == |beats| && AllFit(c, beats)
    ensures MemoryOk(c.strb, m) && |m| == |mem|
    decreases |beats|
  {
    if beats == [] then mem
    else
      var n := |beats| - 1;
      WriteWord(c, WriteAll(c, mem, rows[..n], beats[..n]), rows[n], beats[n])
  }

  lemma WriteOneMore(c: Config, mem: seq<Word>, rows: seq<nat>, beats: seq<WBeat>, row: nat, w: WBeat)
    requires MemoryOk(c.strb, mem) && |rows| == |beats| && AllFit(c, beats) && BeatFits(c, w)
    ensures AllFit(c, beats + [w])
    ensures WriteAll(c, mem, rows + [row], beats + [w]) == WriteWord(c, WriteAll(c, mem, rows, beats), row, w)
  {
    assert (rows + [row])[..|rows|] == rows && (beats + [w])[..|beats|] == beats;
    hide WriteWord, BeatFits;
  }

  function ToWrite(c: Config, s: WriteSide): seq<nat>
    requires c.Ok()
  {
    if s.state.WriteBurst? then Rows(RowCount(c), RowOf(c.strb, s.addr), s.count + 1) else []
  }

  function Offered(c: Config, r: Regs): seq<nat>
    requires c.Ok()
  {
    if r.awValid then Rows(RowCount(c), RowOf(c.strb, r.awAddr), r.awLen + 1) else []
  }

  predicate FifoFits(c: Config, f: OutputFifo.Fifo<WBeat>) {
    AllFit(c, f.q) && (f.out.Some? ==> BeatFits(c, f.out.value))
  }

  predicate Remaining(rows: seq<nat>, k: nat, rest: seq<nat>)
    ensures Remaining(rows, k, rest) ==> k <= |rows|
  {
    k <= |rows| && rows[k..] == rest
  }

  // Beat k of everything handed over so far went to row k of everything requested; `rest` lists the
  // rows beyond.
  predicate Stored(c: Config, mem0: seq<Word>, mem: seq<Word>, rows: seq<nat>, delivered: seq<WBeat>, rest: seq<nat>)
    requires MemoryOk(c.strb, mem0)
  {
    && AllFit(c, delivered) && Remaining(rows, |delivered|, rest)
    && mem == WriteAll(c, mem0, rows[..|delivered|], delivered)
  }

  // The rows still to be written are those the memory expects and the one request it has not taken.
  predicate StoreInv(c: Config, mem0: seq<Word>, y: System)
    requires c.Ok() && MemoryOk(c.strb, mem0)
  {
    && (y.ram.awReady ==> y.ram.state.WaitAw?) && (y.ram.wReady ==> y.ram.state.WriteBurst?)
    && FifoFits(c, y.engine.fifo)
    && Stored(c, mem0, y.mem, RowsOf(c, y.history.aws), y.history.delivered,
              ToWrite(c, y.ram) + Offered(c, y.engine.core))
  }

  // ----- One clock -----

  lemma WordMoves(c: Config, s: WriteSide, awValid: bool, aw: Aw, wValid: bool, bReady: bool)
    requires c.Ok() && (s.awReady ==> s.state.WaitAw?) && (s.wReady ==> s.state.WriteBurst?)
    ensures var s' := WriteSideStep(c, s, awValid, aw, wValid, bReady);
            && (s'.awReady ==> s'.state.WaitAw?) && (s'.wReady ==> s'.state.WriteBurst?)
            && TakesWord(s, wValid) == (s.wReady && wValid)
            && (TakesWord(s, wValid) ==> ToWrite(c, s) != [] && ToWrite(c, s)[0] == RowOf(c.strb, s.addr) % RowCount(c))
            && ToWrite(c, s')
               == (if TakesWord(s, wValid) then ToWrite(c, s)[1..] else ToWrite(c, s))
                + (if s.awReady && awValid then Rows(RowCount(c), RowOf(c.strb, aw.addr), aw.len + 1) else [])
  {
    if TakesWord(s, wValid) {
      RowsDrop(RowCount(c), RowOf(c.strb, s.addr), s.count + 1);
      NextRow(c, s.addr, s.count);
    }
    hide RowOf, Geometry, Rows, RowCount, Advance;
  }

  // The AW channel holds a request until it is taken.
  predicate HoldsAw(r: Regs, i: Input, o: CoreOut) {
    && (o.issue ==> !r.awValid && o.regs.awValid)
    && (!o.issue ==> o.regs.awValid == (r.awValid && !i.awReady))
    && (r.awValid ==> o.regs.awAddr == r.awAddr && o.regs.awLen == r.awLen)
  }

  lemma WriteHoldsAw(c: Config, r: Regs, i: Input, room: bool, av: bool)
    requires c.Ok() && r.state.Write?
    ensures HoldsAw(r, i, WriteStep(c, r, i, room, av))
  {
    hide Geometry, LowMask, ZeroWord, CycleSize, FitsBelow;
  }

  lemma StartHoldsAw(c: Config, r: Regs, i: Input, room: bool, av: bool)
    requires c.Ok() && r.state.Start?
    ensures HoldsAw(r, i, StartStep(c, r, i, room, av))
  {
    hide Geometry, Advance, NextBurst, BurstLen, CycleCount;
  }

  lemma OtherHoldsAw(c: Config, r: Regs, i: Input, room: bool, av: bool)
    requires c.Ok() && !r.state.Write? && !r.state.Start?
    ensures HoldsAw(r, i, CoreStep(c, r, i, room, av))
  {
    hide Geometry, LoadAddr, LastOffset, LowMask, ZeroWord, WriteStep, StartStep;
    if r.state.FinishBurst? {
      hide IdleStep, DropStep;
    } else {
      hide FinishStep;
    }
  }

  lemma OfferMoves(c: Config, r: Regs, i: Input, room: bool, av: bool)
    requires c.Ok()
    ensures var o := CoreStep(c, r, i, room, av);
            && (o.issue ==> Offered(c, r) == [])
            && Offered(c, o.regs)
               == (if r.awValid && i.awReady then [] else Offered(c, r))
                + Requested(c, o)
  {
    if r.state.Write? {
      WriteHoldsAw(c, r, i, room, av);
    } else if r.state.Start? {
      StartHoldsAw(c, r, i, room, av);
    } else {
      OtherHoldsAw(c, r, i, room, av);
    }
    assert HoldsAw(r, i, CoreStep(c, r, i, room, av));
    hide CoreStep, Config.Ok, RowOf, RowCount, Rows;
  }

  lemma PushFits(c: Config, r: Regs, i: Input, room: bool, av: bool)
    requires c.Ok() && (i.dataValid ==> BeatOk(c.strb, i.beat)) && (r.state.Write? ==> r.inActive)
    ensures CoreStep(c, r, i, room, av).push.Some? ==> BeatFits(c, CoreStep(c, r, i, room, av).push.value)
  {
    hide Geometry, Advance, NextBurst, BurstLen, CycleCount, LoadAddr, LastOffset, CycleSize, FitsBelow;
  }

  lemma FifoKept(c: Config, f: OutputFifo.Fifo<WBeat>, push: Option<WBeat>, ready: bool)
    requires FifoFits(c, f) && (push.Some? ==> BeatFits(c, push.value))
    ensures FifoFits(c, OutputFifo.Step(FIFO_DEPTH, f, push, ready))
  {
    hide BeatFits;
  }

  // The rows not yet written, whatever moves on this clock.
  lemma LineMoves(rows: seq<nat>, k: nat, todo: seq<nat>, offered: seq<nat>, take: bool, accept: bool, issued: seq<nat>)
    requires Remaining(rows, k, todo + offered) && (take ==> todo != []) && (issued != [] ==> offered == [])
    ensures Remaining(rows + issued, if take then k + 1 else k,
                      (if take then todo[1..] else todo) + (if accept then offered else [])
                      + ((if accept then [] else offered) + issued))
    ensures (rows + issued)[..if take then k + 1 else k] == rows[..k] + (if take then [todo[0]] else [])
  {
    var left := if take then todo[1..] else todo;
    var k' := if take then k + 1 else k;
    assert take ==> rows[k] == (todo + offered)[0];
    assert rows[k'..] == left + offered by {
      assert rows[k..] == todo + offered;
    }
    assert (rows + issued)[k'..] == rows[k'..] + issued;
    assert left + offered + issued == left + (if accept then offered else []) +
        ((if accept then [] else offered) + issued);
  }

  lemma DeliveredIs(f: OutputFifo.Fifo<WBeat>, ready: bool)
    ensures OutputFifo.Delivered(f, ready) == (if ready && f.out.Some? then [f.out.value] else [])
  {
  }

  lemma AwsMove(c: Config, e: Engine, h: History, i: Input)
    requires c.Ok() && StatusTyped(e.status)
    ensures RowsOf(c, HistoryStep(c, h, e, i).aws)
         == RowsOf(c, h.aws) + Requested(c, CoreNow(c, e, i))
  {
    var o := CoreNow(c, e, i);
    if o.issue {
      RowsOfMore(c, h.aws, Aw(o.regs.awAddr, o.regs.awLen));
    } else {
      assert h.aws + [] == h.aws;
    }
    hide CoreNow, JobsStep, LedgerStep, RowsOf, Rows, RowOf, RowCount, Config.Ok;
  }

  // The memory's side of one clock: the word taken, if any, goes to the next row expected.
  lemma MemoryMoves(c: Config, mem0: seq<Word>, mem: seq<Word>, s: WriteSide, w: Option<WBeat>, rows: seq<nat>,
                    delivered: seq<WBeat>, rest: seq<nat>, rows': seq<nat>, rest': seq<nat>)
    requires c.Ok() && MemoryOk(c.strb, mem0) && |mem0| == RowCount(c) && MemoryOk(c.strb, mem) && |mem| == |mem0|
    requires Stored(c, mem0, mem, rows, delivered, rest) && (w.Some? ==> BeatFits(c, w.value))
    requires var k := |delivered|;
             var take := TakesWord(s, w.Some?);
             && Remaining(rows', if take then k + 1 else k, rest')
             && rows'[..if take then k + 1 else k] == rows[..k] +
                (if take then [RowOf(c.strb, s.addr) % RowCount(c)] else [])
    ensures Stored(c, mem0, MemStep(c, s, mem, w.Some?, if w.Some? then w.value else WBeat([], [], false)), rows',
                   delivered + (if TakesWord(s, w.Some?) then [w.value] else []), rest')
  {
    var row, count, done := RowOf(c.strb, s.addr), RowCount(c), rows[..|delivered|];
    hide WriteAll, WriteWord, RowOf, RowCount, MemoryOk, BeatFits, Geometry;
    if TakesWord(s, w.Some?) {
      WriteOneMore(c, mem0, done, delivered, row % count, w.value);
      SameWord(c, mem, row, w.value);
    } else {
      assert done + [] == done && delivered + [] == delivered;
    }
  }

  lemma SameWord(c: Config, mem: seq<Word>, row: nat, w: WBeat)
    requires MemoryOk(c.strb, mem) && BeatFits(c, w)
    ensures WriteWord(c, mem, row % |mem|, w) == WriteWord(c, mem, row, w)
  {
  }

  lemma LinesKept(c: Config, s: WriteSide, r: Regs, i: Input, room: bool, av: bool, wValid: bool, bReady: bool,
                  rows: seq<nat>, k: nat)
    requires c.Ok() && (s.awReady ==> s.state.WaitAw?) && (s.wReady ==> s.state.WriteBurst?) && i.awReady == s.awReady
    requires Remaining(rows, k, ToWrite(c, s) + Offered(c, r))
    ensures var s', o := WriteSideStep(c, s, r.awValid, Aw(r.awAddr, r.awLen), wValid, bReady),
      CoreStep(c, r, i, room, av);
            var take, rows' := TakesWord(s, wValid), rows + Requested(c, o);
            && Remaining(rows', if take then k + 1 else k, ToWrite(c, s') + Offered(c, o.regs))
            && rows'[..if take then k + 1 else k] == rows[..k] +
               (if take then [RowOf(c.strb, s.addr) % RowCount(c)] else [])
  {
    WordMoves(c, s, r.awValid, Aw(r.awAddr, r.awLen), wValid, bReady);
    OfferMoves(c, r, i, room, av);
    OfferedIs(c, r);
    var o := CoreStep(c, r, i, room, av);
    LineMoves(rows, k, ToWrite(c, s), Offered(c, r), TakesWord(s, wValid), s.awReady && r.awValid, Requested(c, o));
    hide CoreStep, ToWrite, Offered, WriteSideStep, Rows, RowOf, RowCount, Geometry, Remaining, Requested;
  }

  // The rows of a request just put on AW.
  function Requested(c: Config, o: CoreOut): seq<nat>
    requires c.Ok()
  {
    if o.issue then Rows(RowCount(c), RowOf(c.strb, o.regs.awAddr), o.regs.awLen + 1) else []
  }

  lemma OfferedIs(c: Config, r: Regs)
    requires c.Ok()
    ensures r.awValid ==> Offered(c, r) == Rows(RowCount(c), RowOf(c.strb, r.awAddr), r.awLen + 1)
  {
  }

  // What the invariant gives for the clock.
  lemma StoreParts(c: Config, mem0: seq<Word>, y: System, o: Outside)
    requires c.Ok() && MemoryOk(c.strb, mem0) && SystemTyped(c, y) && StoreInv(c, mem0, y)
    requires o.dataValid ==> BeatOk(c.strb, o.beat)
    ensures StatusTyped(y.engine.status) && MemoryOk(c.strb, y.mem) && FifoFits(c, y.engine.fifo)
    ensures (y.ram.awReady ==> y.ram.state.WaitAw?) && (y.ram.wReady ==> y.ram.state.WriteBurst?)
    ensures y.engine.fifo.out.Some? ==> BeatFits(c, y.engine.fifo.out.value)
    ensures var rows, rest := RowsOf(c, y.history.aws), ToWrite(c, y.ram) + Offered(c, y.engine.core);
      Stored(c, mem0, y.mem, rows, y.history.delivered, rest) && Remaining(rows, |y.history.delivered|, rest)
    ensures var i := EngineInput(y, o);
      && i.awReady == y.ram.awReady && i.wReady == y.ram.wReady && (i.dataValid ==> BeatOk(c.strb, i.beat))
      && CoreNow(c, y.engine, i) == CoreStep(c, y.engine.core, i, !y.engine.fifo.half, y.engine.status.av)
  {
    hide CoreStep, ToWrite, Offered, RowsOf, StatusTyped, MemoryOk, BeatOk, BeatFits, Config.Ok;
  }

  // What the clock changes that the invariant speaks of.
  lemma SystemMoves(c: Config, y: System, o: Outside)
    requires c.Ok() && SystemTyped(c, y)
    ensures var y', i, out := SystemStep(c, y, o), EngineInput(y, o), CoreNow(c, y.engine, EngineInput(y, o));
      var w := y.engine.fifo.out;
      && SystemTyped(c, y')
      && y'.engine.core == out.regs && y'.engine.fifo == OutputFifo.Step(FIFO_DEPTH, y.engine.fifo, out.push, i.wReady)
      && y'.ram == WriteSideStep(c, y.ram, y.engine.core.awValid, Aw(y.engine.core.awAddr, y.engine.core.awLen),
                                 w.Some?,
                                 y.engine.status.bReady)
      && y'.mem == MemStep(c, y.ram, y.mem, w.Some?, if w.Some? then w.value else WBeat([], [], false))
      && y'.history.aws == HistoryStep(c, y.history, y.engine, i).aws
      && y'.history.delivered == y.history.delivered + OutputFifo.Delivered(y.engine.fifo, i.wReady)
  {
    hide CoreStep, WriteSideStep, MemStep, OutputFifo.Step, OutputFifo.Delivered, JobsStep, LedgerStep, StatusNow,
      StatusTyped, MemoryOk, Added;
  }

  lemma StoreFrom(c: Config, mem0: seq<Word>, y: System)
    requires c.Ok() && MemoryOk(c.strb, mem0) && FifoFits(c, y.engine.fifo)
    requires (y.ram.awReady ==> y.ram.state.WaitAw?) && (y.ram.wReady ==> y.ram.state.WriteBurst?)
    requires Stored(c, mem0, y.mem, RowsOf(c, y.history.aws), y.history.delivered,
                    ToWrite(c, y.ram) + Offered(c, y.engine.core))
    ensures StoreInv(c, mem0, y)
  {
  }

  lemma StoreKept(c: Config, mem0: seq<Word>, y: System, o: Outside)
    requires c.Ok() && MemoryOk(c.strb, mem0) && |mem0| == RowCount(c) && |y.mem| == |mem0| && SystemTyped(c, y) &&
      StoreInv(c, mem0, y)
    requires (o.dataValid ==> BeatOk(c.strb, o.beat)) && (y.engine.core.state.Write? ==> y.engine.core.inActive)
    ensures StoreInv(c, mem0, SystemStep(c, y, o))
  {
    hide *;
    StoreParts(c, mem0, y, o);
    SystemMoves(c, y, o);
    var i, rows, core, fifo := EngineInput(y, o), RowsOf(c, y.history.aws), y.engine.core, y.engine.fifo;
    var wValid, bReady, out := fifo.out.Some?, y.engine.status.bReady, CoreNow(c, y.engine, i);
    var y' := SystemStep(c, y, o);
    WordMoves(c, y.ram, core.awValid, Aw(core.awAddr, core.awLen), wValid, bReady);
    LinesKept(c, y.ram, core, i, !fifo.half, y.engine.status.av, wValid, bReady, rows, |y.history.delivered|);
    AwsMove(c, y.engine, y.history, i);
    PushFits(c, core, i, !fifo.half, y.engine.status.av);
    FifoKept(c, fifo, out.push, i.wReady);
    DeliveredIs(fifo, i.wReady);
    MemoryMoves(c, mem0, y.mem, y.ram, fifo.out, rows, y.history.delivered, ToWrite(c, y.ram) + Offered(c, core),
                rows + Requested(c, out), ToWrite(c, y'.ram) + Offered(c, out.regs));
    StoreFrom(c, mem0, y');
  }

  // ----- Runs of the closed system -----

  predicate IsReset(c: Config, y: System, mem0: seq<Word>) {
    && SystemTyped(c, y) && AxiDmaWrite.IsReset(y.engine) && y.history == EMPTY && y.mem == mem0
    && y.ram == WriteSide(WaitAw, y.ram.addr, y.ram.count, false, false, false)
  }

  predicate InputOk(c: Config, o: Outside) {
    (o.dataValid ==> BeatOk(c.strb, o.beat)) && o.desc.addr < c.space
  }

  lemma WriteIsActive(c: Config, e: Engine, h: History)
    requires c.Ok() && EngineInv(c, e, h)
    ensures e.core.state.Write? ==> e.core.inActive
  {
    WriteActive(c, e.core, h.jobs);
  }

  lemma {:induction false} InvAlways(c: Config, mem0: seq<Word>, y: System, run: seq<Outside>)
    requires c.Ok() && !c.unaligned && MemoryOk(c.strb, mem0) && |mem0| == RowCount(c) && IsReset(c, y, mem0)
    requires forall k :: 0 <= k < |run| ==> InputOk(c, run[k])
    ensures var y' := After(c, y, run); EngineInv(c, y'.engine, y'.history) && StoreInv(c, mem0, y')
  {
    if run == [] {
      AxiDmaWriteRun.InvAlways(c, y.engine, []);
    } else {
      hide EngineInv, StoreInv, IsReset, SystemTyped, EngineStep, HistoryStep, WriteSideStep, MemStep, Geometry;
      InvAlways(c, mem0, y, run[..|run| - 1]);
      var m, o := After(c, y, run[..|run| - 1]), run[|run| - 1];
      assert SystemTyped(c, m);
      WriteIsActive(c, m.engine, m.history);
      EngineKept(c, m.engine, m.history, EngineInput(m, o));
      StoreKept(c, mem0, m, o);
    }
  }

  // Nothing is under way: the engine is idle and every word it sent has been written.
  predicate Resting(y: System) {
    && y.engine.core.state.Idle? && !y.engine.core.awValid && OutputFifo.Held(y.engine.fifo) == []
    && !y.ram.state.WriteBurst?
  }

  // Over every run that ends at rest: the memory is what it was, overwritten by the beats of all jobs
  // in order, at the rows of their AW requests.
  lemma StoreCorrect(c: Config, mem0: seq<Word>, y: System, run: seq<Outside>)
    requires c.Ok() && !c.unaligned && MemoryOk(c.strb, mem0) && |mem0| == RowCount(c) && IsReset(c, y, mem0)
    requires forall k :: 0 <= k < |run| ==> InputOk(c, run[k])
    requires Resting(After(c, y, run))
    ensures var y' := After(c, y, run);
            var t := TrafficOf(c, y'.history.jobs);
            && (forall k :: 0 <= k < |y'.history.jobs| ==> GoodJob(c, y'.history.jobs[k]))
            && t.accepted == y'.history.accepted && t.consumed == y'.history.consumed
            && |RowsOf(c, t.aws)| == |t.beats| && AllFit(c, t.beats)
            && y'.mem == WriteAll(c, mem0, RowsOf(c, t.aws), t.beats)
  {
    InvAlways(c, mem0, y, run);
    AtRest(c, mem0, After(c, y, run));
  }

  lemma AtRest(c: Config, mem0: seq<Word>, y: System)
    requires c.Ok() && MemoryOk(c.strb, mem0) && EngineInv(c, y.engine, y.history) && StoreInv(c, mem0, y) && Resting(y)
    ensures var t := TrafficOf(c, y.history.jobs);
            && (forall k :: 0 <= k < |y.history.jobs| ==> GoodJob(c, y.history.jobs[k]))
            && t.accepted == y.history.accepted && t.consumed == y.history.consumed
            && |RowsOf(c, t.aws)| == |t.beats| && AllFit(c, t.beats)
            && y.mem == WriteAll(c, mem0, RowsOf(c, t.aws), t.beats)
  {
    hide TrafficOf, RowsOf, WriteAll, StatusInv, JobInv, GoodJob, RoomInv, FifoFits, BeatFits;
    var h, rows := y.history, RowsOf(c, y.history.aws);
    assert h.delivered + OutputFifo.Held(y.engine.fifo) == h.delivered;
    assert rows[|h.delivered|..] == [];
    assert rows[..|h.delivered|] == rows;
  }
}
