// axi_dma_rd connected to axi_ram: the memory really answers the way the engine's proof assumes.
module AxiLoad {
  import opened Arith
  import opened Wrappers
  import opened BurstPlanner
  import opened AxiBus
  import opened AxiDma
  import opened AxiDmaRead
  import opened AxiDmaReadProof
  import opened AxiDmaReadRun
  import AxiRam

  // What the outside does on one clock.
  datatype Outside = Outside(enable: bool, desc: Option<Desc>, outReady: bool)

  datatype System = System(engine: Engine, ram: AxiRam.ReadSide, history: History)

  function EngineInput(pipelined: bool, y: System, o: Outside): Input {
    Input(o.enable, o.desc, y.ram.arReady, AxiRam.OutValid(pipelined, y.ram), AxiRam.OutData(pipelined, y.ram), OKAY,
          o.outReady)
  }

  // Words fetched and not yet handed over, oldest first.
  function Held(pipelined: bool, s: AxiRam.ReadSide): seq<Word> {
    (if pipelined && s.pipeValid then [s.pipeData] else []) + (if s.rValid then [s.rData] else [])
  }

  // Rows the memory has still to fetch, and those of a request it has not taken yet.
  function ToFetch(c: Config, s: AxiRam.ReadSide): seq<nat>
    requires c.Ok()
  {
    if s.busy then Rows(RowCount(c), RowOf(c.strb, s.addr), s.count + 1) else []
  }

  function Offered(c: Config, a: AxiRegs): seq<nat>
    requires c.Ok()
  {
    if a.arValid then Rows(RowCount(c), RowOf(c.strb, a.arAddr), a.arLen + 1) else []
  }

  predicate WordsAre(mem: seq<Word>, words: seq<Word>, rows: seq<nat>)
    requires 0 < |mem| && |words| <= |rows|
  {
    forall k :: 0 <= k < |words| ==> words[k] == WordAt(mem, rows[k])
  }

  // rows lists the held words, then the rest.
  predicate Line(mem: seq<Word>, held: seq<Word>, rows: seq<nat>, rest: seq<nat>)
    requires 0 < |mem|
  {
    |held| <= |rows| && WordsAre(mem, held, rows) && rows[|held|..] == rest
  }

  // The engine's idea of the words in flight is what the memory holds, has to fetch, and is offered.
  predicate RamInv(c: Config, pipelined: bool, mem: seq<Word>, y: System)
    requires c.Ok() && MemoryOk(c.strb, mem)
  {
    && (y.ram.arReady ==> !y.ram.busy)
    && |y.ram.rData| == |y.ram.pipeData| == c.strb
    && Line(mem, Held(pipelined, y.ram), y.history.inflight, ToFetch(c, y.ram) + Offered(c, y.engine.axi))
  }

  // A clock of the read port: one word leaves at the front, one fetched word joins at the back.
  lemma ReadPortMoves(c: Config, pipelined: bool, s: AxiRam.ReadSide, mem: seq<Word>, arValid: bool, ar: Aw,
                      rReady: bool)
    requires c.Ok() && MemoryOk(c.strb, mem)
    ensures var s' := AxiRam.ReadSideStep(c, pipelined, s, mem, arValid, ar, rReady);
            var hit := rReady && AxiRam.OutValid(pipelined, s);
            && (hit ==> Held(pipelined, s) != [] && Held(pipelined, s)[0] == AxiRam.OutData(pipelined, s))
            && Held(pipelined, s')
               == (if hit then Held(pipelined, s)[1..] else Held(pipelined, s))
                + (if AxiRam.Fetches(pipelined, s, rReady) then [WordAt(mem, RowOf(c.strb, s.addr))] else [])
  {
    hide RowOf, WordAt, Geometry, MemoryOk;
  }

  lemma FetchMoves(c: Config, pipelined: bool, s: AxiRam.ReadSide, mem: seq<Word>, arValid: bool, ar: Aw, rReady: bool)
    requires c.Ok() && MemoryOk(c.strb, mem) && |mem| == RowCount(c) && (s.arReady ==> !s.busy)
    ensures var s' := AxiRam.ReadSideStep(c, pipelined, s, mem, arValid, ar, rReady);
            && (AxiRam.Fetches(pipelined, s, rReady) ==> (
                  && ToFetch(c, s) != [] && WordAt(mem, ToFetch(c, s)[0]) == WordAt(mem, RowOf(c.strb, s.addr))))
            && ToFetch(c, s')
               == (if AxiRam.Fetches(pipelined, s, rReady) then ToFetch(c, s)[1..] else ToFetch(c, s))
                + (if s.arReady && arValid then Rows(RowCount(c), RowOf(c.strb, ar.addr), ar.len + 1) else [])
            && (s'.arReady ==> !s'.busy)
  {
    if AxiRam.Fetches(pipelined, s, rReady) {
      WordWraps(mem, RowOf(c.strb, s.addr));
      RowsDrop(RowCount(c), RowOf(c.strb, s.addr), s.count + 1);
      NextRow(c, s.addr, s.count);
    }
    hide RowOf, WordAt, Geometry, MemoryOk, Rows, RowCount, Advance;
  }

  // The pipeline of row numbers, whatever moves on this clock.
  lemma LineMoves(mem: seq<Word>, rows: seq<nat>, held: seq<Word>, todo: seq<nat>, offered: seq<nat>,
                  hit: bool, fetch: bool, word: Word, accept: bool, issued: seq<nat>)
    requires 0 < |mem| && Line(mem, held, rows, todo + offered)
    requires hit ==> held != []
    requires fetch ==> todo != [] && word == WordAt(mem, todo[0])
    requires issued != [] ==> offered == []
    ensures Line(mem, (if hit then held[1..] else held) + (if fetch then [word] else []),
                 (if hit then rows[1..] else rows) + issued,
                 (if fetch then todo[1..] else todo) + (if accept then offered else []) +
                   ((if accept then [] else offered) + issued))
  {
    var rest := todo + offered;
    var rows1, held1 := if hit then rows[1..] else rows, if hit then held[1..] else held;
    var rest2 := if fetch then rest[1..] else rest;
    if hit {
      LineDrop(mem, held, rows, rest);
    }
    if fetch {
      LineFetch(mem, held1, rows1, rest, word);
    }
    assert held1 + (if fetch then [word] else []) == if fetch then held1 + [word] else held1;
    LineIssue(mem, held1 + (if fetch then [word] else []), rows1, rest2, issued);
    hide Line;
    RestMoves(todo, offered, fetch, accept, issued);
  }

  lemma RestMoves(todo: seq<nat>, offered: seq<nat>, fetch: bool, accept: bool, issued: seq<nat>)
    requires fetch ==> todo != []
    ensures (if fetch then (todo + offered)[1..] else todo + offered) + issued
         == (if fetch then todo[1..] else todo) + (if accept then offered else []) +
           ((if accept then [] else offered) + issued)
  {
    var left := if fetch then todo[1..] else todo;
    assert (if fetch then (todo + offered)[1..] else todo + offered) == left + offered;
    if accept {
      assert [] + issued == issued;
    } else {
      assert left + [] == left;
      assert left + offered + issued == left + (offered + issued);
    }
  }

  lemma LineDrop(mem: seq<Word>, held: seq<Word>, rows: seq<nat>, rest: seq<nat>)
    requires 0 < |mem| && Line(mem, held, rows, rest) && held != []
    ensures Line(mem, held[1..], rows[1..], rest)
  {
    hide WordAt;
  }

  lemma LineFetch(mem: seq<Word>, held: seq<Word>, rows: seq<nat>, rest: seq<nat>, word: Word)
    requires 0 < |mem| && Line(mem, held, rows, rest) && rest != [] && word == WordAt(mem, rest[0])
    ensures Line(mem, held + [word], rows, rest[1..])
  {
    hide WordAt;
    assert rows[|held|] == rest[0];
  }

  lemma LineIssue(mem: seq<Word>, held: seq<Word>, rows: seq<nat>, rest: seq<nat>, issued: seq<nat>)
    requires 0 < |mem| && Line(mem, held, rows, rest)
    ensures Line(mem, held, rows + issued, rest + issued)
  {
    hide WordAt;
    assert (rows + issued)[|held|..] == rows[|held|..] + issued;
  }

  lemma IssuedRows(c: Config, a: AxiRegs, next: nat)
    requires c.Ok() && AddressOk(c, a, next)
    ensures a.start && !a.arValid ==>
              Issued(c, a) == Rows(RowCount(c), RowOf(c.strb, a.addr),
                                   BurstLen(c, a.addr, NextBurst(c, a.addr, a.left)) + 1)
  {
    if a.start && !a.arValid {
      var n := NextBurst(c, a.addr, a.left);
      BurstBytesPeriodic(c.strb, c.maxBeats, next, a.left, c.space);
      BurstIsLegal(c.strb, c.maxBeats, a.addr, a.left);
      BurstLenExact(c, a.addr, a.left);
      BurstRows(c.strb, c.maxBeats, c.space, Burst(a.addr, n));
      DivUnique(a.addr, c.space, 0);
      hide BurstBytes, Rows, Consecutive, BeatCount, RowOf;
    }
  }

  lemma OfferMoves(c: Config, a: AxiRegs, next: nat, i: Input, taken: bool)
    requires c.Ok() && AddressOk(c, a, next)
    ensures Offered(c, AxiStep(c, a, i, taken)) == (if a.arValid && i.arReady then [] else Offered(c, a)) + Issued(c, a)
    ensures Issued(c, a) != [] ==> Offered(c, a) == []
  {
    IssuedRows(c, a, next);
    hide Rows, RowOf, BurstLen, NextBurst, LoadAddr, LoadCmd, Advance, RowCount, AddressOk;
  }

  // ----- The closed system -----

  function SystemStep(c: Config, pipelined: bool, mem: seq<Word>, y: System, o: Outside): System
    requires c.Ok() && MemoryOk(c.strb, mem) && SystemTyped(c, y)
  {
    var i := EngineInput(pipelined, y, o);
    var a := y.engine.axi;
    System(EngineStep(c, y.engine, i),
           AxiRam.ReadSideStep(c, pipelined, y.ram, mem, a.arValid, Aw(a.arAddr, a.arLen), y.engine.stream.rReady),
           HistoryStep(c, y.history, y.engine, i))
  }

  predicate SystemTyped(c: Config, y: System) {
    Typed(c, y.engine) && |y.ram.rData| == |y.ram.pipeData| == c.strb
  }

  predicate SystemInv(c: Config, pipelined: bool, mem: seq<Word>, y: System)
    requires c.Ok() && MemoryOk(c.strb, mem)
  {
    RamInv(c, pipelined, mem, y) && EngineInv(c, mem, y.engine, y.history)
  }

  // axi_ram meets the assumption the read engine was proved under.
  lemma RamAnswers(c: Config, pipelined: bool, mem: seq<Word>, y: System, o: Outside)
    requires c.Ok() && MemoryOk(c.strb, mem) && SystemInv(c, pipelined, mem, y)
    requires o.desc.Some? ==> o.desc.value.addr < c.space
    ensures MemoryAnswers(c, mem, y.history, EngineInput(pipelined, y, o))
  {
    hide EngineInv, WordAt, ToFetch, Offered;
  }

  lemma SystemKept(c: Config, pipelined: bool, mem: seq<Word>, y: System, o: Outside)
    requires c.Ok() && MemoryOk(c.strb, mem) && |mem| == RowCount(c) && SystemInv(c, pipelined, mem, y)
    requires AddressInSpace(c, o) && SystemTyped(c, y)
    ensures SystemInv(c, pipelined, mem, SystemStep(c, pipelined, mem, y, o))
  {
    var i, a := EngineInput(pipelined, y, o), y.engine.axi;
    var ar, rReady := Aw(a.arAddr, a.arLen), y.engine.stream.rReady;
    RamAnswers(c, pipelined, mem, y, o);
    EngineKept(c, mem, y.engine, y.history, i);
    ReadPortMoves(c, pipelined, y.ram, mem, a.arValid, ar, rReady);
    FetchMoves(c, pipelined, y.ram, mem, a.arValid, ar, rReady);
    OfferMoves(c, a, y.history.next, i, CmdTaken(y.engine));
    RamKept(c, pipelined, mem, y, o);
    hide EngineInv, RamInv, EngineStep, HistoryStep, AxiRam.ReadSideStep;
  }

  lemma PortWidths(c: Config, pipelined: bool, s: AxiRam.ReadSide, mem: seq<Word>, arValid: bool, ar: Aw, rReady: bool)
    requires c.Ok() && MemoryOk(c.strb, mem) && |s.rData| == |s.pipeData| == c.strb
    ensures var s' := AxiRam.ReadSideStep(c, pipelined, s, mem, arValid, ar, rReady);
      |s'.rData| == |s'.pipeData| == c.strb
  {
    hide Geometry, RowOf, Advance;
  }

  lemma RamLine(c: Config, pipelined: bool, mem: seq<Word>, s: AxiRam.ReadSide, rows: seq<nat>, a: AxiRegs, next: nat,
                i: Input, taken: bool, rReady: bool)
    requires c.Ok() && MemoryOk(c.strb, mem) && |mem| == RowCount(c) && AddressOk(c, a, next)
    requires (s.arReady ==> !s.busy) && i.arReady == s.arReady
    requires Line(mem, Held(pipelined, s), rows, ToFetch(c, s) + Offered(c, a))
    ensures var s' := AxiRam.ReadSideStep(c, pipelined, s, mem, a.arValid, Aw(a.arAddr, a.arLen), rReady);
            var hit := rReady && AxiRam.OutValid(pipelined, s);
            && (hit ==> rows != [])
            && (s'.arReady ==> !s'.busy)
            && Line(mem, Held(pipelined, s'), (if hit then rows[1..] else rows) + Issued(c, a),
                    ToFetch(c, s') + Offered(c, AxiStep(c, a, i, taken)))
  {
    var ar := Aw(a.arAddr, a.arLen);
    ReadPortMoves(c, pipelined, s, mem, a.arValid, ar, rReady);
    FetchMoves(c, pipelined, s, mem, a.arValid, ar, rReady);
    OfferMoves(c, a, next, i, taken);
    hide Held, ToFetch, AxiStep, Issued, AxiRam.Fetches, WordAt, RowOf, MemoryOk, Config.Ok, AddressOk,
      AxiRam.ReadSideStep, Rows, WordsAre, RowCount, AxiRam.OutValid, AxiRam.OutData;
    LineMoves(mem, rows, Held(pipelined, s), ToFetch(c, s), Offered(c, a), rReady && AxiRam.OutValid(pipelined, s),
              AxiRam.Fetches(pipelined, s, rReady), WordAt(mem, RowOf(c.strb, s.addr)), s.arReady &&
                a.arValid, Issued(c, a));
  }

  lemma RamKept(c: Config, pipelined: bool, mem: seq<Word>, y: System, o: Outside)
    requires c.Ok() && MemoryOk(c.strb, mem) && |mem| == RowCount(c) && RamInv(c, pipelined, mem, y)
    requires SystemTyped(c, y) && AddressOk(c, y.engine.axi, y.history.next)
    requires Hit(y.engine, EngineInput(pipelined, y, o)) ==> y.history.inflight != []
    ensures RamInv(c, pipelined, mem, SystemStep(c, pipelined, mem, y, o))
  {
    var i, a := EngineInput(pipelined, y, o), y.engine.axi;
    RamLine(c, pipelined, mem, y.ram, y.history.inflight, a, y.history.next, i, CmdTaken(y.engine),
            y.engine.stream.rReady);
    PortWidths(c, pipelined, y.ram, mem, a.arValid, Aw(a.arAddr, a.arLen), y.engine.stream.rReady);
    hide Line, Held, ToFetch, Offered, AxiStep, Issued, MemoryOk, Config.Ok, AddressOk, AxiRam.ReadSideStep,
      StreamStep, StreamTyped, RowCount, AxiRam.OutValid, AxiRam.OutData, NextAfter, CmdTaken;
  }

  // ----- Runs of the closed system -----

  function After(c: Config, pipelined: bool, mem: seq<Word>, y: System, run: seq<Outside>): (y': System)
    requires c.Ok() && MemoryOk(c.strb, mem) && SystemTyped(c, y)
    ensures SystemTyped(c, y')
  {
    if run == [] then y
    else
      var m := After(c, pipelined, mem, y, run[..|run| - 1]);
      PortWidths(c, pipelined, m.ram, mem, m.engine.axi.arValid, Aw(m.engine.axi.arAddr, m.engine.axi.arLen),
                 m.engine.stream.rReady);
      SystemStep(c, pipelined, mem, m, run[|run| - 1])
  }

  predicate IsReset(c: Config, y: System) {
    AxiDmaRead.IsReset(c, y.engine) && AxiRam.ReadReset(c, y.ram) && y.history == EMPTY
  }

  predicate AddressesOk(c: Config, run: seq<Outside>) {
    forall k :: 0 <= k < |run| ==> AddressInSpace(c, run[k])
  }

  predicate AddressInSpace(c: Config, o: Outside) {
    o.desc.Some? ==> o.desc.value.addr < c.space
  }

  lemma {:induction false} InvAlways(c: Config, pipelined: bool, mem: seq<Word>, y: System, run: seq<Outside>)
    requires c.Ok() && MemoryOk(c.strb, mem) && |mem| == RowCount(c) && IsReset(c, y) && AddressesOk(c, run)
    ensures SystemInv(c, pipelined, mem, After(c, pipelined, mem, y, run))
  {
    if run == [] {
      ResetOk(c, mem, y.engine);
    } else {
      hide SystemInv, SystemStep, SystemTyped, IsReset;
      InvAlways(c, pipelined, mem, y, run[..|run| - 1]);
      SystemKept(c, pipelined, mem, After(c, pipelined, mem, y, run[..|run| - 1]), run[|run| - 1]);
    }
  }

  // With axi_ram behind it the read engine needs no assumption about its memory: over every run the
  // stream carries, descriptor by descriptor, the bytes of the memory.
  lemma LoadCorrect(c: Config, pipelined: bool, mem: seq<Word>, y: System, run: seq<Outside>)
    requires c.Ok() && MemoryOk(c.strb, mem) && |mem| == RowCount(c) && IsReset(c, y) && AddressesOk(c, run)
    ensures var h := After(c, pipelined, mem, y, run).history;
            && |h.served| <= |h.accepted|
            && (forall k :: 0 <= k < |h.served| ==> GoodService(c, mem, h.accepted[k], h.served[k]))
            && h.delivered <= AllBeats(h.served) + h.beats
  {
    InvAlways(c, pipelined, mem, y, run);
    hide AllBeats, GoodService, ToIssue, Expected, AddressOk, After, RamInv;
  }
}
