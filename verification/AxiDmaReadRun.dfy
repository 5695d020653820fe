// axi_dma_rd end to end: the invariant that ties both state machines, the words in flight and the
// output FIFO together, and what it says about every run.
module AxiDmaReadRun {
  import opened Arith
  import opened Wrappers
  import opened BurstPlanner
  import opened AxiBus
  import opened AxiDma
  import opened AxiDmaRead
  import opened AxiDmaReadData
  import opened AxiDmaReadProof
  import OutputFifo

  // ----- Which rows are still to come -----

  // Rows the AXI side has yet to request.
  function ToIssue(c: Config, a: AxiRegs, next: nat): seq<nat>
    requires c.Ok()
  {
    if a.start && 0 < a.left then Rows(RowCount(c), RowOf(c.strb, next), BeatCount(c.strb, next, a.left)) else []
  }

  // Rows the stream side still wants for descriptor d after `got` words.
  function Wanted(c: Config, d: Desc, got: nat): seq<nat>
    requires c.Ok()
  {
    if got < InBeats(c, d) then Rows(RowCount(c), FirstRow(c, d) + got, InBeats(c, d) - got) else []
  }

  predicate AddressOk(c: Config, a: AxiRegs, next: nat)
    requires c.Ok()
  {
    a.start ==> 1 <= a.left && a.addr == next % c.space && (c.unaligned || next % c.strb == 0)
  }

  // Issuing a burst moves its rows from the ones to issue to the ones in flight.
  lemma BurstIssued(c: Config, a: AxiRegs, next: nat)
    requires c.Ok() && a.start && AddressOk(c, a, next)
    ensures var n := NextBurst(c, a.addr, a.left);
            var rest := if n >= a.left then []
                        else Rows(RowCount(c), RowOf(c.strb, next + n), BeatCount(c.strb, next + n, a.left - n));
            && 1 <= n
            && Consecutive(RowOf(c.strb, a.addr), BurstLen(c, a.addr, n) + 1) + rest == ToIssue(c, a, next)
            && (a.addr + n) % c.space == (next + n) % c.space
            && (n < a.left && !c.unaligned ==> (next + n) % c.strb == 0)
  {
    var n := NextBurst(c, a.addr, a.left);
    BurstBytesPeriodic(c.strb, c.maxBeats, next, a.left, c.space);
    BurstIsLegal(c.strb, c.maxBeats, next, a.left);
    BurstRows(c.strb, c.maxBeats, c.space, Burst(next, n));
    BurstLenExact(c, a.addr, a.left);
    DivBounds(next, c.space);
    AddMultiple(a.addr + n, next / c.space, c.space);
    assert next + n == a.addr + n + next / c.space * c.space;
    assert BeatCount(c.strb, a.addr, n) == BeatCount(c.strb, next, n);
    if n < a.left {
      BeatsSplit(c.strb, next, n, a.left - n);
      hide BeatCount, RowOf, BurstBytes, Rows, Consecutive;
      RowsJoin(RowCount(c), RowOf(c.strb, next), BeatCount(c.strb, next, n), BeatCount(c.strb, next + n, a.left - n));
    }
  }

  // Each visit to START puts the next burst of the descriptor's plan on the AR channel: arlen + 1 is
  // its beat count, and what is left is the rest of the plan.
  lemma FollowsPlan(c: Config, a: AxiRegs, next: nat, i: Input, taken: bool)
    requires c.Ok() && a.start && !a.arValid && AddressOk(c, a, next)
    ensures var p, a' := Plan(c.strb, c.maxBeats, next, a.left), AxiStep(c, a, i, taken);
            && a'.arValid && a'.arAddr == p[0].addr % c.space
            && a'.arLen + 1 == BeatCount(c.strb, p[0].addr, p[0].bytes) <= c.maxBeats
            && p[1..] == Plan(c.strb, c.maxBeats, NextAfter(c, a, next, i), if a'.start then a'.left else 0)
  {
    BurstBytesPeriodic(c.strb, c.maxBeats, next, a.left, c.space);
    BurstIsLegal(c.strb, c.maxBeats, next, a.left);
    BurstLenExact(c, a.addr, a.left);
    assert BeatCount(c.strb, a.addr, NextBurst(c, a.addr, a.left)) ==
        BeatCount(c.strb, next, NextBurst(c, a.addr, a.left));
    hide BurstBytes, BeatCount, BurstLen, Geometry;
  }

  // ----- The invariant -----

  // Descriptors move in order from accepted through pending and streaming to served.
  predicate LinkInv(c: Config, e: Engine, h: History)
    requires c.Ok()
  {
    var a, s := e.axi, e.stream;
    && |h.accepted| == |h.served| + (if s.reading then 1 else 0) + (if a.cmdValid then 1 else 0)
    && (a.ready ==> !a.start && !a.cmdValid) && a.cmd.offset <= c.strb
    && (a.cmdValid ==> a.cmd == LoadCmd(c, h.accepted[|h.accepted| - 1]))
    && AddressOk(c, a, h.next)
    && (s.rReady ==> s.reading && s.inActive)
  }

  predicate StreamPart(c: Config, mem: seq<Word>, e: Engine, h: History)
    requires c.Ok() && MemoryOk(c.strb, mem) && LinkInv(c, e, h)
  {
    && |e.stream.save| == c.strb && e.stream.cmd.offset <= c.strb
    && if e.stream.reading then StreamInv(c, mem, e.stream, h.accepted[|h.served|], h.resps, h.beats)
       else e.stream.resp == OKAY && h.resps == [] && h.beats == []
  }

  // What the descriptor being streamed, and the one handed over behind it, still need.
  function Reading(c: Config, reading: bool, accepted: seq<Desc>, at: nat, got: nat): seq<nat>
    requires c.Ok() && (reading ==> at < |accepted|)
  {
    if reading then Wanted(c, accepted[at], got) else []
  }

  function Pending(c: Config, cmdValid: bool, accepted: seq<Desc>): seq<nat>
    requires c.Ok() && (cmdValid ==> accepted != [])
  {
    if cmdValid then Wanted(c, accepted[|accepted| - 1], 0) else []
  }

  // Every row still to come, oldest first.
  function Expected(c: Config, e: Engine, h: History): seq<nat>
    requires c.Ok() && LinkInv(c, e, h)
  {
    Reading(c, e.stream.reading, h.accepted, |h.served|, |h.resps|) + Pending(c, e.axi.cmdValid, h.accepted)
  }

  // Requested and not yet returned, then not yet requested: exactly what the stream side expects,
  // so no word can be charged to the wrong descriptor.
  predicate WordsInv(c: Config, e: Engine, h: History)
    requires c.Ok() && LinkInv(c, e, h)
  {
    h.inflight + ToIssue(c, e.axi, h.next) == Expected(c, e, h)
  }

  // Half-full and ready are both a cycle late, and the final realigned beat needs no R word; still
  // fewer than 20 of the 32 slots are ever used.
  predicate RoomInv(e: Engine) {
    var n := |e.fifo.q|;
    && n <= 19
    && (!e.fifo.half ==> n <= 16)
    && (e.stream.rReady ==> n <= 17)
    && (e.stream.reading && !e.stream.inActive ==> n <= 18)
  }

  predicate ServedGood(c: Config, mem: seq<Word>, accepted: seq<Desc>, served: seq<Served>)
    requires c.Ok() && MemoryOk(c.strb, mem)
  {
    && |served| <= |accepted|
    && forall k :: 0 <= k < |served| ==> GoodService(c, mem, accepted[k], served[k])
  }

  predicate EngineInv(c: Config, mem: seq<Word>, e: Engine, h: History)
    requires c.Ok() && MemoryOk(c.strb, mem)
  {
    && LinkInv(c, e, h) && StreamPart(c, mem, e, h) && WordsInv(c, e, h) && RoomInv(e)
    && ServedGood(c, mem, h.accepted, h.served)
    && h.delivered + OutputFifo.Held(e.fifo) == AllBeats(h.served) + h.beats
  }

  // ----- Its preservation -----

  lemma RoomKept(c: Config, e: Engine, i: Input)
    requires c.Ok() && StreamTyped(c, e.stream, i) && RoomInv(e)
    requires e.stream.rReady ==> e.stream.reading && e.stream.inActive
    requires e.stream.reading && !e.stream.inActive ==> e.stream.outLast
    ensures RoomInv(EngineStep(c, e, i))
    ensures StreamNow(c, e, i).push.Some? ==> |e.fifo.q| < FIFO_DEPTH
  {
    hide Shifted, AxiStep;
  }

  lemma FinalBeatOnly(c: Config, mem: seq<Word>, s: StreamRegs, d: Desc, resps: seq<Resp>, beats: seq<Beat>)
    requires c.Ok() && MemoryOk(c.strb, mem) && StreamInv(c, mem, s, d, resps, beats)
    ensures !s.inActive ==> s.outLast
  {
    BeatRelation(c, d);
    hide InBeats, OutBeats, Skew, GoodBeats, FirstRow;
  }

  lemma WantedHead(c: Config, d: Desc, got: nat)
    requires c.Ok() && got < InBeats(c, d)
    ensures Wanted(c, d, got)[0] == (FirstRow(c, d) + got) % RowCount(c)
    ensures Wanted(c, d, got)[1..] == Wanted(c, d, got + 1)
  {
    hide InBeats, FirstRow;
    RowsDrop(RowCount(c), FirstRow(c, d) + got, InBeats(c, d) - got);
  }

  // An offered word is the next one of the descriptor being streamed.
  lemma RightWord(c: Config, mem: seq<Word>, e: Engine, h: History, i: Input)
    requires c.Ok() && MemoryOk(c.strb, mem) && |mem| == RowCount(c) && EngineInv(c, mem, e, h)
    requires MemoryAnswers(c, mem, h, i) && Hit(e, i)
    ensures i.rData == WordAt(mem, FirstRow(c, h.accepted[|h.served|]) + |h.resps|)
  {
    var d := h.accepted[|h.served|];
    hide InBeats, OutBeats, Skew, GoodBeats, FirstRow, Wanted, ToIssue, AddressOk, ServedGood, LoadCmd, WordAt,
      RowCount;
    WantedHead(c, d, |h.resps|);
    WordWraps(mem, FirstRow(c, d) + |h.resps|);
    assert Expected(c, e, h)[0] == h.inflight[0];
  }

  // One clock of the AXI side: what it puts on AR plus what is then left to issue is what there was,
  // plus the rows of a newly accepted descriptor.
  lemma AxiAdvances(c: Config, a: AxiRegs, next: nat, i: Input, taken: bool)
    requires c.Ok() && AddressOk(c, a, next) && (i.desc.Some? ==> i.desc.value.addr < c.space)
    ensures var a', next' := AxiStep(c, a, i, taken), NextAfter(c, a, next, i);
            && AddressOk(c, a', next')
            && Issued(c, a) + ToIssue(c, a', next')
               == ToIssue(c, a, next) + (if Accepts(a, i) then Wanted(c, i.desc.value, 0) else [])
  {
    if a.start {
      if !a.arValid {
        BurstIssued(c, a, next);
      }
      hide Rows, BeatCount, RowOf, Consecutive, BurstLen, NextBurst;
    } else if Accepts(a, i) {
      AcceptAddress(c, i.desc.value);
      hide Rows, BeatCount, RowOf, Consecutive, BurstLen, NextBurst, LoadAddr, LoadCmd;
    }
  }

  lemma AcceptAddress(c: Config, d: Desc)
    requires c.Ok() && d.addr < c.space
    ensures LoadAddr(c, d) % c.space == LoadAddr(c, d)
    ensures c.unaligned || LoadAddr(c, d) % c.strb == 0
  {
    if !c.unaligned {
      LoadAddrAligned(c, d);
    }
    assert LoadAddr(c, d) < c.space;
    hide *;
    DivUnique(LoadAddr(c, d), c.space, 0);
  }

  // The handshake flags of the two machines after one clock.
  lemma AxiFlags(c: Config, a: AxiRegs, i: Input, taken: bool)
    requires c.Ok() && (a.ready ==> !a.start && !a.cmdValid)
    ensures var a' := AxiStep(c, a, i, taken);
            && a'.cmdValid == (Accepts(a, i) || (a.cmdValid && !taken))
            && a'.cmd == (if Accepts(a, i) then LoadCmd(c, i.desc.value) else a.cmd)
            && (a'.ready ==> !a'.start && !a'.cmdValid)
            && (Accepts(a, i) ==> !a.cmdValid)
  {
    hide LoadAddr, LoadCmd, NextBurst, BurstLen;
  }

  lemma StreamFlags(c: Config, s: StreamRegs, cmdValid: bool, cmd: Cmd, i: Input, room: bool)
    requires c.Ok() && StreamTyped(c, s, i) && (s.rReady ==> s.reading && s.inActive)
    ensures var o := StreamStep(c, s, cmdValid, cmd, i, room);
            && o.regs.reading == (if s.reading then o.status.None? else cmdValid)
            && (o.status.Some? ==> s.reading)
            && (o.regs.rReady ==> o.regs.reading && o.regs.inActive)
  {
    hide Shifted;
  }

  lemma LinkKept(c: Config, e: Engine, h: History, i: Input)
    requires c.Ok() && LinkInv(c, e, h) && StreamTyped(c, e.stream, i)
    requires (Hit(e, i) ==> h.inflight != []) && (i.desc.Some? ==> i.desc.value.addr < c.space)
    ensures LinkInv(c, EngineStep(c, e, i), HistoryStep(c, h, e, i))
  {
    AxiAdvances(c, e.axi, h.next, i, CmdTaken(e));
    AxiFlags(c, e.axi, i, CmdTaken(e));
    StreamFlags(c, e.stream, e.axi.cmdValid, e.axi.cmd, i, !e.fifo.half);
    hide ToIssue, AddressOk, LoadCmd, LoadAddr, NextBurst, BurstLen, Issued, NextAfter, Geometry, AxiStep, StreamStep;
  }

  lemma ServedGrows(c: Config, mem: seq<Word>, accepted: seq<Desc>, accepted': seq<Desc>, served: seq<Served>,
                    v: Served)
    requires c.Ok() && MemoryOk(c.strb, mem) && ServedGood(c, mem, accepted, served) && accepted <= accepted'
    ensures ServedGood(c, mem, accepted', served)
    ensures |served| < |accepted| && GoodService(c, mem, accepted[|served|], v) ==>
      ServedGood(c, mem, accepted', served + [v])
  {
    hide GoodService;
  }

  // What the stream side still expects after one clock: a returned word is ticked off, a newly
  // accepted descriptor is queued behind the rest.
  predicate ExpectedMoves(c: Config, e: Engine, h: History, e': Engine, h': History, i: Input)
    requires c.Ok() && LinkInv(c, e, h) && LinkInv(c, e', h')
    requires Hit(e, i) ==> Expected(c, e, h) != []
  {
    Expected(c, e', h') == (if Hit(e, i) then Expected(c, e, h)[1..] else Expected(c, e, h))
                           + (if Accepts(e.axi, i) then Wanted(c, i.desc.value, 0) else [])
  }

  lemma IdleState(c: Config, mem: seq<Word>, e: Engine, h: History, i: Input)
    requires c.Ok() && MemoryOk(c.strb, mem) && |mem| == RowCount(c) && EngineInv(c, mem, e, h)
    requires MemoryAnswers(c, mem, h, i) && LinkInv(c, EngineStep(c, e, i), HistoryStep(c, h, e, i))
    requires !e.stream.reading
    ensures StreamPart(c, mem, EngineStep(c, e, i), HistoryStep(c, h, e, i))
    ensures ServedGood(c, mem, HistoryStep(c, h, e, i).accepted, HistoryStep(c, h, e, i).served)
  {
    ServedGrows(c, mem, h.accepted, HistoryStep(c, h, e, i).accepted, h.served, Served([], [], Status(0, NoError)));
    if e.axi.cmdValid {
      StreamStarts(c, mem, e.stream, h.accepted[|h.served|], i, !e.fifo.half);
      hide Wanted, ToIssue, AddressOk, ServedGood, LoadCmd, WordAt, StreamStep, Expected, Issued, WordsInv, NextAfter,
        MemoryOk, Config.Ok, StreamInv, AxiStep, RoomInv, AllBeats, OutputFifo.Step;
    } else {
      hide Wanted, ToIssue, AddressOk, ServedGood, LoadCmd, WordAt, Shifted, Expected, Issued, WordsInv, NextAfter,
        MemoryOk, Config.Ok, StreamInv, AxiStep, RoomInv, AllBeats, OutputFifo.Step;
    }
  }

  // Taking the command makes the pending descriptor the one being streamed.
  lemma CommandTaken(c: Config, e: Engine, h: History, i: Input)
    requires c.Ok() && LinkInv(c, e, h) && StreamTyped(c, e.stream, i) && !e.stream.reading && h.resps == []
    requires LinkInv(c, EngineStep(c, e, i), HistoryStep(c, h, e, i))
    ensures var e', h' := EngineStep(c, e, i), HistoryStep(c, h, e, i);
            && Reading(c, e'.stream.reading, h'.accepted, |h'.served|, |h'.resps|) ==
               Pending(c, e.axi.cmdValid, h.accepted)
            && Pending(c, e'.axi.cmdValid, h'.accepted) ==
               (if Accepts(e.axi, i) then Wanted(c, i.desc.value, 0) else [])
  {
    AxiFlags(c, e.axi, i, CmdTaken(e));
    hide Wanted, AxiStep, Shifted, Issued, NextAfter, LoadCmd, AddressOk, OutputFifo.Step, Config.Ok;
  }

  lemma IdleExpected(c: Config, e: Engine, h: History, i: Input)
    requires c.Ok() && LinkInv(c, e, h) && StreamTyped(c, e.stream, i) && !e.stream.reading && h.resps == []
    requires LinkInv(c, EngineStep(c, e, i), HistoryStep(c, h, e, i))
    ensures ExpectedMoves(c, e, h, EngineStep(c, e, i), HistoryStep(c, h, e, i), i)
  {
    CommandTaken(c, e, h, i);
    hide Wanted, Pending, EngineStep, HistoryStep, Config.Ok, Accepts, StreamNow;
    assert Expected(c, e, h) == [] + Pending(c, e.axi.cmdValid, h.accepted);
  }

  // A word, if one came in, is the next one wanted; once the status is out nothing more is.
  lemma StreamTick(c: Config, mem: seq<Word>, e: Engine, h: History, i: Input, d: Desc)
    requires c.Ok() && MemoryOk(c.strb, mem) && |mem| == RowCount(c) && EngineInv(c, mem, e, h)
    requires MemoryAnswers(c, mem, h, i) && e.stream.reading && d == h.accepted[|h.served|]
    ensures var o := StreamNow(c, e, i);
            var resps := if Hit(e, i) then h.resps + [i.rResp] else h.resps;
            && (o.status.None? ==> o.regs.reading && StreamInv(c, mem, o.regs, d, resps, h.beats + o.push.AsSeq()))
            && (o.status.Some? ==> (
                  && !o.regs.reading && o.regs.resp == OKAY && |o.regs.save| == c.strb
                  && GoodService(c, mem, d, Served(h.beats + o.push.AsSeq(), resps, o.status.value))
                  && Wanted(c, d, |resps|) == []))
            && (Hit(e, i) ==> Wanted(c, d, |h.resps|) != [] && Wanted(c, d, |resps|) == Wanted(c, d, |h.resps|)[1..])
            && o.regs.cmd.offset <= c.strb && |o.regs.save| == c.strb
  {
    if Hit(e, i) {
      RightWord(c, mem, e, h, i);
      hide InBeats, OutBeats, Skew, GoodBeats, FirstRow;
      WantedHead(c, d, |h.resps|);
    }
    StreamReads(c, mem, e.stream, e.axi.cmdValid, e.axi.cmd, i, !e.fifo.half, d, h.resps, h.beats);
    hide InBeats, OutBeats, Skew, GoodBeats, FirstRow, GoodBeat, Shifted, LoadCmd, Expected, WordsInv, RowCount,
      ServedGood;
  }

  lemma TailJoin<T>(a: seq<T>, a': seq<T>, q: seq<T>, q': seq<T>, w: seq<T>, hit: bool)
    requires if hit then a != [] && a' == a[1..] else a' == a
    requires q' == q + w
    ensures hit ==> a + q != []
    ensures a' + q' == (if hit then (a + q)[1..] else a + q) + w
  {
  }

  lemma PendingMoves(c: Config, e: Engine, h: History, i: Input)
    requires c.Ok() && LinkInv(c, e, h) && StreamTyped(c, e.stream, i) && (Hit(e, i) ==> h.inflight != [])
    requires LinkInv(c, EngineStep(c, e, i), HistoryStep(c, h, e, i)) && e.stream.reading
    ensures var e', h' := EngineStep(c, e, i), HistoryStep(c, h, e, i);
            Pending(c, e'.axi.cmdValid, h'.accepted)
            == Pending(c, e.axi.cmdValid, h.accepted) + (if Accepts(e.axi, i) then Wanted(c, i.desc.value, 0) else [])
  {
    AxiFlags(c, e.axi, i, CmdTaken(e));
    hide Wanted, AxiStep, StreamStep, Issued, NextAfter, LoadCmd, AddressOk, OutputFifo.Step;
  }

  lemma ReadingMoves(c: Config, mem: seq<Word>, e: Engine, h: History, i: Input)
    requires c.Ok() && MemoryOk(c.strb, mem) && |mem| == RowCount(c) && EngineInv(c, mem, e, h)
    requires MemoryAnswers(c, mem, h, i) && LinkInv(c, EngineStep(c, e, i), HistoryStep(c, h, e, i))
    requires e.stream.reading
    ensures var e', h' := EngineStep(c, e, i), HistoryStep(c, h, e, i);
            var before := Reading(c, true, h.accepted, |h.served|, |h.resps|);
            && (Hit(e, i) ==> before != [])
            && Reading(c, e'.stream.reading, h'.accepted, |h'.served|, |h'.resps|)
               == (if Hit(e, i) then before[1..] else before)
  {
    StreamTick(c, mem, e, h, i, h.accepted[|h.served|]);
    hide Wanted, StreamStep, AxiStep, MemoryOk, Issued, NextAfter, Config.Ok, OutputFifo.Step, Expected, WordsInv,
      RoomInv, ServedGood, StreamPart, AddressOk, LoadCmd;
  }

  lemma BusyExpected(c: Config, mem: seq<Word>, e: Engine, h: History, i: Input)
    requires c.Ok() && MemoryOk(c.strb, mem) && |mem| == RowCount(c) && EngineInv(c, mem, e, h)
    requires MemoryAnswers(c, mem, h, i) && LinkInv(c, EngineStep(c, e, i), HistoryStep(c, h, e, i))
    requires e.stream.reading
    ensures Hit(e, i) ==> Expected(c, e, h) != []
    ensures ExpectedMoves(c, e, h, EngineStep(c, e, i), HistoryStep(c, h, e, i), i)
  {
    ReadingMoves(c, mem, e, h, i);
    PendingMoves(c, e, h, i);
    var e', h' := EngineStep(c, e, i), HistoryStep(c, h, e, i);
    var before, after := Reading(c, true, h.accepted, |h.served|, |h.resps|),
        Reading(c, e'.stream.reading, h'.accepted, |h'.served|, |h'.resps|);
    var queue, queue' := Pending(c, e.axi.cmdValid, h.accepted), Pending(c, e'.axi.cmdValid, h'.accepted);
    var w := if Accepts(e.axi, i) then Wanted(c, i.desc.value, 0) else [];
    assert Expected(c, e', h') == after + queue' && Expected(c, e, h) == before + queue;
    hide EngineInv, Wanted, Pending, Reading, Expected, EngineStep, HistoryStep, MemoryOk, Config.Ok, LinkInv, Hit,
      Accepts, MemoryAnswers;
    TailJoin(before, after, queue, queue', w, Hit(e, i));
  }

  lemma BusyState(c: Config, mem: seq<Word>, e: Engine, h: History, i: Input)
    requires c.Ok() && MemoryOk(c.strb, mem) && |mem| == RowCount(c) && EngineInv(c, mem, e, h)
    requires MemoryAnswers(c, mem, h, i) && LinkInv(c, EngineStep(c, e, i), HistoryStep(c, h, e, i))
    requires e.stream.reading
    ensures StreamPart(c, mem, EngineStep(c, e, i), HistoryStep(c, h, e, i))
    ensures ServedGood(c, mem, HistoryStep(c, h, e, i).accepted, HistoryStep(c, h, e, i).served)
  {
    StreamTick(c, mem, e, h, i, h.accepted[|h.served|]);
    var o, h' := StreamNow(c, e, i), HistoryStep(c, h, e, i);
    hide Wanted, GoodService, AxiStep, Issued, WordsInv, NextAfter, MemoryOk, Config.Ok, StreamInv, StreamStep,
      Expected, RoomInv, OutputFifo.Step, AddressOk, LoadCmd, ServedGood, AllBeats;
    if o.status.Some? {
      ServedGrows(c, mem, h.accepted, h'.accepted, h.served, h'.served[|h.served|]);
    } else {
      ServedGrows(c, mem, h.accepted, h'.accepted, h.served, Served([], [], Status(0, NoError)));
    }
  }

  lemma Regroup<T>(gone: seq<T>, held: seq<T>, all: seq<T>, open: seq<T>, push: seq<T>, out: seq<T>, held': seq<T>)
    requires gone + held == all + open && out + held' == held + push
    ensures gone + out + held' == all + (open + push)
  {
    calc {
      gone + out + held';
      gone + (out + held');
      gone + held + push;
      all + (open + push);
    }
  }

  lemma OutputKept(c: Config, e: Engine, h: History, i: Input)
    requires c.Ok() && StreamTyped(c, e.stream, i) && (Hit(e, i) ==> h.inflight != [])
    requires StreamNow(c, e, i).push.Some? ==> |e.fifo.q| < FIFO_DEPTH
    requires h.delivered + OutputFifo.Held(e.fifo) == AllBeats(h.served) + h.beats
    ensures var e', h' := EngineStep(c, e, i), HistoryStep(c, h, e, i);
            h'.delivered + OutputFifo.Held(e'.fifo) == AllBeats(h'.served) + h'.beats
  {
    var o, h' := StreamNow(c, e, i), HistoryStep(c, h, e, i);
    OutputFifo.StepKeepsOrder(FIFO_DEPTH, e.fifo, o.push, i.outReady);
    hide OutputFifo.Step, OutputFifo.Held, OutputFifo.Delivered, StreamNow, Issued, NextAfter, AxiStep, Hit, Accepts;
    Regroup(h.delivered, OutputFifo.Held(e.fifo), AllBeats(h.served), h.beats, o.push.AsSeq(),
            OutputFifo.Delivered(e.fifo, i.outReady), OutputFifo.Held(EngineStep(c, e, i).fifo));
    if o.status.Some? {
      assert h'.served[..|h.served|] == h.served;
      assert AllBeats(h'.served) == AllBeats(h.served) + (h.beats + o.push.AsSeq());
    }
  }

  lemma EngineKept(c: Config, mem: seq<Word>, e: Engine, h: History, i: Input)
    requires c.Ok() && MemoryOk(c.strb, mem) && |mem| == RowCount(c) && EngineInv(c, mem, e, h)
    requires MemoryAnswers(c, mem, h, i)
    ensures EngineInv(c, mem, EngineStep(c, e, i), HistoryStep(c, h, e, i))
  {
    var e', h' := EngineStep(c, e, i), HistoryStep(c, h, e, i);
    LinkKept(c, e, h, i);
    if e.stream.reading {
      FinalBeatOnly(c, mem, e.stream, h.accepted[|h.served|], h.resps, h.beats);
      BusyExpected(c, mem, e, h, i);
      BusyState(c, mem, e, h, i);
    } else {
      IdleExpected(c, e, h, i);
      IdleState(c, mem, e, h, i);
    }
    RoomKept(c, e, i);
    OutputKept(c, e, h, i);
    AxiAdvances(c, e.axi, h.next, i, CmdTaken(e));
    WordsMove(c, e, h, i);
  }

  lemma WordsMove(c: Config, e: Engine, h: History, i: Input)
    requires c.Ok() && StreamTyped(c, e.stream, i) && LinkInv(c, e, h) && WordsInv(c, e, h)
    requires (Hit(e, i) ==> h.inflight != []) && (i.desc.Some? ==> i.desc.value.addr < c.space)
    requires LinkInv(c, EngineStep(c, e, i), HistoryStep(c, h, e, i)) && (Hit(e, i) ==> Expected(c, e, h) != [])
    requires ExpectedMoves(c, e, h, EngineStep(c, e, i), HistoryStep(c, h, e, i), i)
    ensures WordsInv(c, EngineStep(c, e, i), HistoryStep(c, h, e, i))
  {
    AxiAdvances(c, e.axi, h.next, i, CmdTaken(e));
    var e', h' := EngineStep(c, e, i), HistoryStep(c, h, e, i);
    var x, x' := Expected(c, e, h), Expected(c, e', h');
    var w := if Accepts(e.axi, i) then Wanted(c, i.desc.value, 0) else [];
    WordsAlgebra(h.inflight, ToIssue(c, e.axi, h.next), x, Hit(e, i), Issued(c, e.axi), ToIssue(c, e'.axi, h'.next),
                 w, x');
  }

  lemma WordsAlgebra(flying: seq<nat>, todo: seq<nat>, x: seq<nat>, hit: bool,
                     sent: seq<nat>, todo': seq<nat>, w: seq<nat>, x': seq<nat>)
    requires flying + todo == x && (hit ==> flying != [])
    requires sent + todo' == todo + w && x' == (if hit then x[1..] else x) + w
    ensures (if hit then flying[1..] else flying) + sent + todo' == x'
  {
    var left := if hit then flying[1..] else flying;
    assert left + sent + todo' == left + (sent + todo') == left + todo + w;
    assert left + todo == if hit then x[1..] else x;
  }

  // ----- Runs -----

  datatype Snapshot = Snapshot(engine: Engine, history: History)

  function Tick(c: Config, n: Snapshot, i: Input): Snapshot
    requires c.Ok() && StreamTyped(c, n.engine.stream, i)
  {
    Snapshot(EngineStep(c, n.engine, i), HistoryStep(c, n.history, n.engine, i))
  }

  // The environment behaves along the whole run: the memory returns requested rows in order (each
  // after any delay), descriptors lie in the address space. Everything else is arbitrary.
  ghost predicate Behaves(c: Config, mem: seq<Word>, n: Snapshot, run: seq<Input>)
    requires c.Ok() && MemoryOk(c.strb, mem) && Typed(c, n.engine)
    decreases |run|
  {
    run == [] || (MemoryAnswers(c, mem, n.history, run[0]) && Behaves(c, mem, Tick(c, n, run[0]), run[1..]))
  }

  ghost function After(c: Config, mem: seq<Word>, n: Snapshot, run: seq<Input>): Snapshot
    requires c.Ok() && MemoryOk(c.strb, mem) && Typed(c, n.engine) && Behaves(c, mem, n, run)
    decreases |run|
  {
    if run == [] then n else After(c, mem, Tick(c, n, run[0]), run[1..])
  }

  lemma {:induction false} InvAlways(c: Config, mem: seq<Word>, n: Snapshot, run: seq<Input>)
    requires c.Ok() && MemoryOk(c.strb, mem) && |mem| == RowCount(c) && EngineInv(c, mem, n.engine, n.history)
    requires Typed(c, n.engine) && Behaves(c, mem, n, run)
    ensures var n' := After(c, mem, n, run); EngineInv(c, mem, n'.engine, n'.history)
    decreases |run|
  {
    hide EngineInv, EngineStep, HistoryStep;
    if run != [] {
      assert Typed(c, EngineStep(c, n.engine, run[0]));
      EngineKept(c, mem, n.engine, n.history, run[0]);
      InvAlways(c, mem, Tick(c, n, run[0]), run[1..]);
    }
  }

  lemma ResetOk(c: Config, mem: seq<Word>, e: Engine)
    requires c.Ok() && MemoryOk(c.strb, mem) && IsReset(c, e)
    ensures EngineInv(c, mem, e, EMPTY)
  {
    hide Wanted;
  }

  // What a consumer can see: for descriptors served in the order they were accepted, the stream
  // carries exactly the requested bytes, each with one tlast, the right tag and the right status.
  lemma ReadEngineCorrect(c: Config, mem: seq<Word>, e: Engine, run: seq<Input>)
    requires c.Ok() && MemoryOk(c.strb, mem) && |mem| == RowCount(c) && IsReset(c, e)
    requires Behaves(c, mem, Snapshot(e, EMPTY), run)
    ensures var h := After(c, mem, Snapshot(e, EMPTY), run).history;
            && |h.served| <= |h.accepted| <= |h.served| + 2
            && (forall k :: 0 <= k < |h.served| ==> GoodService(c, mem, h.accepted[k], h.served[k]))
            && h.delivered <= AllBeats(h.served) + h.beats
            && (h.beats != [] ==> |h.served| < |h.accepted| && GoodBeats(c, mem, h.accepted[|h.served|], h.beats))
  {
    ResetOk(c, mem, e);
    InvAlways(c, mem, Snapshot(e, EMPTY), run);
    hide AllBeats, GoodBeats, GoodService, ToIssue, Expected, AddressOk;
  }

  // When the engine has come to rest nothing is missing either: every accepted descriptor was served
  // and all its beats were handed over.
  lemma ReadEngineDrains(c: Config, mem: seq<Word>, e: Engine, h: History)
    requires c.Ok() && MemoryOk(c.strb, mem) && EngineInv(c, mem, e, h)
    requires !e.stream.reading && !e.axi.cmdValid && OutputFifo.Held(e.fifo) == []
    ensures |h.served| == |h.accepted| && h.delivered == AllBeats(h.served)
    ensures h.inflight == [] && !e.axi.start
  {
    hide AllBeats, GoodService, RowCount, OutputFifo.Held, ServedGood, RoomInv, RowOf, LoadCmd, MemoryOk, Config.Ok;
    assert Expected(c, e, h) == [];
    assert |ToIssue(c, e.axi, h.next)| == 0;
    assert h.delivered == h.delivered + [] == AllBeats(h.served) + [] == AllBeats(h.served);
  }

  // No word is ever taken for, or charged to, anything but the descriptor it was requested for, and
  // the output FIFO never drops a beat.
  lemma NothingDropped(c: Config, mem: seq<Word>, n: Snapshot, i: Input)
    requires c.Ok() && MemoryOk(c.strb, mem) && |mem| == RowCount(c) && EngineInv(c, mem, n.engine, n.history)
    requires MemoryAnswers(c, mem, n.history, i)
    ensures n.engine.stream.rReady ==> n.engine.stream.reading && n.engine.stream.inActive
    ensures |n.engine.fifo.q| + 12 < FIFO_DEPTH
    ensures StreamNow(c, n.engine, i).push.Some? ==>
      |EngineStep(c, n.engine, i).fifo.q| + OutputPops(n.engine, i) == |n.engine.fifo.q| + 1
  {
  }

  function OutputPops(e: Engine, i: Input): nat {
    if e.fifo.q != [] && (e.fifo.out.None? || i.outReady) then 1 else 0
  }
}
