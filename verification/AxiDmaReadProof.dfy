// axi_dma_rd end to end: over every run the stream carries, descriptor by descriptor, exactly the
// requested bytes, whatever the memory's and the consumer's timing.
module AxiDmaReadProof {
  import opened Wrappers
  import opened BurstPlanner
  import opened AxiBus
  import opened AxiDma
  import opened AxiDmaRead
  import opened AxiDmaReadData
  import OutputFifo

  // What one descriptor produced: its beats, the R responses charged to it, its status.
  datatype Served = Served(beats: seq<Beat>, resps: seq<Resp>, status: Status)

  // The observable past. inflight: rows requested by read bursts and not yet returned, in order;
  // next: address of the next burst before wrapping; beats/resps: the descriptor being streamed.
  datatype History = History(
    accepted: seq<Desc>, served: seq<Served>, beats: seq<Beat>, resps: seq<Resp>,
    inflight: seq<nat>, next: nat, delivered: seq<Beat>)

  const EMPTY := History([], [], [], [], [], 0, [])

  function AllBeats(served: seq<Served>): seq<Beat> {
    if served == [] then [] else AllBeats(served[..|served| - 1]) + served[|served| - 1].beats
  }

  predicate Hit(e: Engine, i: Input) {
    e.stream.rReady && i.rValid
  }

  // The memory answers requests in order: R data is offered only for a requested row and is that row.
  predicate MemoryAnswers(c: Config, mem: seq<Word>, h: History, i: Input)
    requires MemoryOk(c.strb, mem)
  {
    && |i.rData| == c.strb
    && (i.rValid ==> h.inflight != [] && i.rData == WordAt(mem, h.inflight[0]))
    && (i.desc.Some? ==> i.desc.value.addr < c.space)
  }

  predicate Accepts(a: AxiRegs, i: Input) {
    !a.start && a.ready && i.desc.Some?
  }

  // The rows of the read burst being put on the AR channel.
  function Issued(c: Config, a: AxiRegs): seq<nat>
    requires c.Ok()
  {
    if a.start && !a.arValid then
      Consecutive(RowOf(c.strb, a.addr), BurstLen(c, a.addr, NextBurst(c, a.addr, a.left)) + 1)
    else []
  }

  function NextAfter(c: Config, a: AxiRegs, next: nat, i: Input): nat
    requires c.Ok()
  {
    if Accepts(a, i) then LoadAddr(c, i.desc.value)
    else if a.start && !a.arValid then next + NextBurst(c, a.addr, a.left)
    else next
  }

  function HistoryStep(c: Config, h: History, e: Engine, i: Input): History
    requires c.Ok() && StreamTyped(c, e.stream, i)
  {
    var o := StreamNow(c, e, i);
    var resps := if Hit(e, i) then h.resps + [i.rResp] else h.resps;
    var beats := h.beats + o.push.AsSeq();
    History(
      if Accepts(e.axi, i) then h.accepted + [i.desc.value] else h.accepted,
      if o.status.Some? then h.served + [Served(beats, resps, o.status.value)] else h.served,
      if o.status.Some? then [] else beats,
      if o.status.Some? then [] else resps,
      (if Hit(e, i) && h.inflight != [] then h.inflight[1..] else h.inflight) + Issued(c, e.axi),
      NextAfter(c, e.axi, h.next, i),
      h.delivered + OutputFifo.Delivered(e.fifo, i.outReady))
  }

  // ----- The stream side -----

  predicate GoodBeats(c: Config, mem: seq<Word>, d: Desc, beats: seq<Beat>)
    requires c.Ok() && MemoryOk(c.strb, mem)
  {
    forall j :: 0 <= j < |beats| ==> GoodBeat(c, mem, d, j, beats[j])
  }

  // Reading descriptor d after |resps| words and |beats| output beats.
  predicate StreamInv(c: Config, mem: seq<Word>, s: StreamRegs, d: Desc, resps: seq<Resp>, beats: seq<Beat>)
    requires c.Ok() && MemoryOk(c.strb, mem)
  {
    var got := |resps|;
    && got <= InBeats(c, d)
    && s.inActive == (got < InBeats(c, d))
    && (s.inActive ==> s.cmd.inCount == InBeats(c, d) - 1 - got)
    && |beats| < OutBeats(c, d)
    && s.outActive && s.cmd.outCount == OutBeats(c, d) - 1 - |beats|
    && s.outLast == (|beats| + 1 == OutBeats(c, d))
    && s.first == (got == 0)
    && s.cmd.bubble == (got == 0 && Skew(c, d) > 0)
    && |beats| == (if Skew(c, d) > 0 && got > 0 then got - 1 else got)
    && s.cmd.offset == (if Skew(c, d) == 0 then 0 else c.strb - Skew(c, d))
    && s.cmd.lastOffset == d.len % c.strb && s.cmd.tag == d.tag
    && |s.save| == c.strb
    && (got > 0 ==> s.save == WordAt(mem, FirstRow(c, d) + got - 1))
    && GoodBeats(c, mem, d, beats)
    && s.resp == LastFailure(resps)
    && (Skew(c, d) > 0 ==> c.unaligned)
  }

  // A finished descriptor: all its beats, one response per word, the right status.
  predicate GoodService(c: Config, mem: seq<Word>, d: Desc, v: Served)
    requires c.Ok() && MemoryOk(c.strb, mem)
  {
    && |v.beats| == OutBeats(c, d) && GoodBeats(c, mem, d, v.beats)
    && |v.resps| == InBeats(c, d)
    && v.status == Status(d.tag, ErrorOf(LastFailure(v.resps)))
  }

  lemma StreamStarts(c: Config, mem: seq<Word>, s: StreamRegs, d: Desc, i: Input, room: bool)
    requires c.Ok() && MemoryOk(c.strb, mem) && StreamTyped(c, s, i)
    requires !s.reading && !s.rReady && s.resp == OKAY
    ensures var o := StreamStep(c, s, true, LoadCmd(c, d), i, room);
            o.push.None? && o.status.None? && o.regs.reading && StreamInv(c, mem, o.regs, d, [], [])
  {
    CmdMeaning(c, d);
    hide LoadCmd, InBeats, OutBeats, Skew, FirstRow;
  }

  lemma StreamReads(c: Config, mem: seq<Word>, s: StreamRegs, cmdValid: bool, cmd: Cmd, i: Input, room: bool,
                    d: Desc, resps: seq<Resp>, beats: seq<Beat>)
    requires c.Ok() && MemoryOk(c.strb, mem) && StreamTyped(c, s, i)
    requires s.reading && StreamInv(c, mem, s, d, resps, beats) && (s.rReady ==> s.inActive)
    requires s.rReady && i.rValid ==> i.rData == WordAt(mem, FirstRow(c, d) + |resps|)
    ensures var o := StreamStep(c, s, cmdValid, cmd, i, room);
            var resps' := if s.rReady && i.rValid then resps + [i.rResp] else resps;
            var beats' := beats + o.push.AsSeq();
            && (o.status.None? ==> o.regs.reading && StreamInv(c, mem, o.regs, d, resps', beats'))
            && (o.status.Some? ==> (
                  && !o.regs.reading && o.regs.resp == OKAY && |o.regs.save| == c.strb
                  && GoodService(c, mem, d, Served(beats', resps', o.status.value))))
  {
    BeatRelation(c, d);
    hide InBeats, OutBeats, Skew, FirstRow, GoodBeat, KeepCount, Shifted, WordAt, MemoryOk;
    var o := StreamStep(c, s, cmdValid, cmd, i, room);
    if o.push.Some? {
      ShiftedIsGood(c, mem, d, |beats|, s.save, i.rData, o.push.value);
    }
  }
}
