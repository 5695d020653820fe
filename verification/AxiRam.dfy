// axi_ram: word memory behind an AXI write port and an AXI read port. The DMA engines only issue
// incrementing bursts of full words, so the address advances by one word per beat.
module AxiRam {
  import opened BurstPlanner
  import opened AxiBus
  import opened AxiDma
  import opened AxiDmaWrite

  datatype WriteState = WaitAw | WriteBurst | SendResp

  datatype WriteSide = WriteSide(state: WriteState, addr: nat, count: nat, awReady: bool, wReady: bool, bValid: bool)

  datatype ReadSide = ReadSide(
    busy: bool, addr: nat, count: nat, arReady: bool,
    rValid: bool, rData: Word, pipeValid: bool, pipeData: Word)

  // Strobed lanes take the new byte, the others keep the old one.
  function Merge(old_: Word, w: WBeat): (r: Word)
    requires |old_| == |w.data| == |w.strb|
    ensures |r| == |old_|
  {
    seq(|old_|, i requires 0 <= i < |old_| => if w.strb[i] then w.data[i] else old_[i])
  }

  predicate BeatFits(c: Config, w: WBeat) {
    |w.data| == |w.strb| == c.strb
  }

  function WriteWord(c: Config, mem: seq<Word>, row: nat, w: WBeat): (m: seq<Word>)
    requires MemoryOk(c.strb, mem) && BeatFits(c, w)
    ensures MemoryOk(c.strb, m) && |m| == |mem|
  {
    mem[row % |mem| := Merge(mem[row % |mem|], w)]
  }

  // ----- Write port -----

  predicate TakesWord(s: WriteSide, wValid: bool) {
    s.state.WriteBurst? && s.wReady && wValid
  }

  function WriteSideStep(c: Config, s: WriteSide, awValid: bool, aw: Aw, wValid: bool, bReady: bool): WriteSide
    requires c.Ok()
  {
    var bFree := bReady || !s.bValid;
    match s.state
    case WaitAw =>
      if s.awReady && awValid then WriteSide(WriteBurst, aw.addr, aw.len, false, true, s.bValid && !bReady)
      else s.(awReady := true, wReady := false, bValid := s.bValid && !bReady)
    case WriteBurst =>
      if s.wReady && wValid then
        var n := s.(addr := Advance(c, s.addr, c.strb), count := if s.count > 0 then s.count - 1 else 255);
        if s.count > 0 then n.(awReady := false, wReady := true, bValid := s.bValid && !bReady)
        else if bFree then n.(state := WaitAw, awReady := true, wReady := false, bValid := true)
        else n.(state := SendResp, awReady := false, wReady := false)
      else s.(awReady := false, wReady := true, bValid := s.bValid && !bReady)
    case SendResp =>
      if bFree then s.(state := WaitAw, awReady := true, wReady := false, bValid := true)
      else s.(awReady := false, wReady := false)
  }

  function MemStep(c: Config, s: WriteSide, mem: seq<Word>, wValid: bool, w: WBeat): (m: seq<Word>)
    requires c.Ok() && MemoryOk(c.strb, mem)
    ensures MemoryOk(c.strb, m) && |m| == |mem|
  {
    if TakesWord(s, wValid) && BeatFits(c, w) then WriteWord(c, mem, RowOf(c.strb, s.addr), w) else mem
  }

  // ----- Read port -----

  // The register is free to be reloaded: it is empty or moves on this cycle.
  predicate Fetches(pipelined: bool, s: ReadSide, rReady: bool) {
    s.busy && (rReady || (pipelined && !s.pipeValid) || !s.rValid)
  }

  predicate OutValid(pipelined: bool, s: ReadSide) {
    if pipelined then s.pipeValid else s.rValid
  }

  function OutData(pipelined: bool, s: ReadSide): Word {
    if pipelined then s.pipeData else s.rData
  }

  function ReadSideStep(c: Config, pipelined: bool, s: ReadSide, mem: seq<Word>, arValid: bool, ar: Aw,
                        rReady: bool): ReadSide
    requires c.Ok() && MemoryOk(c.strb, mem)
  {
    var fetch := Fetches(pipelined, s, rReady);
    var accept := !s.busy && s.arReady && arValid;
    var move := !s.pipeValid || rReady;
    ReadSide(
      if s.busy then !(fetch && s.count == 0) else accept,
      if accept then ar.addr else if fetch then Advance(c, s.addr, c.strb) else s.addr,
      if accept then ar.len else if fetch then (if s.count > 0 then s.count - 1 else 255) else s.count,
      if s.busy then fetch && s.count == 0 else !accept,
      fetch || (s.rValid && !(rReady || (pipelined && !s.pipeValid))),
      if fetch then WordAt(mem, RowOf(c.strb, s.addr)) else s.rData,
      if move then s.rValid else s.pipeValid,
      if move then s.rData else s.pipeData)
  }

  predicate ReadReset(c: Config, s: ReadSide) {
    !s.busy && !s.arReady && !s.rValid && !s.pipeValid && |s.rData| == |s.pipeData| == c.strb
  }

  // ----- The memory as the source keeps it -----

  class Ram {
    const c: Config
    const mem: array<Word>
    var w: WriteSide
    var r: ReadSide

    ghost predicate Valid()
      reads this, mem
    {
      c.Ok() && MemoryOk(c.strb, mem[..])
    }

    constructor (c: Config, contents: seq<Word>)
      requires c.Ok() && MemoryOk(c.strb, contents)
      ensures Valid() && this.c == c && fresh(mem) && mem[..] == contents
      ensures w == WriteSide(WaitAw, 0, 0, false, false, false)
      ensures ReadReset(c, r)
    {
      this.c := c;
      w := WriteSide(WaitAw, 0, 0, false, false, false);
      var zero: Word := seq(c.strb, _ => 0);
      r := ReadSide(false, 0, 0, false, false, zero, false, zero);
      mem := new Word[|contents|](i requires 0 <= i < |contents| => contents[i]);
    }

    // Lane by lane, as the strobes say.
    method MergeLanes(old_: Word, beat: WBeat) returns (r: Word)
      requires |old_| == |beat.data| == |beat.strb|
      ensures r == Merge(old_, beat)
    {
      r := old_;
      var i := 0;
      while i < |old_|
        invariant 0 <= i <= |old_| && |r| == |old_|
        invariant forall k :: 0 <= k < i ==> r[k] == (if beat.strb[k] then beat.data[k] else old_[k])
        invariant forall k :: i <= k < |old_| ==> r[k] == old_[k]
      {
        if beat.strb[i] {
          r := r[i := beat.data[i]];
        }
        i := i + 1;
      }
    }

    method ClockWrite(awValid: bool, aw: Aw, wValid: bool, beat: WBeat, bReady: bool)
      requires Valid() && BeatFits(c, beat)
      modifies `w, mem
      ensures Valid() && w == WriteSideStep(c, old(w), awValid, aw, wValid, bReady)
      ensures mem[..] == MemStep(c, old(w), old(mem[..]), wValid, beat)
    {
      hide Geometry, RowOf, WriteSideStep;
      if TakesWord(w, wValid) {
        var row := RowOf(c.strb, w.addr) % mem.Length;
        ghost var before := mem[..];
        var merged := MergeLanes(mem[row], beat);
        mem[row] := merged;
        assert mem[..] == before[row := merged];
      }
      w := WriteSideStep(c, w, awValid, aw, wValid, bReady);
    }

    // A word written on this clock is not yet seen by a read on the same clock.
    method Clock(pipelined: bool, awValid: bool, aw: Aw, wValid: bool, beat: WBeat, bReady: bool,
                 arValid: bool, ar: Aw, rReady: bool)
      requires Valid() && BeatFits(c, beat)
      modifies this, mem
      ensures Valid() && w == WriteSideStep(c, old(w), awValid, aw, wValid, bReady)
      ensures mem[..] == MemStep(c, old(w), old(mem[..]), wValid, beat)
      ensures r == ReadSideStep(c, pipelined, old(r), old(mem[..]), arValid, ar, rReady)
    {
      hide Geometry, WriteSideStep, ReadSideStep, MemStep;
      r := ReadSideStep(c, pipelined, r, mem[..], arValid, ar, rReady);
      ClockWrite(awValid, aw, wValid, beat, bReady);
    }
  }
}
