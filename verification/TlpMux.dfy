// pcie_tlp_mux: frame-atomic port selection, slot by slot, from per-port hold registers.
// A slot is one segment of the output beat; the selection carries state from slot to slot.
module TlpMux {

  datatype Config = Config(ports: nat, segs: nat, roundRobin: bool, lsb: bool)

  // One segment on a bus. An invalid lane still carries whatever its other wires hold.
  datatype Lane = Lane(valid: bool, eop: bool, data: nat)

  // A port's hold register and how many of its lanes were already sent.
  datatype Hold = Hold(lanes: seq<Lane>, offset: nat)

  datatype Mux = Mux(frame: bool, port: nat, holds: seq<Hold>)

  // beats: what each port offers; ready: the output stage has room.
  datatype In = In(beats: seq<seq<Lane>>, pause: seq<bool>, ready: bool)

  datatype Slot = Slot(port: nat, lane: nat)

  // Selection state while the slots of one cycle are filled.
  // done and begun: how many slots, and how many of the frame starts, are committed.
  datatype Cyc = Cyc(
    frame: bool, port: nat, lane: nat, shift: seq<nat>, offsets: seq<nat>, abort: bool,
    slots: seq<Slot>, done: nat, frameNext: bool, portNext: nat, starts: seq<nat>, begun: nat)

  predicate Typed(cfg: Config, m: Mux) {
    && 0 < cfg.ports && 0 < cfg.segs && m.port < cfg.ports && |m.holds| == cfg.ports
    && forall p :: 0 <= p < cfg.ports ==> |m.holds[p].lanes| == cfg.segs && m.holds[p].offset < cfg.segs
  }

  predicate Fits(cfg: Config, x: In) {
    && |x.beats| == |x.pause| == cfg.ports
    && forall p :: 0 <= p < cfg.ports ==> |x.beats[p]| == cfg.segs
  }

  // Hold register and offered beat side by side.
  function Full(m: Mux, x: In, p: nat): seq<Lane>
    requires p < |m.holds| && p < |x.beats|
  {
    m.holds[p].lanes + x.beats[p]
  }

  predicate CycTyped(cfg: Config, c: Cyc) {
    && |c.shift| == |c.offsets| == cfg.ports && c.port < cfg.ports && c.portNext < cfg.ports
    && c.done <= |c.slots| && c.begun <= |c.starts|
  }

  // The lane a port's valid and eop windows currently point at.
  function Window(m: Mux, c: Cyc, p: nat): nat
    requires p < |m.holds| && p < |c.shift|
  {
    m.holds[p].offset + c.shift[p]
  }

  predicate Shows(cfg: Config, m: Mux, x: In, c: Cyc, p: nat)
    requires Typed(cfg, m) && Fits(cfg, x) && CycTyped(cfg, c) && p < cfg.ports
  {
    !x.pause[p] && Window(m, c, p) < 2 * cfg.segs && Full(m, x, p)[Window(m, c, p)].valid
  }

  predicate ShowsEop(cfg: Config, m: Mux, x: In, c: Cyc, p: nat)
    requires Typed(cfg, m) && Fits(cfg, x) && CycTyped(cfg, c) && p < cfg.ports
  {
    Window(m, c, p) < 2 * cfg.segs && Full(m, x, p)[Window(m, c, p)].eop
  }

  function NextPort(cfg: Config, p: nat): (q: nat)
    requires p < cfg.ports
    ensures q < cfg.ports
  {
    if cfg.lsb then (if p + 1 < cfg.ports then p + 1 else 0)
    else (if p > 0 then p - 1 else cfg.ports - 1)
  }

  function FirstTried(cfg: Config, p: nat): (q: nat)
    requires p < cfg.ports
    ensures q < cfg.ports
  {
    if cfg.roundRobin then NextPort(cfg, p) else if cfg.lsb then 0 else cfg.ports - 1
  }

  // Try n ports from cur on; the last one tried stays selected even if none shows a segment.
  function Try(cfg: Config, m: Mux, x: In, c: Cyc, cur: nat, n: nat): (c': Cyc)
    requires Typed(cfg, m) && Fits(cfg, x) && CycTyped(cfg, c) && cur < cfg.ports
    ensures CycTyped(cfg, c')
    decreases n
  {
    var tried := c.(port := cur, lane := c.offsets[cur]);
    if Shows(cfg, m, x, c, cur) then tried.(frame := true, starts := c.starts + [cur])
    else if n <= 1 then tried
    else Try(cfg, m, x, c, NextPort(cfg, cur), n - 1)
  }

  function Select(cfg: Config, m: Mux, x: In, c: Cyc): (c': Cyc)
    requires Typed(cfg, m) && Fits(cfg, x) && CycTyped(cfg, c)
    ensures CycTyped(cfg, c')
  {
    if c.frame then c else Try(cfg, m, x, c, FirstTried(cfg, c.port), cfg.ports)
  }

  // Route the selected lane into the next slot; a frame end or the last slot commits all slots so far.
  function Route(cfg: Config, m: Mux, x: In, c: Cyc): (c': Cyc)
    requires Typed(cfg, m) && Fits(cfg, x) && CycTyped(cfg, c)
    ensures CycTyped(cfg, c')
  {
    var p := c.port;
    var shown, eop := Shows(cfg, m, x, c, p), ShowsEop(cfg, m, x, c, p);
    var routed := c.(frame := c.frame && !eop, lane := c.lane + 1, shift := c.shift[p := c.shift[p] + 1],
                     slots := c.slots + [Slot(p, c.lane)]);
    if !c.frame || c.abort then routed
    else if !shown then routed.(abort := true)
    else if (eop || |c.slots| + 1 == cfg.segs) && x.ready then
      routed.(frameNext := routed.frame, portNext := p, offsets := c.offsets[p := c.lane + 1],
              done := |c.slots| + 1, begun := |c.starts|)
    else routed
  }

  function Begin(cfg: Config, m: Mux): (c: Cyc)
    requires Typed(cfg, m)
    ensures CycTyped(cfg, c)
  {
    Cyc(m.frame, m.port, m.holds[m.port].offset, seq(cfg.ports, _ => 0),
        seq(cfg.ports, p requires 0 <= p < cfg.ports => m.holds[p].offset), false, [], 0, m.frame, m.port, [], 0)
  }

  function Filled(cfg: Config, m: Mux, x: In, n: nat): (c: Cyc)
    requires Typed(cfg, m) && Fits(cfg, x)
    ensures CycTyped(cfg, c) && |c.slots| == n
  {
    if n == 0 then Begin(cfg, m)
    else
      var c := Filled(cfg, m, x, n - 1);
      SelectKeepsSlots(cfg, m, x, c, FirstTried(cfg, c.port), cfg.ports);
      Route(cfg, m, x, Select(cfg, m, x, c))
  }

  lemma SelectKeepsSlots(cfg: Config, m: Mux, x: In, c: Cyc, cur: nat, n: nat)
    requires Typed(cfg, m) && Fits(cfg, x) && CycTyped(cfg, c) && cur < cfg.ports
    ensures var c' := Try(cfg, m, x, c, cur, n);
      && c'.slots == c.slots && c'.shift == c.shift && c'.offsets == c.offsets && c'.abort == c.abort &&
         c'.done == c.done
      && c'.frameNext == c.frameNext && c'.portNext == c.portNext && c'.begun == c.begun
      && c'.lane == c.offsets[c'.port]
    decreases n
  {
  }

  predicate SomeValid(lanes: seq<Lane>) {
    exists i :: 0 <= i < |lanes| && lanes[i].valid
  }

  // Hold register after the cycle: lanes before the new offset are spent; with none left the offered beat is taken.
  function NextHold(segs: nat, h: Hold, offset: nat, beat: seq<Lane>): (h': Hold)
    requires |h.lanes| == |beat| == segs && offset < 2 * segs && 0 < segs
    ensures |h'.lanes| == segs && h'.offset < segs
  {
    var left := offset < segs && SomeValid(h.lanes[offset..]);
    var rest := if segs <= offset then offset - segs
                else if SomeValid(h.lanes) && !left then 0
                else offset;
    Hold(if left then h.lanes else beat, rest)
  }

  predicate Takes(segs: nat, h: Hold, offset: nat)
    requires |h.lanes| == segs
  {
    !(offset < segs && SomeValid(h.lanes[offset..]))
  }

  // What leaves on the output beat, in slot order, with the port it came from.
  datatype Sent = Sent(port: nat, lane: Lane)

  function Leaves(m: Mux, x: In, slots: seq<Slot>): seq<Sent> {
    if slots == [] then []
    else
      var s := slots[|slots| - 1];
      Leaves(m, x, slots[..|slots| - 1]) +
      (if s.port < |m.holds| && s.port < |x.beats| && s.lane < |Full(m, x, s.port)| && Full(m, x, s.port)[s.lane].valid
       then [Sent(s.port, Full(m, x, s.port)[s.lane])] else [])
  }

  // No port is read past the end of its offered beat.
  predicate InReach(cfg: Config, m: Mux, c: Cyc)
    requires Typed(cfg, m) && CycTyped(cfg, c)
  {
    && c.lane <= m.holds[c.port].offset + |c.slots|
    && forall p :: 0 <= p < cfg.ports ==> c.offsets[p] <= m.holds[p].offset + |c.slots|
  }

  lemma RouteReach(cfg: Config, m: Mux, x: In, c: Cyc)
    requires Typed(cfg, m) && Fits(cfg, x) && CycTyped(cfg, c) && InReach(cfg, m, c)
    ensures InReach(cfg, m, Route(cfg, m, x, c))
  {
    hide Shows, ShowsEop;
  }

  lemma {:induction false} ReachKept(cfg: Config, m: Mux, x: In, n: nat)
    requires Typed(cfg, m) && Fits(cfg, x)
    ensures InReach(cfg, m, Filled(cfg, m, x, n))
  {
    if n > 0 {
      ReachKept(cfg, m, x, n - 1);
      var c := Filled(cfg, m, x, n - 1);
      SelectKeepsSlots(cfg, m, x, c, FirstTried(cfg, c.port), cfg.ports);
      RouteReach(cfg, m, x, Select(cfg, m, x, c));
      hide Shows, ShowsEop, Try, Route;
    }
  }

  function Step(cfg: Config, m: Mux, x: In): (m': Mux)
    requires Typed(cfg, m) && Fits(cfg, x)
    ensures Typed(cfg, m')
  {
    ReachKept(cfg, m, x, cfg.segs);
    var c := Filled(cfg, m, x, cfg.segs);
    StepTyped(cfg, m, x, c);
    Mux(c.frameNext, c.portNext, NextHolds(cfg, m, x, c))
  }

  lemma StepTyped(cfg: Config, m: Mux, x: In, c: Cyc)
    requires Typed(cfg, m) && Fits(cfg, x) && CycTyped(cfg, c) && InReach(cfg, m, c) && |c.slots| == cfg.segs
    ensures forall p :: 0 <= p < cfg.ports ==> c.offsets[p] < 2 * cfg.segs
  {
  }

  function NextHolds(cfg: Config, m: Mux, x: In, c: Cyc): (h: seq<Hold>)
    requires Typed(cfg, m) && Fits(cfg, x) && CycTyped(cfg, c)
    requires forall p :: 0 <= p < cfg.ports ==> c.offsets[p] < 2 * cfg.segs
    ensures |h| == cfg.ports
    ensures forall p :: 0 <= p < cfg.ports ==> h[p] == NextHold(cfg.segs, m.holds[p], c.offsets[p], x.beats[p])
  {
    seq(cfg.ports, p requires 0 <= p < cfg.ports => NextHold(cfg.segs, m.holds[p], c.offsets[p], x.beats[p]))
  }

  // The committed slots are what leaves this cycle.
  function Output(cfg: Config, m: Mux, x: In): seq<Sent>
    requires Typed(cfg, m) && Fits(cfg, x)
  {
    var c := Filled(cfg, m, x, cfg.segs);
    Leaves(m, x, c.slots[..c.done])
  }
}
