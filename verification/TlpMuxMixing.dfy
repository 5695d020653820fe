// Exactly when frames can mix: with three segments or more and two ports or more.
module TlpMuxMixing {
  import opened TlpMux
  import opened TlpMuxProof
  import opened TlpMuxFrames
  import opened TlpMuxRun

  // No run from reset tears a frame.
  ghost predicate NeverMixes(cfg: Config) {
    forall s, xs :: AtReset(cfg, s) && AllFit(cfg, xs) ==> Whole(Emitted(cfg, s, xs))
  }

  // ---- One port ----

  predicate FromPorts(n: nat, out: seq<Sent>) {
    forall i :: 0 <= i < |out| ==> out[i].port < n
  }

  lemma {:induction false} LeavesFrom(m: Mux, x: In, slots: seq<Slot>)
    ensures FromPorts(|m.holds|, Leaves(m, x, slots))
  {
    if slots != [] {
      LeavesFrom(m, x, slots[..|slots| - 1]);
    }
  }

  lemma {:induction false} EmittedFrom(cfg: Config, s: System, xs: seq<Input>)
    requires Typed(cfg, s.mux) && AllFit(cfg, xs) && FromPorts(cfg.ports, s.stage.out) &&
      FromPorts(cfg.ports, s.stage.temp)
    ensures FromPorts(cfg.ports, Emitted(cfg, s, xs))
    decreases |xs|
  {
    if xs != [] {
      var x := Inner(s, xs[0]);
      var c := Filled(cfg, s.mux, x, cfg.segs);
      LeavesFrom(s.mux, x, c.slots[..c.done]);
      hide Filled, Leaves, Step;
      EmittedFrom(cfg, Next(cfg, s, xs[0]), xs[1..]);
    }
  }

  // ---- The two ports of the witness ----

  // The port whose window slips, and the one searched first after it.
  function Slipping(cfg: Config): (z: nat)
    requires 0 < cfg.ports
    ensures z < cfg.ports
  {
    if cfg.lsb && !cfg.roundRobin then cfg.ports - 1 else 0
  }

  function Cutting(cfg: Config): (o: nat)
    requires 2 <= cfg.ports
    ensures o < cfg.ports
  {
    if !cfg.lsb then cfg.ports - 1 else if cfg.roundRobin then 1 else 0
  }

  // Where the search starts from: with fixed priority the last selected port does not matter.
  predicate Searches(cfg: Config, port: nat)
    requires 0 < cfg.ports
  {
    cfg.roundRobin ==> port == Slipping(cfg)
  }

  lemma SearchOrder(cfg: Config)
    requires 2 <= cfg.ports
    ensures Slipping(cfg) != Cutting(cfg)
    ensures forall port: nat :: port < cfg.ports && Searches(cfg, port) ==> Between(cfg, port)
    ensures Rank(cfg, Cutting(cfg), Cutting(cfg)) == 0
  {
  }

  // The search after this port begins with the cutting port and ends with the slipping one.
  predicate Between(cfg: Config, port: nat)
    requires 2 <= cfg.ports
  {
    port < cfg.ports && FirstTried(cfg, port) == Cutting(cfg) && LastTried(cfg, port) == Slipping(cfg)
  }

  const NO: Lane := Lane(false, false, 0)
  const ONE: Lane := Lane(true, true, 0)
  const HEAD: Lane := Lane(true, false, 1)
  const TAIL: Lane := Lane(true, true, 2)

  // Beats: n frames of one segment; one frame of two segments.
  function Singles(segs: nat, n: nat): (b: seq<Lane>)
    ensures |b| == segs && forall i :: 0 <= i < segs ==> b[i] == if i < n then ONE else NO
  {
    seq(segs, i => if i < n then ONE else NO)
  }

  function Pair(segs: nat): (b: seq<Lane>)
    ensures |b| == segs && forall i :: 0 <= i < segs ==> b[i] == if i == 0 then HEAD else if i == 1 then TAIL else NO
  {
    seq(segs, i => if i == 0 then HEAD else if i == 1 then TAIL else NO)
  }

  // The slipping port offers z, the cutting port o, the others nothing.
  function Offer(cfg: Config, z: seq<Lane>, o: seq<Lane>): (i: Input)
    requires 2 <= cfg.ports && |z| == |o| == cfg.segs
    ensures InputFits(cfg, i) && i.outReady
    ensures forall p :: 0 <= p < cfg.ports ==> !i.pause[p]
    ensures forall p :: 0 <= p < cfg.ports ==>
      i.beats[p] == if p == Slipping(cfg) then z else if p == Cutting(cfg) then o else Singles(cfg.segs, 0)
  {
    assert |Singles(cfg.segs, 0)| == cfg.segs;
    Input(seq(cfg.ports, p requires 0 <= p < cfg.ports =>
                if p == Slipping(cfg) then z else if p == Cutting(cfg) then o else Singles(cfg.segs, 0)),
          seq(cfg.ports, _ => false), true)
  }

  // The registers: the slipping port's hold, the cutting port's, and empty ones elsewhere.
  predicate Shape(cfg: Config, m: Mux, z: Hold, o: Hold)
    requires 2 <= cfg.ports
  {
    && Typed(cfg, m) && !m.frame && Searches(cfg, m.port)
    && forall p :: 0 <= p < cfg.ports ==>
         m.holds[p] == if p == Slipping(cfg) then z else if p == Cutting(cfg) then o else Hold(Singles(cfg.segs, 0), 0)
  }

  // The selection so far: how far the two ports' windows and offsets have moved; nothing open.
  predicate Reached(cfg: Config, m: Mux, c: Cyc, zWindow: nat, zOffset: nat, oMoved: nat)
    requires 2 <= cfg.ports && Typed(cfg, m) && CycTyped(cfg, c)
  {
    && !c.frame && !c.abort && !c.frameNext
    && forall p :: 0 <= p < cfg.ports ==>
         && Window(m, c, p) == (if p == Slipping(cfg) then zWindow else if p == Cutting(cfg) then oMoved else 0)
         && c.offsets[p] == (if p == Slipping(cfg) then zOffset else if p == Cutting(cfg) then oMoved else 0)
  }

  // ---- One slot ----

  // A slot in which port q shows a one-segment frame and comes first in the search.
  lemma SingleSlot(cfg: Config, m: Mux, x: In, c: Cyc, q: nat)
    requires Typed(cfg, m) && Fits(cfg, x) && x.ready && CycTyped(cfg, c) && !c.frame && !c.abort && q < cfg.ports
    requires Shows(cfg, m, x, c, q) && ShowsEop(cfg, m, x, c, q)
    requires (forall p :: 0 <= p < cfg.ports && Shows(cfg, m, x, c, p) ==> p == q) || FirstTried(cfg, c.port) == q
    ensures var c' := Route(cfg, m, x, Select(cfg, m, x, c));
      && !c'.frame && !c'.abort && !c'.frameNext && c'.port == q && c'.portNext == q
      && c'.slots == c.slots + [Slot(q, c.offsets[q])] && c'.done == |c.slots| + 1
      && c'.offsets == c.offsets[q := c.offsets[q] + 1] && c'.shift == c.shift[q := c.shift[q] + 1]
  {
    SelectFinds(cfg, m, x, c);
    var s := Select(cfg, m, x, c);
    assert s.frame;
    if s.port != q {
      RankFirst(cfg, q, s.port);
    }
    hide Select, Full, Rank, Shows, ShowsEop, FirstTried;
    ShownSame(cfg, m, x, c, s, q);
  }

  lemma RankFirst(cfg: Config, q: nat, r: nat)
    requires q < cfg.ports && r < cfg.ports && r != q
    ensures Rank(cfg, q, q) == 0 < Rank(cfg, q, r)
  {
  }

  lemma ShownSame(cfg: Config, m: Mux, x: In, c: Cyc, s: Cyc, q: nat)
    requires Typed(cfg, m) && Fits(cfg, x) && CycTyped(cfg, c) && CycTyped(cfg, s) && q < cfg.ports &&
      s.shift == c.shift
    ensures Shows(cfg, m, x, s, q) == Shows(cfg, m, x, c, q) && ShowsEop(cfg, m, x, s, q) == ShowsEop(cfg, m, x, c, q)
  {
  }

  // A slot in which no port shows anything moves only the window of the port the search ends on.
  lemma IdleSlot(cfg: Config, m: Mux, x: In, c: Cyc)
    requires Typed(cfg, m) && Fits(cfg, x) && CycTyped(cfg, c) && !c.frame && !c.abort
    requires forall p :: 0 <= p < cfg.ports ==> !Shows(cfg, m, x, c, p)
    ensures var c', q := Route(cfg, m, x, Select(cfg, m, x, c)), LastTried(cfg, c.port);
      && !c'.frame && !c'.abort && c'.frameNext == c.frameNext && c'.port == q && c'.portNext == c.portNext
      && c'.slots == c.slots + [Slot(q, c.offsets[q])] && c'.done == c.done
      && c'.offsets == c.offsets && c'.shift == c.shift[q := c.shift[q] + 1]
  {
    SelectFinds(cfg, m, x, c);
    hide Select, Full, Rank, Shows, ShowsEop, FirstTried;
  }

  lemma FilledNext(cfg: Config, m: Mux, x: In, n: nat)
    requires Typed(cfg, m) && Fits(cfg, x)
    ensures Filled(cfg, m, x, 0) == Begin(cfg, m)
    ensures Filled(cfg, m, x, n + 1) == Route(cfg, m, x, Select(cfg, m, x, Filled(cfg, m, x, n)))
    ensures CycTyped(cfg, Filled(cfg, m, x, n)) && |Filled(cfg, m, x, n).slots| == n
  {
    hide Route, Select;
  }

  // ---- One cycle each ----

  lemma BeginsAt(cfg: Config, m: Mux, z: Hold, o: Hold)
    requires 2 <= cfg.ports && Shape(cfg, m, z, o)
    ensures Reached(cfg, m, Begin(cfg, m), z.offset, z.offset, o.offset) && Between(cfg, Begin(cfg, m).port)
    ensures Begin(cfg, m).done == 0 && Begin(cfg, m).slots == []
  {
    SearchOrder(cfg);
  }

  // The cutting port shows its lane; the slipping port its window's lane.
  predicate Facing(cfg: Config, m: Mux, x: In, zFull: seq<Lane>, oFull: seq<Lane>)
    requires 2 <= cfg.ports && Typed(cfg, m) && Fits(cfg, x)
  {
    && x.ready && Full(m, x, Slipping(cfg)) == zFull && Full(m, x, Cutting(cfg)) == oFull
    && |zFull| == |oFull| == 2 * cfg.segs
    && forall p :: 0 <= p < cfg.ports ==>
         && !x.pause[p]
         && (p != Slipping(cfg) && p != Cutting(cfg) ==> forall i :: 0 <= i < 2 * cfg.segs ==> !Full(m, x, p)[i].valid)
  }

  // Which ports show something.
  lemma WhoShows(cfg: Config, m: Mux, x: In, c: Cyc, zFull: seq<Lane>, oFull: seq<Lane>, w: nat, off: nat, k: nat,
                 p: nat)
    requires 2 <= cfg.ports && Typed(cfg, m) && Fits(cfg, x) && CycTyped(cfg, c) && Facing(cfg, m, x, zFull, oFull)
    requires Reached(cfg, m, c, w, off, k) && p < cfg.ports && w < 2 * cfg.segs && k < 2 * cfg.segs
    ensures Shows(cfg, m, x, c, p) == (if p == Slipping(cfg) then zFull[w].valid
                                       else p == Cutting(cfg) && oFull[k].valid)
    ensures p == Slipping(cfg) ==> ShowsEop(cfg, m, x, c, p) == zFull[w].eop
    ensures p == Cutting(cfg) ==> ShowsEop(cfg, m, x, c, p) == oFull[k].eop
  {
    SearchOrder(cfg);
    hide Full;
  }

  // The slipping port sends one more one-segment frame, the cutting port having nothing to show.
  lemma SlipSends(cfg: Config, m: Mux, x: In, c: Cyc, zFull: seq<Lane>, oFull: seq<Lane>, w: nat, k: nat)
    requires 2 <= cfg.ports && Typed(cfg, m) && Fits(cfg, x) && CycTyped(cfg, c) && Facing(cfg, m, x, zFull, oFull)
    requires Reached(cfg, m, c, w, w, k) && w < 2 * cfg.segs && k < 2 * cfg.segs
    requires zFull[w].valid && zFull[w].eop && !oFull[k].valid
    ensures var c' := Route(cfg, m, x, Select(cfg, m, x, c));
      Reached(cfg, m, c', w + 1, w + 1, k) && c'.port == c'.portNext == Slipping(cfg)
  {
    forall p | 0 <= p < cfg.ports
      ensures Shows(cfg, m, x, c, p) == (p == Slipping(cfg)) && (p == Slipping(cfg) ==> ShowsEop(cfg, m, x, c, p))
    {
      WhoShows(cfg, m, x, c, zFull, oFull, w, w, k, p);
      hide Shows, ShowsEop;
    }
    SearchOrder(cfg);
    hide Shows, ShowsEop, Route, Select, Full, FirstTried;
    SingleSlot(cfg, m, x, c, Slipping(cfg));
    Moved(cfg, m, c, Route(cfg, m, x, Select(cfg, m, x, c)), w, k, Slipping(cfg));
  }

  // One of the two ports moved one lane on.
  lemma Moved(cfg: Config, m: Mux, c: Cyc, c': Cyc, w: nat, k: nat, q: nat)
    requires 2 <= cfg.ports && Typed(cfg, m) && CycTyped(cfg, c) && CycTyped(cfg, c') && Reached(cfg, m, c, w, w, k)
    requires !c'.frame && !c'.abort && !c'.frameNext && (q == Slipping(cfg) || q == Cutting(cfg))
    requires c'.offsets == c.offsets[q := c.offsets[q] + 1] && c'.shift == c.shift[q := c.shift[q] + 1]
    ensures q == Slipping(cfg) ==> Reached(cfg, m, c', w + 1, w + 1, k)
    ensures q == Cutting(cfg) ==> Reached(cfg, m, c', w, w, k + 1)
  {
    SearchOrder(cfg);
    forall p | 0 <= p < cfg.ports
      ensures Window(m, c', p) == Window(m, c, p) + (if p == q then 1 else 0)
      ensures c'.offsets[p] == c.offsets[p] + (if p == q then 1 else 0)
      ensures Window(m, c, p) == c.offsets[p] == (if p == Slipping(cfg) then w else if p == Cutting(cfg) then k else 0)
    {
    }
  }

  lemma {:induction false} SlipRuns(cfg: Config, m: Mux, x: In, zFull: seq<Lane>, oFull: seq<Lane>, w: nat, k: nat,
                                    from: nat, n: nat)
    requires 2 <= cfg.ports && Typed(cfg, m) && Fits(cfg, x) && Facing(cfg, m, x, zFull, oFull) && 0 < n
    requires Reached(cfg, m, Filled(cfg, m, x, from), w, w, k) && w + n <= 2 * cfg.segs && k < 2 * cfg.segs &&
      !oFull[k].valid
    requires forall i :: w <= i < w + n ==> zFull[i].valid && zFull[i].eop
    ensures var c' := Filled(cfg, m, x, from + n);
      Reached(cfg, m, c', w + n, w + n, k) && c'.portNext == Slipping(cfg)
    decreases n
  {
    hide *;
    FilledNext(cfg, m, x, from);
    SlipSends(cfg, m, x, Filled(cfg, m, x, from), zFull, oFull, w, k);
    FilledNext(cfg, m, x, from + 1);
    if n > 1 {
      SlipRuns(cfg, m, x, zFull, oFull, w + 1, k, from + 1, n - 1);
    }
  }

  // The hold registers after the cycle, once the two offsets are known.
  lemma ShapeAfter(cfg: Config, m: Mux, x: In, z: Hold, o: Hold, w: nat, off: nat, k: nat)
    requires 2 <= cfg.ports && Shape(cfg, m, z, o) && Fits(cfg, x)
    requires Reached(cfg, m, Filled(cfg, m, x, cfg.segs), w, off, k) &&
      Filled(cfg, m, x, cfg.segs).portNext == Slipping(cfg)
    requires off < 2 * cfg.segs && k < 2 * cfg.segs
    requires forall p :: 0 <= p < cfg.ports && p != Slipping(cfg) && p != Cutting(cfg) ==>
      x.beats[p] == Singles(cfg.segs, 0)
    ensures |z.lanes| == |o.lanes| == cfg.segs
    ensures Shape(cfg, Step(cfg, m, x), NextHold(cfg.segs, z, off, x.beats[Slipping(cfg)]),
                  NextHold(cfg.segs, o, k, x.beats[Cutting(cfg)]))
  {
    SearchOrder(cfg);
    var c := Filled(cfg, m, x, cfg.segs);
    ReachKept(cfg, m, x, cfg.segs);
    StepTyped(cfg, m, x, c);
    EmptyHold(cfg.segs);
    hide Filled, NextHold, Singles;
    var m', z', o' := Step(cfg, m, x), NextHold(cfg.segs, z, off, x.beats[Slipping(cfg)]),
        NextHold(cfg.segs, o, k, x.beats[Cutting(cfg)]);
    forall p | 0 <= p < cfg.ports
      ensures m'.holds[p] == if p == Slipping(cfg) then z' else if p == Cutting(cfg) then o'
        else Hold(Singles(cfg.segs, 0), 0)
    {
      assert m'.holds[p] == NextHold(cfg.segs, m.holds[p], c.offsets[p], x.beats[p]);
    }
  }

  lemma EmptyHold(segs: nat)
    requires 0 < segs
    ensures var none := Singles(segs, 0); NextHold(segs, Hold(none, 0), 0, none) == Hold(none, 0)
  {
  }

  lemma NextLeft(segs: nat, h: Hold, offset: nat, beat: seq<Lane>)
    requires |h.lanes| == |beat| == segs && offset < segs && h.lanes[offset].valid
    ensures NextHold(segs, h, offset, beat) == Hold(h.lanes, offset)
  {
    assert h.lanes[offset..][0].valid;
  }

  lemma NextDry(segs: nat, h: Hold, offset: nat, beat: seq<Lane>)
    requires |h.lanes| == |beat| == segs && offset < segs && (h.lanes[0].valid || offset == 0)
    requires forall i :: offset <= i < segs ==> !h.lanes[i].valid
    ensures NextHold(segs, h, offset, beat) == Hold(beat, 0)
  {
  }

  // First cycle: one frame of the cutting port, then all but one of the slipping port's lanes.
  lemma CutOnce(cfg: Config, m: Mux, x: In, zFull: seq<Lane>, oFull: seq<Lane>)
    requires 2 <= cfg.ports && 3 <= cfg.segs
    requires Shape(cfg, m, Hold(Singles(cfg.segs, cfg.segs), 0), Hold(Singles(cfg.segs, 1), 0)) && Fits(cfg, x)
    requires Facing(cfg, m, x, zFull, oFull) && oFull[0] == ONE && !oFull[1].valid
    requires forall i :: 0 <= i < cfg.segs - 1 ==> zFull[i] == ONE
    ensures Reached(cfg, m, Filled(cfg, m, x, cfg.segs), cfg.segs - 1, cfg.segs - 1, 1)
    ensures Filled(cfg, m, x, cfg.segs).portNext == Slipping(cfg)
  {
    CutFirst(cfg, m, x, Hold(Singles(cfg.segs, cfg.segs), 0), Hold(Singles(cfg.segs, 1), 0), zFull, oFull);
    hide *;
    SlipRuns(cfg, m, x, zFull, oFull, 0, 1, 1, cfg.segs - 1);
  }

  // The cutting port comes first in the search after the slipping one.
  lemma CutFirst(cfg: Config, m: Mux, x: In, z: Hold, o: Hold, zFull: seq<Lane>, oFull: seq<Lane>)
    requires 2 <= cfg.ports && Shape(cfg, m, z, o) && o.offset == 0 && Fits(cfg, x) && z.offset < cfg.segs
    requires Facing(cfg, m, x, zFull, oFull) && oFull[0] == ONE
    ensures var c := Filled(cfg, m, x, 1);
      && Reached(cfg, m, c, z.offset, z.offset, 1)
      && c.slots == [Slot(Cutting(cfg), 0)] && c.done == 1
  {
    BeginsAt(cfg, m, z, o);
    SearchOrder(cfg);
    FilledNext(cfg, m, x, 0);
    var c := Begin(cfg, m);
    WhoShows(cfg, m, x, c, zFull, oFull, z.offset, z.offset, 0, Cutting(cfg));
    hide Shows, ShowsEop, Route, Select, Full, Begin, Facing, FirstTried;
    SingleSlot(cfg, m, x, c, Cutting(cfg));
    Moved(cfg, m, c, Route(cfg, m, x, Select(cfg, m, x, c)), z.offset, 0, Cutting(cfg));
    assert [] + [Slot(Cutting(cfg), 0)] == [Slot(Cutting(cfg), 0)];
  }

  // The tearing cycle's third state: the pair's end was seen while its head was routed.
  predicate Torn(cfg: Config, m: Mux, c: Cyc)
    requires 2 <= cfg.ports && Typed(cfg, m) && CycTyped(cfg, c)
  {
    var z, s := Slipping(cfg), cfg.segs;
    && c.done == 3 && 3 <= |c.slots| && c.slots[..3] == [Slot(z, s - 1), Slot(z, s - 1), Slot(z, s)]
    && c.port == c.portNext == z && Reached(cfg, m, c, s - 1 + |c.slots|, s + 1, 0)
  }

  lemma TearStart(cfg: Config, m: Mux, x: In, zFull: seq<Lane>, oFull: seq<Lane>)
    requires 2 <= cfg.ports && 3 <= cfg.segs && Fits(cfg, x)
    requires Shape(cfg, m, Hold(Singles(cfg.segs, cfg.segs - 1), cfg.segs - 1), Hold(Singles(cfg.segs, 0), 0))
    requires Facing(cfg, m, x, zFull, oFull) && !oFull[0].valid
    requires !zFull[cfg.segs - 1].valid && zFull[cfg.segs] == HEAD && zFull[cfg.segs + 1] == TAIL
    ensures Torn(cfg, m, Filled(cfg, m, x, 3))
  {
    var z, s := Slipping(cfg), cfg.segs;
    hide *;
    SearchOrder(cfg);
    BeginsAt(cfg, m, Hold(Singles(s, s - 1), s - 1), Hold(Singles(s, 0), 0));
    FilledNext(cfg, m, x, 0);
    FilledNext(cfg, m, x, 1);
    FilledNext(cfg, m, x, 2);
    TearIdle(cfg, m, x, Begin(cfg, m), zFull, oFull);
    TearHead(cfg, m, x, Filled(cfg, m, x, 1), zFull, oFull);
    TearTail(cfg, m, x, Filled(cfg, m, x, 2), zFull, oFull);
  }

  // The window passes the empty lane.
  lemma TearIdle(cfg: Config, m: Mux, x: In, c: Cyc, zFull: seq<Lane>, oFull: seq<Lane>)
    requires 2 <= cfg.ports && 3 <= cfg.segs && Typed(cfg, m) && Fits(cfg, x) && CycTyped(cfg, c)
    requires Facing(cfg, m, x, zFull, oFull) && !oFull[0].valid && !zFull[cfg.segs - 1].valid
    requires Reached(cfg, m, c, cfg.segs - 1, cfg.segs - 1, 0) && Between(cfg, c.port) && c.done == 0 && c.slots == []
    ensures var c' := Route(cfg, m, x, Select(cfg, m, x, c));
      && Reached(cfg, m, c', cfg.segs, cfg.segs - 1, 0) && c'.port == Slipping(cfg) && c'.done == 0
      && c'.slots == [Slot(Slipping(cfg), cfg.segs - 1)]
  {
    forall p | 0 <= p < cfg.ports ensures !Shows(cfg, m, x, c, p) {
      WhoShows(cfg, m, x, c, zFull, oFull, cfg.segs - 1, cfg.segs - 1, 0, p);
      hide Shows;
    }
    SearchOrder(cfg);
    hide Shows, ShowsEop, Route, Select, Full, Facing;
    IdleSlot(cfg, m, x, c);
    SlipOnly(cfg, m, c, Route(cfg, m, x, Select(cfg, m, x, c)), cfg.segs - 1, cfg.segs - 1);
  }

  // Only the slipping port's window moved.
  lemma SlipOnly(cfg: Config, m: Mux, c: Cyc, c': Cyc, w: nat, off: nat)
    requires 2 <= cfg.ports && Typed(cfg, m) && CycTyped(cfg, c) && CycTyped(cfg, c') && Reached(cfg, m, c, w, off, 0)
    requires !c'.frame && !c'.abort && !c'.frameNext && c'.offsets == c.offsets
    requires var z := Slipping(cfg); c'.shift == c.shift[z := c.shift[z] + 1]
    ensures Reached(cfg, m, c', w + 1, off, 0)
  {
    SearchOrder(cfg);
    forall p | 0 <= p < cfg.ports
      ensures Window(m, c', p) == Window(m, c, p) + (if p == Slipping(cfg) then 1 else 0)
    {
    }
  }

  // The pair's head is seen, the empty lane routed.
  lemma TearHead(cfg: Config, m: Mux, x: In, c: Cyc, zFull: seq<Lane>, oFull: seq<Lane>)
    requires 2 <= cfg.ports && 3 <= cfg.segs && Typed(cfg, m) && Fits(cfg, x) && CycTyped(cfg, c)
    requires Facing(cfg, m, x, zFull, oFull) && !oFull[0].valid && zFull[cfg.segs] == HEAD
    requires Reached(cfg, m, c, cfg.segs, cfg.segs - 1, 0) && c.port == Slipping(cfg) && c.done == 0
    requires c.slots == [Slot(Slipping(cfg), cfg.segs - 1)]
    ensures var c', z := Route(cfg, m, x, Select(cfg, m, x, c)), Slipping(cfg);
      && c'.frame && !c'.abort && !c'.frameNext && c'.port == z && c'.done == 0 && c'.lane == cfg.segs
      && c'.slots == [Slot(z, cfg.segs - 1), Slot(z, cfg.segs - 1)]
      && (forall p :: 0 <= p < cfg.ports ==>
            && Window(m, c', p) == (if p == z then cfg.segs + 1 else 0) &&
               c'.offsets[p] == (if p == z then cfg.segs - 1 else 0))
  {
    var z := Slipping(cfg);
    forall p | 0 <= p < cfg.ports
      ensures Shows(cfg, m, x, c, p) == (p == z) && (p == z ==> !ShowsEop(cfg, m, x, c, p))
    {
      WhoShows(cfg, m, x, c, zFull, oFull, cfg.segs, cfg.segs - 1, 0, p);
      hide Shows, ShowsEop;
    }
    SelectFinds(cfg, m, x, c);
    var s := Select(cfg, m, x, c);
    hide Shows, ShowsEop, Select, Full, Facing, Rank, FirstTried;
    ShownSame(cfg, m, x, c, s, z);
    var c' := Route(cfg, m, x, s);
    forall p | 0 <= p < cfg.ports
      ensures Window(m, c', p) == (if p == z then cfg.segs + 1 else 0) &&
        c'.offsets[p] == (if p == z then cfg.segs - 1 else 0)
    {
      assert Window(m, c, p) == (if p == z then cfg.segs else 0);
    }
  }

  // The pair's end is seen, its head routed: the frame is committed as ended.
  lemma TearTail(cfg: Config, m: Mux, x: In, c: Cyc, zFull: seq<Lane>, oFull: seq<Lane>)
    requires 2 <= cfg.ports && 3 <= cfg.segs && Typed(cfg, m) && Fits(cfg, x) && CycTyped(cfg, c)
    requires Facing(cfg, m, x, zFull, oFull) && zFull[cfg.segs + 1] == TAIL
    requires var z := Slipping(cfg);
      && c.frame && !c.abort && !c.frameNext && c.port == z && c.done == 0 && c.lane == cfg.segs
      && c.slots == [Slot(z, cfg.segs - 1), Slot(z, cfg.segs - 1)]
      && (forall p :: 0 <= p < cfg.ports ==>
            && Window(m, c, p) == (if p == z then cfg.segs + 1 else 0) &&
               c.offsets[p] == (if p == z then cfg.segs - 1 else 0))
    ensures Torn(cfg, m, Route(cfg, m, x, Select(cfg, m, x, c)))
  {
    var z, c' := Slipping(cfg), Route(cfg, m, x, c);
    assert Shows(cfg, m, x, c, z) && ShowsEop(cfg, m, x, c, z);
    hide Shows, ShowsEop, Full, Facing;
    assert c'.slots == [Slot(z, cfg.segs - 1), Slot(z, cfg.segs - 1), Slot(z, cfg.segs)];
    assert c'.slots[..3] == c'.slots;
    forall p | 0 <= p < cfg.ports
      ensures Window(m, c', p) == (if p == z then cfg.segs + 2 else 0) &&
        c'.offsets[p] == (if p == z then cfg.segs + 1 else 0)
    {
      assert Window(m, c, p) == (if p == z then cfg.segs + 1 else 0);
    }
    SearchOrder(cfg);
  }

  // The rest of the cycle is idle.
  lemma {:induction false} TearEnds(cfg: Config, m: Mux, x: In, zFull: seq<Lane>, oFull: seq<Lane>, n: nat)
    requires 2 <= cfg.ports && 3 <= n <= cfg.segs && Typed(cfg, m) && Fits(cfg, x)
    requires Facing(cfg, m, x, zFull, oFull) && !oFull[0].valid && Torn(cfg, m, Filled(cfg, m, x, 3))
    requires forall i :: cfg.segs + 2 <= i < 2 * cfg.segs ==> !zFull[i].valid
    ensures Torn(cfg, m, Filled(cfg, m, x, n))
  {
    if n > 3 {
      TearEnds(cfg, m, x, zFull, oFull, n - 1);
      FilledNext(cfg, m, x, n - 1);
      hide Filled, Facing;
      TearStays(cfg, m, x, Filled(cfg, m, x, n - 1), zFull, oFull);
    }
  }

  lemma TearStays(cfg: Config, m: Mux, x: In, c: Cyc, zFull: seq<Lane>, oFull: seq<Lane>)
    requires 2 <= cfg.ports && Typed(cfg, m) && Fits(cfg, x) && CycTyped(cfg, c) && Torn(cfg, m, c) &&
      |c.slots| < cfg.segs
    requires Facing(cfg, m, x, zFull, oFull) && !oFull[0].valid
    requires forall i :: cfg.segs + 2 <= i < 2 * cfg.segs ==> !zFull[i].valid
    ensures Torn(cfg, m, Route(cfg, m, x, Select(cfg, m, x, c)))
  {
    var w, off := cfg.segs - 1 + |c.slots|, cfg.segs + 1;
    forall p | 0 <= p < cfg.ports ensures !Shows(cfg, m, x, c, p) {
      WhoShows(cfg, m, x, c, zFull, oFull, w, off, 0, p);
      hide Shows;
    }
    SearchOrder(cfg);
    hide Shows, ShowsEop, Route, Select, Full, Facing, FirstTried;
    IdleSlot(cfg, m, x, c);
    var c' := Route(cfg, m, x, Select(cfg, m, x, c));
    assert c'.slots[..3] == c.slots[..3];
    SlipOnly(cfg, m, c, c', w, off);
  }

  // What the tearing cycle sends is the head alone.
  lemma TearSends(cfg: Config, m: Mux, x: In, zFull: seq<Lane>)
    requires 2 <= cfg.ports && 3 <= cfg.segs && Typed(cfg, m) && Fits(cfg, x)
    requires Full(m, x, Slipping(cfg)) == zFull && !zFull[cfg.segs - 1].valid && zFull[cfg.segs] == HEAD
    requires Torn(cfg, m, Filled(cfg, m, x, cfg.segs))
    ensures Output(cfg, m, x) == [Sent(Slipping(cfg), HEAD)]
  {
    var z, s := Slipping(cfg), cfg.segs;
    assert Leaves(m, x, []) == [];
    LeavesSlot(cfg, m, x, [], z, s - 1);
    LeavesSlot(cfg, m, x, [Slot(z, s - 1)], z, s - 1);
    LeavesSlot(cfg, m, x, [Slot(z, s - 1), Slot(z, s - 1)], z, s);
    assert [] + [Slot(z, s - 1)] == [Slot(z, s - 1)];
    assert [Slot(z, s - 1)] + [Slot(z, s - 1)] == [Slot(z, s - 1), Slot(z, s - 1)];
    assert [Slot(z, s - 1), Slot(z, s - 1)] + [Slot(z, s)] == [Slot(z, s - 1), Slot(z, s - 1), Slot(z, s)];
    hide Leaves, Filled, Full;
  }

  // Once committed, a first slot leaves first.
  lemma {:induction false} FirstStays(cfg: Config, m: Mux, x: In, n: nat, q: nat)
    requires Typed(cfg, m) && Fits(cfg, x) && 1 <= n
    requires Filled(cfg, m, x, 1).slots == [Slot(q, 0)] && Filled(cfg, m, x, 1).done == 1
    ensures var c := Filled(cfg, m, x, n); 1 <= c.done <= |c.slots| && c.slots[0] == Slot(q, 0)
  {
    if n > 1 {
      FirstStays(cfg, m, x, n - 1, q);
      FilledNext(cfg, m, x, n - 1);
      hide Filled;
      SlotsGrow(cfg, m, x, Filled(cfg, m, x, n - 1));
    }
  }

  lemma SlotsGrow(cfg: Config, m: Mux, x: In, c: Cyc)
    requires Typed(cfg, m) && Fits(cfg, x) && CycTyped(cfg, c)
    ensures var c' := Route(cfg, m, x, Select(cfg, m, x, c));
      c.done <= c'.done && |c'.slots| == |c.slots| + 1 && c'.slots[..|c.slots|] == c.slots
  {
    SelectKeepsSlots(cfg, m, x, c, FirstTried(cfg, c.port), cfg.ports);
    hide Try, Shows, ShowsEop;
  }

  lemma CutSends(cfg: Config, m: Mux, x: In, q: nat)
    requires Typed(cfg, m) && Fits(cfg, x) && q < cfg.ports
    requires Filled(cfg, m, x, 1).slots == [Slot(q, 0)] && Filled(cfg, m, x, 1).done == 1 && Full(m, x, q)[0] == ONE
    ensures Output(cfg, m, x) != [] && Output(cfg, m, x)[0] == Sent(q, ONE)
  {
    FirstStays(cfg, m, x, cfg.segs, q);
    var c := Filled(cfg, m, x, cfg.segs);
    var slots := c.slots[..c.done];
    LeavesSlot(cfg, m, x, [], q, 0);
    assert [] + [Slot(q, 0)] == slots[..1] && slots == slots[..1] + slots[1..];
    LeavesJoin(m, x, slots[..1], slots[1..]);
    assert Leaves(m, x, []) == [];
    hide Filled, Leaves, Full;
  }

  // ---- The run ----

  // In the first clock after reset nothing is sent and the offered beats are taken.
  lemma Loads(cfg: Config, s: System, i: Input)
    requires 2 <= cfg.ports && AtReset(cfg, s) && InputFits(cfg, i)
    requires forall p :: 0 <= p < cfg.ports && p != Slipping(cfg) && p != Cutting(cfg) ==>
      i.beats[p] == Singles(cfg.segs, 0)
    ensures var m' := Step(cfg, s.mux, Inner(s, i));
      && Shape(cfg, m', Hold(i.beats[Slipping(cfg)], 0), Hold(i.beats[Cutting(cfg)], 0))
      && Output(cfg, s.mux, Inner(s, i)) == []
  {
    var x := Inner(s, i);
    NothingUnlessReady(cfg, s.mux, x, cfg.segs);
    NothingWithoutRoom(cfg, s.mux, x);
    SearchOrder(cfg);
    var c, m' := Filled(cfg, s.mux, x, cfg.segs), Step(cfg, s.mux, x);
    hide Filled, Singles;
    forall p | 0 <= p < cfg.ports ensures m'.holds[p] == Hold(i.beats[p], 0) {
      assert m'.holds[p] == NextHold(cfg.segs, s.mux.holds[p], c.offsets[p], x.beats[p]);
      assert c.offsets[p] == 0;
      FreshHold(cfg.segs, s.mux.holds[p], x.beats[p]);
      hide NextHold;
    }
  }

  lemma FreshHold(segs: nat, h: Hold, beat: seq<Lane>)
    requires 0 < segs && |h.lanes| == |beat| == segs && !SomeValid(h.lanes)
    ensures NextHold(segs, h, 0, beat) == Hold(beat, 0)
  {
    assert h.lanes[0..] == h.lanes;
  }

  // Registers and stage as the witness leaves them: nothing waiting, ready up.
  predicate At(cfg: Config, s: System, z: Hold, o: Hold, out: seq<Sent>)
    requires 2 <= cfg.ports
  {
    Shape(cfg, s.mux, z, o) && s.stage == Stage(out, [], true)
  }

  lemma AtIs(cfg: Config, s: System, z: Hold, o: Hold, out: seq<Sent>)
    requires 2 <= cfg.ports
    ensures At(cfg, s, z, o, out) <==> Shape(cfg, s.mux, z, o) && s.stage == Stage(out, [], true)
    ensures Shape(cfg, s.mux, z, o) ==> Typed(cfg, s.mux) && |z.lanes| == |o.lanes| == cfg.segs
  {
    SearchOrder(cfg);
    if Shape(cfg, s.mux, z, o) {
      assert s.mux.holds[Slipping(cfg)] == z && s.mux.holds[Cutting(cfg)] == o;
    }
  }

  lemma Faces(cfg: Config, s: System, z: Hold, o: Hold, zBeat: seq<Lane>, oBeat: seq<Lane>, out: seq<Sent>)
    requires 2 <= cfg.ports && At(cfg, s, z, o, out) && |zBeat| == |oBeat| == cfg.segs
    ensures Typed(cfg, s.mux) && |z.lanes| == |o.lanes| == cfg.segs && Shape(cfg, s.mux, z, o)
    ensures InputFits(cfg, Offer(cfg, zBeat, oBeat))
    ensures var x := Inner(s, Offer(cfg, zBeat, oBeat));
      && Fits(cfg, x) && Facing(cfg, s.mux, x, z.lanes + zBeat, o.lanes + oBeat)
      && x.beats[Slipping(cfg)] == zBeat && x.beats[Cutting(cfg)] == oBeat
      && (forall p :: 0 <= p < cfg.ports && p != Slipping(cfg) && p != Cutting(cfg) ==>
            x.beats[p] == Singles(cfg.segs, 0))
  {
    SearchOrder(cfg);
    AtIs(cfg, s, z, o, out);
    hide Singles;
  }

  lemma Sends(cfg: Config, s: System, z: Hold, o: Hold, i: Input, out: seq<Sent>)
    requires 2 <= cfg.ports && At(cfg, s, z, o, out) && InputFits(cfg, i) && i.outReady && Typed(cfg, s.mux)
    ensures Fits(cfg, Inner(s, i))
    ensures Next(cfg, s, i) == System(Step(cfg, s.mux, Inner(s, i)), Stage(Output(cfg, s.mux, Inner(s, i)), [], true))
  {
    hide Step, Output;
  }

  lemma Beats(segs: nat)
    requires 3 <= segs
    ensures !NO.valid && ONE.valid && ONE.eop
  {
  }

  // Second clock: the slipping port is left with one lane.
  lemma Cut(cfg: Config, s: System)
    requires 2 <= cfg.ports && 3 <= cfg.segs
    requires At(cfg, s, Hold(Singles(cfg.segs, cfg.segs), 0), Hold(Singles(cfg.segs, 1), 0), [])
    ensures var i := Offer(cfg, Singles(cfg.segs, cfg.segs - 1), Singles(cfg.segs, 0));
      At(cfg, Next(cfg, s, i), Hold(Singles(cfg.segs, cfg.segs), cfg.segs - 1), Hold(Singles(cfg.segs, 0), 0),
         Output(cfg, s.mux, Inner(s, i)))
  {
    hide *;
    var n := cfg.segs;
    var z, o, gap, none := Hold(Singles(n, n), 0), Hold(Singles(n, 1), 0), Singles(n, n - 1), Singles(n, 0);
    Beats(n);
    Faces(cfg, s, z, o, gap, none, []);
    var i := Offer(cfg, gap, none);
    var x := Inner(s, i);
    CutOnce(cfg, s.mux, x, z.lanes + gap, o.lanes + none);
    ShapeAfter(cfg, s.mux, x, z, o, n - 1, n - 1, 1);
    NextLeft(n, z, n - 1, gap);
    NextDry(n, o, 1, none);
    Sends(cfg, s, z, o, i, []);
    AtIs(cfg, Next(cfg, s, i), Hold(Singles(n, n), n - 1), Hold(none, 0), Output(cfg, s.mux, x));
  }

  // Third clock: that lane and all but one lane of the next beat.
  lemma Straddle(cfg: Config, s: System, out: seq<Sent>)
    requires 2 <= cfg.ports && 3 <= cfg.segs
    requires At(cfg, s, Hold(Singles(cfg.segs, cfg.segs), cfg.segs - 1), Hold(Singles(cfg.segs, 0), 0), out)
    ensures var i := Offer(cfg, Singles(cfg.segs, cfg.segs - 1), Singles(cfg.segs, 0));
      At(cfg, Next(cfg, s, i), Hold(Singles(cfg.segs, cfg.segs - 1), cfg.segs - 1), Hold(Singles(cfg.segs, 0), 0),
         Output(cfg, s.mux, Inner(s, i)))
  {
    hide *;
    var n := cfg.segs;
    var z, o, gap, none := Hold(Singles(n, n), n - 1), Hold(Singles(n, 0), 0), Singles(n, n - 1), Singles(n, 0);
    Beats(n);
    Faces(cfg, s, z, o, gap, none, out);
    var i := Offer(cfg, gap, none);
    var x := Inner(s, i);
    BeginsAt(cfg, s.mux, z, o);
    FilledNext(cfg, s.mux, x, 0);
    SlipRuns(cfg, s.mux, x, z.lanes + gap, o.lanes + none, n - 1, 0, 0, n);
    ShapeAfter(cfg, s.mux, x, z, o, 2 * n - 1, 2 * n - 1, 0);
    NextSpent(n, z, 2 * n - 1, gap);
    NextDry(n, o, 0, none);
    Sends(cfg, s, z, o, i, out);
    AtIs(cfg, Next(cfg, s, i), Hold(gap, n - 1), Hold(none, 0), Output(cfg, s.mux, x));
  }

  lemma NextSpent(segs: nat, h: Hold, offset: nat, beat: seq<Lane>)
    requires |h.lanes| == |beat| == segs && 0 < segs <= offset < 2 * segs
    ensures NextHold(segs, h, offset, beat) == Hold(beat, offset - segs)
  {
  }

  // Fourth clock: the frame is torn.
  lemma Tear(cfg: Config, s: System, out: seq<Sent>)
    requires 2 <= cfg.ports && 3 <= cfg.segs
    requires At(cfg, s, Hold(Singles(cfg.segs, cfg.segs - 1), cfg.segs - 1), Hold(Singles(cfg.segs, 0), 0), out)
    ensures var i := Offer(cfg, Pair(cfg.segs), Singles(cfg.segs, 1));
      At(cfg, Next(cfg, s, i), Hold(Pair(cfg.segs), 1), Hold(Singles(cfg.segs, 1), 0), [Sent(Slipping(cfg), HEAD)])
  {
    hide *;
    var n := cfg.segs;
    var z, o, pair, one := Hold(Singles(n, n - 1), n - 1), Hold(Singles(n, 0), 0), Pair(n), Singles(n, 1);
    Beats(n);
    Faces(cfg, s, z, o, pair, one, out);
    var i := Offer(cfg, pair, one);
    var x := Inner(s, i);
    TearStart(cfg, s.mux, x, z.lanes + pair, o.lanes + one);
    TearEnds(cfg, s.mux, x, z.lanes + pair, o.lanes + one, n);
    FacingIs(cfg, s.mux, x, z.lanes + pair, o.lanes + one);
    TearSends(cfg, s.mux, x, z.lanes + pair);
    TornParts(cfg, s.mux, x);
    ShapeAfter(cfg, s.mux, x, z, o, 2 * n - 1, n + 1, 0);
    NextSpent(n, z, n + 1, pair);
    NextDry(n, o, 0, one);
    Sends(cfg, s, z, o, i, out);
    AtIs(cfg, Next(cfg, s, i), Hold(pair, 1), Hold(one, 0), [Sent(Slipping(cfg), HEAD)]);
  }

  lemma FacingIs(cfg: Config, m: Mux, x: In, zFull: seq<Lane>, oFull: seq<Lane>)
    requires 2 <= cfg.ports && Typed(cfg, m) && Fits(cfg, x) && Facing(cfg, m, x, zFull, oFull)
    ensures Full(m, x, Slipping(cfg)) == zFull && Full(m, x, Cutting(cfg)) == oFull
  {
    hide Full;
  }

  lemma TornParts(cfg: Config, m: Mux, x: In)
    requires 2 <= cfg.ports && Typed(cfg, m) && Fits(cfg, x) && Torn(cfg, m, Filled(cfg, m, x, cfg.segs))
    ensures Reached(cfg, m, Filled(cfg, m, x, cfg.segs), 2 * cfg.segs - 1, cfg.segs + 1, 0)
    ensures Filled(cfg, m, x, cfg.segs).portNext == Slipping(cfg)
  {
    hide Filled, Reached;
  }

  // Fifth clock: the cutting port's frame leaves first.
  lemma Interleave(cfg: Config, s: System, out: seq<Sent>)
    requires 2 <= cfg.ports && 3 <= cfg.segs
    requires At(cfg, s, Hold(Pair(cfg.segs), 1), Hold(Singles(cfg.segs, 1), 0), out)
    ensures var i := Offer(cfg, Singles(cfg.segs, 0), Singles(cfg.segs, 0));
      var sent := Next(cfg, s, i).stage.out; sent != [] && sent[0] == Sent(Cutting(cfg), ONE)
  {
    hide *;
    var n := cfg.segs;
    var z, o, none := Hold(Pair(n), 1), Hold(Singles(n, 1), 0), Singles(n, 0);
    Beats(n);
    Faces(cfg, s, z, o, none, none, out);
    var i := Offer(cfg, none, none);
    var x := Inner(s, i);
    CutFirst(cfg, s.mux, x, z, o, z.lanes + none, o.lanes + none);
    FacingIs(cfg, s.mux, x, z.lanes + none, o.lanes + none);
    CutSends(cfg, s.mux, x, Cutting(cfg));
    Sends(cfg, s, z, o, i, out);
  }

  // ---- The whole run ----

  function Reset(cfg: Config): System
    requires 2 <= cfg.ports && 0 < cfg.segs
  {
    System(Mux(false, 0, seq(cfg.ports, _ => Hold(Singles(cfg.segs, 0), 0))), Stage([], [], false))
  }

  lemma ResetIs(cfg: Config)
    requires 2 <= cfg.ports && 0 < cfg.segs
    ensures AtReset(cfg, Reset(cfg))
  {
  }

  // First clock: the beats are taken.
  lemma Load(cfg: Config)
    requires 2 <= cfg.ports && 3 <= cfg.segs
    ensures AtReset(cfg, Reset(cfg)) && Typed(cfg, Reset(cfg).mux)
    ensures var i := Offer(cfg, Singles(cfg.segs, cfg.segs), Singles(cfg.segs, 1));
      At(cfg, Next(cfg, Reset(cfg), i), Hold(Singles(cfg.segs, cfg.segs), 0), Hold(Singles(cfg.segs, 1), 0), [])
  {
    Beats(cfg.segs);
    ResetIs(cfg);
    SearchOrder(cfg);
    var i := Offer(cfg, Singles(cfg.segs, cfg.segs), Singles(cfg.segs, 1));
    hide Singles, Step, Output;
    Loads(cfg, Reset(cfg), i);
  }

  // The inputs of the witness, clock by clock.
  function Clock(cfg: Config, k: nat): (i: Input)
    requires 2 <= cfg.ports && 3 <= cfg.segs
    ensures InputFits(cfg, i) && i.outReady
  {
    Beats(cfg.segs);
    var n := cfg.segs;
    match k
    case 0 => Offer(cfg, Singles(n, n), Singles(n, 1))
    case 1 => Offer(cfg, Singles(n, n - 1), Singles(n, 0))
    case 2 => Offer(cfg, Singles(n, n - 1), Singles(n, 0))
    case 3 => Offer(cfg, Pair(n), Singles(n, 1))
    case _ => Offer(cfg, Singles(n, 0), Singles(n, 0))
  }

  function Clocks(cfg: Config, from: nat, count: nat): (xs: seq<Input>)
    requires 2 <= cfg.ports && 3 <= cfg.segs
    ensures |xs| == count && AllFit(cfg, xs) && (0 < count ==> xs[0] == Clock(cfg, from))
    decreases count
  {
    if count == 0 then [] else [Clock(cfg, from)] + Clocks(cfg, from + 1, count - 1)
  }

  lemma EmitsOne(cfg: Config, s: System, from: nat, count: nat)
    requires 2 <= cfg.ports && 3 <= cfg.segs && Typed(cfg, s.mux) && 0 < count
    ensures Emitted(cfg, s, Clocks(cfg, from, count))
         == s.stage.out + Emitted(cfg, Next(cfg, s, Clock(cfg, from)), Clocks(cfg, from + 1, count - 1))
  {
    assert Clocks(cfg, from, count)[1..] == Clocks(cfg, from + 1, count - 1);
    hide Next, Clock;
  }

  // With three segments or more and two ports or more some run from reset tears a frame.
  lemma SomeRunMixes(cfg: Config)
    requires 2 <= cfg.ports && 3 <= cfg.segs
    ensures AtReset(cfg, Reset(cfg)) && !Whole(Emitted(cfg, Reset(cfg), Clocks(cfg, 0, 6)))
  {
    hide *;
    ClocksAre(cfg);
    var s0 := Reset(cfg);
    Load(cfg);
    var s1 := Next(cfg, s0, Clock(cfg, 0));
    Cut(cfg, s1);
    AtTyped(cfg, s1, Hold(Singles(cfg.segs, cfg.segs), 0), Hold(Singles(cfg.segs, 1), 0), []);
    var s2 := Next(cfg, s1, Clock(cfg, 1));
    var o1 := Output(cfg, s1.mux, Inner(s1, Clock(cfg, 1)));
    Straddle(cfg, s2, o1);
    AtTyped(cfg, s2, Hold(Singles(cfg.segs, cfg.segs), cfg.segs - 1), Hold(Singles(cfg.segs, 0), 0), o1);
    var s3 := Next(cfg, s2, Clock(cfg, 2));
    var o2 := Output(cfg, s2.mux, Inner(s2, Clock(cfg, 2)));
    Tear(cfg, s3, o2);
    var s4 := Next(cfg, s3, Clock(cfg, 3));
    AtTyped(cfg, s3, Hold(Singles(cfg.segs, cfg.segs - 1), cfg.segs - 1), Hold(Singles(cfg.segs, 0), 0), o2);
    Interleave(cfg, s4, [Sent(Slipping(cfg), HEAD)]);
    var s5 := Next(cfg, s4, Clock(cfg, 4));
    AtTyped(cfg, s4, Hold(Pair(cfg.segs), 1), Hold(Singles(cfg.segs, 1), 0), [Sent(Slipping(cfg), HEAD)]);
    EmitsOne(cfg, s0, 0, 6);
    EmitsOne(cfg, s1, 1, 5);
    EmitsOne(cfg, s2, 2, 4);
    EmitsOne(cfg, s3, 3, 3);
    EmitsOne(cfg, s4, 4, 2);
    EmitsOne(cfg, s5, 5, 1);
    var rest := Emitted(cfg, Next(cfg, s5, Clock(cfg, 5)), Clocks(cfg, 6, 0));
    InARow(s0.stage.out, s1.stage.out, s2.stage.out, s3.stage.out, s4.stage.out, s5.stage.out, rest);
    TornStream(cfg, s0.stage.out + s1.stage.out + s2.stage.out + s3.stage.out, s4.stage.out, s5.stage.out, rest,
               Emitted(cfg, s0, Clocks(cfg, 0, 6)));
  }

  lemma InARow<T>(a: seq<T>, b: seq<T>, c: seq<T>, d: seq<T>, e: seq<T>, f: seq<T>, g: seq<T>)
    ensures a + (b + (c + (d + (e + (f + g))))) == (a + b + c + d) + e + f + g
  {
  }

  lemma AtTyped(cfg: Config, s: System, z: Hold, o: Hold, out: seq<Sent>)
    requires 2 <= cfg.ports && At(cfg, s, z, o, out)
    ensures Typed(cfg, s.mux) && s.stage.out == out && forall i :: InputFits(cfg, i) ==> Fits(cfg, Inner(s, i))
  {
  }

  lemma ClocksAre(cfg: Config)
    requires 2 <= cfg.ports && 3 <= cfg.segs
    ensures var n := cfg.segs;
      && Clock(cfg, 0) == Offer(cfg, Singles(n, n), Singles(n, 1)) &&
         Clock(cfg, 3) == Offer(cfg, Pair(n), Singles(n, 1))
      && Clock(cfg, 1) == Clock(cfg, 2) == Offer(cfg, Singles(n, n - 1), Singles(n, 0))
      && Clock(cfg, 4) == Offer(cfg, Singles(n, 0), Singles(n, 0))
  {
    Beats(cfg.segs);
  }

  lemma TornStream(cfg: Config, before: seq<Sent>, head: seq<Sent>, cut: seq<Sent>, rest: seq<Sent>, all: seq<Sent>)
    requires 2 <= cfg.ports && head == [Sent(Slipping(cfg), HEAD)] && cut != [] && cut[0].port == Cutting(cfg)
    requires all == before + head + cut + rest
    ensures !Whole(all)
  {
    SearchOrder(cfg);
    var i := |before|;
    assert all[i] == head[0] && all[i + 1] == cut[0];
  }

  // Frames never mix, whatever the ports offer, if and only if there are at most two segments or one port.
  lemma MixingExact(cfg: Config)
    requires 0 < cfg.ports && 0 < cfg.segs
    ensures NeverMixes(cfg) <==> cfg.segs <= 2 || cfg.ports == 1
  {
    if 3 <= cfg.segs && 2 <= cfg.ports {
      SomeRunMixes(cfg);
      hide Emitted, Whole, AtReset, Clocks, Reset;
    } else {
      forall s, xs | AtReset(cfg, s) && AllFit(cfg, xs) ensures Whole(Emitted(cfg, s, xs)) {
        if cfg.segs <= 2 {
          FramesNeverMix(cfg, s, xs);
        } else {
          EmittedFrom(cfg, s, xs);
        }
        hide Emitted;
      }
    }
  }
}
