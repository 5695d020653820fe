// One cycle of the multiplexer, slot by slot: the committed slots take each port's lanes in order.
module TlpMuxProof {
  import opened TlpMux

  function ValidOf(lanes: seq<Lane>): seq<Lane> {
    if lanes == [] then []
    else ValidOf(lanes[..|lanes| - 1]) + (if lanes[|lanes| - 1].valid then [lanes[|lanes| - 1]] else [])
  }

  // The valid lanes from one lane up to another.
  function Span(lanes: seq<Lane>, from: nat, to: nat): seq<Lane> {
    if from <= to <= |lanes| then ValidOf(lanes[from..to]) else []
  }

  // The part of the output that came from port p.
  function Of(out: seq<Sent>, p: nat): seq<Lane> {
    if out == [] then []
    else Of(out[..|out| - 1], p) + (if out[|out| - 1].port == p then [out[|out| - 1].lane] else [])
  }

  lemma {:induction false} ValidJoin(a: seq<Lane>, b: seq<Lane>)
    ensures ValidOf(a + b) == ValidOf(a) + ValidOf(b)
  {
    if b == [] {
      assert a + b == a;
    } else {
      ValidJoin(a, b[..|b| - 1]);
      assert (a + b)[..|a + b| - 1] == a + b[..|b| - 1];
    }
  }

  lemma {:induction false} OfJoin(a: seq<Sent>, b: seq<Sent>, p: nat)
    ensures Of(a + b, p) == Of(a, p) + Of(b, p)
  {
    if b == [] {
      assert a + b == a;
    } else {
      OfJoin(a, b[..|b| - 1], p);
      assert (a + b)[..|a + b| - 1] == a + b[..|b| - 1];
    }
  }

  lemma {:induction false} LeavesJoin(m: Mux, x: In, a: seq<Slot>, b: seq<Slot>)
    ensures Leaves(m, x, a + b) == Leaves(m, x, a) + Leaves(m, x, b)
  {
    if b == [] {
      assert a + b == a;
    } else {
      LeavesJoin(m, x, a, b[..|b| - 1]);
      assert (a + b)[..|a + b| - 1] == a + b[..|b| - 1];
    }
  }

  // Valid lanes of a beat come first.
  predicate Prefixed(lanes: seq<Lane>) {
    forall i, j :: 0 <= i < j < |lanes| && lanes[j].valid ==> lanes[i].valid
  }

  lemma {:induction false} NoneValid(lanes: seq<Lane>)
    requires !SomeValid(lanes)
    ensures ValidOf(lanes) == []
  {
    if lanes != [] {
      NoneValid(lanes[..|lanes| - 1]);
    }
  }

  // What a hold register still has to send.
  function Rest(h: Hold): seq<Lane>
    requires h.offset <= |h.lanes|
  {
    ValidOf(h.lanes[h.offset..])
  }

  predicate HoldOk(h: Hold) {
    h.offset <= |h.lanes| && (0 < h.offset ==> SomeValid(h.lanes))
  }

  // With at most three segments any lanes may be valid; with more, the valid ones must come first.
  predicate Gapless(segs: nat, lanes: seq<Lane>) {
    segs <= 3 || Prefixed(lanes)
  }

  // ---- A port within the cycle ----

  // first: lanes spent before the cycle; cur: next lane to route; window: lane its windows point at.
  predicate PortOk(segs: nat, full: seq<Lane>, paused: bool, used: nat, first: nat, offset: nat, cur: nat,
                   window: nat) {
    && |full| == 2 * segs && first < segs && used <= segs
    && first <= offset <= cur <= window <= first + used
    && (segs < cur ==> SomeValid(full[segs..]))
    && (first < cur ==> SomeValid(full[..segs]))
    // a window that slipped ahead left an invalid lane behind, or with gaps has used two slots to do so
    && (!paused && cur < window && (segs <= 3 || window <= segs) ==> !full[cur].valid || (segs <= 3 && 2 <= used))
  }

  function Cur(c: Cyc, p: nat): nat
    requires p < |c.offsets|
  {
    if c.frame && p == c.port then c.lane else c.offsets[p]
  }

  predicate PortsOk(cfg: Config, m: Mux, x: In, c: Cyc)
    requires Typed(cfg, m) && Fits(cfg, x) && CycTyped(cfg, c)
  {
    forall p :: 0 <= p < cfg.ports ==>
      PortOk(cfg.segs, Full(m, x, p), x.pause[p], |c.slots|, m.holds[p].offset, c.offsets[p], Cur(c, p),
             Window(m, c, p))
  }

  // After a stall only the committed offsets matter.
  predicate OffsetsOk(cfg: Config, m: Mux, x: In, c: Cyc)
    requires Typed(cfg, m) && Fits(cfg, x) && CycTyped(cfg, c)
  {
    forall p :: 0 <= p < cfg.ports ==>
      PortOk(cfg.segs, Full(m, x, p), x.pause[p], cfg.segs, m.holds[p].offset, c.offsets[p], c.offsets[p], c.offsets[p])
  }

  // Committed slots carry exactly the lanes up to the committed offset.
  predicate DoneOk(cfg: Config, m: Mux, x: In, c: Cyc)
    requires Typed(cfg, m) && Fits(cfg, x) && CycTyped(cfg, c)
  {
    && OffsetsOk(cfg, m, x, c)
    && forall p :: 0 <= p < cfg.ports ==>
         Of(Leaves(m, x, c.slots[..c.done]), p) == Span(Full(m, x, p), m.holds[p].offset, c.offsets[p])
  }

  // No port shows a segment now, nor will the one whose window keeps moving.
  predicate NoMore(cfg: Config, m: Mux, x: In, c: Cyc)
    requires Typed(cfg, m) && Fits(cfg, x) && CycTyped(cfg, c)
  {
    && !c.frame && c.port == LastTried(cfg, c.port)
    && (forall p :: 0 <= p < cfg.ports && p != c.port ==> !Shows(cfg, m, x, c, p))
    && (x.pause[c.port] || forall i :: Window(m, c, c.port) <= i < 2 * cfg.segs ==> !Full(m, x, c.port)[i].valid)
  }

  // Where a search that finds nothing ends.
  function LastTried(cfg: Config, p: nat): (q: nat)
    requires p < cfg.ports
    ensures q < cfg.ports
  {
    if cfg.roundRobin then p else if cfg.lsb then cfg.ports - 1 else 0
  }

  // Slots not yet committed carry the lanes routed since.
  predicate OpenOk(cfg: Config, m: Mux, x: In, c: Cyc)
    requires Typed(cfg, m) && Fits(cfg, x) && CycTyped(cfg, c)
  {
    forall p :: 0 <= p < cfg.ports ==>
      Of(Leaves(m, x, c.slots[c.done..]), p) == Span(Full(m, x, p), c.offsets[p], Cur(c, p))
  }

  predicate CycOk(cfg: Config, m: Mux, x: In, c: Cyc)
    requires Typed(cfg, m) && Fits(cfg, x) && CycTyped(cfg, c)
  {
    && DoneOk(cfg, m, x, c)
    && (!c.abort ==>
          && PortsOk(cfg, m, x, c)
          && (OpenOk(cfg, m, x, c) || NoMore(cfg, m, x, c) || |c.slots| == cfg.segs))
  }

  predicate Ready(cfg: Config, m: Mux, x: In) {
    && Typed(cfg, m) && Fits(cfg, x) && x.ready
    && (forall p :: 0 <= p < cfg.ports ==> HoldOk(m.holds[p]))
    && (forall p :: 0 <= p < cfg.ports ==> Gapless(cfg.segs, m.holds[p].lanes) && Gapless(cfg.segs, x.beats[p]))
  }

  lemma BeginOk(cfg: Config, m: Mux, x: In)
    requires Ready(cfg, m, x)
    ensures CycOk(cfg, m, x, Begin(cfg, m))
  {
    var c := Begin(cfg, m);
    forall p | 0 <= p < cfg.ports
      ensures Span(Full(m, x, p), c.offsets[p], Cur(c, p)) == []
      ensures Of(Leaves(m, x, c.slots[..c.done]), p) == []
    {
      assert Full(m, x, p)[c.offsets[p]..Cur(c, p)] == [];
    }
  }

  // ---- Selecting ----

  // How many ports are tried before q when the search starts at cur.
  function Rank(cfg: Config, cur: nat, q: nat): int {
    if cfg.lsb then (if cur <= q then q - cur else q - cur + cfg.ports)
    else (if q <= cur then cur - q else cur - q + cfg.ports)
  }

  lemma NextRank(cfg: Config, cur: nat, p: nat, q: nat)
    requires cur < cfg.ports && p < cfg.ports && q < cfg.ports
    ensures 0 <= Rank(cfg, cur, q) < cfg.ports
    ensures Rank(cfg, cur, p) + 1 < cfg.ports ==> Rank(cfg, cur, NextPort(cfg, p)) == Rank(cfg, cur, p) + 1
    ensures Rank(cfg, cur, p) == Rank(cfg, cur, q) ==> p == q
  {
  }

  // The search finds the first port that shows a segment; if none does it ends on the last one.
  lemma SearchFinds(cfg: Config, m: Mux, x: In, c: Cyc, first: nat, cur: nat, n: nat)
    requires Typed(cfg, m) && Fits(cfg, x) && CycTyped(cfg, c) && first < cfg.ports && cur < cfg.ports && !c.frame
    requires 0 < n && Rank(cfg, first, cur) + n == cfg.ports
    requires forall q :: 0 <= q < cfg.ports && Rank(cfg, first, q) < Rank(cfg, first, cur) ==> !Shows(cfg, m, x, c, q)
    ensures var c' := Try(cfg, m, x, c, cur, n);
      && (forall q :: 0 <= q < cfg.ports && Rank(cfg, first, q) < Rank(cfg, first, c'.port) ==> !Shows(cfg, m, x, c, q))
      && (c'.frame ==> Shows(cfg, m, x, c, c'.port) && c'.starts == c.starts + [c'.port])
      && (!c'.frame ==>
            !Shows(cfg, m, x, c, c'.port) && Rank(cfg, first, c'.port) == cfg.ports - 1 && c'.starts == c.starts)
    decreases n
  {
    hide Shows;
    if !Shows(cfg, m, x, c, cur) && 1 < n {
      forall q | 0 <= q < cfg.ports ensures 0 <= Rank(cfg, first, q) < cfg.ports
        ensures Rank(cfg, first, q) == Rank(cfg, first, cur) ==> q == cur
      {
        NextRank(cfg, first, cur, q);
      }
      NextRank(cfg, first, cur, cur);
      hide Rank;
      SearchFinds(cfg, m, x, c, first, NextPort(cfg, cur), n - 1);
    }
  }

  lemma SelectFinds(cfg: Config, m: Mux, x: In, c: Cyc)
    requires Typed(cfg, m) && Fits(cfg, x) && CycTyped(cfg, c) && !c.frame
    ensures var c' := Select(cfg, m, x, c); var first := FirstTried(cfg, c.port);
      && c'.lane == c.offsets[c'.port]
      && (forall q :: 0 <= q < cfg.ports && Rank(cfg, first, q) < Rank(cfg, first, c'.port) ==> !Shows(cfg, m, x, c, q))
      && (c'.frame ==> Shows(cfg, m, x, c, c'.port) && c'.starts == c.starts + [c'.port])
      && (!c'.frame ==> c'.port == LastTried(cfg, c.port) && c'.starts == c.starts)
      && (!c'.frame ==> forall q :: 0 <= q < cfg.ports ==> !Shows(cfg, m, x, c, q))
      && c' == c.(frame := c'.frame, port := c'.port, lane := c'.lane, starts := c'.starts)
  {
    var first := FirstTried(cfg, c.port);
    SearchFinds(cfg, m, x, c, first, first, cfg.ports);
    SelectKeepsSlots(cfg, m, x, c, first, cfg.ports);
    var c' := Select(cfg, m, x, c);
    assert Rank(cfg, first, LastTried(cfg, c.port)) == cfg.ports - 1;
    forall q | 0 <= q < cfg.ports
      ensures 0 <= Rank(cfg, first, q) < cfg.ports
      ensures Rank(cfg, first, q) == Rank(cfg, first, c'.port) ==> q == c'.port
      ensures Rank(cfg, first, q) == Rank(cfg, first, LastTried(cfg, c.port)) ==> q == LastTried(cfg, c.port)
    {
      NextRank(cfg, first, c'.port, q);
      NextRank(cfg, first, LastTried(cfg, c.port), q);
    }
    hide Shows, Rank, Try;
  }

  // A search moves no lane and no window.
  lemma SelectSame(cfg: Config, m: Mux, x: In, c: Cyc, p: nat)
    requires Typed(cfg, m) && Fits(cfg, x) && CycTyped(cfg, c) && !c.frame && p < cfg.ports
    ensures var c' := Select(cfg, m, x, c);
      Cur(c', p) == Cur(c, p) && Window(m, c', p) == Window(m, c, p) &&
        (Shows(cfg, m, x, c', p) == Shows(cfg, m, x, c, p))
  {
    SelectFinds(cfg, m, x, c);
    hide Select, Rank, FirstTried, Full;
  }

  lemma SelectNoMore(cfg: Config, m: Mux, x: In, c: Cyc)
    requires Typed(cfg, m) && Fits(cfg, x) && CycTyped(cfg, c) && NoMore(cfg, m, x, c)
    ensures NoMore(cfg, m, x, Select(cfg, m, x, c))
  {
    SelectFinds(cfg, m, x, c);
    forall p | 0 <= p < cfg.ports ensures Shows(cfg, m, x, Select(cfg, m, x, c), p) == Shows(cfg, m, x, c, p) {
      SelectSame(cfg, m, x, c, p);
    }
    SelectSame(cfg, m, x, c, c.port);
    hide Select, Rank, FirstTried;
  }

  lemma SelectKept(cfg: Config, m: Mux, x: In, c: Cyc)
    requires Typed(cfg, m) && Fits(cfg, x) && CycTyped(cfg, c) && CycOk(cfg, m, x, c) && !c.abort && !c.frame
    ensures CycOk(cfg, m, x, Select(cfg, m, x, c))
  {
    if NoMore(cfg, m, x, c) {
      SelectNoMore(cfg, m, x, c);
    }
    SelectFinds(cfg, m, x, c);
    var c' := Select(cfg, m, x, c);
    forall p | 0 <= p < cfg.ports
      ensures Cur(c', p) == Cur(c, p) && Window(m, c', p) == Window(m, c, p)
    {
      SelectSame(cfg, m, x, c, p);
    }
    hide Select, Rank, FirstTried, Shows, NoMore;
    SameLanes(cfg, m, x, c, c');
  }

  // The invariant speaks of lanes, windows and slots only.
  lemma SameLanes(cfg: Config, m: Mux, x: In, c: Cyc, c': Cyc)
    requires Typed(cfg, m) && Fits(cfg, x) && CycTyped(cfg, c) && CycTyped(cfg, c') && CycOk(cfg, m, x, c) && !c.abort
    requires c' == c.(frame := c'.frame, port := c'.port, lane := c'.lane, starts := c'.starts)
    requires NoMore(cfg, m, x, c) ==> NoMore(cfg, m, x, c')
    requires forall p :: 0 <= p < cfg.ports ==> Cur(c', p) == Cur(c, p) && Window(m, c', p) == Window(m, c, p)
    ensures CycOk(cfg, m, x, c')
  {
    hide PortOk, Of, Leaves, Span, Full, Shows, NoMore, Cur, Window;
  }

  // ---- Routing: the port's own lanes ----

  // Both halves of a port's lanes are filled from the front, unless there are few.
  predicate HalvesOk(segs: nat, full: seq<Lane>, first: nat) {
    && |full| == 2 * segs && Gapless(segs, full[..segs]) && Gapless(segs, full[segs..])
    && (0 < first ==> SomeValid(full[..segs]))
  }

  lemma HalvesHold(cfg: Config, m: Mux, x: In, p: nat)
    requires Ready(cfg, m, x) && p < cfg.ports
    ensures HalvesOk(cfg.segs, Full(m, x, p), m.holds[p].offset)
  {
    var full := Full(m, x, p);
    assert full[..cfg.segs] == m.holds[p].lanes && full[cfg.segs..] == x.beats[p];
  }

  lemma LowerValid(segs: nat, full: seq<Lane>, first: nat, i: nat, j: nat)
    requires HalvesOk(segs, full, first) && 3 < segs && i <= j < 2 * segs && full[j].valid && (segs <= i || j < segs)
    ensures full[i].valid
  {
    if i < j {
      if j < segs {
        assert full[..segs][j].valid;
        assert full[..segs][i].valid;
      } else {
        assert full[segs..][j - segs].valid;
        assert full[segs..][i - segs].valid;
      }
    }
  }

  // A shown lane is routed.
  lemma PortRouted(segs: nat, full: seq<Lane>, used: nat, first: nat, offset: nat, cur: nat, window: nat)
    requires PortOk(segs, full, false, used, first, offset, cur, window) && used < segs
    requires HalvesOk(segs, full, first) && full[window].valid
    ensures PortOk(segs, full, false, used + 1, first, offset, cur + 1, window + 1)
    ensures PortOk(segs, full, false, used + 1, first, cur + 1, cur + 1, window + 1)
    ensures PortOk(segs, full, false, segs, first, cur + 1, cur + 1, cur + 1)
  {
    if window < segs {
      assert full[..segs][window].valid;
      if 3 < segs {
        LowerValid(segs, full, first, cur, window);
      }
    } else {
      assert full[segs..][window - segs].valid;
    }
  }

  // An idle slot moves the window past a lane that is not shown.
  lemma PortIdle(segs: nat, full: seq<Lane>, paused: bool, used: nat, first: nat, offset: nat, cur: nat, window: nat)
    requires PortOk(segs, full, paused, used, first, offset, cur, window) && used < segs
    requires HalvesOk(segs, full, first) && (paused || !full[window].valid)
    ensures PortOk(segs, full, paused, used + 1, first, offset, cur, window + 1)
    ensures paused || !full[cur].valid || (segs <= 3 && used + 1 == segs)
      || forall i :: window + 1 <= i < 2 * segs ==> !full[i].valid
  {
    if !paused && 3 < segs <= window {
      forall i | window + 1 <= i < 2 * segs ensures !full[i].valid {
        if full[i].valid {
          LowerValid(segs, full, first, window, i);
        }
      }
    }
  }

  lemma PortWaits(segs: nat, full: seq<Lane>, paused: bool, used: nat, first: nat, offset: nat, cur: nat, window: nat)
    requires PortOk(segs, full, paused, used, first, offset, cur, window) && used < segs
    ensures PortOk(segs, full, paused, used + 1, first, offset, cur, window)
  {
  }

  // ---- Routing: all ports ----

  lemma SpanOne(full: seq<Lane>, from: nat, to: nat)
    requires from <= to < |full|
    ensures Span(full, from, to + 1) == Span(full, from, to) + (if full[to].valid then [full[to]] else [])
  {
    assert full[from..to + 1][..to - from] == full[from..to];
  }

  lemma SpanJoin(full: seq<Lane>, a: nat, b: nat, c: nat)
    requires a <= b <= c <= |full|
    ensures Span(full, a, c) == Span(full, a, b) + Span(full, b, c)
  {
    assert full[a..c] == full[a..b] + full[b..c];
    ValidJoin(full[a..b], full[b..c]);
  }

  lemma NotShown(cfg: Config, m: Mux, x: In, c: Cyc, q: nat)
    requires Ready(cfg, m, x) && CycTyped(cfg, c) && q < cfg.ports && !Shows(cfg, m, x, c, q)
    requires Window(m, c, q) < 2 * cfg.segs
    ensures x.pause[q] || !Full(m, x, q)[Window(m, c, q)].valid
  {
  }

  lemma PortFact(cfg: Config, m: Mux, x: In, c: Cyc, p: nat)
    requires Ready(cfg, m, x) && CycTyped(cfg, c) && PortsOk(cfg, m, x, c) && p < cfg.ports
    ensures PortOk(cfg.segs, Full(m, x, p), x.pause[p], |c.slots|, m.holds[p].offset, c.offsets[p], Cur(c, p),
                   Window(m, c, p))
    ensures Window(m, c, p) < cfg.segs + |c.slots| && |c.slots| <= cfg.segs
  {
  }

  // The idle slot's own port afterwards.
  lemma IdlePort(cfg: Config, m: Mux, x: In, c: Cyc, p: nat)
    requires Ready(cfg, m, x) && CycTyped(cfg, c) && PortsOk(cfg, m, x, c) && !c.abort && !c.frame &&
      |c.slots| < cfg.segs
    requires p < cfg.ports && !Shows(cfg, m, x, c, p)
    ensures var c' := Route(cfg, m, x, c);
      && PortOk(cfg.segs, Full(m, x, p), x.pause[p], |c'.slots|, m.holds[p].offset, c'.offsets[p], Cur(c', p),
                Window(m, c', p))
      && Cur(c', p) == Cur(c, p) == c.offsets[p] && c'.offsets == c.offsets
      && Window(m, c', p) == Window(m, c, p) + (if p == c.port then 1 else 0)
      && (x.pause[p] || !Full(m, x, p)[Cur(c, p)].valid || |c'.slots| == cfg.segs
            || p != c.port || forall i :: Window(m, c, p) + 1 <= i < 2 * cfg.segs ==> !Full(m, x, p)[i].valid)
  {
    HalvesHold(cfg, m, x, p);
    PortFact(cfg, m, x, c, p);
    NotShown(cfg, m, x, c, p);
    hide HalvesOk, Full, PortOk, PortsOk, Shows, ShowsEop;
    if p == c.port {
      PortIdle(cfg.segs, Full(m, x, p), x.pause[p], |c.slots|, m.holds[p].offset, c.offsets[p], Cur(c, p),
               Window(m, c, p));
    } else {
      PortWaits(cfg.segs, Full(m, x, p), x.pause[p], |c.slots|, m.holds[p].offset, c.offsets[p], Cur(c, p),
                Window(m, c, p));
    }
  }

  lemma IdleKept(cfg: Config, m: Mux, x: In, c: Cyc)
    requires Ready(cfg, m, x) && CycTyped(cfg, c) && CycOk(cfg, m, x, c) && !c.abort && !c.frame && |c.slots| < cfg.segs
    requires c.lane == c.offsets[c.port] && c.port == LastTried(cfg, c.port)
    requires forall q :: 0 <= q < cfg.ports ==> !Shows(cfg, m, x, c, q)
    ensures CycOk(cfg, m, x, Route(cfg, m, x, c))
  {
    var c' := Route(cfg, m, x, c);
    assert c'.slots[..c'.done] == c.slots[..c.done];
    forall p | 0 <= p < cfg.ports
      ensures PortOk(cfg.segs, Full(m, x, p), x.pause[p], |c'.slots|, m.holds[p].offset, c'.offsets[p], Cur(c', p),
                     Window(m, c', p))
    {
      IdlePort(cfg, m, x, c, p);
    }
    assert PortsOk(cfg, m, x, c') by { hide PortOk, Route; }
    IdleOpen(cfg, m, x, c);
    hide PortsOk, PortOk, Shows, ShowsEop, OpenOk, NoMore, Of, ValidOf, Leaves;
  }

  lemma IdleOpen(cfg: Config, m: Mux, x: In, c: Cyc)
    requires Ready(cfg, m, x) && CycTyped(cfg, c) && CycOk(cfg, m, x, c) && !c.abort && !c.frame && |c.slots| < cfg.segs
    requires c.lane == c.offsets[c.port] && c.port == LastTried(cfg, c.port)
    requires forall q :: 0 <= q < cfg.ports ==> !Shows(cfg, m, x, c, q)
    requires PortsOk(cfg, m, x, Route(cfg, m, x, c))
    ensures var c' := Route(cfg, m, x, c);
      OpenOk(cfg, m, x, c') || NoMore(cfg, m, x, c') || |c'.slots| == cfg.segs
  {
    var q := c.port;
    IdlePort(cfg, m, x, c, q);
    hide PortsOk, PortOk, Route, Shows, ShowsEop, Of, Leaves, Span, Full, OpenOk, NoMore;
    if |c.slots| + 1 == cfg.segs {
      IdleShape(cfg, m, x, c);
    } else if x.pause[q] || NoMore(cfg, m, x, c) || Full(m, x, q)[c.lane].valid {
      IdleNoMore(cfg, m, x, c);
    } else {
      IdleSlot(cfg, m, x, c);
    }
  }

  lemma IdleShape(cfg: Config, m: Mux, x: In, c: Cyc)
    requires Typed(cfg, m) && Fits(cfg, x) && CycTyped(cfg, c) && !c.frame
    ensures |Route(cfg, m, x, c).slots| == |c.slots| + 1
  {
    hide Shows, ShowsEop;
  }

  // An idle slot over an invalid lane adds nothing.
  lemma IdleSlot(cfg: Config, m: Mux, x: In, c: Cyc)
    requires Ready(cfg, m, x) && CycTyped(cfg, c) && PortsOk(cfg, m, x, c) && OpenOk(cfg, m, x, c) && !c.abort &&
      !c.frame
    requires |c.slots| < cfg.segs && c.lane == c.offsets[c.port] && c.lane < 2 * cfg.segs &&
      !Full(m, x, c.port)[c.lane].valid
    ensures OpenOk(cfg, m, x, Route(cfg, m, x, c))
  {
    var c' := Route(cfg, m, x, c);
    assert c'.slots[c'.done..] == c.slots[c.done..] + [Slot(c.port, c.lane)];
    forall p | 0 <= p < cfg.ports
      ensures Of(Leaves(m, x, c'.slots[c'.done..]), p) == Of(Leaves(m, x, c.slots[c.done..]), p)
      ensures Cur(c', p) == Cur(c, p) && c'.offsets[p] == c.offsets[p]
    {
      SlotLeaves(cfg, m, x, c.slots[c.done..], c.port, c.lane, p);
      hide Of, Leaves, Full, Shows, ShowsEop;
    }
    hide Of, Leaves, Span, Full, Route, Shows, ShowsEop, PortsOk, Cur;
  }

  lemma IdleNoMore(cfg: Config, m: Mux, x: In, c: Cyc)
    requires Ready(cfg, m, x) && CycTyped(cfg, c) && PortsOk(cfg, m, x, c) && !c.abort && !c.frame &&
      |c.slots| < cfg.segs
    requires c.lane == c.offsets[c.port] && c.port == LastTried(cfg, c.port)
    requires |c.slots| + 1 < cfg.segs && forall q :: 0 <= q < cfg.ports ==> !Shows(cfg, m, x, c, q)
    requires x.pause[c.port] || NoMore(cfg, m, x, c) || Full(m, x, c.port)[c.lane].valid
    ensures NoMore(cfg, m, x, Route(cfg, m, x, c))
  {
    var c' := Route(cfg, m, x, c);
    var q := c.port;
    IdlePort(cfg, m, x, c, q);
    forall p | 0 <= p < cfg.ports && p != q ensures !Shows(cfg, m, x, c', p) {
      assert !Shows(cfg, m, x, c, p);
    }
    hide PortOk, ShowsEop, PortsOk;
  }

  // A stall commits nothing more.
  lemma StallKept(cfg: Config, m: Mux, x: In, c: Cyc)
    requires Typed(cfg, m) && Fits(cfg, x) && CycTyped(cfg, c) && CycOk(cfg, m, x, c)
    requires c.abort || (c.frame && !Shows(cfg, m, x, c, c.port))
    ensures CycOk(cfg, m, x, Route(cfg, m, x, c)) && Route(cfg, m, x, c).abort
  {
    var c' := Route(cfg, m, x, c);
    assert c'.slots[..c'.done] == c.slots[..c.done];
    hide Shows, ShowsEop, PortsOk, OpenOk, NoMore, Of, Leaves, Span, PortOk;
  }

  // ---- A routed lane ----

  lemma RoutedPorts(cfg: Config, m: Mux, x: In, c: Cyc, p: nat)
    requires Ready(cfg, m, x) && CycTyped(cfg, c) && PortsOk(cfg, m, x, c) && OffsetsOk(cfg, m, x, c)
    requires !c.abort && c.frame && |c.slots| < cfg.segs && Shows(cfg, m, x, c, c.port) && p < cfg.ports
    ensures var c' := Route(cfg, m, x, c);
      && PortOk(cfg.segs, Full(m, x, p), x.pause[p], |c'.slots|, m.holds[p].offset, c'.offsets[p], Cur(c', p),
                Window(m, c', p))
      && PortOk(cfg.segs, Full(m, x, p), x.pause[p], cfg.segs, m.holds[p].offset, c'.offsets[p], c'.offsets[p],
                c'.offsets[p])
      && Cur(c', p) == (if p == c.port then c.lane + 1 else Cur(c, p))
  {
    HalvesHold(cfg, m, x, p);
    PortFact(cfg, m, x, c, p);
    assert PortOk(cfg.segs, Full(m, x, p), x.pause[p], cfg.segs, m.holds[p].offset, c.offsets[p], c.offsets[p],
                  c.offsets[p]);
    hide HalvesOk, Full, PortOk, PortsOk, OffsetsOk, ShowsEop;
    if p == c.port {
      PortRouted(cfg.segs, Full(m, x, p), |c.slots|, m.holds[p].offset, c.offsets[p], Cur(c, p), Window(m, c, p));
    } else {
      PortWaits(cfg.segs, Full(m, x, p), x.pause[p], |c.slots|, m.holds[p].offset, c.offsets[p], Cur(c, p),
                Window(m, c, p));
    }
  }

  // The slot carries its lane if that lane is valid.
  lemma SlotLeaves(cfg: Config, m: Mux, x: In, slots: seq<Slot>, q: nat, lane: nat, p: nat)
    requires Typed(cfg, m) && Fits(cfg, x) && q < cfg.ports && p < cfg.ports && lane < 2 * cfg.segs
    ensures Of(Leaves(m, x, slots + [Slot(q, lane)]), p)
         == Of(Leaves(m, x, slots), p) + (if p == q && Full(m, x, q)[lane].valid then [Full(m, x, q)[lane]] else [])
  {
    var all := slots + [Slot(q, lane)];
    assert all[..|slots|] == slots && all[|slots|] == Slot(q, lane);
    if Full(m, x, q)[lane].valid {
      OfOne(Leaves(m, x, slots), Sent(q, Full(m, x, q)[lane]), p);
    } else {
      assert Leaves(m, x, slots) + [] == Leaves(m, x, slots);
    }
  }

  lemma OfOne(out: seq<Sent>, s: Sent, p: nat)
    ensures Of(out + [s], p) == Of(out, p) + (if s.port == p then [s.lane] else [])
  {
    assert (out + [s])[..|out|] == out;
  }

  lemma RoutedOpen(cfg: Config, m: Mux, x: In, c: Cyc, p: nat)
    requires Ready(cfg, m, x) && CycTyped(cfg, c) && PortsOk(cfg, m, x, c) && OpenOk(cfg, m, x, c)
    requires !c.abort && c.frame && |c.slots| < cfg.segs && Shows(cfg, m, x, c, c.port) && p < cfg.ports
    ensures Of(Leaves(m, x, c.slots[c.done..] + [Slot(c.port, c.lane)]), p)
         == Span(Full(m, x, p), c.offsets[p], if p == c.port then c.lane + 1 else Cur(c, p))
  {
    hide *;
    LaneInReach(cfg, m, x, c);
    OpenFact(cfg, m, x, c, p);
    SlotLeaves(cfg, m, x, c.slots[c.done..], c.port, c.lane, p);
    if p == c.port {
      SpanOne(Full(m, x, p), c.offsets[p], c.lane);
    } else {
      assert Of(Leaves(m, x, c.slots[c.done..]), p) + [] == Of(Leaves(m, x, c.slots[c.done..]), p);
    }
  }

  lemma OpenFact(cfg: Config, m: Mux, x: In, c: Cyc, p: nat)
    requires Ready(cfg, m, x) && CycTyped(cfg, c) && OpenOk(cfg, m, x, c) && c.frame && p < cfg.ports
    ensures Typed(cfg, m) && Fits(cfg, x) && c.port < cfg.ports && |m.holds| == |x.beats| == |c.offsets| == cfg.ports
    ensures c.done <= |c.slots| && |Full(m, x, p)| == 2 * cfg.segs
    ensures Of(Leaves(m, x, c.slots[c.done..]), p) ==
      Span(Full(m, x, p), c.offsets[p], if p == c.port then c.lane else c.offsets[p])
    ensures Cur(c, p) == if p == c.port then c.lane else c.offsets[p]
  {
    hide Of, Leaves, Span;
  }

  lemma LaneInReach(cfg: Config, m: Mux, x: In, c: Cyc)
    requires Ready(cfg, m, x) && CycTyped(cfg, c) && PortsOk(cfg, m, x, c) && c.frame && |c.slots| < cfg.segs
    ensures c.offsets[c.port] <= c.lane < 2 * cfg.segs
  {
    PortFact(cfg, m, x, c, c.port);
  }

  predicate Commits(cfg: Config, m: Mux, x: In, c: Cyc)
    requires Typed(cfg, m) && Fits(cfg, x) && CycTyped(cfg, c)
  {
    ShowsEop(cfg, m, x, c, c.port) || |c.slots| + 1 == cfg.segs
  }

  lemma RouteShape(cfg: Config, m: Mux, x: In, c: Cyc)
    requires Ready(cfg, m, x) && CycTyped(cfg, c) && !c.abort && c.frame && Shows(cfg, m, x, c, c.port)
    ensures var c' := Route(cfg, m, x, c); var slots := c.slots + [Slot(c.port, c.lane)];
      && c'.slots == slots && !c'.abort && c'.port == c.port && c'.lane == c.lane + 1
      && c'.frame == !ShowsEop(cfg, m, x, c, c.port)
      && (if Commits(cfg, m, x, c) then c'.done == |slots| && c'.offsets == c.offsets[c.port := c.lane + 1]
          else c'.done == c.done && c'.offsets == c.offsets && c'.frame)
  {
    hide Shows, ShowsEop;
  }

  lemma RoutedSlot(cfg: Config, m: Mux, x: In, c: Cyc, p: nat)
    requires Ready(cfg, m, x) && CycTyped(cfg, c) && DoneOk(cfg, m, x, c) && PortsOk(cfg, m, x, c) &&
      OpenOk(cfg, m, x, c)
    requires !c.abort && c.frame && |c.slots| < cfg.segs && Shows(cfg, m, x, c, c.port) && p < cfg.ports
    ensures var c' := Route(cfg, m, x, c);
      && Of(Leaves(m, x, c'.slots[c'.done..]), p) == Span(Full(m, x, p), c'.offsets[p], Cur(c', p))
      && Of(Leaves(m, x, c'.slots[..c'.done]), p) == Span(Full(m, x, p), m.holds[p].offset, c'.offsets[p])
  {
    var open := c.slots[c.done..] + [Slot(c.port, c.lane)];
    hide *;
    RoutedOpen(cfg, m, x, c, p);
    RouteShape(cfg, m, x, c);
    LaneInReach(cfg, m, x, c);
    DoneFact(cfg, m, x, c, p);
    SlotParts(c.slots, c.done, Slot(c.port, c.lane));
    RoutedCur(cfg, m, x, c, p);
    if Commits(cfg, m, x, c) {
      JoinCommitted(m, x, Full(m, x, p), c.slots[..c.done], open, p, m.holds[p].offset, c.offsets[p],
                    if p == c.port then c.lane + 1 else c.offsets[p]);
    }
  }

  lemma SlotParts(slots: seq<Slot>, done: nat, s: Slot)
    requires done <= |slots|
    ensures (slots + [s])[done..] == slots[done..] + [s] && (slots + [s])[..done] == slots[..done]
    ensures (slots + [s])[..|slots| + 1] == slots[..done] + (slots[done..] + [s]) && (slots + [s])[|slots| + 1..] == []
  {
  }

  lemma DoneFact(cfg: Config, m: Mux, x: In, c: Cyc, p: nat)
    requires Ready(cfg, m, x) && CycTyped(cfg, c) && DoneOk(cfg, m, x, c) && p < cfg.ports
    ensures p < |m.holds| && |x.beats| == |m.holds| && p < |c.offsets|
    ensures Of(Leaves(m, x, c.slots[..c.done]), p) == Span(Full(m, x, p), m.holds[p].offset, c.offsets[p])
    ensures m.holds[p].offset <= c.offsets[p] < 2 * cfg.segs && |Full(m, x, p)| == 2 * cfg.segs
  {
    hide Of, Leaves, Span;
  }

  // Next lanes after the slot, committed or not.
  lemma RoutedCur(cfg: Config, m: Mux, x: In, c: Cyc, p: nat)
    requires Ready(cfg, m, x) && CycTyped(cfg, c) && !c.abort && c.frame && Shows(cfg, m, x, c, c.port) && p < cfg.ports
    ensures c.port < cfg.ports && |c.offsets| == cfg.ports && c.done <= |c.slots| && CycTyped(cfg, Route(cfg, m, x, c))
    ensures var c' := Route(cfg, m, x, c);
      && c'.slots == c.slots + [Slot(c.port, c.lane)]
      && (if Commits(cfg, m, x, c) then
            && c'.offsets[p] == Cur(c', p) == (if p == c.port then c.lane + 1 else c.offsets[p])
            && c'.done == |c.slots| + 1
          else
            && c'.offsets[p] == c.offsets[p] && c'.done == c.done
            && Cur(c', p) == (if p == c.port then c.lane + 1 else Cur(c, p)))
    ensures p != c.port ==> Cur(c, p) == c.offsets[p]
  {
    RouteShape(cfg, m, x, c);
    hide Shows, ShowsEop, Route, Commits;
  }

  lemma JoinCommitted(m: Mux, x: In, full: seq<Lane>, done: seq<Slot>, open: seq<Slot>, p: nat, a: nat, b: nat, c: nat)
    requires a <= b <= c <= |full|
    requires Of(Leaves(m, x, done), p) == Span(full, a, b) && Of(Leaves(m, x, open), p) == Span(full, b, c)
    ensures Of(Leaves(m, x, done + open), p) == Span(full, a, c)
    ensures Of(Leaves(m, x, []), p) == Span(full, c, c) == []
  {
    LeavesJoin(m, x, done, open);
    OfJoin(Leaves(m, x, done), Leaves(m, x, open), p);
    SpanJoin(full, a, b, c);
    assert full[c..c] == [];
  }

  lemma RoutedSlots(cfg: Config, m: Mux, x: In, c: Cyc)
    requires Ready(cfg, m, x) && CycTyped(cfg, c) && DoneOk(cfg, m, x, c) && PortsOk(cfg, m, x, c) &&
      OpenOk(cfg, m, x, c)
    requires !c.abort && c.frame && |c.slots| < cfg.segs && Shows(cfg, m, x, c, c.port)
    ensures var c' := Route(cfg, m, x, c);
      && OpenOk(cfg, m, x, c') && !c'.abort
      && forall p :: 0 <= p < cfg.ports ==>
           Of(Leaves(m, x, c'.slots[..c'.done]), p) == Span(Full(m, x, p), m.holds[p].offset, c'.offsets[p])
  {
    var c' := Route(cfg, m, x, c);
    RouteShape(cfg, m, x, c);
    forall p | 0 <= p < cfg.ports
      ensures Of(Leaves(m, x, c'.slots[c'.done..]), p) == Span(Full(m, x, p), c'.offsets[p], Cur(c', p))
      ensures Of(Leaves(m, x, c'.slots[..c'.done]), p) == Span(Full(m, x, p), m.holds[p].offset, c'.offsets[p])
    {
      RoutedSlot(cfg, m, x, c, p);
    }
    hide Of, Leaves, Span, Full, Shows, ShowsEop, PortsOk, OffsetsOk, Route, Cur;
  }

  // With a frame open nothing was given up, so the open slots still carry what they should.
  lemma StillOpen(cfg: Config, m: Mux, x: In, c: Cyc)
    requires Ready(cfg, m, x) && CycTyped(cfg, c) && CycOk(cfg, m, x, c)
    requires !c.abort && c.frame && |c.slots| < cfg.segs
    ensures Typed(cfg, m) && Fits(cfg, x) && DoneOk(cfg, m, x, c) && PortsOk(cfg, m, x, c) && OpenOk(cfg, m, x, c)
    ensures OffsetsOk(cfg, m, x, c)
  {
    hide PortsOk, OffsetsOk, OpenOk, Of, Leaves, Span, Full, Window;
  }

  lemma PortsRouted(cfg: Config, m: Mux, x: In, c: Cyc)
    requires Ready(cfg, m, x) && CycTyped(cfg, c) && PortsOk(cfg, m, x, c) && OffsetsOk(cfg, m, x, c)
    requires !c.abort && c.frame && |c.slots| < cfg.segs && Shows(cfg, m, x, c, c.port)
    ensures PortsOk(cfg, m, x, Route(cfg, m, x, c)) && OffsetsOk(cfg, m, x, Route(cfg, m, x, c))
  {
    var c' := Route(cfg, m, x, c);
    hide PortOk, Shows, ShowsEop, Full, Route, Window, Cur;
    forall p | 0 <= p < cfg.ports
      ensures PortOk(cfg.segs, Full(m, x, p), x.pause[p], |c'.slots|, m.holds[p].offset, c'.offsets[p], Cur(c', p),
                     Window(m, c', p))
      ensures PortOk(cfg.segs, Full(m, x, p), x.pause[p], cfg.segs, m.holds[p].offset, c'.offsets[p], c'.offsets[p],
                     c'.offsets[p])
    {
      RoutedPorts(cfg, m, x, c, p);
    }
  }

  lemma CycFrom(cfg: Config, m: Mux, x: In, c: Cyc)
    requires Typed(cfg, m) && Fits(cfg, x) && CycTyped(cfg, c)
    requires PortsOk(cfg, m, x, c) && OffsetsOk(cfg, m, x, c) && OpenOk(cfg, m, x, c)
    requires forall p :: 0 <= p < cfg.ports ==>
               Of(Leaves(m, x, c.slots[..c.done]), p) == Span(Full(m, x, p), m.holds[p].offset, c.offsets[p])
    ensures CycOk(cfg, m, x, c)
  {
    hide PortsOk, OffsetsOk, OpenOk, Of, Leaves, Span, Full, Window, NoMore;
  }

  lemma RoutedKept(cfg: Config, m: Mux, x: In, c: Cyc)
    requires Ready(cfg, m, x) && CycTyped(cfg, c) && CycOk(cfg, m, x, c)
    requires !c.abort && c.frame && |c.slots| < cfg.segs && Shows(cfg, m, x, c, c.port)
    ensures CycOk(cfg, m, x, Route(cfg, m, x, c))
  {
    hide *;
    StillOpen(cfg, m, x, c);
    PortsRouted(cfg, m, x, c);
    RoutedSlots(cfg, m, x, c);
    CycFrom(cfg, m, x, Route(cfg, m, x, c));
  }

  // ---- The whole cycle ----

  lemma SlotKept(cfg: Config, m: Mux, x: In, c: Cyc)
    requires Ready(cfg, m, x) && CycTyped(cfg, c) && CycOk(cfg, m, x, c) && |c.slots| < cfg.segs
    ensures CycOk(cfg, m, x, Route(cfg, m, x, Select(cfg, m, x, c)))
  {
    SelectKeepsSlots(cfg, m, x, c, FirstTried(cfg, c.port), cfg.ports);
    var s := Select(cfg, m, x, c);
    if c.abort {
      AbortedSelect(cfg, m, x, c);
      StallKept(cfg, m, x, s);
    } else if c.frame {
      if Shows(cfg, m, x, c, c.port) {
        RoutedKept(cfg, m, x, c);
      } else {
        StallKept(cfg, m, x, c);
      }
    } else {
      SelectKept(cfg, m, x, c);
      SelectFinds(cfg, m, x, c);
      hide CycOk, Route, Select, Shows, Rank, LastTried;
      if s.frame {
        SelectSame(cfg, m, x, c, s.port);
        RoutedKept(cfg, m, x, s);
      } else {
        IdleAfterSearch(cfg, m, x, c);
      }
    }
  }

  lemma AbortedSelect(cfg: Config, m: Mux, x: In, c: Cyc)
    requires Ready(cfg, m, x) && CycTyped(cfg, c) && CycOk(cfg, m, x, c) && c.abort
    ensures CycOk(cfg, m, x, Select(cfg, m, x, c)) && Select(cfg, m, x, c).abort
  {
    SelectKeepsSlots(cfg, m, x, c, FirstTried(cfg, c.port), cfg.ports);
    hide Shows, PortOk, Of, Leaves, Span, Full, PortsOk, OpenOk, NoMore, Try;
  }

  lemma IdleAfterSearch(cfg: Config, m: Mux, x: In, c: Cyc)
    requires Ready(cfg, m, x) && CycTyped(cfg, c) && !c.frame && !c.abort && |c.slots| < cfg.segs
    requires !Select(cfg, m, x, c).frame && CycOk(cfg, m, x, Select(cfg, m, x, c))
    ensures CycOk(cfg, m, x, Route(cfg, m, x, Select(cfg, m, x, c)))
  {
    SelectFinds(cfg, m, x, c);
    var s := Select(cfg, m, x, c);
    forall p | 0 <= p < cfg.ports ensures !Shows(cfg, m, x, s, p) {
      SelectSame(cfg, m, x, c, p);
    }
    hide CycOk, Route, Select, Shows, Rank;
    IdleKept(cfg, m, x, s);
  }

  lemma {:induction false} FilledKept(cfg: Config, m: Mux, x: In, n: nat)
    requires Ready(cfg, m, x) && n <= cfg.segs
    ensures CycOk(cfg, m, x, Filled(cfg, m, x, n))
  {
    if n == 0 {
      BeginOk(cfg, m, x);
    } else {
      FilledKept(cfg, m, x, n - 1);
      SlotKept(cfg, m, x, Filled(cfg, m, x, n - 1));
    }
    hide CycOk, Route, Select;
  }

  lemma {:induction false} NothingUnlessReady(cfg: Config, m: Mux, x: In, n: nat)
    requires Typed(cfg, m) && Fits(cfg, x) && !x.ready
    ensures var c := Filled(cfg, m, x, n);
      c.done == 0 && c.begun == 0 && c.offsets == Begin(cfg, m).offsets && c.frameNext == m.frame &&
        c.portNext == m.port
  {
    if n > 0 {
      NothingUnlessReady(cfg, m, x, n - 1);
      var c := Filled(cfg, m, x, n - 1);
      SelectKeepsSlots(cfg, m, x, c, FirstTried(cfg, c.port), cfg.ports);
      NothingRouted(cfg, m, x, Select(cfg, m, x, c));
      hide Route, Try, Begin;
    }
  }

  lemma NothingRouted(cfg: Config, m: Mux, x: In, c: Cyc)
    requires Typed(cfg, m) && Fits(cfg, x) && CycTyped(cfg, c) && !x.ready
    ensures var c' := Route(cfg, m, x, c);
      c'.done == c.done && c'.begun == c.begun && c'.offsets == c.offsets && c'.frameNext == c.frameNext &&
        c'.portNext == c.portNext
  {
    hide Shows, ShowsEop;
  }

  // One port's hold register: what it had left, plus the beat if it takes it, is what it sent plus what it has left
  // now.
  lemma HoldKept(segs: nat, h: Hold, offset: nat, beat: seq<Lane>)
    requires |h.lanes| == |beat| == segs && h.offset < segs && HoldOk(h)
    requires h.offset <= offset < 2 * segs
    requires segs < offset ==> SomeValid(beat)
    requires h.offset < offset ==> SomeValid(h.lanes)
    ensures var h' := NextHold(segs, h, offset, beat);
      && HoldOk(h')
      && Span(h.lanes + beat, h.offset, offset) + Rest(h') == Rest(h) +
         (if Takes(segs, h, offset) then ValidOf(beat) else [])
  {
    if segs <= offset {
      HoldSpent(segs, h, offset, beat);
    } else if Takes(segs, h, offset) {
      HoldDry(segs, h, offset, beat);
    } else {
      HoldLeft(segs, h, offset, beat);
    }
    hide *;
  }

  lemma HoldSpent(segs: nat, h: Hold, offset: nat, beat: seq<Lane>)
    requires |h.lanes| == |beat| == segs && h.offset < segs <= offset < 2 * segs
    requires segs < offset ==> SomeValid(beat)
    ensures var h' := NextHold(segs, h, offset, beat);
      && HoldOk(h') && Takes(segs, h, offset)
      && Span(h.lanes + beat, h.offset, offset) + Rest(h') == Rest(h) + ValidOf(beat)
  {
    hide ValidOf;
    assert (h.lanes + beat)[h.offset..offset] == h.lanes[h.offset..] + beat[..offset - segs];
    ValidJoin(h.lanes[h.offset..], beat[..offset - segs]);
    ValidJoin(beat[..offset - segs], beat[offset - segs..]);
    assert beat == beat[..offset - segs] + beat[offset - segs..];
  }

  lemma SpanHold(segs: nat, h: Hold, offset: nat, beat: seq<Lane>)
    requires |h.lanes| == |beat| == segs && h.offset <= offset < segs
    ensures Span(h.lanes + beat, h.offset, offset) + ValidOf(h.lanes[offset..]) == Rest(h)
  {
    hide ValidOf;
    assert (h.lanes + beat)[h.offset..offset] == h.lanes[h.offset..offset];
    ValidJoin(h.lanes[h.offset..offset], h.lanes[offset..]);
    assert h.lanes[h.offset..] == h.lanes[h.offset..offset] + h.lanes[offset..];
  }

  lemma HoldLeft(segs: nat, h: Hold, offset: nat, beat: seq<Lane>)
    requires |h.lanes| == |beat| == segs && HoldOk(h) && h.offset <= offset < segs
    requires !Takes(segs, h, offset)
    ensures var h' := NextHold(segs, h, offset, beat);
      HoldOk(h') && Span(h.lanes + beat, h.offset, offset) + Rest(h') == Rest(h) + []
  {
    SpanHold(segs, h, offset, beat);
    hide ValidOf;
  }

  lemma HoldDry(segs: nat, h: Hold, offset: nat, beat: seq<Lane>)
    requires |h.lanes| == |beat| == segs && HoldOk(h) && h.offset <= offset < segs
    requires h.offset < offset ==> SomeValid(h.lanes)
    requires Takes(segs, h, offset)
    ensures var h' := NextHold(segs, h, offset, beat);
      HoldOk(h') && Span(h.lanes + beat, h.offset, offset) + Rest(h') == Rest(h) + ValidOf(beat)
  {
    SpanHold(segs, h, offset, beat);
    NoneValid(h.lanes[offset..]);
    hide ValidOf;
    var h' := NextHold(segs, h, offset, beat);
    assert 0 < offset ==> SomeValid(h.lanes);
    assert h' == Hold(beat, 0);
    assert beat[0..] == beat;
    assert Rest(h) == Span(h.lanes + beat, h.offset, offset) + [];
  }

  // What one cycle does to port p: nothing lost, nothing repeated, order kept.
  lemma PortKept(cfg: Config, m: Mux, x: In, p: nat)
    requires Typed(cfg, m) && Fits(cfg, x) && p < cfg.ports
    requires forall q :: 0 <= q < cfg.ports ==>
      HoldOk(m.holds[q]) && Gapless(cfg.segs, m.holds[q].lanes) && Gapless(cfg.segs, x.beats[q])
    ensures var m' := Step(cfg, m, x);
      && HoldOk(m'.holds[p]) && Gapless(cfg.segs, m'.holds[p].lanes)
      && Of(Output(cfg, m, x), p) + Rest(m'.holds[p]) == Rest(m.holds[p]) + Accepted(cfg, m, x, p)
  {
    var c := Filled(cfg, m, x, cfg.segs);
    ReachKept(cfg, m, x, cfg.segs);
    StepTyped(cfg, m, x, c);
    var full := Full(m, x, p);
    if x.ready {
      FilledKept(cfg, m, x, cfg.segs);
      assert PortOk(cfg.segs, full, x.pause[p], cfg.segs, m.holds[p].offset, c.offsets[p], c.offsets[p], c.offsets[p]);
      assert Of(Leaves(m, x, c.slots[..c.done]), p) == Span(full, m.holds[p].offset, c.offsets[p]);
    } else {
      NothingUnlessReady(cfg, m, x, cfg.segs);
      assert Leaves(m, x, c.slots[..c.done]) == [];
      assert full[m.holds[p].offset..c.offsets[p]] == [];
    }
    hide Of, Leaves, Span, ValidOf, Filled, Prefixed, Takes, NextHold, Rest;
    HoldKept(cfg.segs, m.holds[p], c.offsets[p], x.beats[p]);
  }

  // in_tlp_ready: the hold register has nothing left after this cycle, so the offered beat is taken.
  predicate TakesBeat(cfg: Config, m: Mux, x: In, p: nat)
    requires Typed(cfg, m) && Fits(cfg, x) && p < cfg.ports
  {
    Takes(cfg.segs, m.holds[p], Filled(cfg, m, x, cfg.segs).offsets[p])
  }

  function Accepted(cfg: Config, m: Mux, x: In, p: nat): seq<Lane>
    requires Typed(cfg, m) && Fits(cfg, x) && p < cfg.ports
  {
    if TakesBeat(cfg, m, x, p) then ValidOf(x.beats[p]) else []
  }
}
