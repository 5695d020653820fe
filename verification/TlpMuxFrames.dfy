// Frames stay whole: once a frame has begun to leave, nothing else leaves before its end.
module TlpMuxFrames {
  import opened TlpMux
  import opened TlpMuxProof

  predicate Whole(out: seq<Sent>) {
    forall i :: 0 <= i < |out| - 1 && !out[i].lane.eop ==> out[i + 1].port == out[i].port
  }

  // The last frame has not ended; it belongs to port p.
  predicate OpenOn(out: seq<Sent>, p: nat) {
    out != [] && !out[|out| - 1].lane.eop && out[|out| - 1].port == p
  }

  predicate Closed(out: seq<Sent>) {
    out == [] || out[|out| - 1].lane.eop
  }

  // Whatever left so far is whole frames, and an unfinished one is the frame being routed.
  predicate Follows(out: seq<Sent>, frame: bool, port: nat) {
    Whole(out) && (Closed(out) || (frame && OpenOn(out, port)))
  }

  lemma FollowsMore(out: seq<Sent>, s: Sent, port: nat)
    requires Follows(out, true, port) && s.port == port
    ensures Follows(out + [s], !s.lane.eop, port)
  {
  }

  lemma FollowsNone(out: seq<Sent>, port: nat, frame: bool, port': nat)
    requires Follows(out, false, port)
    ensures Follows(out, frame, port') && Follows(out + [], frame, port')
  {
    assert out + [] == out;
  }

  // prev: everything that left in earlier cycles.
  predicate CommittedOk(m: Mux, x: In, prev: seq<Sent>, c: Cyc) {
    c.done <= |c.slots| && Follows(prev + Leaves(m, x, c.slots[..c.done]), c.frameNext, c.portNext)
  }

  predicate FramesOk(cfg: Config, m: Mux, x: In, prev: seq<Sent>, c: Cyc)
    requires Typed(cfg, m) && Fits(cfg, x) && CycTyped(cfg, c)
  {
    && CommittedOk(m, x, prev, c)
    && (c.abort || NoMore(cfg, m, x, c) || |c.slots| == cfg.segs
          || Follows(prev + Leaves(m, x, c.slots), c.frame, c.port))
  }

  // The selected lane is the one the valid and eop windows point at.
  predicate Aligned(m: Mux, c: Cyc)
    requires c.port < |m.holds| && c.port < |c.shift|
  {
    c.lane == Window(m, c, c.port)
  }

  // What slot n would route is aligned, or there is nothing to route.
  predicate AlignedAt(cfg: Config, m: Mux, x: In, n: nat)
    requires Typed(cfg, m) && Fits(cfg, x)
  {
    var s := Select(cfg, m, x, Filled(cfg, m, x, n));
    s.frame && !s.abort && Shows(cfg, m, x, s, s.port) ==> Aligned(m, s)
  }

  lemma LeavesSlot(cfg: Config, m: Mux, x: In, slots: seq<Slot>, q: nat, lane: nat)
    requires Typed(cfg, m) && Fits(cfg, x) && q < cfg.ports && lane < 2 * cfg.segs
    ensures Leaves(m, x, slots + [Slot(q, lane)])
         == Leaves(m, x, slots) + (if Full(m, x, q)[lane].valid then [Sent(q, Full(m, x, q)[lane])] else [])
  {
    assert (slots + [Slot(q, lane)])[..|slots|] == slots;
  }

  // A shown, aligned lane continues or begins the frame on its port.
  lemma AlignedRoute(cfg: Config, m: Mux, x: In, prev: seq<Sent>, c: Cyc)
    requires Ready(cfg, m, x) && CycTyped(cfg, c) && CommittedOk(m, x, prev, c) &&
      Follows(prev + Leaves(m, x, c.slots), true, c.port)
    requires !c.abort && c.frame && Shows(cfg, m, x, c, c.port) && Aligned(m, c) && Window(m, c, c.port) < 2 * cfg.segs
    ensures FramesOk(cfg, m, x, prev, Route(cfg, m, x, c))
  {
    RouteShape(cfg, m, x, c);
    LeavesSlot(cfg, m, x, c.slots, c.port, c.lane);
    var s := Sent(c.port, Full(m, x, c.port)[c.lane]);
    var c' := Route(cfg, m, x, c);
    FollowsMore(prev + Leaves(m, x, c.slots), s, c.port);
    assert prev + Leaves(m, x, c'.slots) == (prev + Leaves(m, x, c.slots)) + [s];
    RouteCommit(cfg, m, x, c);
    hide Full, Leaves, Follows, NoMore, Select;
    assert c'.slots[..|c'.slots|] == c'.slots;
    assert c'.done == c.done ==> c'.slots[..c'.done] == c.slots[..c.done];
  }

  lemma RouteCommit(cfg: Config, m: Mux, x: In, c: Cyc)
    requires Ready(cfg, m, x) && CycTyped(cfg, c) && !c.abort && c.frame && Shows(cfg, m, x, c, c.port)
    ensures var c' := Route(cfg, m, x, c);
      if Commits(cfg, m, x, c) then c'.done == |c'.slots| && c'.frameNext == c'.frame && c'.portNext == c.port &&
        c'.begun == |c.starts|
      else c'.done == c.done && c'.frameNext == c.frameNext && c'.portNext == c.portNext && c'.begun == c.begun
  {
    hide Shows, ShowsEop;
  }

  // A frame newly taken up through a slipped window whose lane is invalid: nothing leaves in this slot.
  lemma SlippedRoute(cfg: Config, m: Mux, x: In, prev: seq<Sent>, c: Cyc)
    requires Ready(cfg, m, x) && CycTyped(cfg, c) && CommittedOk(m, x, prev, c)
    requires Follows(prev + Leaves(m, x, c.slots), false, c.port)
    requires !c.abort && c.frame && Shows(cfg, m, x, c, c.port) && c.lane < 2 * cfg.segs &&
      !Full(m, x, c.port)[c.lane].valid
    ensures FramesOk(cfg, m, x, prev, Route(cfg, m, x, c))
  {
    RouteShape(cfg, m, x, c);
    LeavesSlot(cfg, m, x, c.slots, c.port, c.lane);
    var c' := Route(cfg, m, x, c);
    FollowsNone(prev + Leaves(m, x, c.slots), c.port, c'.frame, c'.port);
    assert Leaves(m, x, c.slots) + [] == Leaves(m, x, c.slots);
    RouteCommit(cfg, m, x, c);
    hide Full, Leaves, Follows, NoMore, Select;
    assert c'.slots[..|c'.slots|] == c'.slots;
    assert c'.done == c.done ==> c'.slots[..c'.done] == c.slots[..c.done];
  }

  // An idle slot carries nothing, or nothing is committed any more.
  lemma IdleRoute(cfg: Config, m: Mux, x: In, prev: seq<Sent>, c: Cyc)
    requires Ready(cfg, m, x) && CycTyped(cfg, c) && PortsOk(cfg, m, x, c) && FramesOk(cfg, m, x, prev, c)
    requires !c.abort && !c.frame && |c.slots| < cfg.segs
    requires c.lane == c.offsets[c.port] && c.port == LastTried(cfg, c.port)
    requires forall q :: 0 <= q < cfg.ports ==> !Shows(cfg, m, x, c, q)
    ensures FramesOk(cfg, m, x, prev, Route(cfg, m, x, c))
  {
    var c' := Route(cfg, m, x, c);
    assert c'.slots[..c'.done] == c.slots[..c.done];
    PortFact(cfg, m, x, c, c.port);
    IdleShape(cfg, m, x, c);
    if |c.slots| + 1 == cfg.segs {
    } else if x.pause[c.port] || NoMore(cfg, m, x, c) || Full(m, x, c.port)[c.lane].valid {
      IdleNoMore(cfg, m, x, c);
    } else {
      LeavesSlot(cfg, m, x, c.slots, c.port, c.lane);
      assert Leaves(m, x, c.slots) + [] == Leaves(m, x, c.slots);
      assert Leaves(m, x, c'.slots) == Leaves(m, x, c.slots);
    }
    hide Full, Leaves, Follows, NoMore, Shows, ShowsEop, PortsOk, PortOk;
  }

  lemma StallFrames(cfg: Config, m: Mux, x: In, prev: seq<Sent>, c: Cyc)
    requires Typed(cfg, m) && Fits(cfg, x) && CycTyped(cfg, c) && CommittedOk(m, x, prev, c)
    requires c.abort || (c.frame && !Shows(cfg, m, x, c, c.port))
    ensures FramesOk(cfg, m, x, prev, Route(cfg, m, x, c))
  {
    var c' := Route(cfg, m, x, c);
    assert c'.slots[..c'.done] == c.slots[..c.done];
    hide Shows, ShowsEop, Leaves, Follows, NoMore;
  }

  lemma SelectFrames(cfg: Config, m: Mux, x: In, prev: seq<Sent>, c: Cyc)
    requires Typed(cfg, m) && Fits(cfg, x) && CycTyped(cfg, c) && FramesOk(cfg, m, x, prev, c) && !c.abort &&
      !c.frame &&
      |c.slots| < cfg.segs
    ensures var s := Select(cfg, m, x, c);
      && CommittedOk(m, x, prev, s)
      && (NoMore(cfg, m, x, c) ==> NoMore(cfg, m, x, s))
      && (NoMore(cfg, m, x, s) || Follows(prev + Leaves(m, x, s.slots), false, s.port))
  {
    SelectFinds(cfg, m, x, c);
    if NoMore(cfg, m, x, c) {
      SelectNoMore(cfg, m, x, c);
    } else {
      FollowsNone(prev + Leaves(m, x, c.slots), c.port, false, Select(cfg, m, x, c).port);
    }
    hide Select, Shows, Leaves, Follows, NoMore, Rank;
  }

  // The slot after a search, when it found a port: aligned, or a slipped window over an invalid lane.
  lemma FoundFrames(cfg: Config, m: Mux, x: In, prev: seq<Sent>, s: Cyc)
    requires Ready(cfg, m, x) && CycTyped(cfg, s) && CommittedOk(m, x, prev, s) && PortsOk(cfg, m, x, s)
    requires !s.abort && s.frame && Shows(cfg, m, x, s, s.port) && |s.slots| < cfg.segs
    requires Follows(prev + Leaves(m, x, s.slots), false, s.port)
    requires Aligned(m, s) || (cfg.segs <= 2 && |s.slots| <= 1)
    ensures FramesOk(cfg, m, x, prev, Route(cfg, m, x, s))
  {
    PortFact(cfg, m, x, s, s.port);
    if Aligned(m, s) {
      FollowsNone(prev + Leaves(m, x, s.slots), s.port, true, s.port);
      hide Follows, Leaves, Full, Shows;
      AlignedRoute(cfg, m, x, prev, s);
    } else {
      hide Follows, Leaves, Full, FramesOk;
      SlippedRoute(cfg, m, x, prev, s);
    }
  }

  lemma SlotFrames(cfg: Config, m: Mux, x: In, prev: seq<Sent>, c: Cyc)
    requires Ready(cfg, m, x) && CycTyped(cfg, c) && CycOk(cfg, m, x, c) && FramesOk(cfg, m, x, prev, c) &&
      |c.slots| < cfg.segs
    requires var s := Select(cfg, m, x, c);
      s.frame && !s.abort && Shows(cfg, m, x, s, s.port) ==>
        Aligned(m, s) || (!c.frame && cfg.segs <= 2 && |s.slots| <= 1)
    ensures FramesOk(cfg, m, x, prev, Route(cfg, m, x, Select(cfg, m, x, c)))
  {
    SelectKeepsSlots(cfg, m, x, c, FirstTried(cfg, c.port), cfg.ports);
    var s := Select(cfg, m, x, c);
    if c.abort {
      AbortedFrames(cfg, m, x, prev, c);
      StallFrames(cfg, m, x, prev, s);
    } else if c.frame {
      if Shows(cfg, m, x, c, c.port) {
        PortFact(cfg, m, x, c, c.port);
        FrameGoesOn(cfg, m, x, prev, c);
        hide Follows, Leaves, Full, FramesOk, Shows;
        AlignedRoute(cfg, m, x, prev, c);
      } else {
        StallFrames(cfg, m, x, prev, c);
      }
    } else {
      SelectFrames(cfg, m, x, prev, c);
      SelectKept(cfg, m, x, c);
      SelectFinds(cfg, m, x, c);
      hide Follows, Leaves, Full, Route, Select, Shows, Rank;
      if s.frame {
        SelectSame(cfg, m, x, c, s.port);
        FoundFrames(cfg, m, x, prev, s);
      } else {
        IdleFrames(cfg, m, x, prev, c);
      }
    }
  }

  lemma FrameGoesOn(cfg: Config, m: Mux, x: In, prev: seq<Sent>, c: Cyc)
    requires Typed(cfg, m) && Fits(cfg, x) && CycTyped(cfg, c) && FramesOk(cfg, m, x, prev, c) && !c.abort && c.frame &&
      |c.slots| < cfg.segs
    ensures CommittedOk(m, x, prev, c) && Follows(prev + Leaves(m, x, c.slots), true, c.port)
  {
    hide Follows, Leaves;
  }

  lemma AbortedFrames(cfg: Config, m: Mux, x: In, prev: seq<Sent>, c: Cyc)
    requires Typed(cfg, m) && Fits(cfg, x) && CycTyped(cfg, c) && FramesOk(cfg, m, x, prev, c) && c.abort
    ensures CommittedOk(m, x, prev, Select(cfg, m, x, c)) && Select(cfg, m, x, c).abort
  {
    SelectKeepsSlots(cfg, m, x, c, FirstTried(cfg, c.port), cfg.ports);
    hide Shows, Follows, Leaves, Try, NoMore;
  }

  lemma IdleFrames(cfg: Config, m: Mux, x: In, prev: seq<Sent>, c: Cyc)
    requires Ready(cfg, m, x) && CycTyped(cfg, c) && !c.frame && !c.abort && |c.slots| < cfg.segs
    requires var s := Select(cfg, m, x, c);
      && !s.frame && CycOk(cfg, m, x, s) && CommittedOk(m, x, prev, s)
      && (NoMore(cfg, m, x, s) || Follows(prev + Leaves(m, x, s.slots), false, s.port))
    ensures FramesOk(cfg, m, x, prev, Route(cfg, m, x, Select(cfg, m, x, c)))
  {
    SelectFinds(cfg, m, x, c);
    var s := Select(cfg, m, x, c);
    forall p | 0 <= p < cfg.ports ensures !Shows(cfg, m, x, s, p) {
      SelectSame(cfg, m, x, c, p);
    }
    hide Route, Select, Shows, Rank, Follows, Leaves, CommittedOk, NoMore, PortsOk, DoneOk;
    IdleRoute(cfg, m, x, prev, s);
  }

  // ---- Two segments or fewer: always ----

  // Nothing slipped yet when at most one slot is filled, unless that slot was idle.
  lemma FirstSlots(cfg: Config, m: Mux, x: In, n: nat)
    requires Typed(cfg, m) && Fits(cfg, x) && n <= 1
    ensures var c := Filled(cfg, m, x, n);
      c.frame && !c.abort ==> Aligned(m, c)
  {
    if n == 1 {
      var c := Filled(cfg, m, x, 0);
      SelectKeepsSlots(cfg, m, x, c, FirstTried(cfg, c.port), cfg.ports);
      hide Shows, ShowsEop, Try;
    }
  }

  lemma NoneFrames(cfg: Config, m: Mux, x: In, prev: seq<Sent>)
    requires Ready(cfg, m, x) && Follows(prev, m.frame, m.port)
    ensures FramesOk(cfg, m, x, prev, Filled(cfg, m, x, 0))
  {
    assert prev + [] == prev;
    hide Follows, Of, Span;
  }

  lemma NextFrames(cfg: Config, m: Mux, x: In, prev: seq<Sent>, n: nat)
    requires Ready(cfg, m, x) && n < cfg.segs && FramesOk(cfg, m, x, prev, Filled(cfg, m, x, n))
    requires cfg.segs <= 2 || AlignedAt(cfg, m, x, n)
    ensures FramesOk(cfg, m, x, prev, Filled(cfg, m, x, n + 1))
  {
    var c := Filled(cfg, m, x, n);
    FilledKept(cfg, m, x, n);
    SelectKeepsSlots(cfg, m, x, c, FirstTried(cfg, c.port), cfg.ports);
    if cfg.segs <= 2 {
      FirstSlots(cfg, m, x, n);
    }
    hide FramesOk, CycOk, Route, Shows, Aligned, Follows, Try, Leaves;
    SlotFrames(cfg, m, x, prev, c);
  }

  lemma {:induction false} FilledFrames(cfg: Config, m: Mux, x: In, prev: seq<Sent>, n: nat)
    requires Ready(cfg, m, x) && n <= cfg.segs && Follows(prev, m.frame, m.port)
    requires cfg.segs <= 2 || forall k :: 0 <= k < n ==> AlignedAt(cfg, m, x, k)
    ensures FramesOk(cfg, m, x, prev, Filled(cfg, m, x, n))
  {
    hide *;
    if n == 0 {
      NoneFrames(cfg, m, x, prev);
    } else {
      FilledFrames(cfg, m, x, prev, n - 1);
      NextFrames(cfg, m, x, prev, n - 1);
    }
  }

  // What one cycle sends continues whole frames.
  lemma CycleFrames(cfg: Config, m: Mux, x: In, prev: seq<Sent>)
    requires Typed(cfg, m) && Fits(cfg, x) && (x.ready ==> Ready(cfg, m, x)) && Follows(prev, m.frame, m.port)
    requires cfg.segs <= 2 || forall k :: 0 <= k < cfg.segs ==> AlignedAt(cfg, m, x, k)
    ensures var m' := Step(cfg, m, x);
      Follows(prev + Output(cfg, m, x), m'.frame, m'.port)
  {
    var c := Filled(cfg, m, x, cfg.segs);
    if x.ready {
      FilledFrames(cfg, m, x, prev, cfg.segs);
    } else {
      NothingUnlessReady(cfg, m, x, cfg.segs);
      assert Output(cfg, m, x) == [];
      assert prev + [] == prev;
    }
    hide Follows, Filled, Leaves, NoMore, AlignedAt;
  }

  // ---- Any number of segments: when every beat is full or empty ----

  predicate FullOrEmpty(lanes: seq<Lane>) {
    (forall i :: 0 <= i < |lanes| ==> lanes[i].valid) || !SomeValid(lanes)
  }

  predicate Uniform(cfg: Config, m: Mux, x: In)
    requires Typed(cfg, m) && Fits(cfg, x)
  {
    forall p :: 0 <= p < cfg.ports ==> FullOrEmpty(m.holds[p].lanes) && FullOrEmpty(x.beats[p])
  }

  // A window that ran ahead of its lane has nothing more to show in this cycle.
  predicate Spent(segs: nat, full: seq<Lane>, paused: bool, first: nat, cur: nat, window: nat) {
    |full| == 2 * segs && (!paused && cur < window ==>
      forall i :: window <= i < first + segs && i < 2 * segs ==> !full[i].valid)
  }

  predicate AllSpent(cfg: Config, m: Mux, x: In, c: Cyc)
    requires Typed(cfg, m) && Fits(cfg, x) && CycTyped(cfg, c)
  {
    forall p :: 0 <= p < cfg.ports ==>
      Spent(cfg.segs, Full(m, x, p), x.pause[p], m.holds[p].offset, Cur(c, p), Window(m, c, p))
  }

  lemma IdleSpent(cfg: Config, m: Mux, x: In, c: Cyc)
    requires Ready(cfg, m, x) && Uniform(cfg, m, x) && CycTyped(cfg, c) && PortsOk(cfg, m, x, c) && |c.slots| < cfg.segs
    requires !x.pause[c.port] && !Shows(cfg, m, x, c, c.port)
    ensures forall i :: Window(m, c, c.port) < i < m.holds[c.port].offset + cfg.segs && i < 2 * cfg.segs ==>
      !Full(m, x, c.port)[i].valid
  {
    var q, w := c.port, Window(m, c, c.port);
    PortFact(cfg, m, x, c, q);
    NotShown(cfg, m, x, c, q);
    var h, beat := m.holds[q], x.beats[q];
    assert HoldOk(h) && FullOrEmpty(h.lanes) && FullOrEmpty(beat);
    if w < cfg.segs {
      assert !h.lanes[w].valid;
      assert !SomeValid(h.lanes);
    } else {
      assert !beat[w - cfg.segs].valid;
      assert !SomeValid(beat);
    }
    hide PortOk, Shows, PortsOk, Ready, Uniform;
  }

  lemma RouteSpent(cfg: Config, m: Mux, x: In, c: Cyc)
    requires Ready(cfg, m, x) && Uniform(cfg, m, x) && CycTyped(cfg, c) && PortsOk(cfg, m, x, c) &&
      AllSpent(cfg, m, x, c)
    requires |c.slots| < cfg.segs && !c.abort
    requires if c.frame then Shows(cfg, m, x, c, c.port)
             else c.lane == c.offsets[c.port] && !Shows(cfg, m, x, c, c.port)
    ensures AllSpent(cfg, m, x, Route(cfg, m, x, c))
  {
    var c' := Route(cfg, m, x, c);
    if c.frame {
      RouteShape(cfg, m, x, c);
    } else if !x.pause[c.port] {
      IdleSpent(cfg, m, x, c);
    }
    forall p | 0 <= p < cfg.ports
      ensures Spent(cfg.segs, Full(m, x, p), x.pause[p], m.holds[p].offset, Cur(c', p), Window(m, c', p))
    {
      assert Spent(cfg.segs, Full(m, x, p), x.pause[p], m.holds[p].offset, Cur(c, p), Window(m, c, p));
      PortFact(cfg, m, x, c, p);
      hide Full, PortsOk, Shows, ShowsEop, Uniform, Ready, AllSpent;
    }
  }

  lemma SpentAligned(cfg: Config, m: Mux, x: In, c: Cyc)
    requires Ready(cfg, m, x) && CycTyped(cfg, c) && PortsOk(cfg, m, x, c) && AllSpent(cfg, m, x, c)
    requires |c.slots| < cfg.segs && c.frame && Shows(cfg, m, x, c, c.port)
    ensures Aligned(m, c)
  {
    PortFact(cfg, m, x, c, c.port);
    assert Spent(cfg.segs, Full(m, x, c.port), x.pause[c.port], m.holds[c.port].offset, c.lane, Window(m, c, c.port));
    hide PortsOk, AllSpent;
  }

  lemma {:induction false} UniformAligned(cfg: Config, m: Mux, x: In, n: nat)
    requires Ready(cfg, m, x) && Uniform(cfg, m, x) && n < cfg.segs
    ensures var c := Filled(cfg, m, x, n);
      && (c.abort || AllSpent(cfg, m, x, c))
      && AlignedAt(cfg, m, x, n)
  {
    hide *;
    FilledStep(cfg, m, x, n);
    FilledKept(cfg, m, x, n);
    var c := Filled(cfg, m, x, n);
    if n > 0 {
      UniformAligned(cfg, m, x, n - 1);
      FilledKept(cfg, m, x, n - 1);
      FilledStep(cfg, m, x, n - 1);
      UniformSlot(cfg, m, x, Filled(cfg, m, x, n - 1));
    } else {
      BeginSpent(cfg, m, x);
    }
    SelectedSpent(cfg, m, x, c);
    AlignedNow(cfg, m, x, n);
  }

  lemma FilledStep(cfg: Config, m: Mux, x: In, n: nat)
    requires Ready(cfg, m, x)
    ensures Typed(cfg, m) && Fits(cfg, x)
    ensures Filled(cfg, m, x, n + 1) == Route(cfg, m, x, Select(cfg, m, x, Filled(cfg, m, x, n)))
    ensures |Filled(cfg, m, x, n).slots| == n && CycTyped(cfg, Filled(cfg, m, x, n))
  {
    hide Route, Select;
  }

  lemma BeginSpent(cfg: Config, m: Mux, x: In)
    requires Ready(cfg, m, x)
    ensures Typed(cfg, m) && Fits(cfg, x)
    ensures AllSpent(cfg, m, x, Filled(cfg, m, x, 0)) && CycTyped(cfg, Filled(cfg, m, x, 0))
  {
  }

  lemma AlignedNow(cfg: Config, m: Mux, x: In, n: nat)
    requires Ready(cfg, m, x) && n < cfg.segs
    requires var c := Filled(cfg, m, x, n); var s := Select(cfg, m, x, c);
      && s.abort == c.abort && s.slots == c.slots && (!c.abort ==> AllSpent(cfg, m, x, s) && PortsOk(cfg, m, x, s))
    ensures AlignedAt(cfg, m, x, n)
  {
    var s := Select(cfg, m, x, Filled(cfg, m, x, n));
    hide Select, AllSpent, PortsOk, Shows, Aligned;
    if s.frame && !s.abort && Shows(cfg, m, x, s, s.port) {
      SpentAligned(cfg, m, x, s);
    }
  }

  lemma SelectedSpent(cfg: Config, m: Mux, x: In, c: Cyc)
    requires Ready(cfg, m, x) && CycTyped(cfg, c) && CycOk(cfg, m, x, c)
    requires c.abort || AllSpent(cfg, m, x, c)
    ensures var s := Select(cfg, m, x, c);
      && s.abort == c.abort && s.slots == c.slots
      && (!c.abort ==> AllSpent(cfg, m, x, s) && PortsOk(cfg, m, x, s))
      && (!s.frame ==> s.lane == s.offsets[s.port] && !Shows(cfg, m, x, s, s.port))
  {
    SelectKeepsSlots(cfg, m, x, c, FirstTried(cfg, c.port), cfg.ports);
    if !c.frame {
      SelectFinds(cfg, m, x, c);
      SelectSame(cfg, m, x, c, Select(cfg, m, x, c).port);
      if !c.abort {
        SelectKept(cfg, m, x, c);
        forall p | 0 <= p < cfg.ports
          ensures Cur(Select(cfg, m, x, c), p) == Cur(c, p) && Window(m, Select(cfg, m, x, c), p) == Window(m, c, p)
        {
          SelectSame(cfg, m, x, c, p);
        }
      }
    }
    hide Select, Full, Shows, Spent, DoneOk, OpenOk, NoMore, PortOk, Cur, Window, Rank;
  }

  lemma UniformSlot(cfg: Config, m: Mux, x: In, c: Cyc)
    requires Ready(cfg, m, x) && Uniform(cfg, m, x) && CycTyped(cfg, c) && CycOk(cfg, m, x, c) && |c.slots| < cfg.segs
    requires c.abort || AllSpent(cfg, m, x, c)
    ensures var c' := Route(cfg, m, x, Select(cfg, m, x, c));
      c'.abort || AllSpent(cfg, m, x, c')
  {
    SelectedSpent(cfg, m, x, c);
    var s := Select(cfg, m, x, c);
    hide Select, AllSpent, CycOk, Ready, Uniform, PortsOk, ShowsEop;
    if !s.abort && (s.frame ==> Shows(cfg, m, x, s, s.port)) {
      hide Shows, Route;
      RouteSpent(cfg, m, x, s);
    }
  }
}
