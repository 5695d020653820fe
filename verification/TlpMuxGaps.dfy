// Beats with a gap between valid lanes: with four segments or more the multiplexer repeats a segment.
module TlpMuxGaps {
  import opened TlpMux
  import opened TlpMuxProof
  import opened TlpMuxFrames
  import opened TlpMuxRun
  import opened TlpMuxMixing

  // Whatever the ports offer, every port's segments leave in order, none lost and none repeated.
  ghost predicate AlwaysInOrder(cfg: Config) {
    forall s, xs, p: nat :: AtReset(cfg, s) && AllFit(cfg, xs) && p < cfg.ports ==>
      Of(Emitted(cfg, s, xs), p) + Inside(After(cfg, s, xs), p) == Given(cfg, s, xs, p)
  }

  // The port a search that finds nothing ends on, from the port register's reset value.
  function Last(cfg: Config): (z: nat)
    requires 0 < cfg.ports
    ensures z < cfg.ports && LastTried(cfg, 0) == LastTried(cfg, z) == z
  {
    LastTried(cfg, 0)
  }

  const A: Lane := Lane(true, true, 1)
  const B: Lane := Lane(true, true, 2)

  function Gapped(segs: nat): (b: seq<Lane>)
    requires 4 <= segs
    ensures |b| == segs && forall i :: 0 <= i < segs ==> b[i] == if i == 1 then A else if i == 3 then B else NO
  {
    seq(segs, i => if i == 1 then A else if i == 3 then B else NO)
  }

  function Offered(cfg: Config, beat: seq<Lane>): (i: Input)
    requires 0 < cfg.ports && |beat| == cfg.segs
    ensures InputFits(cfg, i) && i.outReady && forall p :: 0 <= p < cfg.ports ==> !i.pause[p]
    ensures forall p :: 0 <= p < cfg.ports ==> i.beats[p] == if p == Last(cfg) then beat else Singles(cfg.segs, 0)
  {
    assert |Singles(cfg.segs, 0)| == cfg.segs;
    Input(seq(cfg.ports, p requires 0 <= p < cfg.ports => if p == Last(cfg) then beat else Singles(cfg.segs, 0)),
          seq(cfg.ports, _ => false), true)
  }

  // The hold registers with the gapped beat in port z's, and nothing offered.
  predicate Loaded(cfg: Config, m: Mux, x: In)
    requires 0 < cfg.ports && 4 <= cfg.segs
  {
    && Typed(cfg, m) && Fits(cfg, x) && x.ready && !m.frame && LastTried(cfg, m.port) == Last(cfg)
    && forall p :: 0 <= p < cfg.ports ==>
         && !x.pause[p] && x.beats[p] == Singles(cfg.segs, 0)
         && m.holds[p] == Hold(if p == Last(cfg) then Gapped(cfg.segs) else Singles(cfg.segs, 0), 0)
  }

  // Where the selection stands: port z's window, its offset and the slots; the other ports have not moved.
  predicate Stands(cfg: Config, m: Mux, c: Cyc, window: nat, offset: nat, done: nat)
    requires 0 < cfg.ports && Typed(cfg, m) && CycTyped(cfg, c)
  {
    && !c.frame && !c.abort && LastTried(cfg, c.port) == Last(cfg)
    && Window(m, c, Last(cfg)) == window && c.offsets[Last(cfg)] == offset && c.done == done
    && forall p :: 0 <= p < cfg.ports ==> Window(m, c, p) <= |c.slots|
  }

  lemma ShownLane(cfg: Config, m: Mux, x: In, c: Cyc, window: nat, offset: nat, done: nat, p: nat)
    requires 0 < cfg.ports && 4 <= cfg.segs && Loaded(cfg, m, x) && CycTyped(cfg, c) && p < cfg.ports
    requires Stands(cfg, m, c, window, offset, done) && |c.slots| < cfg.segs
    ensures Shows(cfg, m, x, c, p) <==> p == Last(cfg) && (window == 1 || window == 3)
    ensures p == Last(cfg) && Shows(cfg, m, x, c, p) ==> ShowsEop(cfg, m, x, c, p)
  {
    var w := Window(m, c, p);
    assert w < cfg.segs && Full(m, x, p)[w] == m.holds[p].lanes[w];
  }

  // One slot: idle over a gap, or the lane behind the one that is seen.
  lemma GapSlot(cfg: Config, m: Mux, x: In, c: Cyc, window: nat, offset: nat, done: nat)
    requires 0 < cfg.ports && 4 <= cfg.segs && Loaded(cfg, m, x) && CycTyped(cfg, c)
    requires Stands(cfg, m, c, window, offset, done) && |c.slots| < cfg.segs
    ensures var c', shown := Route(cfg, m, x, Select(cfg, m, x, c)), window == 1 || window == 3;
      && Stands(cfg, m, c', window + 1, if shown then offset + 1 else offset, if shown then |c.slots| + 1 else done)
      && c'.slots == c.slots + [Slot(Last(cfg), offset)]
  {
    var z := Last(cfg);
    forall p | 0 <= p < cfg.ports
      ensures Shows(cfg, m, x, c, p) <==> p == z && (window == 1 || window == 3)
      ensures p == z && Shows(cfg, m, x, c, p) ==> ShowsEop(cfg, m, x, c, p)
    {
      ShownLane(cfg, m, x, c, window, offset, done, p);
    }
    hide Shows, ShowsEop, Route, Select, Full, FirstTried;
    var c' := Route(cfg, m, x, Select(cfg, m, x, c));
    if window == 1 || window == 3 {
      SingleSlot(cfg, m, x, c, z);
    } else {
      TlpMuxMixing.IdleSlot(cfg, m, x, c);
    }
    assert LastTried(cfg, c'.port) == z by {
      assert c'.port == z;
    }
    forall p | 0 <= p < cfg.ports ensures Window(m, c', p) == Window(m, c, p) + (if p == z then 1 else 0) {
    }
  }

  lemma GapStart(cfg: Config, m: Mux, x: In)
    requires 0 < cfg.ports && 4 <= cfg.segs && Loaded(cfg, m, x)
    ensures Stands(cfg, m, Begin(cfg, m), 0, 0, 0) && Begin(cfg, m).slots == []
  {
  }

  // The first four slots: the gap, the gap again with A seen, A while idle, A again with B seen.
  function FourSlots(cfg: Config): seq<Slot>
    requires 0 < cfg.ports
  {
    [Slot(Last(cfg), 0), Slot(Last(cfg), 0), Slot(Last(cfg), 1), Slot(Last(cfg), 1)]
  }

  lemma GapFour(cfg: Config, m: Mux, x: In)
    requires 0 < cfg.ports && 4 <= cfg.segs && Loaded(cfg, m, x)
    ensures Stands(cfg, m, Filled(cfg, m, x, 4), 4, 2, 4) && Filled(cfg, m, x, 4).slots == FourSlots(cfg)
  {
    hide Filled, Stands, Route, Select, Loaded, Last, Begin;
    LoadedTyped(cfg, m, x);
    GapStart(cfg, m, x);
    FilledNext(cfg, m, x, 0);
    GapSlot(cfg, m, x, Filled(cfg, m, x, 0), 0, 0, 0);
    FilledNext(cfg, m, x, 1);
    GapSlot(cfg, m, x, Filled(cfg, m, x, 1), 1, 0, 0);
    FilledNext(cfg, m, x, 2);
    GapSlot(cfg, m, x, Filled(cfg, m, x, 2), 2, 1, 2);
    FilledNext(cfg, m, x, 3);
    GapSlot(cfg, m, x, Filled(cfg, m, x, 3), 3, 1, 2);
  }

  lemma LoadedTyped(cfg: Config, m: Mux, x: In)
    requires 0 < cfg.ports && 4 <= cfg.segs && Loaded(cfg, m, x)
    ensures Typed(cfg, m) && Fits(cfg, x) && Last(cfg) < cfg.ports
    ensures Full(m, x, Last(cfg)) == Gapped(cfg.segs) + Singles(cfg.segs, 0) && m.holds[Last(cfg)].offset == 0
  {
  }

  lemma {:induction false} GapRest(cfg: Config, m: Mux, x: In, n: nat)
    requires 0 < cfg.ports && 4 <= n <= cfg.segs && Loaded(cfg, m, x)
    ensures var c := Filled(cfg, m, x, n);
      Stands(cfg, m, c, n, 2, 4) && 4 <= |c.slots| && c.slots[..4] == FourSlots(cfg)
  {
    if n == 4 {
      GapFour(cfg, m, x);
    } else {
      GapRest(cfg, m, x, n - 1);
      FilledNext(cfg, m, x, n - 1);
      hide Filled, Stands, Route, Select, Loaded, Last;
      LoadedTyped(cfg, m, x);
      GapSlot(cfg, m, x, Filled(cfg, m, x, n - 1), n - 1, 2, 4);
    }
  }

  // The cycle sends A twice and keeps B.
  lemma GapCycle(cfg: Config, m: Mux, x: In)
    requires 0 < cfg.ports && 4 <= cfg.segs && Loaded(cfg, m, x)
    ensures Output(cfg, m, x) == [Sent(Last(cfg), A), Sent(Last(cfg), A)]
    ensures !TakesBeat(cfg, m, x, Last(cfg))
  {
    GapRest(cfg, m, x, cfg.segs);
    LoadedTyped(cfg, m, x);
    var z, c := Last(cfg), Filled(cfg, m, x, cfg.segs);
    StandsDone(cfg, m, c, cfg.segs, 2, 4);
    var full := Full(m, x, z);
    assert full[0] == NO && full[1] == A && Gapped(cfg.segs)[2..][1].valid;
    hide Filled, Stands, Loaded, Last, Full, Gapped, Singles;
    FourLeave(cfg, m, x);
  }

  lemma StandsDone(cfg: Config, m: Mux, c: Cyc, window: nat, offset: nat, done: nat)
    requires 0 < cfg.ports && Typed(cfg, m) && CycTyped(cfg, c) && Stands(cfg, m, c, window, offset, done)
    ensures c.done == done && c.offsets[Last(cfg)] == offset
  {
  }

  lemma FourLeave(cfg: Config, m: Mux, x: In)
    requires 0 < cfg.ports && 4 <= cfg.segs && Typed(cfg, m) && Fits(cfg, x) && Last(cfg) < cfg.ports
    requires Full(m, x, Last(cfg))[0] == NO && Full(m, x, Last(cfg))[1] == A
    ensures Leaves(m, x, FourSlots(cfg)) == [Sent(Last(cfg), A), Sent(Last(cfg), A)]
  {
    hide Leaves, Full;
    var z := Last(cfg);
    NoLeaves(m, x);
    LeavesSlot(cfg, m, x, [], z, 0);
    LeavesSlot(cfg, m, x, [Slot(z, 0)], z, 0);
    LeavesSlot(cfg, m, x, [Slot(z, 0), Slot(z, 0)], z, 1);
    LeavesSlot(cfg, m, x, [Slot(z, 0), Slot(z, 0), Slot(z, 1)], z, 1);
    assert [] + [Slot(z, 0)] == [Slot(z, 0)] && [Slot(z, 0)] + [Slot(z, 0)] == [Slot(z, 0), Slot(z, 0)];
    assert [Slot(z, 0), Slot(z, 0)] + [Slot(z, 1)] == [Slot(z, 0), Slot(z, 0), Slot(z, 1)];
    assert [Slot(z, 0), Slot(z, 0), Slot(z, 1)] + [Slot(z, 1)] == FourSlots(cfg);
  }

  lemma NoLeaves(m: Mux, x: In)
    ensures Leaves(m, x, []) == []
  {
  }

  // ---- The run ----

  function Reset(cfg: Config): System
    requires 0 < cfg.ports && 0 < cfg.segs
  {
    System(Mux(false, 0, seq(cfg.ports, _ => Hold(Singles(cfg.segs, 0), 0))), Stage([], [], false))
  }

  function Clocks(cfg: Config): (xs: seq<Input>)
    requires 0 < cfg.ports && 4 <= cfg.segs
    ensures AllFit(cfg, xs)
  {
    [Offered(cfg, Gapped(cfg.segs)), Offered(cfg, Singles(cfg.segs, 0)), Offered(cfg, Singles(cfg.segs, 0))]
  }

  // First clock: nothing leaves, the beat is taken.
  lemma FirstClock(cfg: Config)
    requires 0 < cfg.ports && 4 <= cfg.segs
    ensures AtReset(cfg, Reset(cfg))
    ensures var s, i := Reset(cfg), Offered(cfg, Gapped(cfg.segs));
      var s1 := Next(cfg, s, i);
      && s1.stage == Stage([], [], true)
      && Loaded(cfg, s1.mux, Inner(s1, Offered(cfg, Singles(cfg.segs, 0))))
      && Accepted(cfg, s.mux, Inner(s, i), Last(cfg)) == ValidOf(Gapped(cfg.segs))
  {
    var s, i := Reset(cfg), Offered(cfg, Gapped(cfg.segs));
    var x := Inner(s, i);
    NothingUnlessReady(cfg, s.mux, x, cfg.segs);
    NothingWithoutRoom(cfg, s.mux, x);
    hide Filled, Singles, Gapped, Offered;
    forall p | 0 <= p < cfg.ports ensures Step(cfg, s.mux, x).holds[p] == Hold(i.beats[p], 0) {
      FreshHold(cfg.segs, s.mux.holds[p], x.beats[p]);
    }
  }

  lemma GappedValid(segs: nat)
    requires 4 <= segs
    ensures ValidOf(Gapped(segs)) == [A, B]
  {
    hide ValidOf;
    var g := Gapped(segs);
    NoneValid(g[..1]);
    OneValid(g[1]);
    NoneValid(g[2..3]);
    OneValid(g[3]);
    NoneValid(g[4..]);
    ValidJoin(g[..1], [g[1]]);
    ValidJoin(g[..1] + [g[1]], g[2..3]);
    ValidJoin(g[..1] + [g[1]] + g[2..3], [g[3]]);
    ValidJoin(g[..1] + [g[1]] + g[2..3] + [g[3]], g[4..]);
    assert g == g[..1] + [g[1]] + g[2..3] + [g[3]] + g[4..];
  }

  lemma OneValid(l: Lane)
    requires l.valid
    ensures ValidOf([l]) == [l]
  {
    assert [l][..0] == [];
  }

  lemma RunOf(cfg: Config, s: System, xs: seq<Input>, p: nat)
    requires Typed(cfg, s.mux) && AllFit(cfg, xs) && xs != [] && p < cfg.ports
    ensures var s' := Next(cfg, s, xs[0]);
      && Emitted(cfg, s, xs) == Leaving(s.stage, xs[0].outReady) + Emitted(cfg, s', xs[1..])
      && Given(cfg, s, xs, p) == Accepted(cfg, s.mux, Inner(s, xs[0]), p) + Given(cfg, s', xs[1..], p)
    ensures Emitted(cfg, s, []) == [] && Given(cfg, s, [], p) == []
  {
    hide Next, Accepted, Leaving;
  }

  lemma NextIs(cfg: Config, s: System, i: Input)
    requires Typed(cfg, s.mux) && InputFits(cfg, i)
    ensures Next(cfg, s, i).stage == StageStep(s.stage, Output(cfg, s.mux, Inner(s, i)), i.outReady)
  {
    hide Output, Step;
  }

  lemma NothingAccepted(cfg: Config, m: Mux, x: In, p: nat)
    requires Typed(cfg, m) && Fits(cfg, x) && p < cfg.ports && x.beats[p] == Singles(cfg.segs, 0)
    ensures Accepted(cfg, m, x, p) == []
  {
    NoneValid(x.beats[p]);
    hide ValidOf, TakesBeat;
  }

  lemma TwiceOf(p: nat, l: Lane)
    ensures Of([Sent(p, l), Sent(p, l)], p) == [l, l]
  {
    OfOne([], Sent(p, l), p);
    OfOne([Sent(p, l)], Sent(p, l), p);
    assert [] + [Sent(p, l)] == [Sent(p, l)] && [Sent(p, l)] + [Sent(p, l)] == [Sent(p, l), Sent(p, l)];
  }

  lemma InnerFits(cfg: Config, s: System, i: Input)
    requires Typed(cfg, s.mux) && InputFits(cfg, i)
    ensures Fits(cfg, Inner(s, i)) && Inner(s, i).beats == i.beats
  {
  }

  lemma IdleClock(cfg: Config, s: System)
    requires 0 < cfg.ports && 4 <= cfg.segs && Typed(cfg, s.mux)
    ensures var none := Offered(cfg, Singles(cfg.segs, 0));
      InputFits(cfg, none)
      && Emitted(cfg, s, [none]) == Leaving(s.stage, none.outReady) && Given(cfg, s, [none], Last(cfg)) == []
  {
    var none := Offered(cfg, Singles(cfg.segs, 0));
    InnerFits(cfg, s, none);
    NothingAccepted(cfg, s.mux, Inner(s, none), Last(cfg));
    assert AllFit(cfg, [none]);
    hide Next, Singles, Emitted, Given, ValidOf, Inner, Accepted, Leaving;
    RunOf(cfg, s, [none], Last(cfg));
    assert [none][1..] == [];
    RunOf(cfg, Next(cfg, s, none), [none], Last(cfg));
  }

  // Three clocks from reset: the port hands over A and B, and A leaves twice.
  lemma GapRepeats(cfg: Config)
    requires 0 < cfg.ports && 4 <= cfg.segs
    ensures AtReset(cfg, Reset(cfg)) && Given(cfg, Reset(cfg), Clocks(cfg), Last(cfg)) == [A, B]
    ensures Of(Emitted(cfg, Reset(cfg), Clocks(cfg)), Last(cfg)) == [A, A]
  {
    var z, xs, none := Last(cfg), Clocks(cfg), Offered(cfg, Singles(cfg.segs, 0));
    var s0 := Reset(cfg);
    FirstClock(cfg);
    GappedValid(cfg.segs);
    hide Next, Offered, Loaded, Singles, Gapped, Of, Emitted, Given, ValidOf, Inner, Step;
    var s1 := Next(cfg, s0, xs[0]);
    var x1 := Inner(s1, none);
    InnerFits(cfg, s1, none);
    GapCycle(cfg, s1.mux, x1);
    NextIs(cfg, s1, none);
    var s2 := Next(cfg, s1, none);
    IdleClock(cfg, s2);
    assert xs[1..] == [none, none] && [none, none][1..] == [none];
    RunOf(cfg, s0, xs, z);
    RunOf(cfg, s1, [none, none], z);
    assert s2.stage.out == [Sent(z, A), Sent(z, A)];
    TwiceOf(z, A);
    hide Accepted, TakesBeat, Output;
  }

  lemma Differs(rest: seq<Lane>)
    ensures [A, A] + rest != [A, B]
  {
    assert ([A, A] + rest)[1] == A;
  }

  // Every port's order survives whatever the ports offer if and only if there are at most three segments; with
  // more it survives when the valid lanes of every beat come first.
  lemma AnyBeatsExact(cfg: Config)
    requires 0 < cfg.ports && 0 < cfg.segs
    ensures AlwaysInOrder(cfg) <==> cfg.segs <= 3
  {
    if cfg.segs <= 3 {
      forall s, xs, p: nat | AtReset(cfg, s) && AllFit(cfg, xs) && p < cfg.ports
        ensures Of(Emitted(cfg, s, xs), p) + Inside(After(cfg, s, xs), p) == Given(cfg, s, xs, p)
      {
        assert AllGapless(cfg, xs);
        PortOrder(cfg, s, xs, p);
        hide Emitted, After, Given, Of, Inside;
      }
    } else {
      GapRepeats(cfg);
      var s, xs, p := Reset(cfg), Clocks(cfg), Last(cfg);
      hide Emitted, After, Given, Of, Clocks, Reset, Last, Inside;
      ResetEmpty(cfg, s, p);
      Differs(Inside(After(cfg, s, xs), p));
    }
  }
}
