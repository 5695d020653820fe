// The multiplexer with its output stage, over whole runs.
module TlpMuxRun {
  import opened TlpMux
  import opened TlpMuxProof
  import opened TlpMuxFrames

  // Output stage: an output register, a second one for the beat caught while the first is stalled,
  // and the registered ready that tells the selection there is room.
  datatype Stage = Stage(out: seq<Sent>, temp: seq<Sent>, ready: bool)

  function Leaving(s: Stage, outReady: bool): seq<Sent> {
    if outReady then s.out else []
  }

  function StageStep(s: Stage, beat: seq<Sent>, outReady: bool): Stage {
    var ready := outReady || (s.temp == [] && s.out == []);
    if s.ready then
      if outReady || s.out == [] then Stage(beat, s.temp, ready) else Stage(s.out, beat, ready)
    else if outReady then Stage(s.temp, [], ready)
    else s.(ready := ready)
  }

  // Room for the next beat whenever ready is up, and nothing behind an empty output.
  predicate StageOk(s: Stage) {
    (s.ready ==> s.temp == []) && (s.out == [] ==> s.temp == [])
  }

  // The stage neither drops nor reorders a beat offered while it is ready.
  lemma StageKept(s: Stage, beat: seq<Sent>, outReady: bool)
    requires StageOk(s) && (beat != [] ==> s.ready)
    ensures StageOk(StageStep(s, beat, outReady))
    ensures var s' := StageStep(s, beat, outReady);
      Leaving(s, outReady) + s'.out + s'.temp == s.out + s.temp + beat
  {
  }

  // What the ports offer, which are paused, and whether the receiver takes a beat.
  datatype Input = Input(beats: seq<seq<Lane>>, pause: seq<bool>, outReady: bool)

  datatype System = System(mux: Mux, stage: Stage)

  predicate InputFits(cfg: Config, i: Input) {
    && |i.beats| == |i.pause| == cfg.ports
    && forall p :: 0 <= p < cfg.ports ==> |i.beats[p]| == cfg.segs
  }

  // No port leaves a gap between its valid lanes, or there are too few for it to matter.
  predicate GaplessIn(cfg: Config, i: Input) {
    forall p :: 0 <= p < |i.beats| ==> Gapless(cfg.segs, i.beats[p])
  }

  predicate AllGapless(cfg: Config, xs: seq<Input>) {
    forall k :: 0 <= k < |xs| ==> GaplessIn(cfg, xs[k])
  }

  function Inner(s: System, i: Input): In {
    In(i.beats, i.pause, s.stage.ready)
  }

  function Next(cfg: Config, s: System, i: Input): (s': System)
    requires Typed(cfg, s.mux) && InputFits(cfg, i)
    ensures Typed(cfg, s'.mux)
  {
    var x := Inner(s, i);
    System(Step(cfg, s.mux, x), StageStep(s.stage, Output(cfg, s.mux, x), i.outReady))
  }

  // After reset the hold registers are empty, whatever their other bits are.
  predicate AtReset(cfg: Config, s: System) {
    && Typed(cfg, s.mux) && !s.mux.frame && s.mux.port == 0 && s.stage == Stage([], [], false)
    && forall p :: 0 <= p < cfg.ports ==> s.mux.holds[p].offset == 0 && !SomeValid(s.mux.holds[p].lanes)
  }

  predicate AllFit(cfg: Config, xs: seq<Input>) {
    forall k :: 0 <= k < |xs| ==> InputFits(cfg, xs[k])
  }

  function After(cfg: Config, s: System, xs: seq<Input>): (s': System)
    requires Typed(cfg, s.mux) && AllFit(cfg, xs)
    ensures Typed(cfg, s'.mux)
    decreases |xs|
  {
    if xs == [] then s else After(cfg, Next(cfg, s, xs[0]), xs[1..])
  }

  // Everything that left, and everything port p handed over.
  function Emitted(cfg: Config, s: System, xs: seq<Input>): seq<Sent>
    requires Typed(cfg, s.mux) && AllFit(cfg, xs)
    decreases |xs|
  {
    if xs == [] then []
    else Leaving(s.stage, xs[0].outReady) + Emitted(cfg, Next(cfg, s, xs[0]), xs[1..])
  }

  function Given(cfg: Config, s: System, xs: seq<Input>, p: nat): seq<Lane>
    requires Typed(cfg, s.mux) && AllFit(cfg, xs) && p < cfg.ports
    decreases |xs|
  {
    if xs == [] then []
    else Accepted(cfg, s.mux, Inner(s, xs[0]), p) + Given(cfg, Next(cfg, s, xs[0]), xs[1..], p)
  }

  predicate HoldsOk(cfg: Config, s: System)
    requires Typed(cfg, s.mux)
  {
    && StageOk(s.stage)
    && forall p :: 0 <= p < cfg.ports ==> HoldOk(s.mux.holds[p]) && Gapless(cfg.segs, s.mux.holds[p].lanes)
  }

  // What is inside for port p: the output stage, then its hold register.
  function Inside(s: System, p: nat): seq<Lane>
    requires p < |s.mux.holds| && s.mux.holds[p].offset <= |s.mux.holds[p].lanes|
  {
    Of(s.stage.out + s.stage.temp, p) + Rest(s.mux.holds[p])
  }

  lemma NothingWithoutRoom(cfg: Config, m: Mux, x: In)
    requires Typed(cfg, m) && Fits(cfg, x) && !x.ready
    ensures Output(cfg, m, x) == []
  {
    NothingUnlessReady(cfg, m, x, cfg.segs);
  }

  lemma NextStage(cfg: Config, s: System, i: Input)
    requires Typed(cfg, s.mux) && InputFits(cfg, i) && StageOk(s.stage)
    ensures var s' := Next(cfg, s, i);
      && StageOk(s'.stage) && s'.mux == Step(cfg, s.mux, Inner(s, i))
      && Leaving(s.stage, i.outReady) + (s'.stage.out + s'.stage.temp)
         == (s.stage.out + s.stage.temp) + Output(cfg, s.mux, Inner(s, i))
  {
    var x := Inner(s, i);
    if !s.stage.ready {
      NothingWithoutRoom(cfg, s.mux, x);
    }
    hide Output, Step;
    StageKept(s.stage, Output(cfg, s.mux, x), i.outReady);
    hide StageStep, Leaving, StageOk;
  }

  lemma NextKept(cfg: Config, s: System, i: Input, p: nat)
    requires Typed(cfg, s.mux) && InputFits(cfg, i) && GaplessIn(cfg, i) && HoldsOk(cfg, s) && p < cfg.ports
    ensures HoldsOk(cfg, Next(cfg, s, i))
    ensures Of(Leaving(s.stage, i.outReady), p) + Inside(Next(cfg, s, i), p) == Inside(s, p) +
      Accepted(cfg, s.mux, Inner(s, i), p)
  {
    var x, s' := Inner(s, i), Next(cfg, s, i);
    NextStage(cfg, s, i);
    forall q | 0 <= q < cfg.ports ensures HoldOk(s'.mux.holds[q]) && Gapless(cfg.segs, s'.mux.holds[q].lanes) {
      PortKept(cfg, s.mux, x, q);
    }
    PortKept(cfg, s.mux, x, p);
    hide Next, Step, Output, Of, Rest, Accepted, HoldOk, StageOk, Leaving, Gapless, Inner;
    var gone, beat := Leaving(s.stage, i.outReady), Output(cfg, s.mux, x);
    OfJoin(gone, s'.stage.out + s'.stage.temp, p);
    OfJoin(s.stage.out + s.stage.temp, beat, p);
    Through(Of(gone, p), Of(s'.stage.out + s'.stage.temp, p), Of(s.stage.out + s.stage.temp, p), Of(beat, p),
            Rest(s'.mux.holds[p]), Rest(s.mux.holds[p]), Accepted(cfg, s.mux, x, p));
  }

  // a + u == v + w and w + r' == r + n: what passes between two queues in a row.
  lemma Through<T>(a: seq<T>, u: seq<T>, v: seq<T>, w: seq<T>, r': seq<T>, r: seq<T>, n: seq<T>)
    requires a + u == v + w && w + r' == r + n
    ensures a + (u + r') == (v + r) + n
  {
    assert a + (u + r') == (a + u) + r';
    assert (v + w) + r' == v + (w + r');
    assert v + (r + n) == (v + r) + n;
  }

  lemma Chain<T>(a: seq<T>, b: seq<T>, i: seq<T>, i1: seq<T>, i2: seq<T>, n: seq<T>, more: seq<T>)
    requires a + i1 == i + n && b + i2 == i1 + more
    ensures (a + b) + i2 == i + (n + more)
  {
    assert (a + b) + i2 == a + (b + i2);
    assert a + (i1 + more) == (a + i1) + more;
    assert (i + n) + more == i + (n + more);
  }

  lemma {:induction false} RunKept(cfg: Config, s: System, xs: seq<Input>, p: nat)
    requires Typed(cfg, s.mux) && AllFit(cfg, xs) && AllGapless(cfg, xs) && HoldsOk(cfg, s) && p < cfg.ports
    ensures HoldsOk(cfg, After(cfg, s, xs))
    ensures Of(Emitted(cfg, s, xs), p) + Inside(After(cfg, s, xs), p) == Inside(s, p) + Given(cfg, s, xs, p)
    decreases |xs|
  {
    if xs != [] {
      NextKept(cfg, s, xs[0], p);
      RunKept(cfg, Next(cfg, s, xs[0]), xs[1..], p);
      hide Next, Leaving, Of, Inside, Accepted, HoldsOk, InputFits, GaplessIn;
      var gone, later, s' := Leaving(s.stage, xs[0].outReady), Emitted(cfg, Next(cfg, s, xs[0]), xs[1..]),
          Next(cfg, s, xs[0]);
      OfJoin(gone, later, p);
      Chain(Of(gone, p), Of(later, p), Inside(s, p), Inside(s', p), Inside(After(cfg, s', xs[1..]), p),
            Accepted(cfg, s.mux, Inner(s, xs[0]), p), Given(cfg, s', xs[1..], p));
    }
  }

  // For any number of segments and ports: what left from a port, then what is still inside, is exactly
  // what the port handed over. Nothing is lost, repeated or reordered. With more than three segments the
  // valid lanes of a beat must come first.
  lemma PortOrder(cfg: Config, s: System, xs: seq<Input>, p: nat)
    requires AtReset(cfg, s) && AllFit(cfg, xs) && AllGapless(cfg, xs) && p < cfg.ports
    ensures Of(Emitted(cfg, s, xs), p) + Inside(After(cfg, s, xs), p) == Given(cfg, s, xs, p)
    ensures Of(Emitted(cfg, s, xs), p) <= Given(cfg, s, xs, p)
  {
    ResetEmpty(cfg, s, p);
    RunKept(cfg, s, xs, p);
    hide *;
    assert Inside(s, p) + Given(cfg, s, xs, p) == Given(cfg, s, xs, p);
  }

  lemma ResetEmpty(cfg: Config, s: System, p: nat)
    requires AtReset(cfg, s) && p < cfg.ports
    ensures HoldsOk(cfg, s) && Inside(s, p) == []
  {
    NoneValid(s.mux.holds[p].lanes);
    assert s.mux.holds[p].lanes[0..] == s.mux.holds[p].lanes;
    forall q | 0 <= q < cfg.ports ensures HoldOk(s.mux.holds[q]) {
      assert !SomeValid(s.mux.holds[q].lanes);
    }
    hide ValidOf;
  }

  // ---- Whole frames ----

  // Two segments or fewer, or every beat full or empty.
  predicate KeepsFrames(cfg: Config, xs: seq<Input>) {
    cfg.segs <= 2 || forall k, p :: 0 <= k < |xs| && 0 <= p < |xs[k].beats| ==> FullOrEmpty(xs[k].beats[p])
  }

  predicate HoldsUniform(cfg: Config, s: System)
    requires Typed(cfg, s.mux)
  {
    cfg.segs <= 2 || forall p :: 0 <= p < cfg.ports ==> FullOrEmpty(s.mux.holds[p].lanes)
  }

  lemma NextFrames(cfg: Config, s: System, i: Input, prev: seq<Sent>)
    requires Typed(cfg, s.mux) && InputFits(cfg, i) && HoldsOk(cfg, s) && HoldsUniform(cfg, s) && KeepsFrames(cfg, [i])
    requires Follows(prev + (s.stage.out + s.stage.temp), s.mux.frame, s.mux.port)
    ensures var s' := Next(cfg, s, i);
      Follows((prev + Leaving(s.stage, i.outReady)) + (s'.stage.out + s'.stage.temp), s'.mux.frame, s'.mux.port)
  {
    var x, all, s' := Inner(s, i), prev + (s.stage.out + s.stage.temp), Next(cfg, s, i);
    MuxFrames(cfg, s, i, all);
    NextStage(cfg, s, i);
    var beat, gone := Output(cfg, s.mux, x), Leaving(s.stage, i.outReady);
    hide *;
    assert (prev + gone) + (s'.stage.out + s'.stage.temp) == prev + (gone + (s'.stage.out + s'.stage.temp));
    assert all + beat == prev + ((s.stage.out + s.stage.temp) + beat);
  }

  lemma MuxFrames(cfg: Config, s: System, i: Input, all: seq<Sent>)
    requires Typed(cfg, s.mux) && InputFits(cfg, i) && HoldsOk(cfg, s) && HoldsUniform(cfg, s) && KeepsFrames(cfg, [i])
    requires Follows(all, s.mux.frame, s.mux.port)
    ensures var m' := Step(cfg, s.mux, Inner(s, i));
      Follows(all + Output(cfg, s.mux, Inner(s, i)), m'.frame, m'.port)
  {
    var x := Inner(s, i);
    if 2 < cfg.segs && x.ready {
      BeatsUniform(cfg, s, i);
      forall k | 0 <= k < cfg.segs ensures AlignedAt(cfg, s.mux, x, k) {
        UniformAligned(cfg, s.mux, x, k);
      }
    }
    hide Follows, AlignedAt, Step, Output, StageOk;
    if x.ready || cfg.segs <= 2 {
      CycleFrames(cfg, s.mux, x, all);
    } else {
      StalledFrames(cfg, s.mux, x, all);
    }
  }

  lemma StalledFrames(cfg: Config, m: Mux, x: In, all: seq<Sent>)
    requires Typed(cfg, m) && Fits(cfg, x) && !x.ready && Follows(all, m.frame, m.port)
    ensures Follows(all + Output(cfg, m, x), Step(cfg, m, x).frame, Step(cfg, m, x).port)
  {
    NothingUnlessReady(cfg, m, x, cfg.segs);
    NothingWithoutRoom(cfg, m, x);
    assert all + [] == all;
    hide Follows, Output, Filled;
  }

  lemma BeatsUniform(cfg: Config, s: System, i: Input)
    requires Typed(cfg, s.mux) && InputFits(cfg, i) && HoldsUniform(cfg, s) && KeepsFrames(cfg, [i]) && 2 < cfg.segs
    ensures Uniform(cfg, s.mux, Inner(s, i))
  {
    forall p | 0 <= p < cfg.ports ensures FullOrEmpty(i.beats[p]) {
      assert FullOrEmpty([i][0].beats[p]);
    }
    hide FullOrEmpty;
  }

  lemma NextUniform(cfg: Config, s: System, i: Input)
    requires Typed(cfg, s.mux) && InputFits(cfg, i) && HoldsUniform(cfg, s) && KeepsFrames(cfg, [i])
    ensures HoldsUniform(cfg, Next(cfg, s, i))
  {
    if 2 < cfg.segs {
      BeatsUniform(cfg, s, i);
      var x := Inner(s, i);
      var m' := Step(cfg, s.mux, x);
      forall p | 0 <= p < cfg.ports ensures FullOrEmpty(m'.holds[p].lanes) {
        assert m'.holds[p].lanes == s.mux.holds[p].lanes || m'.holds[p].lanes == x.beats[p];
        hide FullOrEmpty, Filled, SomeValid;
      }
      hide FullOrEmpty, Step;
    }
  }

  lemma {:induction false} RunFrames(cfg: Config, s: System, xs: seq<Input>, prev: seq<Sent>)
    requires Typed(cfg, s.mux) && AllFit(cfg, xs) && HoldsOk(cfg, s) && HoldsUniform(cfg, s) && KeepsFrames(cfg, xs)
    requires Follows(prev + (s.stage.out + s.stage.temp), s.mux.frame, s.mux.port)
    ensures Whole(prev + Emitted(cfg, s, xs))
    decreases |xs|
  {
    hide *;
    if xs == [] {
      NoneLeft(cfg, s, xs, prev);
    } else {
      FirstKeeps(cfg, xs);
      EmittedStep(cfg, s, xs);
      NextFrames(cfg, s, xs[0], prev);
      NextUniform(cfg, s, xs[0]);
      SomePort(cfg, s);
      KeepsGapless(cfg, xs[0]);
      NextKept(cfg, s, xs[0], 0);
      var gone, s' := Leaving(s.stage, xs[0].outReady), Next(cfg, s, xs[0]);
      RunFrames(cfg, s', xs[1..], prev + gone);
      assert (prev + gone) + Emitted(cfg, s', xs[1..]) == prev + (gone + Emitted(cfg, s', xs[1..]));
    }
  }

  lemma KeepsGapless(cfg: Config, i: Input)
    requires KeepsFrames(cfg, [i])
    ensures GaplessIn(cfg, i)
  {
    if 2 < cfg.segs {
      forall p | 0 <= p < |i.beats| ensures Gapless(cfg.segs, i.beats[p]) {
        assert FullOrEmpty([i][0].beats[p]);
      }
    }
  }

  lemma NoneLeft(cfg: Config, s: System, xs: seq<Input>, prev: seq<Sent>)
    requires Typed(cfg, s.mux) && AllFit(cfg, xs) && xs == []
    requires Follows(prev + (s.stage.out + s.stage.temp), s.mux.frame, s.mux.port)
    ensures Whole(prev + Emitted(cfg, s, xs))
  {
    assert prev + Emitted(cfg, s, xs) == prev;
    WholePart(prev, s.stage.out + s.stage.temp);
    hide Emitted;
  }

  lemma SomePort(cfg: Config, s: System)
    requires Typed(cfg, s.mux)
    ensures 0 < cfg.ports
  {
  }

  lemma EmittedStep(cfg: Config, s: System, xs: seq<Input>)
    requires Typed(cfg, s.mux) && AllFit(cfg, xs) && xs != [] && InputFits(cfg, xs[0]) && AllFit(cfg, xs[1..])
    ensures Emitted(cfg, s, xs) == Leaving(s.stage, xs[0].outReady) + Emitted(cfg, Next(cfg, s, xs[0]), xs[1..])
  {
    hide Next, Leaving;
  }

  lemma FirstKeeps(cfg: Config, xs: seq<Input>)
    requires AllFit(cfg, xs) && KeepsFrames(cfg, xs) && xs != []
    ensures InputFits(cfg, xs[0]) && KeepsFrames(cfg, [xs[0]]) && KeepsFrames(cfg, xs[1..]) && AllFit(cfg, xs[1..])
  {
    if 2 < cfg.segs {
      forall p | 0 <= p < |xs[0].beats| ensures FullOrEmpty([xs[0]][0].beats[p]) {
        assert FullOrEmpty(xs[0].beats[p]);
      }
    }
    hide FullOrEmpty, InputFits;
  }

  lemma WholePart(a: seq<Sent>, b: seq<Sent>)
    requires Whole(a + b)
    ensures Whole(a)
  {
    forall i | 0 <= i < |a| - 1 && !a[i].lane.eop ensures a[i + 1].port == a[i].port {
      assert (a + b)[i] == a[i] && (a + b)[i + 1] == a[i + 1];
    }
  }

  // With at most two segments, or beats that are full or empty, frames never mix: after a segment that
  // is not the last of its frame the next one comes from the same port.
  lemma FramesNeverMix(cfg: Config, s: System, xs: seq<Input>)
    requires AtReset(cfg, s) && AllFit(cfg, xs) && KeepsFrames(cfg, xs)
    ensures Whole(Emitted(cfg, s, xs))
  {
    forall p | 0 <= p < cfg.ports ensures FullOrEmpty(s.mux.holds[p].lanes) {
    }
    ResetEmpty(cfg, s, 0);
    hide FullOrEmpty, KeepsFrames, Emitted, HoldsOk;
    RunFrames(cfg, s, xs, []);
    assert [] + Emitted(cfg, s, xs) == Emitted(cfg, s, xs);
  }
}
