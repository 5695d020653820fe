// pcie_us_msi: one message at a time for the pending interrupt vectors, chosen by a round-robin arbiter.
module MsiShim {
  import opened PriorityEncoder
  import opened Arbiter
  import opened GrayCode

  datatype Shim = Shim(
    active: bool, irq: seq<bool>, irqLast: seq<bool>, pending: seq<bool>,
    allowed: seq<bool>, message: seq<bool>, arb: Regs)

  // data: per-vector mask from the host; enabledLog: multiple message enable; enable: four function bits.
  datatype Pins = Pins(irq: seq<bool>, enable: seq<bool>, enabledLog: nat, data: seq<bool>, sent: bool, fail: bool)

  function Cfg(count: nat): Config {
    Config(count, true, true, true, true)
  }

  predicate ShimTyped(count: nat, s: Shim) {
    && 0 < count <= 32 && Typed(Cfg(count), s.arb)
    && |s.irq| == |s.irqLast| == |s.pending| == |s.allowed| == |s.message| == count
  }

  predicate PinsFit(count: nat, x: Pins) {
    |x.irq| == |x.data| == count && |x.enable| == 4
  }

  function Quiet(count: nat): Shim {
    var none := None(count);
    Shim(false, none, none, none, none, none, Arbiter.Reset(Cfg(count)))
  }

  predicate Edge(s: Shim, v: nat)
    requires v < |s.irq| == |s.irqLast|
  {
    s.irq[v] && !s.irqLast[v]
  }

  // The message in flight was sent or refused.
  predicate Settled(s: Shim, x: Pins) {
    s.active && (x.sent || x.fail)
  }

  predicate Clears(s: Shim, x: Pins, v: nat)
    requires v < |s.arb.grant|
  {
    s.active && x.sent && s.arb.grant[v]
  }

  predicate Launches(s: Shim, x: Pins) {
    !s.active && Any(x.enable) && s.arb.valid
  }

  function ArbiterIn(count: nat, s: Shim, x: Pins): (i: In)
    requires ShimTyped(count, s)
    ensures Fits(Cfg(count), i)
  {
    In(seq(count, v requires 0 <= v < count => s.pending[v] && s.allowed[v] && !s.arb.grant[v]),
       if Settled(s, x) then s.arb.grant else None(count))
  }

  function EnableMask(count: nat, x: Pins): (m: seq<bool>)
    requires PinsFit(count, x)
    ensures |m| == count
  {
    var some := if x.enabledLog > 4 then 32 else Pow2(x.enabledLog);
    seq(count, v requires 0 <= v < count => !x.data[v] && v < some && x.enable[0])
  }

  function Tick(count: nat, s: Shim, x: Pins): (s': Shim)
    requires ShimTyped(count, s) && PinsFit(count, x)
    ensures ShimTyped(count, s')
  {
    Shim(if s.active then !Settled(s, x) else Launches(s, x),
         x.irq, s.irq,
         seq(count, v requires 0 <= v < count => (s.pending[v] || Edge(s, v)) && !Clears(s, x, v)),
         EnableMask(count, x),
         if Launches(s, x) then s.arb.grant else None(count),
         Arbiter.Step(Cfg(count), s.arb, ArbiterIn(count, s, x)))
  }

  // ---- What every cycle keeps ----

  // A granted vector is pending, and while a message is out its vector stays granted.
  ghost predicate Inv(count: nat, s: Shim) {
    && ShimTyped(count, s)
    && GrantOk(Cfg(count), s.arb) && MaskOk(Cfg(count), s.arb)
    && (s.arb.valid ==> s.pending[s.arb.index])
    && (s.active ==> s.arb.valid)
    && (Any(s.message) ==> s.active && s.message == s.arb.grant)
  }

  lemma QuietOk(count: nat)
    requires 0 < count <= 32
    ensures Inv(count, Quiet(count))
  {
    Arbiter.ResetOk(Cfg(count));
  }

  lemma TickKept(count: nat, s: Shim, x: Pins)
    requires Inv(count, s) && PinsFit(count, x)
    ensures Inv(count, Tick(count, s, x))
    // a grant in use moves only when its message settles
    ensures s.arb.valid && !Settled(s, x) ==> Tick(count, s, x).arb == s.arb
  {
    var cfg, i := Cfg(count), ArbiterIn(count, s, x);
    StepKept(cfg, s.arb, i);
    if s.arb.valid {
      HeldUntilAcknowledged(cfg, s.arb, i);
      assert i.acknowledge[s.arb.index] <==> Settled(s, x);
    }
    hide Arbiter.Step, Encode, Choice, Holds, MaskOk;
  }

  function After(count: nat, s: Shim, xs: seq<Pins>): (s': Shim)
    requires ShimTyped(count, s) && forall i :: 0 <= i < |xs| ==> PinsFit(count, xs[i])
    ensures ShimTyped(count, s')
    decreases |xs|
  {
    if xs == [] then s else After(count, Tick(count, s, xs[0]), xs[1..])
  }

  lemma {:induction false} RunKept(count: nat, s: Shim, xs: seq<Pins>)
    requires Inv(count, s) && forall i :: 0 <= i < |xs| ==> PinsFit(count, xs[i])
    ensures Inv(count, After(count, s, xs))
    decreases |xs|
  {
    if xs != [] {
      TickKept(count, s, xs[0]);
      RunKept(count, Tick(count, s, xs[0]), xs[1..]);
      hide Inv, Tick;
    }
  }

  // A vector stops being pending only in the cycle its own message is sent.
  lemma ClearedByOwnSent(count: nat, s: Shim, x: Pins, v: nat)
    requires Inv(count, s) && PinsFit(count, x) && v < count && s.pending[v] && !Tick(count, s, x).pending[v]
    ensures s.active && x.sent && s.arb.index == v
  {
    hide Arbiter.Step;
  }

  // An edge is remembered if and only if it does not fall in the cycle its own vector's message is sent.
  lemma EdgeKept(count: nat, s: Shim, x: Pins, v: nat)
    requires Inv(count, s) && PinsFit(count, x) && v < count && Edge(s, v)
    ensures Tick(count, s, x).pending[v] <==> !(s.active && x.sent && s.arb.index == v)
  {
    hide Arbiter.Step;
  }

  // Messages put out and messages settled over a run.
  function Launched(count: nat, s: Shim, xs: seq<Pins>): nat
    requires ShimTyped(count, s) && forall i :: 0 <= i < |xs| ==> PinsFit(count, xs[i])
    decreases |xs|
  {
    if xs == [] then 0
    else (if Launches(s, xs[0]) then 1 else 0) + Launched(count, Tick(count, s, xs[0]), xs[1..])
  }

  function SettledIn(count: nat, s: Shim, xs: seq<Pins>): nat
    requires ShimTyped(count, s) && forall i :: 0 <= i < |xs| ==> PinsFit(count, xs[i])
    decreases |xs|
  {
    if xs == [] then 0
    else (if Settled(s, xs[0]) then 1 else 0) + SettledIn(count, Tick(count, s, xs[0]), xs[1..])
  }

  // At most one message is outstanding: launches lead settlements by one exactly while active.
  lemma {:induction false} OneOutstanding(count: nat, s: Shim, xs: seq<Pins>)
    requires ShimTyped(count, s) && forall i :: 0 <= i < |xs| ==> PinsFit(count, xs[i])
    ensures (if s.active then 1 else 0) + Launched(count, s, xs)
         == SettledIn(count, s, xs) + (if After(count, s, xs).active then 1 else 0)
    decreases |xs|
  {
    if xs != [] {
      OneOutstanding(count, Tick(count, s, xs[0]), xs[1..]);
      hide Arbiter.Step;
    }
  }

  // Rising edges of one vector, and messages sent for it.
  function Edges(count: nat, s: Shim, xs: seq<Pins>, v: nat): nat
    requires ShimTyped(count, s) && v < count && forall i :: 0 <= i < |xs| ==> PinsFit(count, xs[i])
    decreases |xs|
  {
    if xs == [] then 0
    else (if Edge(s, v) then 1 else 0) + Edges(count, Tick(count, s, xs[0]), xs[1..], v)
  }

  function SentFor(count: nat, s: Shim, xs: seq<Pins>, v: nat): nat
    requires ShimTyped(count, s) && v < count && forall i :: 0 <= i < |xs| ==> PinsFit(count, xs[i])
    decreases |xs|
  {
    if xs == [] then 0
    else (if Clears(s, xs[0], v) then 1 else 0) + SentFor(count, Tick(count, s, xs[0]), xs[1..], v)
  }

  // No message without its edge: every message sent for a vector uses up at least one edge of that vector.
  lemma {:induction false} MessagesHaveEdges(count: nat, s: Shim, xs: seq<Pins>, v: nat)
    requires Inv(count, s) && v < count && forall i :: 0 <= i < |xs| ==> PinsFit(count, xs[i])
    ensures SentFor(count, s, xs, v) + (if After(count, s, xs).pending[v] then 1 else 0)
         <= (if s.pending[v] then 1 else 0) + Edges(count, s, xs, v)
    decreases |xs|
  {
    if xs != [] {
      TickKept(count, s, xs[0]);
      MessagesHaveEdges(count, Tick(count, s, xs[0]), xs[1..], v);
      hide Arbiter.Step, MaskOk;
    }
  }

  // Edges that change nothing because their vector is already pending, and edges that fall in the cycle
  // their own vector's message is sent.
  function Merged(count: nat, s: Shim, xs: seq<Pins>, v: nat): nat
    requires ShimTyped(count, s) && v < count && forall i :: 0 <= i < |xs| ==> PinsFit(count, xs[i])
    decreases |xs|
  {
    if xs == [] then 0
    else (if Edge(s, v) && s.pending[v] && !Clears(s, xs[0], v) then 1 else 0) +
         Merged(count, Tick(count, s, xs[0]), xs[1..], v)
  }

  function Lost(count: nat, s: Shim, xs: seq<Pins>, v: nat): nat
    requires ShimTyped(count, s) && v < count && forall i :: 0 <= i < |xs| ==> PinsFit(count, xs[i])
    decreases |xs|
  {
    if xs == [] then 0
    else (if Edge(s, v) && Clears(s, xs[0], v) then 1 else 0) + Lost(count, Tick(count, s, xs[0]), xs[1..], v)
  }

  function One(b: bool): nat {
    if b then 1 else 0
  }

  lemma {:induction false} Balance(count: nat, s: Shim, xs: seq<Pins>, v: nat)
    requires Inv(count, s) && v < count && forall i :: 0 <= i < |xs| ==> PinsFit(count, xs[i])
    ensures SentFor(count, s, xs, v) + One(After(count, s, xs).pending[v]) + Merged(count, s, xs, v) +
      Lost(count, s, xs, v)
         == One(s.pending[v]) + Edges(count, s, xs, v)
    decreases |xs|
  {
    if xs != [] {
      TickKept(count, s, xs[0]);
      Balance(count, Tick(count, s, xs[0]), xs[1..], v);
      hide Arbiter.Step, MaskOk;
    }
  }

  // From reset on every edge of a vector is accounted for exactly once: a message of that vector was sent for
  // it, it is still pending, it came while one was already pending, or it was lost in its own sent cycle.
  lemma EdgesAccounted(count: nat, xs: seq<Pins>, v: nat)
    requires 0 < count <= 32 && v < count && forall i :: 0 <= i < |xs| ==> PinsFit(count, xs[i])
    ensures var s := Quiet(count);
      SentFor(count, s, xs, v) + One(After(count, s, xs).pending[v]) + Merged(count, s, xs, v) + Lost(count, s, xs, v)
      == Edges(count, s, xs, v)
  {
    QuietOk(count);
    Balance(count, Quiet(count), xs, v);
    hide SentFor, After, Merged, Lost, Edges;
  }

  // With no other edge after it, an edge is answered or still pending if and only if it did not fall in the
  // cycle its own vector's message was sent.
  lemma EdgeAnswered(count: nat, before: seq<Pins>, x: Pins, rest: seq<Pins>, v: nat)
    requires 0 < count <= 32 && v < count && PinsFit(count, x)
    requires forall i :: 0 <= i < |before| ==> PinsFit(count, before[i])
    requires forall i :: 0 <= i < |rest| ==> PinsFit(count, rest[i])
    requires Edge(After(count, Quiet(count), before), v)
    requires Edges(count, Tick(count, After(count, Quiet(count), before), x), rest, v) == 0
    ensures var s := After(count, Quiet(count), before);
      var s' := Tick(count, s, x);
      SentFor(count, s', rest, v) > 0 || After(count, s', rest).pending[v] <==>
        !(s.active && x.sent && s.arb.index == v)
  {
    hide SentFor, After, Merged, Lost, Edges, Inv, Edge, Tick;
    var s := After(count, Quiet(count), before);
    QuietOk(count);
    RunKept(count, Quiet(count), before);
    TickKept(count, s, x);
    EdgeKept(count, s, x, v);
    Balance(count, Tick(count, s, x), rest, v);
    NoneMerged(count, Tick(count, s, x), rest, v);
  }

  lemma {:induction false} NoneMerged(count: nat, s: Shim, xs: seq<Pins>, v: nat)
    requires ShimTyped(count, s) && v < count && forall i :: 0 <= i < |xs| ==> PinsFit(count, xs[i])
    ensures Merged(count, s, xs, v) + Lost(count, s, xs, v) <= Edges(count, s, xs, v)
    decreases |xs|
  {
    hide Tick, Edge, Clears;
    if xs != [] {
      NoneMerged(count, Tick(count, s, xs[0]), xs[1..], v);
    }
  }

  // Such a run from reset with one vector: the second edge comes in the sent cycle of the first.
  function Line(irq: bool, sent: bool): (x: Pins)
    ensures PinsFit(1, x)
  {
    Pins([irq], [true, false, false, false], 5, [false], sent, false)
  }

  // The one-vector shim by its bits: line now and before, pending, message out, grant.
  ghost predicate At(s: Shim, irq: bool, last: bool, pending: bool, active: bool, valid: bool) {
    && Inv(1, s) && s.irq == [irq] && s.irqLast == [last] && s.pending == [pending]
    && s.active == active && s.arb.valid == valid && s.arb.grant == [valid]
  }

  // One clock, then a run: the next bits, and what the clock adds to the counts.
  lemma Clocked(s: Shim, irq: bool, last: bool, pending: bool, active: bool, valid: bool, line: bool, sent: bool,
                rest: seq<Pins>)
    returns (t: Shim)
    requires At(s, irq, last, pending, active, valid) && (pending && !valid ==> s.allowed == [true])
    requires forall i :: 0 <= i < |rest| ==> PinsFit(1, rest[i])
    ensures t.allowed == [true]
    ensures At(t, line, irq, (pending || (irq && !last)) && !(active && sent && valid),
               if active then !sent else valid, if valid then !(active && sent) else pending)
    ensures var xs, cleared := [Line(line, sent)] + rest, active && sent && valid;
      && ShimTyped(1, s) && ShimTyped(1, t) && (forall i :: 0 <= i < |xs| ==> PinsFit(1, xs[i]))
      && Edges(1, s, xs, 0) == One(irq && !last) + Edges(1, t, rest, 0)
      && SentFor(1, s, xs, 0) == One(cleared) + SentFor(1, t, rest, 0)
      && Lost(1, s, xs, 0) == One(irq && !last && cleared) + Lost(1, t, rest, 0)
      && After(1, s, xs) == After(1, t, rest)
  {
    var x := Line(line, sent);
    assert ([x] + rest)[1..] == rest;
    t := Tick(1, s, x);
    NextBits(s, x);
    assert Edge(s, 0) == (irq && !last) && Clears(s, x, 0) == (active && sent && valid);
    hide Tick, Inv;
  }

  lemma NextBits(s: Shim, x: Pins)
    requires Inv(1, s) && x == Line(x.irq == [true], x.sent) && (s.pending[0] && !s.arb.valid ==> s.allowed[0])
    ensures var t := Tick(1, s, x);
      && Inv(1, t) && t.irq == x.irq && t.irqLast == s.irq && t.allowed == [true]
      && t.pending == [(s.pending[0] || Edge(s, 0)) && !Clears(s, x, 0)]
      && t.active == (if s.active then !x.sent else s.arb.valid)
      && t.arb.valid == (if s.arb.valid then !(s.active && x.sent) else s.pending[0])
      && t.arb.grant == [t.arb.valid]
  {
    TickKept(1, s, x);
    var i := ArbiterIn(1, s, x);
    StepKept(Cfg(1), s.arb, i);
    assert Any(i.request) <==> i.request[0];
    assert Any(x.enable) by { assert x.enable[0]; }
    assert Any(And(s.arb.grant, i.acknowledge)) <==> And(s.arb.grant, i.acknowledge)[0];
    hide Arbiter.Step, Encode, Choice, MaskOk, Pow2;
  }

  lemma EdgeLost() returns (xs: seq<Pins>)
    ensures forall i :: 0 <= i < |xs| ==> PinsFit(1, xs[i])
    ensures Edges(1, Quiet(1), xs, 0) == 2 && SentFor(1, Quiet(1), xs, 0) == 1
    ensures !After(1, Quiet(1), xs).pending[0] && Lost(1, Quiet(1), xs, 0) == 1
  {
    hide Tick, After, Edges, SentFor, Lost, Inv, PinsFit, Arbiter.Step, Line;
    var low, high := Line(false, false), Line(true, false);
    var x4 := [Line(false, true)] + [];
    var x3 := [high] + x4;
    var x2 := [low] + x3;
    var x1 := [low] + x2;
    xs := [high] + x1;
    QuietBits();
    var s1 := Clocked(Quiet(1), false, false, false, false, false, true, false, x1);
    var s2 := Clocked(s1, true, false, false, false, false, false, false, x2);
    var s3 := Clocked(s2, false, true, true, false, false, false, false, x3);
    var s4 := Clocked(s3, false, false, true, false, true, true, false, x4);
    var s5 := Clocked(s4, true, false, true, true, true, false, true, []);
    NoCounts(s5);
  }

  lemma QuietBits()
    ensures At(Quiet(1), false, false, false, false, false)
  {
    QuietOk(1);
  }

  lemma NoCounts(s: Shim)
    requires ShimTyped(1, s)
    ensures Edges(1, s, [], 0) == SentFor(1, s, [], 0) == Lost(1, s, [], 0) == 0 && After(1, s, []) == s
  {
  }

  // ---- Fairness ----

  // Vector v has the grant, so its own message is next.
  predicate Granted(s: Shim, v: nat) {
    s.arb.valid && s.arb.index == v
  }

  // Messages of other vectors put out before v is granted.
  function OthersFirst(count: nat, s: Shim, xs: seq<Pins>, v: nat): nat
    requires ShimTyped(count, s) && forall i :: 0 <= i < |xs| ==> PinsFit(count, xs[i])
    decreases |xs|
  {
    if xs == [] || Granted(s, v) then 0
    else One(Launches(s, xs[0])) + OthersFirst(count, Tick(count, s, xs[0]), xs[1..], v)
  }

  // v is pending, and the host keeps it enabled.
  predicate Waiting(count: nat, s: Shim, xs: seq<Pins>, v: nat)
    requires ShimTyped(count, s) && v < count
  {
    && s.pending[v] && s.allowed[v]
    && forall i :: 0 <= i < |xs| ==> PinsFit(count, xs[i]) && EnableMask(count, xs[i])[v]
  }

  // What may still come first: the granted vector's own message, and those between it and v.
  function Ahead(count: nat, s: Shim, k: nat, v: nat): int {
    if Granted(s, v) then 0
    else Distance(Cfg(count), k, v) + One(s.arb.valid && !s.active)
  }

  // k is where the round-robin search last stopped.
  predicate StoppedAt(count: nat, s: Shim, k: nat) {
    k < count && s.arb.mask == MaskAfter(Cfg(count), k) && (s.arb.valid ==> s.arb.index == k)
  }

  lemma WaitingStep(count: nat, s: Shim, x: Pins, k: nat, v: nat) returns (k': nat)
    requires Inv(count, s) && StoppedAt(count, s, k) && v < count && !Granted(s, v) && PinsFit(count, x)
    requires s.pending[v] && s.allowed[v] && EnableMask(count, x)[v]
    ensures var t := Tick(count, s, x);
      && Inv(count, t) && StoppedAt(count, t, k') && t.pending[v] && t.allowed[v]
      && 0 <= Ahead(count, t, k', v) && One(Launches(s, x)) + Ahead(count, t, k', v) <= Ahead(count, s, k, v)
  {
    var cfg, i, t := Cfg(count), ArbiterIn(count, s, x), Tick(count, s, x);
    TickKept(count, s, x);
    StepKept(cfg, s.arb, i);
    StaysPending(count, s, x, v);
    if s.arb.valid && !Settled(s, x) {
      k' := k;
      hide Arbiter.Step, Encode, Choice, MaskOk, EnableMask;
    } else {
      assert i.request[v];
      assert Any(i.request);
      Decided(cfg, s.arb, i);
      GrantCloser(cfg, s.arb, i, k, v);
      k' := t.arb.index;
      hide Arbiter.Step, Encode, Choice, EnableMask;
      if s.arb.valid {
        HeldUntilAcknowledged(cfg, s.arb, i);
      }
    }
  }

  lemma StaysPending(count: nat, s: Shim, x: Pins, v: nat)
    requires Inv(count, s) && PinsFit(count, x) && v < count && s.pending[v] && !Granted(s, v)
    ensures Tick(count, s, x).pending[v]
  {
    hide Arbiter.Step, EnableMask;
    if !Tick(count, s, x).pending[v] {
      ClearedByOwnSent(count, s, x, v);
    }
  }

  // A deciding arbiter grants its choice.
  lemma Decided(cfg: Arbiter.Config, r: Regs, x: In)
    requires GrantOk(cfg, r) && Fits(cfg, x) && Any(x.request)
    ensures Encode(cfg.lsb, x.request).valid
    ensures !Holds(cfg, r, x) ==> var r' := Arbiter.Step(cfg, r, x);
      r'.valid && r'.index == Choice(cfg, r, x).index && (cfg.roundRobin ==> r'.mask == MaskAfter(cfg, r'.index))
  {
    EncodeBest(cfg.lsb, x.request);
    hide Encode, Choice, Holds;
  }

  lemma {:induction false} OthersBounded(count: nat, s: Shim, xs: seq<Pins>, k: nat, v: nat)
    requires Inv(count, s) && StoppedAt(count, s, k) && v < count && Waiting(count, s, xs, v)
    ensures OthersFirst(count, s, xs, v) <= if Granted(s, v) then 0 else Ahead(count, s, k, v)
    decreases |xs|
  {
    if xs != [] && !Granted(s, v) {
      var k' := WaitingStep(count, s, xs[0], k, v);
      hide Tick, Ahead, EnableMask, Inv;
      OthersBounded(count, Tick(count, s, xs[0]), xs[1..], k', v);
    } else if !Granted(s, v) {
      hide Inv, Waiting;
      DistanceBounds(count, k, v);
    }
  }

  lemma DistanceBounds(count: nat, k: nat, v: nat)
    requires k < count && v < count
    ensures 0 <= Distance(Cfg(count), k, v) <= count - 1 && (k != v ==> Distance(Cfg(count), k, v) <= count - 2)
  {
  }

  // After any run from reset a pending vector that stays enabled sees at most count - 1 messages of other
  // vectors before it is granted, however long that takes.
  lemma VectorPassedOver(count: nat, before: seq<Pins>, xs: seq<Pins>, v: nat)
    requires 0 < count <= 32 && v < count && forall i :: 0 <= i < |before| ==> PinsFit(count, before[i])
    requires Waiting(count, After(count, Quiet(count), before), xs, v)
    ensures OthersFirst(count, After(count, Quiet(count), before), xs, v) <= count - 1
  {
    var s := After(count, Quiet(count), before);
    QuietOk(count);
    RunKept(count, Quiet(count), before);
    hide After, Quiet, OthersFirst, Waiting;
    var k := LastStop(count, s);
    OthersBounded(count, s, xs, k, v);
    DistanceBounds(count, k, v);
  }

  lemma LastStop(count: nat, s: Shim) returns (k: nat)
    requires Inv(count, s)
    ensures StoppedAt(count, s, k)
  {
    var j: nat :| j < count && s.arb.mask == MaskAfter(Cfg(count), j);
    k := if s.arb.valid then s.arb.index else j;
  }

  class MessageUnit {
    const count: nat
    const arbiter: GrantUnit
    var active: bool
    var irq: seq<bool>
    var irqLast: seq<bool>
    var pending: seq<bool>
    var allowed: seq<bool>
    var message: seq<bool>

    predicate Valid()
      reads this, arbiter
    {
      arbiter.cfg == Cfg(count) && ShimTyped(count, View())
    }

    function View(): Shim
      reads this, arbiter
    {
      Shim(active, irq, irqLast, pending, allowed, message, arbiter.View())
    }

    constructor (count: nat)
      requires 0 < count <= 32
      ensures this.count == count && fresh(arbiter) && Valid() && View() == Quiet(count)
    {
      this.count := count;
      arbiter := new GrantUnit(Cfg(count));
      active := false;
      irq, irqLast, pending := None(count), None(count), None(count);
      allowed, message := None(count), None(count);
    }

    method Clock(x: Pins)
      requires Valid() && PinsFit(count, x)
      modifies this, arbiter
      ensures Valid() && View() == Tick(count, old(View()), x)
    {
      ghost var was := View();
      var grant := arbiter.grant;
      var requests := ArbiterRequests();
      var acknowledge, next, out := None(count), active, None(count);
      var cleared := None(count);
      if !active {
        if Any(x.enable) && arbiter.valid {
          out, next := grant, true;
        }
      } else if x.sent || x.fail {
        if x.sent {
          cleared := grant;
        }
        acknowledge, next := grant, false;
      }
      assert In(requests, acknowledge) == ArbiterIn(count, was, x);
      var later := seq(count, v requires 0 <= v < |pending| == |irq| == |irqLast| == |cleared| reads this =>
        (pending[v] || (irq[v] && !irqLast[v])) && !cleared[v]);
      assert later == Tick(count, was, x).pending;
      arbiter.Clock(In(requests, acknowledge));
      active, pending, message := next, later, out;
      irqLast, irq, allowed := irq, x.irq, EnableMask(count, x);
    }

    method ArbiterRequests() returns (requests: seq<bool>)
      requires Valid()
      ensures forall x :: PinsFit(count, x) ==> requests == ArbiterIn(count, View(), x).request
    {
      var p, a, g := pending, allowed, arbiter.grant;
      requests := seq(count, v requires 0 <= v < |p| == |a| == |g| => p[v] && a[v] && !g[v]);
    }
  }
}
