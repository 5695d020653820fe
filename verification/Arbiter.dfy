// arbiter: fixed-priority or masked round-robin grant, optionally held until acknowledged or released.
module Arbiter {
  import opened PriorityEncoder

  datatype Config = Config(ports: nat, roundRobin: bool, block: bool, blockAck: bool, lsb: bool)

  datatype Regs = Regs(grant: seq<bool>, valid: bool, index: nat, mask: seq<bool>)

  datatype In = In(request: seq<bool>, acknowledge: seq<bool>)

  predicate Typed(cfg: Config, r: Regs) {
    0 < cfg.ports && |r.grant| == |r.mask| == cfg.ports
  }

  predicate Fits(cfg: Config, x: In) {
    |x.request| == |x.acknowledge| == cfg.ports
  }

  function And(a: seq<bool>, b: seq<bool>): (c: seq<bool>)
    requires |a| == |b|
    ensures |c| == |a| && forall i :: 0 <= i < |c| ==> (c[i] <==> a[i] && b[i])
  {
    seq(|a|, i requires 0 <= i < |a| => a[i] && b[i])
  }

  predicate Any(a: seq<bool>) {
    exists i :: 0 <= i < |a| && a[i]
  }

  function None(n: nat): (c: seq<bool>)
    ensures |c| == n && forall i :: 0 <= i < n ==> !c[i]
  {
    seq(n, _ => false)
  }

  function OneHot(n: nat, k: nat): (c: seq<bool>)
    ensures |c| == n && forall i :: 0 <= i < n ==> (c[i] <==> i == k)
  {
    seq(n, i => i == k)
  }

  // The ports after k in priority order.
  function MaskAfter(cfg: Config, k: nat): (c: seq<bool>)
    ensures |c| == cfg.ports && forall i :: 0 <= i < cfg.ports ==> (c[i] <==> if cfg.lsb then k < i else i < k)
  {
    seq(cfg.ports, i => if cfg.lsb then k < i else i < k)
  }

  predicate Holds(cfg: Config, r: Regs, x: In)
    requires Typed(cfg, r) && Fits(cfg, x)
  {
    || (cfg.block && !cfg.blockAck && Any(And(r.grant, x.request)))
    || (cfg.block && cfg.blockAck && r.valid && !Any(And(r.grant, x.acknowledge)))
  }

  // The port granted next when the arbiter decides.
  function Choice(cfg: Config, r: Regs, x: In): PriorityEncoder.Result
    requires Typed(cfg, r) && Fits(cfg, x)
  {
    var masked := Encode(cfg.lsb, And(x.request, r.mask));
    if cfg.roundRobin && masked.valid then masked else Encode(cfg.lsb, x.request)
  }

  predicate Decides(cfg: Config, r: Regs, x: In)
    requires Typed(cfg, r) && Fits(cfg, x)
  {
    !Holds(cfg, r, x) && Encode(cfg.lsb, x.request).valid
  }

  function Step(cfg: Config, r: Regs, x: In): (r': Regs)
    requires Typed(cfg, r) && Fits(cfg, x)
    ensures Typed(cfg, r')
  {
    if Holds(cfg, r, x) then r
    else if Encode(cfg.lsb, x.request).valid then
      var k := Choice(cfg, r, x).index;
      Regs(OneHot(cfg.ports, k), true, k, if cfg.roundRobin then MaskAfter(cfg, k) else r.mask)
    else Regs(None(cfg.ports), false, 0, r.mask)
  }

  function Reset(cfg: Config): Regs {
    Regs(None(cfg.ports), false, 0, None(cfg.ports))
  }

  // ---- What every cycle keeps ----

  predicate GrantOk(cfg: Config, r: Regs) {
    && Typed(cfg, r)
    && (r.valid ==> r.index < cfg.ports && r.grant == OneHot(cfg.ports, r.index))
    && (!r.valid ==> r.grant == None(cfg.ports))
  }

  // The mask is always the ports after some port, in round-robin mode the one granted last.
  ghost predicate MaskOk(cfg: Config, r: Regs) {
    && Typed(cfg, r)
    && (exists k: nat :: k < cfg.ports && r.mask == MaskAfter(cfg, k))
    && (cfg.roundRobin && r.valid ==> r.mask == MaskAfter(cfg, r.index))
  }

  lemma ResetOk(cfg: Config)
    requires 0 < cfg.ports
    ensures GrantOk(cfg, Reset(cfg)) && MaskOk(cfg, Reset(cfg))
  {
    assert Reset(cfg).mask == MaskAfter(cfg, if cfg.lsb then cfg.ports - 1 else 0);
  }

  // A decision grants a requesting port: the best one still masked in, or the best one of all.
  lemma ChoiceRequests(cfg: Config, r: Regs, x: In)
    requires Typed(cfg, r) && Fits(cfg, x) && Encode(cfg.lsb, x.request).valid
    ensures var c, masked := Choice(cfg, r, x), And(x.request, r.mask);
      && c.valid && c.index < cfg.ports && x.request[c.index]
      && (if cfg.roundRobin && AnySet(masked, 0, cfg.ports) then Best(cfg.lsb, masked, 0, cfg.ports, c.index)
          else Best(cfg.lsb, x.request, 0, cfg.ports, c.index))
  {
    EncodeBest(cfg.lsb, And(x.request, r.mask));
    EncodeBest(cfg.lsb, x.request);
    hide Encode;
  }

  // The grant is one-hot exactly when valid, a new grant goes to a requester, and with nobody asking there is none.
  lemma StepKept(cfg: Config, r: Regs, x: In)
    requires GrantOk(cfg, r) && MaskOk(cfg, r) && Fits(cfg, x)
    ensures var r' := Step(cfg, r, x);
      && GrantOk(cfg, r') && MaskOk(cfg, r')
      && (Holds(cfg, r, x) ==> r' == r)
      && (!Holds(cfg, r, x) ==> (r'.valid <==> Any(x.request)) && (r'.valid ==> x.request[r'.index]))
  {
    EncodeBest(cfg.lsb, x.request);
    if Encode(cfg.lsb, x.request).valid {
      ChoiceRequests(cfg, r, x);
    }
    hide Encode, Choice, Holds;
  }

  // With blocking on acknowledge, a grant stays until its own acknowledge.
  lemma HeldUntilAcknowledged(cfg: Config, r: Regs, x: In)
    requires GrantOk(cfg, r) && Fits(cfg, x) && cfg.block && cfg.blockAck && r.valid
    ensures Holds(cfg, r, x) <==> !x.acknowledge[r.index]
    ensures !x.acknowledge[r.index] ==> Step(cfg, r, x) == r
  {
    assert And(r.grant, x.acknowledge)[r.index] == x.acknowledge[r.index];
    hide Encode, Choice;
  }

  // ---- Fairness ----

  // How many ports come before port q when the ports after k are served first.
  function Distance(cfg: Config, k: nat, q: nat): int {
    if cfg.lsb then (if k < q then q - k - 1 else q - k - 1 + cfg.ports)
    else (if q < k then k - q - 1 else k - q - 1 + cfg.ports)
  }

  // Each grant to another port brings a waiting port closer.
  lemma GrantCloser(cfg: Config, r: Regs, x: In, k: nat, q: nat)
    requires Typed(cfg, r) && Fits(cfg, x) && cfg.roundRobin && Encode(cfg.lsb, x.request).valid
    requires k < cfg.ports && r.mask == MaskAfter(cfg, k) && q < cfg.ports && x.request[q]
    ensures var c := Choice(cfg, r, x).index;
      c == q || Distance(cfg, c, q) < Distance(cfg, k, q)
  {
    ChoiceRequests(cfg, r, x);
    var masked := And(x.request, r.mask);
    assert masked[q] ==> AnySet(masked, 0, cfg.ports);
    hide Encode, Choice;
  }

  predicate Waits(cfg: Config, q: nat, xs: seq<In>) {
    forall i :: 0 <= i < |xs| ==> Fits(cfg, xs[i]) && q < cfg.ports && xs[i].request[q]
  }

  function After(cfg: Config, r: Regs, xs: seq<In>): (r': Regs)
    requires Typed(cfg, r) && forall i :: 0 <= i < |xs| ==> Fits(cfg, xs[i])
    ensures Typed(cfg, r')
    decreases |xs|
  {
    if xs == [] then r else After(cfg, Step(cfg, r, xs[0]), xs[1..])
  }

  // Decisions that did not grant port q, as long as it is not granted.
  function PassedOver(cfg: Config, r: Regs, q: nat, xs: seq<In>): nat
    requires Typed(cfg, r) && forall i :: 0 <= i < |xs| ==> Fits(cfg, xs[i])
    decreases |xs|
  {
    if xs == [] then 0
    else if Decides(cfg, r, xs[0]) then
      if Choice(cfg, r, xs[0]).index == q then 0
      else 1 + PassedOver(cfg, Step(cfg, r, xs[0]), q, xs[1..])
    else PassedOver(cfg, Step(cfg, r, xs[0]), q, xs[1..])
  }

  lemma {:induction false} PassedOverFrom(cfg: Config, r: Regs, k: nat, q: nat, xs: seq<In>)
    requires GrantOk(cfg, r) && MaskOk(cfg, r) && cfg.roundRobin && Waits(cfg, q, xs)
    requires k < cfg.ports && r.mask == MaskAfter(cfg, k) && q < cfg.ports
    ensures PassedOver(cfg, r, q, xs) <= Distance(cfg, k, q)
    decreases |xs|
  {
    if xs != [] {
      var x, r' := xs[0], Step(cfg, r, xs[0]);
      assert Waits(cfg, q, xs[1..]);
      StepKept(cfg, r, x);
      if Decides(cfg, r, x) {
        ChoiceRequests(cfg, r, x);
        GrantCloser(cfg, r, x, k, q);
        hide Encode, Choice, Holds;
        if r'.index != q {
          PassedOverFrom(cfg, r', r'.index, q, xs[1..]);
        }
      } else {
        hide Encode, Choice, Holds;
        PassedOverFrom(cfg, r', k, q, xs[1..]);
      }
    }
  }

  // A request held until it is granted is passed over at most ports - 1 times.
  lemma Fair(cfg: Config, r: Regs, q: nat, xs: seq<In>)
    requires GrantOk(cfg, r) && MaskOk(cfg, r) && cfg.roundRobin && Waits(cfg, q, xs) && q < cfg.ports
    ensures PassedOver(cfg, r, q, xs) <= cfg.ports - 1
  {
    var k: nat :| k < cfg.ports && r.mask == MaskAfter(cfg, k);
    PassedOverFrom(cfg, r, k, q, xs);
  }

  lemma {:induction false} RunKept(cfg: Config, r: Regs, xs: seq<In>)
    requires GrantOk(cfg, r) && MaskOk(cfg, r) && forall i :: 0 <= i < |xs| ==> Fits(cfg, xs[i])
    ensures GrantOk(cfg, After(cfg, r, xs)) && MaskOk(cfg, After(cfg, r, xs))
    decreases |xs|
  {
    if xs != [] {
      StepKept(cfg, r, xs[0]);
      RunKept(cfg, Step(cfg, r, xs[0]), xs[1..]);
      hide Encode, Choice, Holds;
    }
  }

  class GrantUnit {
    const cfg: Config
    var grant: seq<bool>
    var valid: bool
    var index: nat
    var mask: seq<bool>

    function View(): Regs
      reads this
    {
      Regs(grant, valid, index, mask)
    }

    constructor (cfg: Config)
      requires 0 < cfg.ports
      ensures this.cfg == cfg && View() == Reset(cfg)
    {
      this.cfg := cfg;
      grant, valid, index, mask := None(cfg.ports), false, 0, None(cfg.ports);
    }

    method Clock(x: In)
      requires Typed(cfg, View()) && Fits(cfg, x)
      modifies this
      ensures View() == Step(cfg, old(View()), x)
    {
      hide Encode;
      var granted, next, first, code := None(cfg.ports), false, mask, 0;
      if cfg.block && !cfg.blockAck && Any(And(grant, x.request)) {
        granted, next, code := grant, valid, index;
      } else if cfg.block && cfg.blockAck && valid && !Any(And(grant, x.acknowledge)) {
        granted, next, code := grant, valid, index;
      } else {
        var all := Encode(cfg.lsb, x.request);
        if all.valid {
          var masked := Encode(cfg.lsb, And(x.request, mask));
          code := if cfg.roundRobin && masked.valid then masked.index else all.index;
          granted, next := OneHot(cfg.ports, code), true;
          if cfg.roundRobin {
            first := MaskAfter(cfg, code);
          }
        }
      }
      grant, valid, index, mask := granted, next, code, first;
    }
  }
}
