// Round-robin fairness: a port with a frame waiting is passed over by at most ports - 1 frames.
module TlpMuxFair {
  import opened TlpMux
  import opened TlpMuxProof

  // Ports tried before q in the next search.
  function Ahead(cfg: Config, port: nat, q: nat): int
    requires port < cfg.ports
  {
    Rank(cfg, NextPort(cfg, port), q)
  }

  // Port q offers a segment of a frame not yet begun.
  predicate Waits(cfg: Config, m: Mux, x: In, q: nat)
    requires Typed(cfg, m) && Fits(cfg, x) && q < cfg.ports
  {
    !x.pause[q] && m.holds[q].lanes[m.holds[q].offset].valid && !(m.frame && m.port == q)
  }

  // Frame starts committed in this cycle, in order.
  function Starts(cfg: Config, m: Mux, x: In): seq<nat>
    requires Typed(cfg, m) && Fits(cfg, x)
  {
    var c := Filled(cfg, m, x, cfg.segs);
    c.starts[..c.begun]
  }

  // Among what is committed: q has begun, or each start so far brought it closer.
  predicate CommittedFair(cfg: Config, c: Cyc, q: nat, bound: int)
    requires CycTyped(cfg, c)
  {
    q in c.starts[..c.begun] || Ahead(cfg, c.portNext, q) + c.begun <= bound
  }

  predicate OpenFair(cfg: Config, c: Cyc, q: nat, bound: int)
    requires CycTyped(cfg, c) && q < cfg.ports
  {
    q in c.starts || (c.shift[q] == 0 && !(c.frame && c.port == q) && Ahead(cfg, c.port, q) + |c.starts| <= bound)
  }

  predicate Fair(cfg: Config, c: Cyc, q: nat, bound: int)
    requires CycTyped(cfg, c) && q < cfg.ports
  {
    CommittedFair(cfg, c, q, bound) && OpenFair(cfg, c, q, bound)
  }

  // A found port comes before q in the search, so the next search starts closer to q.
  lemma FoundCloser(cfg: Config, first: nat, r: nat, q: nat)
    requires first < cfg.ports && r < cfg.ports && q < cfg.ports && r != q
    requires Rank(cfg, first, r) <= Rank(cfg, first, q)
    ensures Rank(cfg, NextPort(cfg, r), q) + 1 <= Rank(cfg, first, q)
  {
  }

  lemma SelectFair(cfg: Config, m: Mux, x: In, c: Cyc, q: nat, bound: int)
    requires Typed(cfg, m) && Fits(cfg, x) && CycTyped(cfg, c) && q < cfg.ports && cfg.roundRobin && Waits(cfg, m, x, q)
    requires Fair(cfg, c, q, bound)
    ensures var s := Select(cfg, m, x, c);
      && Fair(cfg, s, q, bound) && (q in s.starts || s.frame) && s.begun == c.begun
  {
    if !c.frame {
      SelectFinds(cfg, m, x, c);
      var s, first := Select(cfg, m, x, c), FirstTried(cfg, c.port);
      assert s.starts[..s.begun] == c.starts[..c.begun];
      if q !in c.starts {
        assert Shows(cfg, m, x, c, q);
        assert s.frame && s.starts[|c.starts|] == s.port;
        if s.port != q {
          FoundCloser(cfg, first, s.port, q);
        }
      } else {
        var i :| 0 <= i < |c.starts| && c.starts[i] == q;
        assert s.starts[i] == q;
      }
      hide Select, Shows, Rank;
    }
  }

  lemma RouteFair(cfg: Config, m: Mux, x: In, c: Cyc, q: nat, bound: int)
    requires Typed(cfg, m) && Fits(cfg, x) && CycTyped(cfg, c) && q < cfg.ports && Waits(cfg, m, x, q)
    requires Fair(cfg, c, q, bound) && (q in c.starts || c.frame)
    ensures Fair(cfg, Route(cfg, m, x, c), q, bound)
  {
    var c' := Route(cfg, m, x, c);
    assert c'.starts == c.starts;
    assert c'.begun == |c.starts| ==> c'.starts[..c'.begun] == c.starts;
    hide Shows, ShowsEop, Rank;
  }

  lemma {:induction false} FilledFair(cfg: Config, m: Mux, x: In, q: nat, n: nat)
    requires Typed(cfg, m) && Fits(cfg, x) && q < cfg.ports && cfg.roundRobin && Waits(cfg, m, x, q)
    ensures Fair(cfg, Filled(cfg, m, x, n), q, Ahead(cfg, m.port, q))
  {
    if n > 0 {
      FilledFair(cfg, m, x, q, n - 1);
      var c, bound := Filled(cfg, m, x, n - 1), Ahead(cfg, m.port, q);
      SelectFair(cfg, m, x, c, q, bound);
      RouteFair(cfg, m, x, Select(cfg, m, x, c), q, bound);
      hide Fair, Select, Route, Ahead, Waits;
    }
  }

  // In one cycle: port q begins, or as many frames begin as it comes closer.
  lemma CycleFair(cfg: Config, m: Mux, x: In, q: nat)
    requires Typed(cfg, m) && Fits(cfg, x) && q < cfg.ports && cfg.roundRobin && Waits(cfg, m, x, q)
    ensures q in Starts(cfg, m, x) ||
            Ahead(cfg, Step(cfg, m, x).port, q) + |Starts(cfg, m, x)| <= Ahead(cfg, m.port, q)
  {
    FilledFair(cfg, m, x, q, cfg.segs);
    hide Ahead, Filled;
  }

  // Port q waits through the run without beginning.
  predicate WaitsThrough(cfg: Config, m: Mux, xs: seq<In>, q: nat)
    requires Typed(cfg, m) && q < cfg.ports
    decreases |xs|
  {
    xs == [] ||
    (Fits(cfg, xs[0]) && Waits(cfg, m, xs[0], q) && q !in Starts(cfg, m, xs[0])
      && WaitsThrough(cfg, Step(cfg, m, xs[0]), xs[1..], q))
  }

  function StartsIn(cfg: Config, m: Mux, xs: seq<In>): nat
    requires Typed(cfg, m) && forall i :: 0 <= i < |xs| ==> Fits(cfg, xs[i])
    decreases |xs|
  {
    if xs == [] then 0 else |Starts(cfg, m, xs[0])| + StartsIn(cfg, Step(cfg, m, xs[0]), xs[1..])
  }

  lemma {:induction false} StartsBounded(cfg: Config, m: Mux, xs: seq<In>, q: nat)
    requires Typed(cfg, m) && q < cfg.ports && cfg.roundRobin && WaitsThrough(cfg, m, xs, q)
    requires forall i :: 0 <= i < |xs| ==> Fits(cfg, xs[i])
    ensures StartsIn(cfg, m, xs) <= Ahead(cfg, m.port, q)
    decreases |xs|
  {
    if xs == [] {
      NextRank(cfg, NextPort(cfg, m.port), q, q);
    } else {
      CycleFair(cfg, m, xs[0], q);
      StartsBounded(cfg, Step(cfg, m, xs[0]), xs[1..], q);
      hide Ahead, Starts, Waits, Step;
    }
  }

  // However long the run, at most ports - 1 frames of other ports begin while a port waits.
  lemma PassedOverAtMost(cfg: Config, m: Mux, xs: seq<In>, q: nat)
    requires Typed(cfg, m) && q < cfg.ports && cfg.roundRobin && WaitsThrough(cfg, m, xs, q)
    requires forall i :: 0 <= i < |xs| ==> Fits(cfg, xs[i])
    ensures StartsIn(cfg, m, xs) <= cfg.ports - 1
  {
    StartsBounded(cfg, m, xs, q);
    NextRank(cfg, NextPort(cfg, m.port), q, q);
    hide StartsIn, WaitsThrough;
  }
}
