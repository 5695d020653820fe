// The registers of pcie_tlp_mux and the two loops that set them each clock.
module TlpMuxUnit {
  import opened TlpMux
  import opened TlpMuxRun

  // The loop over ports: it runs to the end, but does nothing once a port was found.
  method Search(cfg: Config, m: Mux, x: In, c: Cyc) returns (s: Cyc)
    requires Typed(cfg, m) && Fits(cfg, x) && CycTyped(cfg, c)
    ensures CycTyped(cfg, s) && s == Select(cfg, m, x, c)
  {
    s := c;
    if !c.frame {
      hide Shows;
      var cur: nat := FirstTried(cfg, c.port);
      var tried: nat := 0;
      while tried < cfg.ports
        invariant tried <= cfg.ports && cur < cfg.ports && CycTyped(cfg, s)
        invariant if s.frame || tried == cfg.ports then s == Select(cfg, m, x, c)
                  else Select(cfg, m, x, c) == Try(cfg, m, x, c, cur, cfg.ports - tried)
                       && s == c.(port := s.port, lane := s.lane)
      {
        if !s.frame {
          s := s.(port := cur, lane := s.offsets[cur]);
          if Shows(cfg, m, x, c, cur) {
            s := s.(frame := true, starts := s.starts + [cur]);
          }
        }
        cur, tried := NextPort(cfg, cur), tried + 1;
      }
    }
  }

  // One output segment: route the selected lane, commit at the end of a frame or of the beat.
  method RouteSlot(cfg: Config, m: Mux, x: In, s: Cyc) returns (c: Cyc)
    requires Typed(cfg, m) && Fits(cfg, x) && CycTyped(cfg, s)
    ensures CycTyped(cfg, c) && c == Route(cfg, m, x, s)
  {
    var p := s.port;
    var shown, eop := Shows(cfg, m, x, s, p), ShowsEop(cfg, m, x, s, p);
    hide Shows, ShowsEop;
    c := s.(frame := s.frame && !eop, lane := s.lane + 1, shift := s.shift[p := s.shift[p] + 1],
            slots := s.slots + [Slot(p, s.lane)]);
    if s.frame && !s.abort {
      if shown {
        if (eop || |c.slots| == cfg.segs) && x.ready {
          c := c.(frameNext := c.frame, portNext := p, offsets := c.offsets[p := c.lane],
                  done := |c.slots|, begun := |c.starts|);
        }
      } else {
        c := c.(abort := true);
      }
    }
  }

  // The loop over output segments.
  method Fill(cfg: Config, m: Mux, x: In) returns (c: Cyc)
    requires Typed(cfg, m) && Fits(cfg, x)
    ensures CycTyped(cfg, c) && c == Filled(cfg, m, x, cfg.segs)
  {
    c := Begin(cfg, m);
    for seg := 0 to cfg.segs
      invariant CycTyped(cfg, c) && c == Filled(cfg, m, x, seg)
    {
      hide Select, Route;
      var s := Search(cfg, m, x, c);
      c := RouteSlot(cfg, m, x, s);
    }
  }

  class Multiplexer {
    const cfg: Config
    var frame: bool
    var port: nat
    const lanes: array<seq<Lane>>
    const offsets: array<nat>
    var out: seq<Sent>
    var temp: seq<Sent>
    var ready: bool

    predicate Sized()
      reads this
    {
      lanes.Length == offsets.Length == cfg.ports
    }

    function Holds(n: nat): (h: seq<Hold>)
      requires Sized() && n <= cfg.ports
      reads this, lanes, offsets
      ensures |h| == n && forall p :: 0 <= p < n ==> h[p] == Hold(lanes[p], offsets[p])
    {
      if n == 0 then [] else Holds(n - 1) + [Hold(lanes[n - 1], offsets[n - 1])]
    }

    function View(): System
      requires Sized()
      reads this, lanes, offsets
    {
      System(Mux(frame, port, Holds(cfg.ports)), Stage(out, temp, ready))
    }

    predicate Valid()
      reads this, lanes, offsets
    {
      Sized() && Typed(cfg, View().mux)
    }

    constructor (cfg: Config)
      requires 0 < cfg.ports && 0 < cfg.segs
      ensures this.cfg == cfg && fresh(lanes) && fresh(offsets) && Valid() && AtReset(cfg, View())
    {
      this.cfg := cfg;
      lanes := new seq<Lane>[cfg.ports](_ => seq(cfg.segs, _ => Lane(false, false, 0)));
      offsets := new nat[cfg.ports](_ => 0);
      frame, port := false, 0;
      out, temp, ready := [], [], false;
    }

    // One clock; gone is what the receiver took.
    method Clock(i: Input) returns (gone: seq<Sent>)
      requires Valid() && InputFits(cfg, i)
      modifies this, lanes, offsets
      ensures Valid() && View() == Next(cfg, old(View()), i) && gone == Leaving(old(View()).stage, i.outReady)
    {
      var m, x := Mux(frame, port, Holds(cfg.ports)), In(i.beats, i.pause, ready);
      var c := Fill(cfg, m, x);
      ReachKept(cfg, m, x, cfg.segs);
      StepTyped(cfg, m, x, c);
      hide Filled, Leaves;
      var beat := LeavingNow(m, x, c.slots[..c.done]);
      gone := Advance(beat, i.outReady);
      Refill(m, x, c);
      frame, port := c.frameNext, c.portNext;
      hide NextHold;
      assert Holds(cfg.ports) == NextHolds(cfg, m, x, c);
    }

    // The output register and the one behind it.
    method Advance(beat: seq<Sent>, outReady: bool) returns (gone: seq<Sent>)
      modifies this`out, this`temp, this`ready
      ensures Stage(out, temp, ready) == StageStep(old(Stage(out, temp, ready)), beat, outReady)
      ensures gone == Leaving(old(Stage(out, temp, ready)), outReady)
    {
      gone := if outReady then out else [];
      var early := outReady || (temp == [] && out == []);
      if ready {
        if outReady || out == [] {
          out := beat;
        } else {
          temp := beat;
        }
      } else if outReady {
        out, temp := temp, [];
      }
      ready := early;
    }

    // Spent lanes leave the hold registers; an emptied one takes the offered beat.
    method Refill(m: Mux, x: In, c: Cyc)
      requires Sized() && Typed(cfg, m) && Fits(cfg, x) && CycTyped(cfg, c) && m.holds == Holds(cfg.ports)
      requires forall p :: 0 <= p < cfg.ports ==> c.offsets[p] < 2 * cfg.segs
      modifies lanes, offsets
      ensures Sized()
      ensures forall p :: 0 <= p < cfg.ports ==>
        Hold(lanes[p], offsets[p]) == NextHold(cfg.segs, m.holds[p], c.offsets[p], x.beats[p])
    {
      var p := 0;
      while p < cfg.ports
        invariant p <= cfg.ports
        invariant forall q :: p <= q < cfg.ports ==> Hold(lanes[q], offsets[q]) == m.holds[q]
        invariant forall q :: 0 <= q < p ==>
          Hold(lanes[q], offsets[q]) == NextHold(cfg.segs, m.holds[q], c.offsets[q], x.beats[q])
      {
        var offset := c.offsets[p];
        var left := offset < cfg.segs && SomeValid(lanes[p][offset..]);
        var rest := offset;
        if cfg.segs <= offset {
          rest := offset - cfg.segs;
        } else if SomeValid(lanes[p]) && !left {
          rest := 0;
        }
        if !left {
          lanes[p] := x.beats[p];
        }
        offsets[p] := rest;
        p := p + 1;
      }
    }
  }

  // The lanes on the committed slots, in slot order.
  method LeavingNow(m: Mux, x: In, slots: seq<Slot>) returns (beat: seq<Sent>)
    requires |m.holds| == |x.beats|
    ensures beat == Leaves(m, x, slots)
  {
    beat := [];
    var k := 0;
    while k < |slots|
      invariant k <= |slots| && beat == Leaves(m, x, slots[..k])
    {
      var s := slots[k];
      assert slots[..k + 1][..k] == slots[..k];
      if s.port < |m.holds| {
        var full := Full(m, x, s.port);
        if s.lane < |full| && full[s.lane].valid {
          beat := beat + [Sent(s.port, full[s.lane])];
        }
      }
      k := k + 1;
    }
    assert slots[..k] == slots;
  }
}
