// Each stream beat of a job carries the header of its TLP; TLPs cover the job exactly.
module MemWriteProof {
  import opened Wrappers
  import opened Arith
  import opened MemWrite

  // A job with the stream beats it has taken.
  datatype Job = Job(addr: nat, len: nat, chunks: seq<Chunk>)

  function Beats(cfg: Config, len: nat): nat
    requires cfg.Ok()
  {
    Ceil(len, cfg.bus)
  }

  function Tlps(cfg: Config, len: nat): nat
    requires cfg.Ok()
  {
    Ceil(len, cfg.Payload())
  }

  // The TLP of beat j, and its place in it.
  function TlpOf(cfg: Config, j: nat): nat
    requires cfg.Ok()
  {
    j / cfg.PerTlp()
  }

  function PlaceOf(cfg: Config, j: nat): nat
    requires cfg.Ok()
  {
    j % cfg.PerTlp()
  }

  function AddrOf(cfg: Config, addr: nat, k: nat): nat
    requires cfg.Ok()
  {
    addr + k * cfg.Payload()
  }

  function HeaderOf(cfg: Config, job: Job, k: nat): Header
    requires cfg.Ok()
  {
    MakeHeader(cfg, job.len, AddrOf(cfg, job.addr, k), k + 1 == Tlps(cfg, job.len))
  }

  // Beat j of a job: its TLP's header, start and end marks at that TLP's first and last beat.
  function BeatOf(cfg: Config, job: Job, j: nat): Beat
    requires cfg.Ok() && j < |job.chunks|
  {
    Beat(HeaderOf(cfg, job, TlpOf(cfg, j)), job.chunks[j].data, Strobes(job.chunks[j].keep),
         PlaceOf(cfg, j) == 0, PlaceOf(cfg, j + 1) == 0 || j + 1 == Beats(cfg, job.len))
  }

  function BeatsOf(cfg: Config, job: Job): (bs: seq<Beat>)
    requires cfg.Ok()
    ensures |bs| == |job.chunks| && forall j :: 0 <= j < |bs| ==> bs[j] == BeatOf(cfg, job, j)
  {
    seq(|job.chunks|, j requires 0 <= j < |job.chunks| => BeatOf(cfg, job, j))
  }

  function Expected(cfg: Config, jobs: seq<Job>): seq<Beat>
    requires cfg.Ok()
  {
    if jobs == [] then [] else Expected(cfg, jobs[..|jobs| - 1]) + BeatsOf(cfg, jobs[|jobs| - 1])
  }

  // ---- Arithmetic of beats and TLPs ----

  lemma NextPlace(cfg: Config, j: nat)
    requires cfg.Ok()
    ensures PlaceOf(cfg, j) < cfg.PerTlp()
    ensures if PlaceOf(cfg, j) + 1 == cfg.PerTlp() then PlaceOf(cfg, j + 1) == 0 &&
      TlpOf(cfg, j + 1) == TlpOf(cfg, j) + 1
            else PlaceOf(cfg, j + 1) == PlaceOf(cfg, j) + 1 && TlpOf(cfg, j + 1) == TlpOf(cfg, j)
  {
    var b := cfg.PerTlp();
    DivBounds(j, b);
    MulStep(j / b, b);
    if j % b + 1 == b {
      DivUnique(j + 1, b, j / b + 1);
    } else {
      DivUnique(j + 1, b, j / b);
    }
  }

  lemma CeilOf(x: nat, d: nat)
    requires 0 < d && 0 < x
    ensures Ceil(x, d) == (x - 1) / d + 1
  {
    DivBounds(x, d);
    DivBounds(x - 1, d);
    if x % d == 0 {
      MulStep(x / d - 1, d);
      DivUnique(x - 1, d, x / d - 1);
    } else {
      DivUnique(x - 1, d, x / d);
    }
  }

  // Dividing by the bus and then by the beats per TLP is dividing by the payload.
  lemma DivTwice(x: nat, s: nat, b: nat)
    requires 0 < s && 0 < b
    ensures 0 < b * s && x / s / b == x / (b * s)
  {
    MulAtLeast(b, s);
    var q, r := x / s, x / s % b;
    DivBounds(x, s);
    DivBounds(q, b);
    MulOrder(r, b, s);
    MulOrder(r, 0, s);
    MulSum(q / b * b, r, s);
    MulAssoc(q / b, b, s);
    DivUnique(x, b * s, q / b);
  }

  lemma LastIn(len: nat, s: nat, b: nat, m: nat)
    requires 0 < len && 0 < s && 0 < b && 0 < m && b * s == m
    ensures 0 < Ceil(len, s) && (Ceil(len, s) - 1) / b + 1 == Ceil(len, m)
  {
    CeilOf(len, s);
    CeilOf(len, m);
    DivTwice(len - 1, s, b);
    hide Ceil;
  }

  // The last beat belongs to the last TLP.
  lemma LastBeatLastTlp(cfg: Config, len: nat)
    requires cfg.Ok() && 0 < len
    ensures 0 < Beats(cfg, len) && TlpOf(cfg, Beats(cfg, len) - 1) + 1 == Tlps(cfg, len)
  {
    hide Config.PerTlp, Config.Payload, Ceil;
    LastIn(len, cfg.bus, cfg.PerTlp(), cfg.Payload());
  }

  lemma TlpOrder(cfg: Config, i: nat, j: nat)
    requires cfg.Ok() && i <= j
    ensures TlpOf(cfg, i) <= TlpOf(cfg, j)
  {
    var b := cfg.PerTlp();
    DivBounds(i, b);
    DivBounds(j, b);
    MulOrder(j / b, i / b, b);
  }

  // ---- The writer's registers ----

  predicate InJob(cfg: Config, w: Writer, job: Job)
    requires cfg.Ok()
  {
    && w.len == job.len && w.cycle == Beats(cfg, job.len) && w.op == |job.chunks| && w.op <= w.cycle
    && (w.op < w.cycle ==>
          w.tr == Tlps(cfg, job.len) - TlpOf(cfg, w.op) && w.addr == AddrOf(cfg, job.addr, TlpOf(cfg, w.op)))
    && (w.op == w.cycle ==> w.op == 0)
  }

  lemma StepInJob(cfg: Config, w: Writer, half: bool, x: In, job: Job)
    requires cfg.Ok() && w.active && InJob(cfg, w, job) && Takes(w, x) && w.op < w.cycle
    ensures var job' := job.(chunks := job.chunks + [x.chunk.value]);
      && Push(cfg, w, x) == Some(BeatOf(cfg, job', |job.chunks|))
      && (if Step(cfg, w, half, x).active then InJob(cfg, Step(cfg, w, half, x), job')
          else |job'.chunks| == Beats(cfg, job.len))
  {
    var j, n, b := w.op, Tlps(cfg, job.len), cfg.PerTlp();
    NextPlace(cfg, j);
    PlaceMarks(cfg, j);
    LastBeatLastTlp(cfg, job.len);
    TlpOrder(cfg, j, w.cycle - 1);
    AddrStep(cfg, job.addr, TlpOf(cfg, j));
    if j + 1 < w.cycle {
      TlpOrder(cfg, j + 1, w.cycle - 1);
    }
    hide TlpOf, PlaceOf, AddrOf, MakeHeader, Tlps, Beats, Strobes;
  }

  lemma AddrStep(cfg: Config, addr: nat, k: nat)
    requires cfg.Ok()
    ensures AddrOf(cfg, addr, k + 1) == AddrOf(cfg, addr, k) + cfg.Payload()
  {
    MulStep(k, cfg.Payload());
  }

  // The start and end tests on the low bits of the beat counter.
  lemma PlaceMarks(cfg: Config, j: nat)
    requires cfg.Ok()
    ensures (j + 1) % cfg.PerTlp() == 1 <==> PlaceOf(cfg, j) == 0
    ensures ((j + 1) % cfg.PerTlp() == 0 && (j + 1) / cfg.PerTlp() != 0) <==> PlaceOf(cfg, j + 1) == 0
  {
    NextPlace(cfg, j);
    DivBounds(j + 1, cfg.PerTlp());
  }

  // ---- What the TLPs of a job are ----

  // Bytes carried by TLP k.
  function Share(cfg: Config, len: nat, k: nat): int
    requires cfg.Ok()
  {
    if k + 1 == Tlps(cfg, len) then len - k * cfg.Payload() else cfg.Payload()
  }

  lemma ShareBounds(cfg: Config, len: nat, k: nat)
    requires cfg.Ok() && k < Tlps(cfg, len)
    ensures 1 <= Share(cfg, len, k) <= cfg.Payload()
    ensures k * cfg.Payload() + Share(cfg, len, k) == (if k + 1 == Tlps(cfg, len) then len else (k + 1) * cfg.Payload())
    ensures k + 1 == Tlps(cfg, len) ==>
      Share(cfg, len, k) == (if len % cfg.Payload() == 0 then cfg.Payload() else len % cfg.Payload())
  {
    var m := cfg.Payload();
    DivBounds(len, m);
    MulStep(k, m);
    hide Config.Payload, Config.Ok;
  }

  // The length field is the number of DWs of the TLP's bytes if and only if the code is at most 2 or the TLP
  // is not full: with code 3 a full TLP's 256 DWs come out as 0, which means 1024.
  lemma LengthExact(cfg: Config, len: nat, k: nat)
    requires cfg.Ok() && k < Tlps(cfg, len)
    ensures LengthField(cfg, len, k + 1 == Tlps(cfg, len)) == Ceil(Share(cfg, len, k), 4)
       <==> cfg.code < 3 || Share(cfg, len, k) < 1024
  {
    ShareBounds(cfg, len, k);
    var m, r := cfg.Payload(), len % cfg.Payload();
    ModOfMultiple(len, m, 4);
    hide Tlps, Share, Config.Ok;
  }

  function SumLengths(cfg: Config, len: nat, n: nat): nat
    requires cfg.Ok()
  {
    if n == 0 then 0 else SumLengths(cfg, len, n - 1) + LengthField(cfg, len, n == Tlps(cfg, len))
  }

  // Up to code 2 the TLPs' lengths add up to the DWs of the job.
  lemma LengthsAddUp(cfg: Config, len: nat)
    requires cfg.Ok() && cfg.code < 3
    ensures SumLengths(cfg, len, Tlps(cfg, len)) == Ceil(len, 4)
  {
    var n := Tlps(cfg, len);
    if n == 0 {
      DivBounds(len, cfg.Payload());
      hide Config.Payload, Config.Ok;
    } else {
      FullLengths(cfg, len, n - 1);
      LengthExact(cfg, len, n - 1);
      ShareBounds(cfg, len, n - 1);
      QuarterPayload(cfg, n - 1);
      assert Ceil(len, 4) == (n - 1) * (cfg.Payload() / 4) + Ceil(Share(cfg, len, n - 1), 4) by {
        AddMultiple(Share(cfg, len, n - 1), (n - 1) * (cfg.Payload() / 4), 4);
        hide Share, Tlps, Config.Payload, LengthField;
      }
      hide Share, Tlps, Config.Payload, LengthField, Ceil, Config.Ok;
    }
  }

  lemma QuarterPayload(cfg: Config, k: nat)
    ensures k * cfg.Payload() == k * (cfg.Payload() / 4) * 4
  {
  }

  lemma {:induction false} FullLengths(cfg: Config, len: nat, n: nat)
    requires cfg.Ok() && cfg.code < 3 && n < Tlps(cfg, len)
    ensures SumLengths(cfg, len, n) == n * (cfg.Payload() / 4)
  {
    if n > 0 {
      FullLengths(cfg, len, n - 1);
      MulStep(n - 1, cfg.Payload() / 4);
      hide Tlps;
    }
  }

  // Start and end marks stand exactly where the TLP changes.
  lemma MarksBracket(cfg: Config, job: Job, j: nat)
    requires cfg.Ok() && j < |job.chunks| <= Beats(cfg, job.len)
    ensures var b := BeatOf(cfg, job, j);
      && (b.sop <==> j == 0 || TlpOf(cfg, j - 1) != TlpOf(cfg, j))
      && (b.eop <==> j + 1 == Beats(cfg, job.len) || TlpOf(cfg, j + 1) != TlpOf(cfg, j))
      && b.hdr == HeaderOf(cfg, job, TlpOf(cfg, j))
      && TlpOf(cfg, j) < Tlps(cfg, job.len)
  {
    NextPlace(cfg, j);
    if j > 0 {
      NextPlace(cfg, j - 1);
    } else {
      DivBounds(0, cfg.PerTlp());
      assert PlaceOf(cfg, 0) == 0;
    }
    assert 0 < job.len by { DivBounds(0, cfg.bus); }
    LastBeatLastTlp(cfg, job.len);
    TlpOrder(cfg, j, Beats(cfg, job.len) - 1);
    hide TlpOf, PlaceOf, Tlps, Beats, HeaderOf, Strobes, Config.PerTlp;
  }

  // How many DWs a length field stands for (section 2.2.2 of the PCI Express Base Specification).
  function Dwords(field: nat): nat {
    if field == 0 then 1024 else field
  }

  // Byte number i from the header's address on is enabled.
  predicate Enables(h: Header, i: nat) {
    && |h.firstBe| == |h.lastBe| == 4 && i < 4 * Dwords(h.dwords)
    && (if i / 4 == 0 then h.firstBe[i % 4] else if i / 4 == Dwords(h.dwords) - 1 then h.lastBe[i % 4] else true)
  }

  // Unless its length field is wrong the header of TLP k enables as many bytes as the TLP has, from the first.
  lemma EnablesShare(cfg: Config, job: Job, k: nat, i: nat)
    requires cfg.Ok() && k < Tlps(cfg, job.len) && (cfg.code < 3 || Share(cfg, job.len, k) < 1024)
    ensures Enables(HeaderOf(cfg, job, k), i) <==> i < Share(cfg, job.len, k)
  {
    var n, last := Share(cfg, job.len, k), k + 1 == Tlps(cfg, job.len);
    LengthExact(cfg, job.len, k);
    ShareBounds(cfg, job.len, k);
    assert n % 4 == (if last then job.len % 4 else 0) by { ModOfMultiple(job.len, cfg.Payload(), 4); }
    var h := HeaderOf(cfg, job, k);
    assert h.dwords == Ceil(n, 4);
    hide Share, Tlps, AddrOf, LengthField, Config.Ok;
  }

  // Host byte b is written by the header.
  predicate Writes(h: Header, b: nat) {
    h.addr <= b && Enables(h, b - h.addr)
  }

  ghost predicate WritesShare(cfg: Config, job: Job, k: nat)
    requires cfg.Ok()
  {
    forall b: nat :: Writes(HeaderOf(cfg, job, k), b) <==>
      AddrOf(cfg, job.addr, k) <= b < AddrOf(cfg, job.addr, k) + Share(cfg, job.len, k)
  }

  // TLP k writes exactly its share of the job's host range if and only if the job starts at a multiple of four
  // and the length field is right: the byte enables follow the length alone, and the header's address drops the
  // two low bits.
  lemma WritesExact(cfg: Config, job: Job, k: nat)
    requires cfg.Ok() && k < Tlps(cfg, job.len)
    ensures WritesShare(cfg, job, k) <==> job.addr % 4 == 0 && (cfg.code < 3 || Share(cfg, job.len, k) < 1024)
  {
    var h, a, n := HeaderOf(cfg, job, k), AddrOf(cfg, job.addr, k), Share(cfg, job.len, k);
    ShareBounds(cfg, job.len, k);
    HeaderAddress(cfg, job, k);
    if cfg.code < 3 || n < 1024 {
      forall i: nat ensures Enables(h, i) <==> i < n {
        EnablesShare(cfg, job, k, i);
      }
      hide HeaderOf, AddrOf, Share, Tlps, Enables, Config.Ok;
      if job.addr % 4 == 0 {
        assert WritesShare(cfg, job, k);
      } else {
        assert Writes(h, h.addr) && h.addr < a;
      }
    } else {
      FullCode3(cfg, job, k);
      hide HeaderOf, AddrOf, Share, Tlps, Enables, Config.Ok;
      assert Writes(h, h.addr + 2048);
    }
  }

  lemma HeaderAddress(cfg: Config, job: Job, k: nat)
    requires cfg.Ok()
    ensures var a := AddrOf(cfg, job.addr, k); HeaderOf(cfg, job, k).addr == a - a % 4 && a % 4 == job.addr % 4
  {
    var q := k * (cfg.Payload() / 4);
    QuarterPayload(cfg, k);
    AddMultiple(job.addr, q, 4);
    hide LengthField, LastLanes, Config.Ok, Tlps;
  }

  lemma FullCode3(cfg: Config, job: Job, k: nat)
    requires cfg.Ok() && k < Tlps(cfg, job.len) && cfg.code == 3 && Share(cfg, job.len, k) == 1024
    ensures Enables(HeaderOf(cfg, job, k), 2048)
  {
    ShareBounds(cfg, job.len, k);
    hide Tlps, Share, AddrOf, LastLanes;
  }

  // Both failures at their smallest: one TLP of 1024 bytes with code 3, and four bytes for address 1.
  lemma LengthWrong()
    ensures var cfg := Config(64, 3);
      cfg.Ok() && Tlps(cfg, 1024) == 1 && LengthField(cfg, 1024, true) == 0 && Ceil(Share(cfg, 1024, 0), 4) == 256
  {
  }

  lemma WriteMisplaced()
    ensures var cfg, job := Config(64, 2), Job(1, 4, []);
      && cfg.Ok() && Tlps(cfg, 4) == 1 && !WritesShare(cfg, job, 0)
      && Writes(HeaderOf(cfg, job, 0), 0) && !Writes(HeaderOf(cfg, job, 0), 4)
  {
    var cfg, job := Config(64, 2), Job(1, 4, []);
    WritesExact(cfg, job, 0);
    EnablesShare(cfg, job, 0, 0);
    EnablesShare(cfg, job, 0, 4);
    HeaderAddress(cfg, job, 0);
  }

  // From a base that is a multiple of the payload no TLP crosses a 4 KB boundary
  // (section 2.2.7 of the PCI Express Base Specification).
  lemma TlpStaysInPage(cfg: Config, addr: nat, len: nat, k: nat)
    requires cfg.Ok() && k < Tlps(cfg, len) && addr % cfg.Payload() == 0
    ensures AddrOf(cfg, addr, k) / 4096 == (AddrOf(cfg, addr, k) + Share(cfg, len, k) - 1) / 4096
  {
    ShareBounds(cfg, len, k);
    var m, a := cfg.Payload(), AddrOf(cfg, addr, k);
    AddMultiple(addr, k, m);
    assert a % m == 0;
    InPage(a, m, Share(cfg, len, k));
  }

  lemma InPage(a: nat, m: nat, n: int)
    requires m in {128, 256, 512, 1024} && a % m == 0 && 1 <= n <= m
    ensures a / 4096 == (a + n - 1) / 4096
  {
    var q, pages := a / m, 4096 / m;
    DivBounds(a, m);
    assert pages * m == 4096;
    DivTwice(a, m, pages);
    DivUnique(a + n - 1, m, q);
    DivTwice(a + n - 1, m, pages);
  }
}
