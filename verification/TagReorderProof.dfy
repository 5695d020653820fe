// Tag reordering against a host memory that answers each read in beats, in any order across tags.
module TagReorderProof {
  import opened Arith
  import opened AxiBus
  import opened SegmentBanks
  import opened TagReorder

  // The device, every request it made, how many beats each got back, and the stream so far.
  datatype System = System(dev: Device, reqs: seq<Request>, sent: seq<nat>, out: seq<Out>)

  // Deliver: the host returns the next beat of request k.
  datatype Action = Allocate | Deliver(k: nat, data: Word) | Drain | Release

  type Host = int -> Byte

  // Number of stream beats in request k of a job.
  function Beats(len: nat, k: nat): (n: nat)
    requires k < Ceil(len, READ)
    ensures 1 <= n <= READ_BEATS
  {
    TableEntry(len, k + 1 == Ceil(len, READ))
  }

  // The host may answer a request that is not fully answered, with the bytes it asked for.
  ghost predicate Legal(host: Host, s: System, a: Action) {
    a.Deliver? ==>
      && a.k < |s.reqs| && a.k < |s.sent|
      && s.sent[a.k] < Ceil(s.reqs[a.k].dwords, BUS / 4)
      && |a.data| == BUS
      && forall i :: 0 <= i < BUS && BUS * s.sent[a.k] + i < 4 * s.reqs[a.k].dwords ==>
           a.data[i] == host(s.reqs[a.k].addr + BUS * s.sent[a.k] + i)
  }

  function EventOf(s: System, a: Action): Event
    requires a.Deliver? ==> a.k < |s.reqs|
  {
    match a
    case Allocate => Event.Allocate
    case Deliver(k, data) => Completion(s.reqs[k].tag, data)
    case Drain => Event.Drain
    case Release => Event.Release
  }

  ghost function Next(cfg: Config, host: Host, s: System, a: Action): System
    requires Typed(cfg, s.dev) && |s.sent| == |s.reqs| && Legal(host, s, a)
  {
    var e := EventOf(s, a);
    var asked := Issues(cfg, s.dev, e);
    System(Step(cfg, s.dev, e), s.reqs + asked,
           (if a.Deliver? then s.sent[a.k := s.sent[a.k] + 1] else s.sent) + seq(|asked|, _ => 0),
           s.out + Emits(cfg, s.dev, e))
  }

  ghost predicate LegalRun(cfg: Config, host: Host, s: System, run: seq<Action>)
    requires Typed(cfg, s.dev) && |s.sent| == |s.reqs|
    decreases |run|
  {
    run == [] || (Legal(host, s, run[0]) && LegalRun(cfg, host, Next(cfg, host, s, run[0]), run[1..]))
  }

  ghost function After(cfg: Config, host: Host, s: System, run: seq<Action>): (s': System)
    requires Typed(cfg, s.dev) && |s.sent| == |s.reqs| && LegalRun(cfg, host, s, run)
    ensures Typed(cfg, s'.dev) && |s'.sent| == |s'.reqs|
    decreases |run|
  {
    if run == [] then s else After(cfg, host, Next(cfg, host, s, run[0]), run[1..])
  }

  function Begin(cfg: Config, job: Job): System {
    System(Start(cfg, job), [], [], [])
  }

  // The two sides count beats alike: requests before k carry eight beats each, all of them the total.
  lemma BeatsTile(len: nat, k: nat)
    requires k < Ceil(len, READ)
    ensures READ_BEATS * k + Beats(len, k) <= Ceil(len, BUS)
    ensures k + 1 < Ceil(len, READ) ==> Beats(len, k) == READ_BEATS
    ensures k + 1 == Ceil(len, READ) ==> READ_BEATS * k + Beats(len, k) == Ceil(len, BUS)
  {
    var last := len % READ;
    assert len == READ * (len / READ) + last;
    assert len / BUS == READ_BEATS * (len / READ) + last / BUS;
    assert len % BUS == last % BUS;
  }

  // The header's DW length asks for exactly the beats written in the tag table, and covers the job's bytes.
  lemma LengthsAgree(len: nat, k: nat)
    requires k < Ceil(len, READ)
    ensures var dwords := DwordLength(len, k + 1 == Ceil(len, READ));
      && Ceil(dwords, BUS / 4) == Beats(len, k)
      && (if k + 1 == Ceil(len, READ) then len <= READ * k + 4 * dwords < len + 4
          else 4 * dwords == READ && READ * (k + 1) < len)
  {
    LastIndex(len, k);
    hide Ceil;
    ModsOfRead(len);
    LastLengths(len % READ);
  }

  lemma ModsOfRead(len: nat)
    ensures len % BUS == len % READ % BUS && len % 4 == len % READ % 4
  {
  }

  lemma LastIndex(len: nat, k: nat)
    requires k < Ceil(len, READ)
    ensures k + 1 < Ceil(len, READ) ==> READ * (k + 1) < len
    ensures k + 1 == Ceil(len, READ) ==> len == READ * k + (if len % READ == 0 then READ else len % READ)
  {
  }

  lemma LastLengths(r: nat)
    requires r < READ
    ensures var dwords := if r == 0 then READ_DWORDS else r / 4 + (if r % 4 != 0 then 1 else 0);
      && Ceil(dwords, 16) == (if r == 0 then READ_BEATS else r / BUS + (if r % BUS != 0 then 1 else 0))
      && (if r == 0 then 4 * dwords == READ else r <= 4 * dwords < r + 4)
  {
    var q, m := r / BUS, r % BUS;
    assert r == BUS * q + m && r / 4 == 16 * q + m / 4 && r % 4 == m % 4;
    var d := m / 4 + (if m % 4 != 0 then 1 else 0);
    assert 0 <= d <= 16 && (d == 0 <==> m == 0);
  }

  function RequestOf(cfg: Config, job: Job, k: nat): Request
    requires cfg.Ok()
  {
    Header(job, job.addr + READ * k, k % cfg.tags, k + 1 == Ceil(job.len, READ))
  }

  // Beat i of the requested range.
  ghost predicate BeatOk(host: Host, job: Job, i: nat, w: Word) {
    |w| == BUS && forall b :: 0 <= b < BUS && BUS * i + b < job.len ==> w[b] == host(job.addr + BUS * i + b)
  }

  // A tag in flight for request k: answered up to `sent`, drained up to `popped`.
  ghost predicate InFlight(host: Host, job: Job, k: nat, entry: nat, fifo: seq<Word>, sent: nat, popped: nat) {
    && k < Ceil(job.len, READ)
    && entry == Beats(job.len, k)
    && popped <= sent <= entry
    && |fifo| == sent - popped
    && forall j :: 0 <= j < |fifo| ==> BeatOk(host, job, READ_BEATS * k + popped + j, fifo[j])
  }

  predicate Free(entry: nat, fifo: seq<Word>) {
    entry == 0 && fifo == []
  }

  // Number of requests whose tag was given back.
  function Back(d: Device): int {
    d.issued - d.held
  }

  // Beats drained from the oldest request in flight.
  function Progress(d: Device): nat {
    if d.releasing && 0 <= Back(d) < Ceil(d.job.len, READ) then Beats(d.job.len, Back(d)) else d.cycle
  }

  // Beats streamed out so far.
  function Done(d: Device): int {
    if Back(d) == d.requests then d.expected else READ_BEATS * Back(d) + Progress(d)
  }

  ghost predicate Counters(cfg: Config, job: Job, d: Device) {
    && Typed(cfg, d) && job.Ok() && d.job == job
    && d.requests == Ceil(job.len, READ) && d.expected == Ceil(job.len, BUS)
    && d.issued <= d.requests && d.held <= d.issued && d.held <= cfg.room
    && d.tlpAddr == job.addr + READ * d.issued
    && d.wrTag == d.issued % cfg.tags && d.rdTag == Back(d) % cfg.tags
    && (d.releasing ==> 0 < d.held && d.cycle == 0)
    && (if d.held == 0 then d.cycle == 0 else d.cycle < Beats(job.len, Back(d)))
    && d.left + Done(d) == d.expected
  }

  // What tag t holds: the one request that can own it, or nothing.
  ghost predicate TagOk(cfg: Config, host: Host, d: Device, sent: seq<nat>, t: nat)
    requires Typed(cfg, d) && t < cfg.tags && d.held <= d.issued && |sent| == d.issued
  {
    var k := NextIn(cfg.tags, t, Back(d));
    if k < d.issued then
      InFlight(host, d.job, k, d.table[t], d.fifos[t], sent[k], if k == Back(d) then Progress(d) else 0)
    else Free(d.table[t], d.fifos[t])
  }

  ghost predicate TagsOk(cfg: Config, host: Host, d: Device, sent: seq<nat>)
    requires Typed(cfg, d) && d.held <= d.issued && |sent| == d.issued
  {
    forall t :: 0 <= t < cfg.tags ==> TagOk(cfg, host, d, sent, t)
  }

  ghost predicate AsksOk(cfg: Config, job: Job, reqs: seq<Request>)
    requires cfg.Ok()
  {
    forall k :: 0 <= k < |reqs| ==> reqs[k] == RequestOf(cfg, job, k)
  }

  // Every request was answered at most in full, and the first `back` of them in full.
  ghost predicate SentOk(len: nat, sent: seq<nat>, back: int) {
    && |sent| <= Ceil(len, READ)
    && forall k :: 0 <= k < |sent| ==> sent[k] <= Beats(len, k) && (k < back ==> sent[k] == Beats(len, k))
  }

  function Sum(s: seq<nat>): nat {
    if s == [] then 0 else Sum(s[..|s| - 1]) + s[|s| - 1]
  }

  // Output beat i: the host's bytes, full except perhaps the last, which alone carries tlast.
  ghost predicate OutOk(host: Host, job: Job, i: nat, o: Out) {
    && BeatOk(host, job, i, o.data)
    && (o.last <==> i + 1 == Ceil(job.len, BUS))
    && i < Ceil(job.len, BUS)
    && o.keep == (if o.last then job.len - BUS * i else BUS)
  }

  ghost predicate StreamOk(host: Host, job: Job, out: seq<Out>) {
    forall i :: 0 <= i < |out| ==> OutOk(host, job, i, out[i])
  }

  ghost predicate Inv(cfg: Config, host: Host, job: Job, s: System) {
    && Counters(cfg, job, s.dev)
    && |s.reqs| == |s.sent| == s.dev.issued
    && AsksOk(cfg, job, s.reqs)
    && SentOk(job.len, s.sent, Back(s.dev))
    && s.dev.got == Sum(s.sent)
    && TagsOk(cfg, host, s.dev, s.sent)
    && |s.out| == Done(s.dev) && StreamOk(host, job, s.out)
  }

  lemma BeginOk(cfg: Config, host: Host, job: Job)
    requires cfg.Ok() && job.Ok()
    ensures Inv(cfg, host, job, Begin(cfg, job))
  {
    var d := Start(cfg, job);
    forall t | 0 <= t < cfg.tags ensures TagOk(cfg, host, d, [], t) {
      assert d.table[t] == 0 && d.fifos[t] == [];
    }
  }

  // ---- Sums of answered beats ----

  lemma {:induction false} SumBump(s: seq<nat>, k: nat)
    requires k < |s|
    ensures Sum(s[k := s[k] + 1]) == Sum(s) + 1
  {
    var n := |s| - 1;
    if k < n {
      SumBump(s[..n], k);
      assert s[k := s[k] + 1][..n] == s[..n][k := s[k] + 1];
    } else {
      assert s[k := s[k] + 1][..n] == s[..n];
    }
  }

  lemma SumZero(s: seq<nat>)
    ensures Sum(s + [0]) == Sum(s)
  {
    assert (s + [0])[..|s|] == s;
  }

  // Beats of the first n requests.
  function Upto(len: nat, n: nat): nat {
    if n == Ceil(len, READ) then Ceil(len, BUS) else READ_BEATS * n
  }

  // All of the first n requests answered in full, or fewer beats than that were received.
  lemma {:induction false} SumFull(len: nat, sent: seq<nat>)
    requires SentOk(len, sent, 0) && 0 < len
    ensures Sum(sent) <= Upto(len, |sent|)
    ensures Sum(sent) == Upto(len, |sent|) <==> SentOk(len, sent, |sent|)
  {
    if sent != [] {
      var n := |sent| - 1;
      SumFull(len, sent[..n]);
      BeatsTile(len, n);
      assert sent == sent[..n] + [sent[n]];
      assert SentOk(len, sent, |sent|) <==> SentOk(len, sent[..n], n) && sent[n] == Beats(len, n);
    }
  }

  // ---- One step at a time ----

  // Two numbers less than the table size apart never share a tag.
  lemma OwnerOf(cfg: Config, d: Device, k: nat)
    requires Typed(cfg, d) && d.held <= d.issued && Back(d) <= k < Back(d) + cfg.tags
    ensures NextIn(cfg.tags, k % cfg.tags, Back(d)) == k
  {
    FirstIn(cfg.tags, k % cfg.tags, Back(d), k);
  }

  lemma SmallMod(x: nat, n: nat)
    requires x < n
    ensures x % n == x
  {
    DivUnique(x, n, 0);
  }

  lemma NextTag(tags: nat, k: nat)
    requires 0 < tags
    ensures (k % tags + 1) % tags == (k + 1) % tags
  {
    DivBounds(k, tags);
    AddMultiple(k % tags + 1, k / tags, tags);
  }

  lemma OwnTag(cfg: Config, d: Device, t: nat)
    requires Typed(cfg, d) && d.held <= d.issued && t < cfg.tags
    ensures NextIn(cfg.tags, t, Back(d)) % cfg.tags == t
    ensures Back(d) <= NextIn(cfg.tags, t, Back(d)) < Back(d) + cfg.tags
  {
    InBank(cfg.tags, t, Back(d));
  }

  lemma TagsAfterAllocate(cfg: Config, host: Host, job: Job, d: Device, sent: seq<nat>)
    requires Counters(cfg, job, d) && CanAllocate(cfg, d) && |sent| == d.issued && TagsOk(cfg, host, d, sent)
    ensures TagsOk(cfg, host, Allocated(cfg, d), sent + [0])
  {
    var d' := Allocated(cfg, d);
    OwnerOf(cfg, d, d.issued);
    forall t | 0 <= t < cfg.tags ensures TagOk(cfg, host, d', sent + [0], t) {
      OwnTag(cfg, d, t);
      assert TagOk(cfg, host, d, sent, t);
      hide NextIn, BeatOk;
    }
  }

  lemma AllocateKept(cfg: Config, host: Host, job: Job, s: System)
    requires Inv(cfg, host, job, s) && CanAllocate(cfg, s.dev)
    ensures Inv(cfg, host, job, Next(cfg, host, s, Action.Allocate))
  {
    hide *;
    NextAllocate(cfg, host, job, s);
    AllocateParts(cfg, host, job, s);
    TagsAfterAllocate(cfg, host, job, s.dev, s.sent);
    NextTag(cfg.tags, s.dev.issued);
    CountersAfterAllocate(cfg, job, s.dev);
    SumZero(s.sent);
    InvFrom(cfg, host, job, Next(cfg, host, s, Action.Allocate));
  }

  lemma NextAllocate(cfg: Config, host: Host, job: Job, s: System)
    requires Inv(cfg, host, job, s) && CanAllocate(cfg, s.dev)
    ensures Typed(cfg, s.dev) && |s.sent| == |s.reqs| && Legal(host, s, Action.Allocate)
    ensures var s' := Next(cfg, host, s, Action.Allocate);
      && s'.dev == Allocated(cfg, s.dev) && s'.sent == s.sent + [0] && s'.out == s.out
      && s'.reqs == s.reqs + [Header(s.dev.job, s.dev.tlpAddr, s.dev.wrTag, IsLast(s.dev))]
  {
    hide Header, Ceil, TableEntry, TagsOk, StreamOk, AsksOk, SentOk, Sum;
  }

  // The parts of the invariant an allocation moves.
  lemma AllocateParts(cfg: Config, host: Host, job: Job, s: System)
    requires Inv(cfg, host, job, s) && CanAllocate(cfg, s.dev)
    ensures 0 < cfg.tags && Counters(cfg, job, s.dev) && |s.sent| == |s.reqs| == s.dev.issued
    ensures TagsOk(cfg, host, s.dev, s.sent)
    ensures s.dev.got == Sum(s.sent) && |s.out| == Done(s.dev) && StreamOk(host, job, s.out)
    ensures AsksOk(cfg, job, s.reqs + [Header(s.dev.job, s.dev.tlpAddr, s.dev.wrTag, IsLast(s.dev))])
    ensures SentOk(job.len, s.sent + [0], Back(s.dev))
  {
    hide Header, Ceil, TableEntry, TagsOk, StreamOk, Sum, Progress;
  }

  lemma CountersAfterAllocate(cfg: Config, job: Job, d: Device)
    requires Counters(cfg, job, d) && CanAllocate(cfg, d) &&
      (d.issued % cfg.tags + 1) % cfg.tags == (d.issued + 1) % cfg.tags
    ensures var d' := Allocated(cfg, d);
      Counters(cfg, job, d') && Back(d') == Back(d) && Done(d') == Done(d) && d'.got == d.got &&
        d'.issued == d.issued + 1
  {
    hide Ceil, TableEntry;
  }

  lemma InvFrom(cfg: Config, host: Host, job: Job, s: System)
    requires Counters(cfg, job, s.dev) && |s.reqs| == |s.sent| == s.dev.issued && AsksOk(cfg, job, s.reqs)
    requires SentOk(job.len, s.sent, Back(s.dev)) && s.dev.got == Sum(s.sent) && TagsOk(cfg, host, s.dev, s.sent)
    requires |s.out| == Done(s.dev) && StreamOk(host, job, s.out)
    ensures Inv(cfg, host, job, s)
  {
  }

  // Beat n of what a request's header asks for is a beat of the stream.
  lemma AnsweredBeat(cfg: Config, host: Host, job: Job, k: nat, n: nat, data: Word)
    requires cfg.Ok() && job.Ok() && k < Ceil(job.len, READ) && |data| == BUS
    requires var r := RequestOf(cfg, job, k);
      && n < Ceil(r.dwords, BUS / 4)
      && forall i :: 0 <= i < BUS && BUS * n + i < 4 * r.dwords ==> data[i] == host(r.addr + BUS * n + i)
    ensures n < Beats(job.len, k) && BeatOk(host, job, READ_BEATS * k + n, data)
  {
    LengthsAgree(job.len, k);
    HeaderAddress(cfg, job, k);
    var r := RequestOf(cfg, job, k);
    hide Ceil, DwordLength, RequestOf, Beats;
    var i := READ_BEATS * k + n;
    assert BUS * i == READ * k + BUS * n;
    forall b | 0 <= b < BUS && BUS * i + b < job.len ensures data[b] == host(job.addr + BUS * i + b) {
      assert BUS * n + b < 4 * r.dwords;
    }
  }

  lemma HeaderAddress(cfg: Config, job: Job, k: nat)
    requires cfg.Ok() && job.Ok()
    ensures RequestOf(cfg, job, k).addr == job.addr + READ * k
    ensures RequestOf(cfg, job, k).dwords == DwordLength(job.len, k + 1 == Ceil(job.len, READ))
  {
    assert job.addr == BUS * (job.addr / BUS);
  }

  // With a request not answered in full the device still expects beats.
  lemma StillListening(cfg: Config, job: Job, d: Device, sent: seq<nat>, k: nat)
    requires Counters(cfg, job, d) && |sent| == d.issued && SentOk(job.len, sent, Back(d)) && d.got == Sum(sent)
    requires k < d.issued && sent[k] < Beats(job.len, k)
    ensures Back(d) <= k && d.got < d.expected
  {
    SumFull(job.len, sent);
    BeatsTile(job.len, d.issued - 1);
    hide Sum, Ceil;
  }

  // A legal answer is for a request in flight, finds the device listening, and carries that request's next beat.
  lemma AnswerIsNext(cfg: Config, host: Host, job: Job, s: System, k: nat, data: Word)
    requires Inv(cfg, host, job, s) && Legal(host, s, Deliver(k, data))
    ensures Back(s.dev) <= k < s.dev.issued && s.sent[k] < Beats(job.len, k)
    ensures s.dev.got < s.dev.expected && s.reqs[k].tag == k % cfg.tags
    ensures BeatOk(host, job, READ_BEATS * k + s.sent[k], data)
  {
    assert s.reqs[k] == RequestOf(cfg, job, k);
    assert s.reqs[k].tag == k % cfg.tags;
    hide RequestOf, TagsOk, StreamOk, BeatOk, Ceil, Sum;
    AnsweredBeat(cfg, host, job, k, s.sent[k], data);
    StillListening(cfg, job, s.dev, s.sent, k);
  }

  lemma TagsAfterDeliver(cfg: Config, host: Host, job: Job, d: Device, sent: seq<nat>, k: nat, data: Word)
    requires Counters(cfg, job, d) && |sent| == d.issued && TagsOk(cfg, host, d, sent)
    requires Back(d) <= k < d.issued && sent[k] < Beats(job.len, k) && d.got < d.expected
    requires BeatOk(host, job, READ_BEATS * k + sent[k], data)
    ensures TagsOk(cfg, host, Received(cfg, d, k % cfg.tags, data), sent[k := sent[k] + 1])
  {
    var tag, sent' := k % cfg.tags, sent[k := sent[k] + 1];
    SmallMod(tag, cfg.tags);
    var d' := Received(cfg, d, tag, data);
    OwnerOf(cfg, d, k);
    hide TagOk, Received;
    forall t | 0 <= t < cfg.tags ensures TagOk(cfg, host, d', sent', t) {
      TagAfterDeliver(cfg, host, job, d, sent, k, data, t);
    }
  }

  lemma TagAfterDeliver(cfg: Config, host: Host, job: Job, d: Device, sent: seq<nat>, k: nat, data: Word, t: nat)
    requires Counters(cfg, job, d) && |sent| == d.issued && t < cfg.tags && TagOk(cfg, host, d, sent, t)
    requires Back(d) <= k < d.issued && sent[k] < Beats(job.len, k) && d.got < d.expected
    requires k % cfg.tags % cfg.tags == k % cfg.tags && NextIn(cfg.tags, k % cfg.tags, Back(d)) == k
    requires BeatOk(host, job, READ_BEATS * k + sent[k], data)
    ensures TagOk(cfg, host, Received(cfg, d, k % cfg.tags, data), sent[k := sent[k] + 1], t)
  {
    OwnTag(cfg, d, t);
    assert Progress(Received(cfg, d, k % cfg.tags, data)) == Progress(d);
    hide NextIn, BeatOk, Ceil, Beats, Progress;
    if t == k % cfg.tags {
      hide InFlight;
      var popped := if k == Back(d) then Progress(d) else 0;
      assert d.table[t] == Beats(job.len,
                                 k) by { BeatsRecorded(host, d.job, k, d.table[t], d.fifos[t], sent[k], popped); }
      Appended(host, job, k, d.table[t], d.fifos[t], sent[k], popped, data);
    }
  }

  lemma BeatsRecorded(host: Host, job: Job, k: nat, entry: nat, fifo: seq<Word>, sent: nat, popped: nat)
    requires InFlight(host, job, k, entry, fifo, sent, popped)
    ensures k < Ceil(job.len, READ) && entry == Beats(job.len, k)
  {
  }

  lemma Appended(host: Host, job: Job, k: nat, entry: nat, fifo: seq<Word>, sent: nat, popped: nat, data: Word)
    requires InFlight(host, job, k, entry, fifo, sent, popped) && sent < entry
    requires BeatOk(host, job, READ_BEATS * k + sent, data)
    ensures InFlight(host, job, k, entry, fifo + [data], sent + 1, popped)
  {
    hide BeatOk, Ceil;
  }

  lemma CountersAfterDeliver(cfg: Config, job: Job, d: Device, tag: nat, data: Word)
    requires Counters(cfg, job, d) && d.got < d.expected
    ensures var d' := Received(cfg, d, tag, data);
      Counters(cfg, job, d') && Back(d') == Back(d) && Done(d') == Done(d) && d'.got == d.got + 1 &&
        d'.issued == d.issued
  {
    hide Ceil, TableEntry;
  }

  lemma SentAfterDeliver(len: nat, sent: seq<nat>, back: int, k: nat)
    requires SentOk(len, sent, back) && back <= k < |sent| && sent[k] < Beats(len, k)
    ensures SentOk(len, sent[k := sent[k] + 1], back)
  {
    hide Ceil, Beats;
  }

  lemma DeliverKept(cfg: Config, host: Host, job: Job, s: System, k: nat, data: Word)
    requires Inv(cfg, host, job, s) && Legal(host, s, Deliver(k, data))
    ensures Inv(cfg, host, job, Next(cfg, host, s, Deliver(k, data)))
  {
    var s' := Next(cfg, host, s, Deliver(k, data));
    assert s'.sent == s.sent[k := s.sent[k] + 1];
    assert s'.out == s.out && s'.reqs == s.reqs && s'.dev == Received(cfg, s.dev, s.reqs[k].tag, data);
    AnswerIsNext(cfg, host, job, s, k, data);
    hide Counters, TagsOk, StreamOk, BeatOk, Ceil, AsksOk, SentOk, Sum, TableEntry, Received, Next, Back, Done;
    CountersAfterDeliver(cfg, job, s.dev, k % cfg.tags, data);
    SentAfterDeliver(job.len, s.sent, Back(s.dev), k);
    TagsAfterDeliver(cfg, host, job, s.dev, s.sent, k, data);
    SumBump(s.sent, k);
  }

  // The queue at the read pointer belongs to the oldest request, and its head is the next beat of the stream.
  lemma HeadIsNext(cfg: Config, host: Host, job: Job, d: Device, sent: seq<nat>)
    requires Counters(cfg, job, d) && |sent| == d.issued && TagsOk(cfg, host, d, sent) && d.fifos[d.rdTag] != []
    ensures 0 < d.held && !d.releasing
    ensures d.table[d.rdTag] == Beats(job.len, Back(d)) && d.cycle < sent[Back(d)]
    ensures Done(d) == READ_BEATS * Back(d) + d.cycle < d.expected
    ensures BeatOk(host, job, Done(d), d.fifos[d.rdTag][0])
  {
    OwnerOf(cfg, d, Back(d));
    assert TagOk(cfg, host, d, sent, d.rdTag);
    hide NextIn, BeatOk;
    BeatsTile(job.len, Back(d));
  }

  lemma TagsAfterDrain(cfg: Config, host: Host, job: Job, d: Device, sent: seq<nat>)
    requires Counters(cfg, job, d) && |sent| == d.issued && TagsOk(cfg, host, d, sent) && CanDrain(cfg, d)
    ensures TagsOk(cfg, host, Drained(cfg, d), sent)
  {
    HeadIsNext(cfg, host, job, d, sent);
    var d' := Drained(cfg, d);
    OwnerOf(cfg, d, Back(d));
    forall t | 0 <= t < cfg.tags ensures TagOk(cfg, host, d', sent, t) {
      OwnTag(cfg, d, t);
      assert TagOk(cfg, host, d, sent, t);
      hide NextIn, BeatOk;
    }
  }

  lemma DrainKept(cfg: Config, host: Host, job: Job, s: System)
    requires Inv(cfg, host, job, s) && CanDrain(cfg, s.dev)
    ensures Inv(cfg, host, job, Next(cfg, host, s, Action.Drain))
  {
    HeadIsNext(cfg, host, job, s.dev, s.sent);
    TagsAfterDrain(cfg, host, job, s.dev, s.sent);
    var s' := Next(cfg, host, s, Action.Drain);
    assert s'.sent == s.sent && s'.reqs == s.reqs;
    var o := OutBeat(cfg, s.dev);
    assert s'.out == s.out + [o];
    assert OutOk(host, job, |s.out|, o);
    BeatsTile(job.len, Back(s.dev));
    hide TagsOk, BeatOk, Ceil, OutOk;
  }

  // The oldest request was answered and drained in full, so its queue is empty and its tag becomes free.
  lemma TagsAfterRelease(cfg: Config, host: Host, job: Job, d: Device, sent: seq<nat>)
    requires Counters(cfg, job, d) && |sent| == d.issued && TagsOk(cfg, host, d, sent) && d.releasing
    ensures sent[Back(d)] == Beats(job.len, Back(d))
    ensures TagsOk(cfg, host, Released(cfg, d), sent)
  {
    var d' := Released(cfg, d);
    OwnerOf(cfg, d, Back(d));
    assert TagOk(cfg, host, d, sent, d.rdTag);
    forall t | 0 <= t < cfg.tags ensures TagOk(cfg, host, d', sent, t) {
      OwnTag(cfg, d, t);
      MovedStart(cfg.tags, t, Back(d), Back(d) + 1);
      assert TagOk(cfg, host, d, sent, t);
      hide NextIn, BeatOk;
    }
  }

  lemma ReleaseKept(cfg: Config, host: Host, job: Job, s: System)
    requires Inv(cfg, host, job, s) && s.dev.releasing
    ensures Inv(cfg, host, job, Next(cfg, host, s, Action.Release))
  {
    TagsAfterRelease(cfg, host, job, s.dev, s.sent);
    NextTag(cfg.tags, Back(s.dev));
    var s' := Next(cfg, host, s, Action.Release);
    assert s'.sent == s.sent && s'.reqs == s.reqs && s'.out == s.out;
    BeatsTile(job.len, Back(s.dev));
    hide TagsOk, StreamOk, BeatOk, Ceil;
  }

  lemma StepKept(cfg: Config, host: Host, job: Job, s: System, a: Action)
    requires Inv(cfg, host, job, s) && Legal(host, s, a)
    ensures Inv(cfg, host, job, Next(cfg, host, s, a))
  {
    match a
    case Allocate => if CanAllocate(cfg, s.dev) { AllocateKept(cfg, host, job, s); }
      else { Idle(cfg, host, job, s, a); }
    case Deliver(k, data) => DeliverKept(cfg, host, job, s, k, data);
    case Drain => if CanDrain(cfg, s.dev) { DrainKept(cfg, host, job, s); } else { Idle(cfg, host, job, s, a); }
    case Release => if s.dev.releasing { ReleaseKept(cfg, host, job, s); } else { Idle(cfg, host, job, s, a); }
  }

  // A step whose guard is false changes nothing but the interrupt pulse.
  lemma Idle(cfg: Config, host: Host, job: Job, s: System, a: Action)
    requires Inv(cfg, host, job, s) && Legal(host, s, a)
    requires Step(cfg, s.dev, EventOf(s, a)) == s.dev.(irq := false) && !a.Deliver?
    requires Issues(cfg, s.dev, EventOf(s, a)) == [] && Emits(cfg, s.dev, EventOf(s, a)) == []
    ensures Next(cfg, host, s, a) == s.(dev := s.dev.(irq := false))
    ensures Inv(cfg, host, job, Next(cfg, host, s, a))
  {
    var s' := Next(cfg, host, s, a);
    assert s'.sent == s.sent && s'.reqs == s.reqs && s'.out == s.out;
    forall t | 0 <= t < cfg.tags ensures TagOk(cfg, host, s'.dev, s'.sent, t) {
      assert TagOk(cfg, host, s.dev, s.sent, t);
      hide NextIn, BeatOk, InFlight;
    }
  }

  lemma {:induction false} RunKept(cfg: Config, host: Host, job: Job, s: System, run: seq<Action>)
    requires Inv(cfg, host, job, s) && LegalRun(cfg, host, s, run)
    ensures Inv(cfg, host, job, After(cfg, host, s, run))
    decreases |run|
  {
    if run != [] {
      StepKept(cfg, host, job, s, run[0]);
      RunKept(cfg, host, job, Next(cfg, host, s, run[0]), run[1..]);
    }
  }
}
