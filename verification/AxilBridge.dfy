// The whole AXI-Lite bridge over any run: accesses and completions in request order, nothing dropped.
module AxilBridge {
  import opened Wrappers
  import opened AxilRequest
  import opened AxilRequestProof
  import R = AxilResponse

  const DEPTH := 32

  datatype System = System(req: Req, bus: Bus, queue: seq<Entry>, half: bool, resp: R.Resp)

  datatype Input = Input(req: In, pins: R.Pins)

  // The request side sees the half-full flag of the queue, one clock late.
  function Seen(s: System, i: Input): In {
    i.req.(halfFull := s.half)
  }

  predicate Sized(width: nat, s: System) {
    AxilRequest.Typed(width, s.req)
  }

  predicate InputFits(width: nat, i: Input) {
    Fits(width, i.req)
  }

  function OpEntry(op: Op): Entry {
    match op
    case Read(_, e) => e
    case Write(_, _, _) => WriteEntry
    case Answer(e) => e
  }

  function Head(q: seq<Entry>): Option<Entry> {
    if q == [] then None else Some(q[0])
  }

  function Popped(width: nat, s: System, i: Input): nat {
    if R.Pops(width, s.resp, i.pins) && s.queue != [] then 1 else 0
  }

  function Pushed(o: Option<Op>): seq<Entry> {
    if o.Some? then [OpEntry(o.value)] else []
  }

  function Next(width: nat, s: System, i: Input): (s': System)
    requires Sized(width, s) && InputFits(width, i)
    ensures Sized(width, s')
  {
    var x := Seen(s, i);
    var o := AxilRequest.Step(width, s.req, s.bus, x);
    System(o.req, BusStep(s.bus, x, o.op), s.queue[Popped(width, s, i)..] + Pushed(o.op), DEPTH / 2 <= |s.queue|,
           R.Step(width, s.resp, i.pins, Head(s.queue)))
  }

  // Everything observed: accesses issued and requests taken, entries retired, beats sent,
  // and the addresses and write data the AXI-Lite side has taken.
  datatype Trace = Trace(hist: Hist, retired: seq<R.Retired>, beats: seq<R.Beat>, ars: seq<nat>, aws: seq<nat>)

  function Record(width: nat, s: System, i: Input, t: Trace): Trace
    requires Sized(width, s) && InputFits(width, i)
  {
    var x := Seen(s, i);
    Trace(HistStep(width, s.req, s.bus, x, t.hist),
          t.retired + R.Retires(width, s.resp, i.pins),
          t.beats + R.Sends(s.resp, i.pins),
          t.ars + (if s.bus.ar && x.arReady then [s.bus.addr] else []),
          t.aws + (if s.bus.aw && x.awReady then [s.bus.addr] else []))
  }

  // ---- Framing of the queue entries ----

  function Entries(ops: seq<Op>): (es: seq<Entry>)
    ensures |es| == |ops| && forall k :: 0 <= k < |es| ==> es[k] == OpEntry(ops[k])
  {
    seq(|ops|, k requires 0 <= k < |ops| => OpEntry(ops[k]))
  }

  // Reads open and close completions properly, and nothing comes in between.
  predicate Framed(es: seq<Entry>) {
    forall k :: 0 <= k < |es| ==> FollowsAt(es, k)
  }

  predicate FollowsAt(es: seq<Entry>, k: nat)
    requires k < |es|
  {
    R.Follows(k > 0 && R.IsOpen(es[k - 1]), es[k])
  }

  predicate Ended(es: seq<Entry>) {
    es == [] || !R.IsOpen(es[|es| - 1])
  }

  lemma FramedJoin(a: seq<Entry>, b: seq<Entry>)
    requires Framed(a) && Ended(a) && Framed(b)
    ensures Framed(a + b) && (Ended(b) ==> Ended(a + b))
  {
    var c := a + b;
    forall k | 0 <= k < |c| ensures FollowsAt(c, k) {
      if k >= |a| {
        assert FollowsAt(b, k - |a|);
      } else {
        assert FollowsAt(a, k);
      }
    }
  }

  lemma TlpFramed(t: Tlp)
    requires t.hdr.rawLength < 1024
    ensures Framed(Entries(OpsOf(t))) && Ended(Entries(OpsOf(t)))
  {
    var es, n, a := Entries(OpsOf(t)), Length(t.hdr), t.hdr.addr;
    if IsRead(t.hdr) {
      ReadOps(t, 0);
      forall k | 0 <= k < |es| ensures FollowsAt(es, k) {
        ReadOps(t, k);
        assert es[k] == EntryAt(t.hdr, k);
        if k > 0 {
          ReadOps(t, k - 1);
          assert es[k - 1] == EntryAt(t.hdr, k - 1);
          LeftStep(n, a, k - 1);
          LeftBounds(n, a, k);
        }
        hide Left, Entries, OpsOf, Bits, BytesLeft, ByteAddress;
      }
      ReadOps(t, n - 1);
      LeftBounds(n, a, n - 1);
      hide OpsOf, Left, Cut, Bits, BytesLeft;
    }
  }

  predicate AllSized(tlps: seq<Tlp>) {
    forall k :: 0 <= k < |tlps| ==> tlps[k].hdr.rawLength < 1024
  }

  lemma EntriesJoin(a: seq<Op>, b: seq<Op>)
    ensures Entries(a + b) == Entries(a) + Entries(b)
  {
  }

  lemma {:induction false} ExpectedFramed(tlps: seq<Tlp>)
    requires AllSized(tlps)
    ensures Framed(Entries(Expected(tlps))) && Ended(Entries(Expected(tlps)))
  {
    hide Framed, OpsOf, Ended;
    if tlps == [] {
      NothingFramed();
    } else {
      var n := |tlps| - 1;
      ExpectedFramed(tlps[..n]);
      TlpFramed(tlps[n]);
      FramedJoin(Entries(Expected(tlps[..n])), Entries(OpsOf(tlps[n])));
      EntriesJoin(Expected(tlps[..n]), OpsOf(tlps[n]));
    }
  }

  lemma NothingFramed()
    ensures Framed(Entries([])) && Ended(Entries([]))
  {
  }

  lemma FramedPart(es: seq<Entry>, n: nat)
    requires Framed(es) && n <= |es|
    ensures Framed(es[..n])
  {
    forall k | 0 <= k < n ensures FollowsAt(es[..n], k) {
      assert FollowsAt(es, k);
    }
  }

  lemma IssuedShows(width: nat, r: Req, h: Hist)
    requires HistOk(width, r, h)
    ensures Busy(r) ==>
      h.tlps != [] && r.opCount <= Length(Current(h).hdr) && Issued(h, Length(Current(h).hdr) - r.opCount)
    ensures !Busy(r) ==> h.ops == Expected(h.tlps)
  {
    hide ReadProgress, WriteProgress, Issued, Expected, Length;
  }

  lemma IssuedIsPrefix(h: Hist, i: nat)
    requires Issued(h, i)
    ensures h.ops <= Expected(h.tlps)
  {
    hide OpsOf;
    ExpectedOne(Front(h), Current(h));
    hide Expected;
    assert h.tlps == Front(h) + [Current(h)];
  }

  // What was issued is the start of what the requests ask for.
  lemma OpsArePrefix(width: nat, r: Req, h: Hist)
    requires HistOk(width, r, h)
    ensures h.ops <= Expected(h.tlps)
    ensures !Busy(r) ==> h.ops == Expected(h.tlps)
  {
    hide *;
    IssuedShows(width, r, h);
    if Busy(r) {
      IssuedIsPrefix(h, Length(Current(h).hdr) - r.opCount);
    }
  }

  lemma OpsFramed(width: nat, r: Req, h: Hist)
    requires HistOk(width, r, h) && AllSized(h.tlps)
    ensures Framed(Entries(h.ops))
  {
    OpsArePrefix(width, r, h);
    ExpectedFramed(h.tlps);
    FramedPart(Entries(Expected(h.tlps)), |h.ops|);
    assert Entries(h.ops) == Entries(Expected(h.tlps))[..|h.ops|];
    hide Framed, Expected, HistOk;
  }

  // ---- Invariant ----

  function RetiredEntries(rs: seq<R.Retired>): (es: seq<Entry>)
    ensures |es| == |rs| && forall k :: 0 <= k < |es| ==> es[k] == rs[k].entry
  {
    seq(|rs|, k requires 0 <= k < |rs| => rs[k].entry)
  }

  // The queue stops growing soon after it is half full.
  predicate QueueOk(s: System) {
    && |s.queue| <= DEPTH / 2 + 2
    && (!s.half ==> |s.queue| <= DEPTH / 2)
    && ((s.req.phase.Idle? || s.req.phase.Write1?) && s.req.ready ==> |s.queue| <= DEPTH / 2 + 1)
  }

  // An access is never overwritten before it is taken, and reads and writes never share the address register.
  predicate BusOk(r: Req, b: Bus) {
    && (r.phase.Idle? && r.ready ==> !b.ar && !b.aw && !b.w)
    && (r.phase.Read1? || r.phase.Read2? ==> !b.aw && !b.w)
    && (r.phase.Write1? || r.phase.Write2? ==> !b.ar)
    && (r.phase.Write1? && r.ready ==> !b.aw && !b.w)
    && !(b.ar && b.aw)
  }

  // Entries issued are those retired, then the one in hand, then the queue.
  predicate FlowOk(s: System, t: Trace) {
    Entries(t.hist.ops) == RetiredEntries(t.retired) + s.resp.cur.AsSeq() + s.queue
  }

  predicate SentOk(width: nat, s: System, t: Trace) {
    && R.RespOk(width, s.resp, R.OpenAfter(t.retired))
    && R.Stream(t.beats) + R.Held(s.resp, R.OpenAfter(t.retired)) == R.Tokens(t.retired)
    && R.BeatsFull(width, t.beats)
  }

  function ReadAddresses(ops: seq<Op>): seq<nat> {
    if ops == [] then []
    else ReadAddresses(ops[..|ops| - 1]) + (if ops[|ops| - 1].Read? then [ops[|ops| - 1].addr] else [])
  }

  function WriteAddresses(ops: seq<Op>): seq<nat> {
    if ops == [] then []
    else WriteAddresses(ops[..|ops| - 1]) + (if ops[|ops| - 1].Write? then [ops[|ops| - 1].addr] else [])
  }

  // Every address issued was taken once, in order, but for the one still on offer.
  predicate TakenOk(s: System, t: Trace) {
    && t.ars + (if s.bus.ar then [s.bus.addr] else []) == ReadAddresses(t.hist.ops)
    && t.aws + (if s.bus.aw then [s.bus.addr] else []) == WriteAddresses(t.hist.ops)
  }

  predicate Inv(width: nat, s: System, t: Trace) {
    Base(width, s, t) && HistOk(width, s.req, t.hist) && SentOk(width, s, t)
  }

  // The part that holds whatever is asked for.
  predicate Base(width: nat, s: System, t: Trace) {
    && Sized(width, s) && AllSized(t.hist.tlps)
    && FlowOk(s, t) && QueueOk(s) && BusOk(s.req, s.bus) && TakenOk(s, t)
  }

  // ---- Preservation ----

  lemma QueueKept(width: nat, s: System, i: Input)
    requires Sized(width, s) && InputFits(width, i) && QueueOk(s)
    ensures QueueOk(Next(width, s, i))
  {
    hide R.Step, R.Pops, FirstReadOp, FirstWriteOp, ReadOp, AfterRead, WriteOp;
  }

  lemma BusKept(width: nat, s: System, i: Input)
    requires Sized(width, s) && InputFits(width, i) && BusOk(s.req, s.bus)
    ensures BusOk(Next(width, s, i).req, Next(width, s, i).bus)
  {
    hide R.Step, R.Pops, FirstOffset, LastOffset, SingleLength, ChunkLength, Bits;
  }

  // The address an op puts on the read channel, or on the write channel.
  function ReadPart(o: Option<Op>): seq<nat> {
    if o.Some? && o.value.Read? then [o.value.addr] else []
  }

  function WritePart(o: Option<Op>): seq<nat> {
    if o.Some? && o.value.Write? then [o.value.addr] else []
  }

  lemma AddressesGrow(ops: seq<Op>, o: Option<Op>)
    ensures ReadAddresses(ops + o.AsSeq()) == ReadAddresses(ops) + ReadPart(o)
    ensures WriteAddresses(ops + o.AsSeq()) == WriteAddresses(ops) + WritePart(o)
  {
    if o.Some? {
      assert (ops + [o.value])[..|ops|] == ops;
    } else {
      assert ops + [] == ops;
    }
  }

  function OnOffer(held: bool, addr: nat): seq<nat> {
    if held then [addr] else []
  }

  // What is taken, then what is on offer next, is what was on offer and what is issued.
  lemma OffersMove(b: Bus, x: In, o: Option<Op>)
    requires !(b.ar && b.aw)
    requires o.Some? && o.value.Read? ==> (!b.ar || x.arReady) && !b.aw && !b.w
    requires o.Some? && o.value.Write? ==> (!b.aw || x.awReady) && (!b.w || x.wReady) && !b.ar
    ensures var b' := BusStep(b, x, o);
      && OnOffer(b.ar && x.arReady, b.addr) + OnOffer(b'.ar, b'.addr) == OnOffer(b.ar, b.addr) + ReadPart(o)
      && OnOffer(b.aw && x.awReady, b.addr) + OnOffer(b'.aw, b'.addr) == OnOffer(b.aw, b.addr) + WritePart(o)
  {
  }

  lemma TakenParts(s: System, t: Trace)
    ensures TakenOk(s, t) <==>
      && t.ars + OnOffer(s.bus.ar, s.bus.addr) == ReadAddresses(t.hist.ops)
      && t.aws + OnOffer(s.bus.aw, s.bus.addr) == WriteAddresses(t.hist.ops)
  {
    hide ReadAddresses, WriteAddresses;
  }

  lemma NextBus(width: nat, s: System, i: Input, t: Trace)
    requires Sized(width, s) && InputFits(width, i)
    ensures var s', t', x := Next(width, s, i), Record(width, s, i, t), Seen(s, i);
      var o := AxilRequest.Step(width, s.req, s.bus, x).op;
      && s'.bus == BusStep(s.bus, x, o) && t'.hist.ops == t.hist.ops + o.AsSeq()
      && t'.ars == t.ars + OnOffer(s.bus.ar && x.arReady, s.bus.addr)
      && t'.aws == t.aws + OnOffer(s.bus.aw && x.awReady, s.bus.addr)
  {
    hide AxilRequest.Step, R.Step, R.Sends, R.Retires, BusStep;
  }

  lemma NoBoth(r: Req, b: Bus)
    requires BusOk(r, b)
    ensures !(b.ar && b.aw)
  {
  }

  lemma TakenKept(width: nat, s: System, i: Input, t: Trace)
    requires Sized(width, s) && InputFits(width, i) && BusOk(s.req, s.bus) && TakenOk(s, t)
    ensures TakenOk(Next(width, s, i), Record(width, s, i, t))
  {
    hide *;
    var x, b, ops := Seen(s, i), s.bus, t.hist.ops;
    RequestFits(width, s, i);
    var o := AxilRequest.Step(width, s.req, b, x).op;
    IssueNeedsRoom(width, s.req, b, x);
    NoBoth(s.req, b);
    NextBus(width, s, i, t);
    TakenParts(s, t);
    AddressesGrow(ops, o);
    OffersMove(b, x, o);
    var b' := BusStep(b, x, o);
    Joined(t.ars, OnOffer(b.ar, b.addr), ReadPart(o));
    Joined(t.ars, OnOffer(b.ar && x.arReady, b.addr), OnOffer(b'.ar, b'.addr));
    Joined(t.aws, OnOffer(b.aw, b.addr), WritePart(o));
    Joined(t.aws, OnOffer(b.aw && x.awReady, b.addr), OnOffer(b'.aw, b'.addr));
    TakenParts(Next(width, s, i), Record(width, s, i, t));
  }

  lemma RequestFits(width: nat, s: System, i: Input)
    requires Sized(width, s) && InputFits(width, i)
    ensures AxilRequest.Typed(width, s.req) && Fits(width, Seen(s, i))
  {
  }

  // A read is issued only with no read on offer, or as it is taken; so with writes.
  lemma IssueNeedsRoom(width: nat, r: Req, b: Bus, x: In)
    requires AxilRequest.Typed(width, r) && Fits(width, x) && BusOk(r, b)
    ensures var o := AxilRequest.Step(width, r, b, x).op;
      && (o.Some? && o.value.Read? ==> (!b.ar || x.arReady) && !b.aw && !b.w)
      && (o.Some? && o.value.Write? ==> (!b.aw || x.awReady) && (!b.w || x.wReady) && !b.ar)
  {
    hide FirstOffset, LastOffset, SingleLength, AfterRead, AfterWrite, AfterFirstRead, AfterFirstWrite, Bits, Left, Cut;
  }

  lemma WorkKeepsOrRetires(width: nat, p: R.Resp, x: R.Pins, head: Option<Entry>)
    ensures var p', r := R.Step(width, p, x, head), R.Retires(width, p, x);
      && (R.Pops(width, p, x) ==> p'.cur == head && RetiredEntries(r) == p.cur.AsSeq())
      && (!R.Pops(width, p, x) ==> p'.cur == p.cur && r == [])
  {
  }

  lemma NextFlow(width: nat, s: System, i: Input, t: Trace)
    requires Sized(width, s) && InputFits(width, i)
    ensures Popped(width, s, i) <= |s.queue|
    ensures var s', t' := Next(width, s, i), Record(width, s, i, t);
      var gone, pushed := RetiredEntries(R.Retires(width, s.resp, i.pins)),
                          Pushed(AxilRequest.Step(width, s.req, s.bus, Seen(s, i)).op);
      && Entries(t'.hist.ops) == Entries(t.hist.ops) + pushed
      && RetiredEntries(t'.retired) == RetiredEntries(t.retired) + gone
      && s'.queue == s.queue[Popped(width, s, i)..] + pushed
      && gone + s'.resp.cur.AsSeq() + s.queue[Popped(width, s, i)..] == s.resp.cur.AsSeq() + s.queue
  {
    WorkKeepsOrRetires(width, s.resp, i.pins, Head(s.queue));
    var r := R.Retires(width, s.resp, i.pins);
    hide AxilRequest.Step, R.Step, R.Sends, R.Retires, R.Pops, R.Work;
    assert RetiredEntries(t.retired + r) == RetiredEntries(t.retired) + RetiredEntries(r);
    HandOver(s.resp.cur, s.queue, Popped(width, s, i), RetiredEntries(r), Next(width, s, i).resp.cur,
             R.Pops(width, s.resp, i.pins));
  }

  lemma FlowPart(s: System, t: Trace)
    requires FlowOk(s, t)
    ensures Entries(t.hist.ops) == RetiredEntries(t.retired) + s.resp.cur.AsSeq() + s.queue
  {
  }

  lemma FlowKept(width: nat, s: System, i: Input, t: Trace)
    requires Sized(width, s) && InputFits(width, i) && FlowOk(s, t)
    ensures FlowOk(Next(width, s, i), Record(width, s, i, t))
  {
    var pushed := Pushed(AxilRequest.Step(width, s.req, s.bus, Seen(s, i)).op);
    hide *;
    FlowPart(s, t);
    NextFlow(width, s, i, t);
    var s', t' := Next(width, s, i), Record(width, s, i, t);
    var left, gone := s.queue[Popped(width, s, i)..], RetiredEntries(R.Retires(width, s.resp, i.pins));
    Regroup(RetiredEntries(t.retired), s.resp.cur.AsSeq(), s.queue, pushed, gone, s'.resp.cur.AsSeq(), left);
    FlowAgain(s', t', RetiredEntries(t.retired) + gone, left + pushed);
  }

  lemma Regroup(a: seq<Entry>, c: seq<Entry>, q: seq<Entry>, n: seq<Entry>, g: seq<Entry>, c': seq<Entry>,
                l: seq<Entry>)
    requires g + c' + l == c + q
    ensures a + c + q + n == (a + g) + c' + (l + n)
  {
    assert a + c + q + n == a + (c + q) + n;
    assert a + (g + c' + l) + n == (a + g) + c' + (l + n);
  }

  lemma FlowAgain(s: System, t: Trace, retired: seq<Entry>, queue: seq<Entry>)
    requires RetiredEntries(t.retired) == retired && s.queue == queue
    requires Entries(t.hist.ops) == retired + s.resp.cur.AsSeq() + queue
    ensures FlowOk(s, t)
  {
  }

  // Retiring the entry in hand and taking the next one keeps the order.
  lemma HandOver(cur: Option<Entry>, queue: seq<Entry>, popped: nat, gone: seq<Entry>, cur': Option<Entry>, pops: bool)
    requires popped == (if pops && queue != [] then 1 else 0)
    requires if pops then cur' == Head(queue) && gone == cur.AsSeq() else cur' == cur && gone == []
    ensures popped <= |queue| && gone + cur'.AsSeq() + queue[popped..] == cur.AsSeq() + queue
  {
  }

  // The entry in hand comes right after those retired.
  lemma CurFollows(width: nat, s: System, t: Trace)
    requires Inv(width, s, t) && s.resp.cur.Some?
    ensures R.Follows(R.OpenAfter(t.retired), s.resp.cur.value)
  {
    OpsFramed(width, s.req, t.hist);
    var es, k := Entries(t.hist.ops), |t.retired|;
    assert FollowsAt(es, k);
    assert es[k] == s.resp.cur.value;
    if k > 0 {
      assert es[k - 1] == RetiredEntries(t.retired)[k - 1];
    }
    hide Expected, HistOk, R.Stream, R.Tokens;
  }

  lemma SentKept(width: nat, s: System, i: Input, t: Trace)
    requires InputFits(width, i) && Inv(width, s, t)
    ensures SentOk(width, Next(width, s, i), Record(width, s, i, t))
  {
    if s.resp.cur.Some? {
      CurFollows(width, s, t);
    }
    NextShape(width, s, i, t);
    OpenLater(width, s, i, t);
    hide *;
    SentParts(width, s, t);
    var open, r := R.OpenAfter(t.retired), R.Retires(width, s.resp, i.pins);
    R.StepTokens(width, s.resp, i.pins, Head(s.queue), open);
    StreamJoin(t.beats, R.Sends(s.resp, i.pins));
    TokensJoin(t.retired, r);
    SentBeats(width, s, i, t);
    SentAgain(width, Next(width, s, i), Record(width, s, i, t), t.beats, R.Sends(s.resp, i.pins),
              R.Held(s.resp, open), t.retired, r);
  }

  lemma SentParts(width: nat, s: System, t: Trace)
    requires Inv(width, s, t)
    ensures SentOk(width, s, t) && R.RespOk(width, s.resp, R.OpenAfter(t.retired))
    ensures R.Stream(t.beats) + R.Held(s.resp, R.OpenAfter(t.retired)) == R.Tokens(t.retired)
  {
  }

  lemma SentAgain(width: nat, s': System, t': Trace, beats: seq<R.Beat>, sends: seq<R.Beat>, held: seq<R.Token>,
                  retired: seq<R.Retired>, r: seq<R.Retired>)
    requires t'.beats == beats + sends && t'.retired == retired + r
    requires R.RespOk(width, s'.resp, R.OpenAfter(t'.retired)) && R.BeatsFull(width, beats + sends)
    requires R.Stream(beats + sends) == R.Stream(beats) + R.Stream(sends)
    requires R.Tokens(retired + r) == R.Tokens(retired) + R.Tokens(r)
    requires R.Stream(beats) + held == R.Tokens(retired)
    requires R.Stream(sends) + R.Held(s'.resp, R.OpenAfter(t'.retired)) == held + R.Tokens(r)
    ensures SentOk(width, s', t')
  {
    hide R.Stream, R.Tokens, R.RespOk, R.Held, R.BeatsFull, R.OpenAfter;
    var rest := R.Held(s'.resp, R.OpenAfter(t'.retired));
    assert (R.Stream(beats) + R.Stream(sends)) + rest == R.Stream(beats) + (R.Stream(sends) + rest);
    assert R.Stream(beats) + (held + R.Tokens(r)) == (R.Stream(beats) + held) + R.Tokens(r);
  }

  lemma NextShape(width: nat, s: System, i: Input, t: Trace)
    requires Sized(width, s) && InputFits(width, i)
    ensures var s', t' := Next(width, s, i), Record(width, s, i, t);
      && t'.beats == t.beats + R.Sends(s.resp, i.pins) && t'.retired == t.retired + R.Retires(width, s.resp, i.pins)
      && s'.resp == R.Step(width, s.resp, i.pins, Head(s.queue))
  {
    hide AxilRequest.Step, R.Step, R.Sends, R.Retires;
  }

  lemma OpenLater(width: nat, s: System, i: Input, t: Trace)
    requires Sized(width, s) && InputFits(width, i)
    ensures var r := R.Retires(width, s.resp, i.pins);
      R.OpenAfter(t.retired + r) == if r == [] then R.OpenAfter(t.retired) else R.IsOpen(r[0].entry)
  {
    var r := R.Retires(width, s.resp, i.pins);
    assert |r| <= 1;
    hide R.Retires, R.Work;
    if r == [] {
      assert t.retired + r == t.retired;
    }
  }

  lemma SentBeats(width: nat, s: System, i: Input, t: Trace)
    requires SentOk(width, s, t)
    ensures R.BeatsFull(width, t.beats + R.Sends(s.resp, i.pins))
  {
    hide R.Stream, R.Tokens;
  }

  lemma StreamLast(a: seq<R.Beat>, b: R.Beat)
    ensures R.Stream(a + [b]) == R.Stream(a) + R.BeatTokens(b)
  {
    hide R.BeatTokens;
    assert (a + [b])[..|a|] == a;
  }

  lemma {:induction false} StreamJoin(a: seq<R.Beat>, b: seq<R.Beat>)
    ensures R.Stream(a + b) == R.Stream(a) + R.Stream(b)
  {
    if b == [] {
      assert a + b == a;
    } else {
      hide *;
      var front, last := b[..|b| - 1], b[|b| - 1];
      StreamJoin(a, front);
      StreamLast(a + front, last);
      StreamLast(front, last);
      assert b == front + [last];
      Joined(a, front, [last]);
      Joined(R.Stream(a), R.Stream(front), R.BeatTokens(last));
    }
  }

  lemma Joined<T>(a: seq<T>, b: seq<T>, c: seq<T>)
    ensures (a + b) + c == a + (b + c)
  {
  }

  lemma {:induction false} TokensJoin(a: seq<R.Retired>, b: seq<R.Retired>)
    ensures R.Tokens(a + b) == R.Tokens(a) + R.Tokens(b)
  {
    hide R.EntryTokens;
    if b == [] {
      assert a + b == a;
    } else {
      TokensJoin(a, b[..|b| - 1]);
      assert (a + b)[..|a + b| - 1] == a + b[..|b| - 1];
    }
  }

  lemma SizedKept(width: nat, s: System, i: Input, t: Trace)
    requires Sized(width, s) && InputFits(width, i) && AllSized(t.hist.tlps)
    ensures AllSized(Record(width, s, i, t).hist.tlps)
  {
    hide AxilRequest.Step, R.Step, R.Sends, R.Retires;
  }

  lemma BaseKept(width: nat, s: System, i: Input, t: Trace)
    requires InputFits(width, i) && Base(width, s, t)
    ensures Base(width, Next(width, s, i), Record(width, s, i, t))
  {
    SizedKept(width, s, i, t);
    FlowKept(width, s, i, t);
    QueueKept(width, s, i);
    BusKept(width, s, i);
    TakenKept(width, s, i, t);
    hide AllSized, FlowOk, QueueOk, BusOk, TakenOk, AxilRequest.Step, HistStep, R.Step, R.Sends, R.Retires;
  }

  lemma InvKept(width: nat, s: System, i: Input, t: Trace)
    requires InputFits(width, i) && Inv(width, s, t) && (Accepts(s.req, i.req) ==> Good(i.req.hdr))
    ensures Inv(width, Next(width, s, i), Record(width, s, i, t))
  {
    StepKept(width, s.req, s.bus, Seen(s, i), t.hist);
    BaseKept(width, s, i, t);
    SentKept(width, s, i, t);
    hide Base, HistOk, SentOk, AxilRequest.Step, HistStep, R.Step, R.Sends, R.Retires;
  }

  // Either every read taken could be delimited, or one of them was not and the ops have shown it since.
  ghost predicate RunState(width: nat, s: System, t: Trace) {
    && Base(width, s, t)
    && (if AllGood(t.hist.tlps) then Inv(width, s, t) else exists n :: WrongAt(t.hist, n))
  }

  lemma StateKept(width: nat, s: System, i: Input, t: Trace)
    requires InputFits(width, i) && RunState(width, s, t)
    ensures RunState(width, Next(width, s, i), Record(width, s, i, t))
  {
    var x := Seen(s, i);
    BaseKept(width, s, i, t);
    HistoryGrows(width, s.req, s.bus, x, t.hist);
    if !AllGood(t.hist.tlps) {
      var n :| WrongAt(t.hist, n);
      StaysWrong(width, s.req, s.bus, x, t.hist, n);
    } else if Accepts(s.req, x) && !Good(x.hdr) {
      GoesWrong(width, s.req, s.bus, x, t.hist);
    } else {
      InvKept(width, s, i, t);
    }
    hide Base, HistOk, SentOk, WrongAt, HistStep, AllGood, Good, AxilRequest.Step, R.Step, R.Sends, R.Retires;
  }

  // ---- Runs ----

  const NONE: Enables := [false, false, false, false]

  // After reset; the data registers may hold anything.
  predicate AtReset(width: nat, s: System) {
    && Sized(width, s) && s.req.phase.Idle? && !s.req.ready && !s.bus.ar && !s.bus.aw && !s.bus.w
    && s.queue == [] && !s.half
    && s.resp.phase.Idle? && s.resp.cur.None? && s.resp.chunk < width && !s.resp.valid && !s.resp.rReady &&
       !s.resp.bReady
  }

  const EMPTY: Trace := Trace(Hist([], []), [], [], [], [])

  predicate AllFit(width: nat, xs: seq<Input>) {
    forall k :: 0 <= k < |xs| ==> InputFits(width, xs[k])
  }

  function After(width: nat, s: System, xs: seq<Input>): (s': System)
    requires Sized(width, s) && AllFit(width, xs)
    ensures Sized(width, s')
    decreases |xs|
  {
    if xs == [] then s else After(width, Next(width, s, xs[0]), xs[1..])
  }

  function Traced(width: nat, s: System, xs: seq<Input>, t: Trace): Trace
    requires Sized(width, s) && AllFit(width, xs)
    decreases |xs|
  {
    if xs == [] then t else Traced(width, Next(width, s, xs[0]), xs[1..], Record(width, s, xs[0], t))
  }

  lemma {:induction false} RunKept(width: nat, s: System, xs: seq<Input>, t: Trace)
    requires AllFit(width, xs) && RunState(width, s, t)
    ensures RunState(width, After(width, s, xs), Traced(width, s, xs, t))
    decreases |xs|
  {
    if xs != [] {
      StateKept(width, s, xs[0], t);
      RunKept(width, Next(width, s, xs[0]), xs[1..], Record(width, s, xs[0], t));
      hide RunState, Next, Record, InputFits;
    }
  }

  lemma ResetOk(width: nat, s: System)
    requires AtReset(width, s)
    ensures RunState(width, s, EMPTY)
  {
    assert Entries([]) == [] && RetiredEntries([]) == [];
  }

  // Whatever is asked for: each address issued is taken once and in order, the queue never overflows, and
  // entries leave it in the order they went in. The accesses and entries issued are those the requests ask
  // for, in order, if and only if no read of more than 32 DWs taken so far started in the last DW of a
  // 128-byte block; then the completions sent follow the entries, data in the order it was fetched.
  lemma BridgeCorrect(width: nat, s: System, xs: seq<Input>)
    requires AtReset(width, s) && AllFit(width, xs)
    ensures var s', t := After(width, s, xs), Traced(width, s, xs, EMPTY);
      && t.ars <= ReadAddresses(t.hist.ops) && t.aws <= WriteAddresses(t.hist.ops)
      && |s'.queue| < DEPTH
      && RetiredEntries(t.retired) <= Entries(t.hist.ops)
      && (t.hist.ops <= Expected(t.hist.tlps) <==> AllGood(t.hist.tlps))
      && (AllGood(t.hist.tlps) ==> R.Stream(t.beats) <= R.Tokens(t.retired) && R.BeatsFull(width, t.beats))
  {
    ResetOk(width, s);
    RunKept(width, s, xs, EMPTY);
    hide After, Traced;
    var s', t := After(width, s, xs), Traced(width, s, xs, EMPTY);
    StateShows(width, s', t);
  }

  lemma StateShows(width: nat, s: System, t: Trace)
    requires RunState(width, s, t)
    ensures t.ars <= ReadAddresses(t.hist.ops) && t.aws <= WriteAddresses(t.hist.ops)
    ensures |s.queue| < DEPTH && RetiredEntries(t.retired) <= Entries(t.hist.ops)
    ensures t.hist.ops <= Expected(t.hist.tlps) <==> AllGood(t.hist.tlps)
    ensures AllGood(t.hist.tlps) ==> R.Stream(t.beats) <= R.Tokens(t.retired) && R.BeatsFull(width, t.beats)
  {
    if AllGood(t.hist.tlps) {
      OpsArePrefix(width, s.req, t.hist);
    } else {
      var n :| WrongAt(t.hist, n);
      WrongIsSeen(t.hist, n);
    }
    hide HistOk, Expected, WrongAt, AllGood, AllSized, R.Stream, R.Tokens, R.RespOk, R.BeatsFull, ReadAddresses,
      WriteAddresses, R.Held, BusOk;
  }

  // Once everything is at rest, the completions sent are those of all requests taken.
  lemma BridgeDrains(width: nat, s: System, xs: seq<Input>)
    requires AtReset(width, s) && AllFit(width, xs)
    ensures var s', t := After(width, s, xs), Traced(width, s, xs, EMPTY);
      AllGood(t.hist.tlps) && !Busy(s'.req) && s'.queue == [] && s'.resp.cur.None? && !s'.resp.valid ==>
        && RetiredEntries(t.retired) == Entries(Expected(t.hist.tlps))
        && R.Stream(t.beats) == R.Tokens(t.retired)
  {
    ResetOk(width, s);
    RunKept(width, s, xs, EMPTY);
    hide After, Traced;
    var s', t := After(width, s, xs), Traced(width, s, xs, EMPTY);
    if AllGood(t.hist.tlps) && !Busy(s'.req) && s'.queue == [] && s'.resp.cur.None? && !s'.resp.valid {
      AtRest(width, s', t);
    }
  }

  lemma AtRest(width: nat, s: System, t: Trace)
    requires Inv(width, s, t) && !Busy(s.req) && s.queue == [] && s.resp.cur.None? && !s.resp.valid
    ensures RetiredEntries(t.retired) == Entries(Expected(t.hist.tlps)) && R.Stream(t.beats) == R.Tokens(t.retired)
  {
    OpsArePrefix(width, s.req, t.hist);
    ExpectedFramed(t.hist.tlps);
    assert RetiredEntries(t.retired) + [] + [] == RetiredEntries(t.retired);
    var es, n := Entries(t.hist.ops), |t.retired|;
    assert n > 0 ==> es[n - 1] == RetiredEntries(t.retired)[n - 1];
    assert !R.OpenAfter(t.retired);
    hide HistOk, Expected, R.Stream, R.Tokens, R.RespOk, R.BeatsFull, TakenOk, BusOk, Framed;
  }

  // Such a read can be taken: 33 DWs from DW 31, in the second clock after reset.
  const LONG: Header := Header(0, 0, 33, 31, ALL, ALL, 0)

  function Offer(width: nat, valid: bool): (i: Input)
    ensures InputFits(width, i)
  {
    Input(In(valid, true, true, LONG, seq(width, _ => 0), true, true, true, false), R.Pins(false, 0, false, true))
  }

  lemma OneClock(width: nat, s: System, xs: seq<Input>, t: Trace)
    requires Sized(width, s) && AllFit(width, xs) && xs != []
    ensures Traced(width, s, xs, t) == Traced(width, Next(width, s, xs[0]), xs[1..], Record(width, s, xs[0], t))
    ensures xs[1..] == [] ==> Traced(width, s, xs, t) == Record(width, s, xs[0], t)
  {
    hide Next, Record;
  }

  lemma BadReadTaken(width: nat, s: System) returns (xs: seq<Input>)
    requires AtReset(width, s)
    ensures AllFit(width, xs) && !AllGood(Traced(width, s, xs, EMPTY).hist.tlps)
  {
    xs := [Offer(width, false), Offer(width, true)];
    var s1, t1 := Next(width, s, xs[0]), Record(width, s, xs[0], EMPTY);
    OneClock(width, s, xs, EMPTY);
    OneClock(width, s1, xs[1..], t1);
    assert s1.req.phase.Idle? && s1.req.ready && t1.hist.tlps == [];
    hide Next, Traced, R.Step, AcceptOut;
    assert Record(width, s1, xs[1], t1).hist.tlps == [Tlp(LONG, [])];
    assert !Good([Tlp(LONG, [])][0].hdr);
  }
}
