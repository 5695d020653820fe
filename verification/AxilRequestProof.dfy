// The accesses and queue entries of each request, in closed form and in order.
module AxilRequestProof {
  import opened Wrappers
  import opened AxilRequest

  // ---- What one request owes ----

  // DW i of a read of n DWs from DW address a starts a completion.
  predicate Cut(n: nat, a: nat, i: nat) {
    i == 0 || (32 < n && (a + i) % 32 == 0)
  }

  // DWs from i to the end of its completion.
  function Left(n: nat, a: nat, i: nat): int {
    if n <= 32 || n - i <= 32 - (a + i) % 32 then n - i else 32 - (a + i) % 32
  }

  // Bytes still to be returned when DW i is next.
  function BytesLeft(h: Header, i: nat): int {
    var n := Length(h);
    if i > 0 then 4 * (n - i) - LastOffset(h.lastBe)
    else if n == 1 then SingleLength(h.firstBe)
    else 4 * n - FirstOffset(h.firstBe) - LastOffset(h.lastBe)
  }

  function ByteAddress(h: Header, i: nat): nat {
    4 * (h.addr + i) + (if i == 0 then FirstOffset(h.firstBe) else 0)
  }

  function EntryAt(h: Header, i: nat): Entry
    requires i < Length(h)
  {
    var n, left := Length(h), Left(Length(h), h.addr, i);
    ReadEntry(Cut(n, h.addr, i), left == 1, left, Bits(BytesLeft(h, i)), ByteAddress(h, i) % 128, h.id)
  }

  function ReadAt(h: Header, i: nat): Op
    requires i < Length(h)
  {
    Read(ByteAddress(h, i), EntryAt(h, i))
  }

  function WriteAt(h: Header, payload: seq<nat>, i: nat): Op
    requires i < Length(h) && i < |payload|
  {
    Write(ByteAddress(h, i), payload[i], if i == 0 then h.firstBe else if i + 1 == Length(h) then h.lastBe else ALL)
  }

  // A read whose completions the bridge can delimit.
  predicate Good(h: Header) {
    IsRead(h) ==> Length(h) <= 32 || h.addr % 32 != 31
  }

  datatype Tlp = Tlp(hdr: Header, payload: seq<nat>)

  function Least(x: nat, y: nat): nat {
    if x <= y then x else y
  }

  // All ops of a request, as far as its payload has arrived.
  function OpsOf(t: Tlp): seq<Op> {
    var n := Length(t.hdr);
    if IsRead(t.hdr) then seq(n, i requires 0 <= i < n => ReadAt(t.hdr, i))
    else if IsWrite(t.hdr) then
      seq(Least(n, |t.payload|), i requires 0 <= i < Least(n, |t.payload|) => WriteAt(t.hdr, t.payload, i))
    else OtherOp(t.hdr).AsSeq()
  }

  function Expected(tlps: seq<Tlp>): seq<Op> {
    if tlps == [] then [] else Expected(tlps[..|tlps| - 1]) + OpsOf(tlps[|tlps| - 1])
  }

  // ---- Splitting ----

  // The byte count of one DW spans its enabled bytes.
  lemma SingleSpan(e: Enables)
    ensures SingleLength(e) == (if e == [false, false, false, false] then 1 else 4 - FirstOffset(e) - LastOffset(e))
  {
  }

  lemma LeftStep(n: nat, a: nat, i: nat)
    requires i + 1 < n
    ensures Left(n, a, i) == (if Cut(n, a, i + 1) then 1 else Left(n, a, i + 1) + 1)
  {
    assert (a + i + 1) % 32 == ((a + i) % 32 + 1) % 32;
  }

  lemma {:induction false} Inside(n: nat, a: nat, i: nat, d: nat)
    requires i < n && d < Left(n, a, i)
    ensures i + d < n && Left(n, a, i + d) == Left(n, a, i) - d && (0 < d ==> !Cut(n, a, i + d))
  {
    if d > 0 {
      Inside(n, a, i, d - 1);
      LeftBounds(n, a, i);
      LeftStep(n, a, i + d - 1);
      hide Left, Cut;
    }
  }

  lemma LeftBounds(n: nat, a: nat, i: nat)
    requires i < n
    ensures 1 <= Left(n, a, i) <= 32 && i + Left(n, a, i) <= n
    ensures i + Left(n, a, i) < n ==> (a + i + Left(n, a, i)) % 32 == 0 && Cut(n, a, i + Left(n, a, i))
  {
  }

  // A completion starting at DW i runs to the next 128-byte boundary or to the end of the request, its header
  // says so, no other completion starts inside it, and its byte count is what the request still lacks.
  lemma CompletionExact(h: Header, i: nat)
    requires IsRead(h) && h.rawLength < 1024 && i < Length(h) && Cut(Length(h), h.addr, i)
    ensures var n, e := Length(h), EntryAt(h, i);
      && e.first && 1 <= e.dwords <= 32 && i + e.dwords <= n
      && (i + e.dwords == n || (h.addr + i + e.dwords) % 32 == 0)
      && (forall j :: i < j < i + e.dwords ==> !EntryAt(h, j).first)
      && (forall j :: i <= j < i + e.dwords ==> (EntryAt(h, j).last <==> j == i + e.dwords - 1))
      && (i + e.dwords < n ==> EntryAt(h, i + e.dwords).first)
      && (i + e.dwords < n ==>
            BytesLeft(h, i) == BytesLeft(h, i + e.dwords) +
              4 * e.dwords - (if i == 0 then FirstOffset(h.firstBe) else 0))
  {
    var n, a, left := Length(h), h.addr, Left(Length(h), h.addr, i);
    LeftBounds(n, a, i);
    forall j | i <= j < i + left
      ensures j < n && Left(n, a, j) == i + left - j && (i < j ==> !Cut(n, a, j))
    {
      Inside(n, a, i, j - i);
    }
    hide Left, Cut, FirstOffset, LastOffset, Bits, Length, SingleLength;
  }

  // Where the completions start, up to DW i.
  function Starts(n: nat, a: nat, i: nat): seq<nat> {
    if i == 0 then [] else Starts(n, a, i - 1) + (if Cut(n, a, i - 1) then [i - 1] else [])
  }

  function Lengths(n: nat, a: nat, starts: seq<nat>): int {
    if starts == [] then 0
    else Lengths(n, a, starts[..|starts| - 1]) + Left(n, a, starts[|starts| - 1])
  }

  // The completions' lengths add up to the length of the request.
  lemma LengthsAddUp(n: nat, a: nat)
    requires 0 < n
    ensures Lengths(n, a, Starts(n, a, n)) == n
  {
    LengthsUpTo(n, a, n);
  }

  lemma {:induction false} LengthsUpTo(n: nat, a: nat, i: nat)
    requires 0 < i <= n
    ensures Lengths(n, a, Starts(n, a, i)) == i - 1 + Left(n, a, i - 1)
  {
    var s := Starts(n, a, i);
    if i > 1 {
      LengthsUpTo(n, a, i - 1);
      LeftStep(n, a, i - 2);
      if Cut(n, a, i - 1) {
        assert s == Starts(n, a, i - 1) + [i - 1];
        assert s[..|s| - 1] == Starts(n, a, i - 1);
      } else {
        assert s == Starts(n, a, i - 1);
      }
      hide Left, Cut;
    } else {
      assert Starts(n, a, 1) == Starts(n, a, 0) + [0] == [0];
      assert [0][..0] == [];
      assert Lengths(n, a, [0]) == Lengths(n, a, []) + Left(n, a, 0);
    }
  }

  // The header of the first completion agrees with its end marker if and only if the request is short or
  // does not start in the last DW of a 128-byte block.
  lemma FirstCompletionDelimited(h: Header)
    requires IsRead(h) && h.rawLength < 1024
    ensures var e := FirstReadOp(h).entry;
      (e.last <==> e.dwords == 1) <==> Good(h)
  {
  }

  // A message request: posted, so no completion is owed.
  predicate IsMessage(h: Header) {
    h.fmt % 2 == 1 && h.kind / 8 == 2
  }

  // What is refused with a completion of its own is everything but memory reads, memory writes and stray
  // completions; so every message is.
  lemma RefusedExactly(t: Tlp)
    ensures OpsOf(t) == [Answer(Refused(t.hdr.id))] <==> !IsRead(t.hdr) && !IsWrite(t.hdr) && !IsCompletion(t.hdr)
    ensures IsMessage(t.hdr) ==> OpsOf(t) == [Answer(Refused(t.hdr.id))]
  {
    hide ReadAt, WriteAt;
    if IsRead(t.hdr) {
      assert |OpsOf(t)| > 0 && OpsOf(t)[0] == ReadAt(t.hdr, 0);
      ReadIsRead(t.hdr, 0);
    } else if IsWrite(t.hdr) && t.payload != [] {
      assert |OpsOf(t)| > 0 && OpsOf(t)[0] == WriteAt(t.hdr, t.payload, 0);
      WriteIsWrite(t, 0);
    }
  }

  lemma ReadIsRead(h: Header, i: nat)
    requires i < Length(h)
    ensures ReadAt(h, i).Read?
  {
  }

  lemma WriteIsWrite(t: Tlp, i: nat)
    requires i < Length(t.hdr) && i < |t.payload|
    ensures WriteAt(t.hdr, t.payload, i).Write?
  {
  }

  // ---- The registers after i ops ----

  predicate ReadProgress(h: Header, r: Req, i: nat) {
    var n := Length(h);
    && 1 <= i <= n && r.addr == 4 * (h.addr + i) && r.opCount == n - i && r.id == h.id
    && r.byteCount == 4 * (n - i) - LastOffset(h.lastBe)
    && (i < n ==> r.phase == (if Cut(n, h.addr, i) then Read1 else Read2))
    && (i < n && r.phase.Read2? ==> r.dwCount == Left(n, h.addr, i) && (r.last <==> Left(n, h.addr, i) == 1))
  }

  lemma ReadBegins(r: Req, x: In)
    requires IsRead(x.hdr) && Good(x.hdr) && x.hdr.rawLength < 1024
    ensures FirstReadOp(x.hdr) == ReadAt(x.hdr, 0) && ReadProgress(x.hdr, AfterFirstRead(r, x), 1)
    ensures Length(x.hdr) == 1 ==> AfterFirstRead(r, x).phase == AfterTlp(x)
  {
    var n, a := Length(x.hdr), x.hdr.addr;
    if 32 < n {
      assert (a + 1) % 32 == a % 32 + 1;
    }
    hide FirstOffset, LastOffset, SingleLength;
  }

  lemma ReadGoesOn(h: Header, r: Req, i: nat)
    requires h.rawLength < 1024 && ReadProgress(h, r, i) && i < Length(h)
    ensures ReadOp(r) == ReadAt(h, i) && ReadProgress(h, AfterRead(r), i + 1)
    ensures i + 1 == Length(h) ==> AfterRead(r).phase.Idle?
  {
    var n, a := Length(h), h.addr;
    assert r.addr / 4 == a + i;
    assert (a + i + 1) % 32 == ((a + i) % 32 + 1) % 32;
    hide LastOffset, FirstOffset, SingleLength;
  }

  predicate WriteProgress(width: nat, t: Tlp, r: Req, i: nat) {
    var n := Length(t.hdr);
    && 1 <= i <= n && r.addr == 4 * (t.hdr.addr + i) && r.opCount == n - i && r.lastBe == t.hdr.lastBe
    && (r.last <==> i + 1 == n)
    && (i < n ==> r.phase.Write1? || r.phase.Write2?)
    && (i < n && r.phase.Write1? ==> |t.payload| == i && r.chunk == 0)
    && (i < n && r.phase.Write2? ==>
          width <= |t.payload| && i == |t.payload| - width + r.chunk && r.data == t.payload[|t.payload| - width..])
  }

  // The payload is what the request's beats brought so far.
  lemma WriteBegins(width: nat, r: Req, x: In)
    requires Typed(width, r) && Fits(width, x) && IsWrite(x.hdr)
    ensures var t := Tlp(x.hdr, x.data);
      && OpsOf(t) != [] && FirstWriteOp(x) == OpsOf(t)[0]
      && WriteProgress(width, t, AfterFirstWrite(r, x), 1)
  {
    assert x.data[0..] == x.data;
    hide FirstOffset;
  }

  lemma WriteGoesOn(width: nat, t: Tlp, r: Req, i: nat)
    requires Typed(width, r) && t.hdr.rawLength < 1024 && IsWrite(t.hdr)
    requires WriteProgress(width, t, r, i) && i < Length(t.hdr) && r.phase.Write2?
    ensures i < |OpsOf(t)| && WriteOp(r, r.data) == OpsOf(t)[i]
    ensures WriteProgress(width, t, AfterWrite(width, r, r.data), i + 1)
    ensures i + 1 == Length(t.hdr) ==> AfterWrite(width, r, r.data).phase.Idle?
  {
    assert r.addr / 4 == t.hdr.addr + i;
    assert r.data[r.chunk] == t.payload[i];
    hide FirstOffset;
  }

  // The next beat of the payload comes in.
  lemma WriteRefills(width: nat, t: Tlp, r: Req, i: nat, data: seq<nat>)
    requires Typed(width, r) && t.hdr.rawLength < 1024 && IsWrite(t.hdr) && |data| == width
    requires WriteProgress(width, t, r, i) && i < Length(t.hdr) && r.phase.Write1?
    ensures var t' := t.(payload := t.payload + data);
      && i < |OpsOf(t')| && WriteOp(r, data) == OpsOf(t')[i] && |OpsOf(t)| == i && OpsOf(t')[..i] == OpsOf(t)
      && WriteProgress(width, t', AfterWrite(width, r, data), i + 1)
      && (i + 1 == Length(t.hdr) ==> AfterWrite(width, r, data).phase.Idle?)
  {
    assert r.addr / 4 == t.hdr.addr + i;
    assert (t.payload + data)[i] == data[0];
    assert (t.payload + data)[|t.payload + data| - width..] == data;
    hide FirstOffset;
  }

  // ---- Histories ----

  // What was issued, and every request taken with the payload it has brought.
  datatype Hist = Hist(ops: seq<Op>, tlps: seq<Tlp>)

  function Front(h: Hist): seq<Tlp>
    requires h.tlps != []
  {
    h.tlps[..|h.tlps| - 1]
  }

  function Current(h: Hist): Tlp
    requires h.tlps != []
  {
    h.tlps[|h.tlps| - 1]
  }

  // i ops of the current request are issued, and all of the earlier ones.
  predicate Issued(h: Hist, i: nat) {
    h.tlps != [] && i <= |OpsOf(Current(h))| && h.ops == Expected(Front(h)) + OpsOf(Current(h))[..i]
  }

  predicate Busy(r: Req) {
    r.phase.Read1? || r.phase.Read2? || r.phase.Write1? || r.phase.Write2?
  }

  predicate InProgress(width: nat, r: Req, t: Tlp) {
    var i := Length(t.hdr) - r.opCount;
    && t.hdr.rawLength < 1024 && 1 <= i < Length(t.hdr)
    && (if r.phase.Read1? || r.phase.Read2? then IsRead(t.hdr) && ReadProgress(t.hdr, r, i)
        else IsWrite(t.hdr) && WriteProgress(width, t, r, i))
  }

  predicate HistOk(width: nat, r: Req, h: Hist) {
    if Busy(r) then h.tlps != [] && InProgress(width, r, Current(h)) && Issued(h, Length(Current(h).hdr) - r.opCount)
    else h.ops == Expected(h.tlps)
  }

  function Taken(r: Req, x: In): seq<Tlp> {
    if Accepts(r, x) then [Tlp(x.hdr, if IsWrite(x.hdr) then x.data else [])] else []
  }

  function HistStep(width: nat, r: Req, b: Bus, x: In, h: Hist): Hist
    requires Typed(width, r) && Fits(width, x)
  {
    var tlps := if r.phase.Write1? && r.ready && x.valid && h.tlps != [] then
                  Front(h) + [Current(h).(payload := Current(h).payload + x.data)]
                else h.tlps + Taken(r, x);
    Hist(h.ops + Step(width, r, b, x).op.AsSeq(), tlps)
  }

  lemma ExpectedOne(tlps: seq<Tlp>, t: Tlp)
    ensures Expected(tlps + [t]) == Expected(tlps) + OpsOf(t)
  {
    assert (tlps + [t])[..|tlps|] == tlps;
  }

  // A request just taken: its first op is issued, all of it if it has only one or none.
  lemma Opened(h: Hist, t: Tlp, first: seq<Op>)
    requires h.ops == Expected(h.tlps) && |first| <= |OpsOf(t)| && first == OpsOf(t)[..|first|]
    ensures Issued(Hist(h.ops + first, h.tlps + [t]), |first|)
    ensures |first| == |OpsOf(t)| ==> h.ops + first == Expected(h.tlps + [t])
  {
    assert (h.tlps + [t])[..|h.tlps|] == h.tlps;
    ExpectedOne(h.tlps, t);
  }

  lemma Advanced(h: Hist, i: nat, op: Op)
    requires Issued(h, i) && i < |OpsOf(Current(h))| && op == OpsOf(Current(h))[i]
    ensures Issued(Hist(h.ops + [op], h.tlps), i + 1)
    ensures i + 1 == |OpsOf(Current(h))| ==> h.ops + [op] == Expected(h.tlps)
  {
    hide OpsOf, Expected;
    var ops := OpsOf(Current(h));
    assert ops[..i + 1] == ops[..i] + [op];
    assert Expected(Front(h)) + ops[..i] + [op] == Expected(Front(h)) + ops[..i + 1];
    if i + 1 == |ops| {
      ExpectedOne(Front(h), Current(h));
      assert ops[..i + 1] == ops;
      assert h.tlps == Front(h) + [Current(h)];
    }
  }

  lemma ReadOps(t: Tlp, i: nat)
    requires IsRead(t.hdr) && i < Length(t.hdr)
    ensures |OpsOf(t)| == Length(t.hdr) && OpsOf(t)[i] == ReadAt(t.hdr, i)
  {
  }

  // ---- One clock ----

  lemma AcceptKept(width: nat, r: Req, b: Bus, x: In, h: Hist)
    requires Typed(width, r) && Fits(width, x) && HistOk(width, r, h) && Accepts(r, x) && Good(x.hdr)
    ensures HistOk(width, Step(width, r, b, x).req, HistStep(width, r, b, x, h))
  {
    var o, t := Step(width, r, b, x), Tlp(x.hdr, if IsWrite(x.hdr) then x.data else []);
    assert o == AcceptOut(r, b, x);
    var first := o.op.AsSeq();
    if IsRead(x.hdr) {
      ReadBegins(r, x);
      ReadOps(t, 0);
    } else if IsWrite(x.hdr) {
      WriteBegins(width, r, x);
    }
    hide FirstReadOp, FirstWriteOp, ReadAt, WriteAt, Expected, Step, FirstOffset, LastOffset, Left, Cut, BusFree;
    Opened(h, t, first);
    AcceptShape(width, r, b, x);
  }

  // Where a request just taken leaves the registers.
  lemma AcceptShape(width: nat, r: Req, b: Bus, x: In)
    requires Typed(width, r) && Fits(width, x) && Accepts(r, x)
    ensures var o := AcceptOut(r, b, x);
      if (IsRead(x.hdr) || IsWrite(x.hdr)) && Length(x.hdr) > 1 then
        Busy(o.req) && (o.req.phase.Read2? == IsRead(x.hdr)) && o.req.opCount == Length(x.hdr) - 1 &&
          !o.req.phase.Read1?
      else !Busy(o.req)
  {
    hide FirstOffset, LastOffset, BusFree;
  }

  lemma ReadKept(width: nat, r: Req, b: Bus, x: In, h: Hist)
    requires Typed(width, r) && Fits(width, x) && HistOk(width, r, h) && (r.phase.Read1? || r.phase.Read2?) &&
      ReadGate(b, x)
    ensures HistOk(width, Step(width, r, b, x).req, HistStep(width, r, b, x, h))
  {
    var t := Current(h);
    var i := Length(t.hdr) - r.opCount;
    ReadGoesOn(t.hdr, r, i);
    ReadOps(t, i);
    Advanced(h, i, ReadOp(r));
    var o := Step(width, r, b, x);
    assert o == Out(AfterRead(r), Some(ReadOp(r)));
    assert HistStep(width, r, b, x, h) == Hist(h.ops + [ReadOp(r)], h.tlps) by { assert h.tlps + [] == h.tlps; }
    hide Step, HistStep, AfterRead, ReadOp, ReadAt, Expected, OpsOf, Left, Cut, LastOffset, FirstOffset, Issued;
  }

  lemma WriteKept(width: nat, r: Req, b: Bus, x: In, h: Hist)
    requires Typed(width, r) && Fits(width, x) && HistOk(width, r, h) && r.phase.Write2? && WriteGate(b, x)
    ensures HistOk(width, Step(width, r, b, x).req, HistStep(width, r, b, x, h))
  {
    var t := Current(h);
    var i := Length(t.hdr) - r.opCount;
    var op, r' := WriteOp(r, r.data), AfterWrite(width, r, r.data);
    WriteGoesOn(width, t, r, i);
    LastWrite(t, i);
    assert Step(width, r, b, x) == Out(r', Some(op));
    assert HistStep(width, r, b, x, h) == Hist(h.ops + [op], h.tlps) by { assert h.tlps + [] == h.tlps; }
    hide Step, HistStep, Expected, OpsOf, WriteOp, AfterWrite, WriteProgress, ReadProgress;
    Advanced(h, i, op);
    WrittenOn(width, r, t, h, Hist(h.ops + [op], h.tlps), i);
  }

  // After the op the same request is in progress, or complete.
  lemma WrittenOn(width: nat, r: Req, t: Tlp, h: Hist, h': Hist, i: nat)
    requires Typed(width, r) && (r.phase.Write1? || r.phase.Write2?) && t.hdr.rawLength < 1024 && IsWrite(t.hdr)
    requires h'.tlps != [] && t == Current(h') && 1 <= i < Length(t.hdr) && r.opCount == Length(t.hdr) - i
    requires WriteProgress(width, t, AfterWrite(width, r, r.data), i + 1)
    requires i + 1 == Length(t.hdr) ==> AfterWrite(width, r, r.data).phase.Idle? && h'.ops == Expected(h'.tlps)
    requires Issued(h', i + 1)
    ensures HistOk(width, AfterWrite(width, r, r.data), h')
  {
    hide Expected, OpsOf, Issued;
  }

  // A write is complete with its last DW.
  lemma LastWrite(t: Tlp, i: nat)
    requires IsWrite(t.hdr) && i < |OpsOf(t)|
    ensures i + 1 == Length(t.hdr) ==> i + 1 == |OpsOf(t)|
  {
  }

  lemma RefillKept(width: nat, r: Req, b: Bus, x: In, h: Hist)
    requires Typed(width, r) && Fits(width, x) && HistOk(width, r, h) && r.phase.Write1? && r.ready && x.valid
    ensures HistOk(width, Step(width, r, b, x).req, HistStep(width, r, b, x, h))
  {
    var t := Current(h);
    var i := Length(t.hdr) - r.opCount;
    WriteRefills(width, t, r, i, x.data);
    var t' := t.(payload := t.payload + x.data);
    LastWrite(t', i);
    assert Step(width, r, b, x) == Out(AfterWrite(width, r, x.data), Some(WriteOp(r, x.data)));
    assert HistStep(width, r, b, x, h) == Hist(h.ops + [WriteOp(r, x.data)], Front(h) + [t']);
    hide Step, HistStep, AfterWrite, WriteOp, Expected, OpsOf;
    Refilled(h, t', i, WriteOp(r, x.data));
  }

  lemma Refilled(h: Hist, t': Tlp, i: nat, op: Op)
    requires Issued(h, i) && |OpsOf(Current(h))| == i
    requires i < |OpsOf(t')| && OpsOf(t')[..i] == OpsOf(Current(h)) && op == OpsOf(t')[i]
    ensures var h' := Hist(h.ops + [op], Front(h) + [t']);
      && Current(h') == t' && Issued(h', i + 1)
      && (i + 1 == |OpsOf(t')| ==> h'.ops == Expected(h'.tlps))
  {
    var h' := Hist(h.ops, Front(h) + [t']);
    assert Front(h') == Front(h) && OpsOf(Current(h))[..i] == OpsOf(Current(h));
    hide OpsOf, Expected;
    Advanced(h', i, op);
  }

  lemma WaitKept(width: nat, r: Req, b: Bus, x: In, h: Hist)
    requires Typed(width, r) && Fits(width, x) && HistOk(width, r, h) && Step(width, r, b, x).op.None? && !Accepts(r, x)
    requires !(r.phase.Write1? && r.ready && x.valid)
    ensures HistOk(width, Step(width, r, b, x).req, HistStep(width, r, b, x, h))
  {
    assert HistStep(width, r, b, x, h) == h by { assert h.tlps + [] == h.tlps && h.ops + [] == h.ops; }
    WaitShape(width, r, b, x);
    hide HistStep, Step, Taken;
    var r' := Step(width, r, b, x).req;
    SameProgress(width, r, r', h);
  }

  lemma WaitShape(width: nat, r: Req, b: Bus, x: In)
    requires Typed(width, r) && Fits(width, x) && Step(width, r, b, x).op.None? && !Accepts(r, x)
    ensures var r' := Step(width, r, b, x).req;
      && r' == r.(ready := r'.ready, phase := r'.phase) && (r'.phase == r.phase || (!Busy(r) && !Busy(r')))
  {
    hide AfterRead, AfterWrite, AcceptOut, ReadOp, WriteOp, BusFree;
  }

  lemma SameProgress(width: nat, r: Req, r': Req, h: Hist)
    requires r' == r.(ready := r'.ready, phase := r'.phase) && (r'.phase == r.phase || (!Busy(r) && !Busy(r')))
    requires HistOk(width, r, h)
    ensures HistOk(width, r', h)
  {
    hide Expected, OpsOf, Issued, Left, Cut, LastOffset, Length;
  }

  lemma StepKept(width: nat, r: Req, b: Bus, x: In, h: Hist)
    requires Typed(width, r) && Fits(width, x) && HistOk(width, r, h) && (Accepts(r, x) ==> Good(x.hdr))
    ensures HistOk(width, Step(width, r, b, x).req, HistStep(width, r, b, x, h))
  {
    if Accepts(r, x) {
      AcceptKept(width, r, b, x, h);
    } else if (r.phase.Read1? || r.phase.Read2?) && ReadGate(b, x) {
      ReadKept(width, r, b, x, h);
    } else if r.phase.Write2? && WriteGate(b, x) {
      WriteKept(width, r, b, x, h);
    } else if r.phase.Write1? && r.ready && x.valid {
      RefillKept(width, r, b, x, h);
    } else {
      hide HistOk;
      WaitKept(width, r, b, x, h);
    }
  }

  // ---- A read the bridge cannot delimit ----

  predicate AllGood(tlps: seq<Tlp>) {
    forall k :: 0 <= k < |tlps| ==> Good(tlps[k].hdr)
  }

  // Request n is such a read, and its first op is not the one it asks for.
  predicate WrongAt(h: Hist, n: nat) {
    && n < |h.tlps| && IsRead(h.tlps[n].hdr) && h.tlps[n].hdr.rawLength < 1024
    && |Expected(h.tlps[..n])| < |h.ops| && h.ops[|Expected(h.tlps[..n])|] != ReadAt(h.tlps[n].hdr, 0)
  }

  lemma FirstOpWrong(h: Header)
    requires IsRead(h) && h.rawLength < 1024 && !Good(h)
    ensures FirstReadOp(h) != ReadAt(h, 0)
  {
    hide FirstOffset, LastOffset, SingleLength, Bits;
  }

  lemma GoesWrong(width: nat, r: Req, b: Bus, x: In, h: Hist)
    requires Typed(width, r) && Fits(width, x) && HistOk(width, r, h) && Accepts(r, x) && !Good(x.hdr)
    ensures WrongAt(HistStep(width, r, b, x, h), |h.tlps|)
  {
    FirstOpWrong(x.hdr);
    var h' := HistStep(width, r, b, x, h);
    assert h'.tlps == h.tlps + Taken(r, x) && h'.tlps[..|h.tlps|] == h.tlps;
    assert h'.ops == Expected(h.tlps) + [FirstReadOp(x.hdr)];
    hide Expected, FirstReadOp, ReadAt;
  }

  lemma HistoryGrows(width: nat, r: Req, b: Bus, x: In, h: Hist)
    requires Typed(width, r) && Fits(width, x)
    ensures var h' := HistStep(width, r, b, x, h);
      && h.ops <= h'.ops && |h.tlps| <= |h'.tlps|
      && (forall n :: 0 <= n < |h.tlps| ==> h'.tlps[n].hdr == h.tlps[n].hdr)
      && (forall n :: 0 <= n < |h.tlps| ==> h'.tlps[..n] == h.tlps[..n])
      && (AllGood(h'.tlps) <==> AllGood(h.tlps) && (Accepts(r, x) ==> Good(x.hdr)))
  {
    hide Step, Good, IsWrite;
    var h' := HistStep(width, r, b, x, h);
    if Accepts(r, x) {
      assert h'.tlps[|h.tlps|].hdr == x.hdr;
    }
  }

  lemma StaysWrong(width: nat, r: Req, b: Bus, x: In, h: Hist, n: nat)
    requires Typed(width, r) && Fits(width, x) && WrongAt(h, n)
    ensures WrongAt(HistStep(width, r, b, x, h), n)
  {
    HistoryGrows(width, r, b, x, h);
    hide HistStep, Expected, ReadAt, IsRead;
  }

  lemma {:induction false} ExpectedPart(tlps: seq<Tlp>, n: nat)
    requires n <= |tlps|
    ensures Expected(tlps[..n]) <= Expected(tlps)
    decreases |tlps|
  {
    if n == |tlps| {
      assert tlps[..n] == tlps;
    } else {
      var front := tlps[..|tlps| - 1];
      ExpectedPart(front, n);
      assert front[..n] == tlps[..n];
      hide OpsOf;
    }
  }

  // From then on the ops issued are not those asked for.
  lemma WrongIsSeen(h: Hist, n: nat)
    requires WrongAt(h, n)
    ensures !(h.ops <= Expected(h.tlps))
  {
    var t, before := h.tlps[n], Expected(h.tlps[..n]);
    assert h.tlps[..n + 1] == h.tlps[..n] + [t];
    ExpectedOne(h.tlps[..n], t);
    ExpectedPart(h.tlps, n + 1);
    ReadOps(t, 0);
    hide Expected, OpsOf, ReadAt;
    assert (before + OpsOf(t))[|before|] == ReadAt(t.hdr, 0);
    assert Expected(h.tlps)[|before|] == ReadAt(t.hdr, 0);
  }
}
