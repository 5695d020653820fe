// pcie_axil_master, response side: queue entries and read data become completion beats.
module AxilResponse {
  import opened Wrappers
  import opened AxilRequest

  datatype Phase = Idle | Fetch | AwaitWrite | Complete

  // cur: the entry taken from the queue; the rest are the output registers and the ready flags.
  datatype Resp = Resp(
    phase: Phase, cur: Option<Entry>, chunk: nat, hdr: Entry, lanes: seq<nat>, valid: bool, sop: bool, eop: bool,
    rReady: bool, bReady: bool)

  datatype Pins = Pins(rValid: bool, rData: nat, bValid: bool, cplReady: bool)

  datatype Beat = Beat(hdr: Entry, lanes: seq<nat>, sop: bool, eop: bool)

  predicate Free(p: Resp, x: Pins) {
    !p.valid || x.cplReady
  }

  predicate Fetches(p: Resp, x: Pins) {
    p.phase.Fetch? && p.cur.Some? && p.cur.value.ReadEntry? && p.rReady && x.rValid
  }

  // The read data of one DW goes to the next lane; a full beat or the last DW makes the beat valid.
  function Fetched(width: nat, p: Resp, e: Entry, d: nat): Resp
    requires e.ReadEntry?
  {
    var q := p.(phase := Phase.Idle, cur := None, rReady := false);
    if e.first then q.(chunk := 1, lanes := [d], hdr := e, valid := e.last, sop := true, eop := e.last)
    else if p.chunk == 0 then
      q.(chunk := 1, lanes := [d], sop := false, valid := width == 1 || e.last, eop := e.last)
    else
      q.(chunk := if p.chunk + 1 == width then 0 else p.chunk + 1,
         lanes := if p.chunk < |p.lanes| then p.lanes[p.chunk := d] else p.lanes + [d],
         valid := p.chunk + 1 == width || e.last, eop := e.last)
  }

  function Work(width: nat, p: Resp, x: Pins): Resp {
    var q := p.(valid := p.valid && !x.cplReady, rReady := false, bReady := false);
    match p.phase
    case Idle =>
      (match p.cur
       case None => q
       case Some(ReadEntry(_, _, _, _, _, _)) => q.(phase := Fetch, rReady := Free(p, x))
       case Some(WriteEntry) => q.(phase := AwaitWrite, bReady := true)
       case Some(Refused(_)) => q.(phase := Complete))
    case Fetch =>
      if Fetches(p, x) then Fetched(width, q, p.cur.value, x.rData) else q.(rReady := Free(p, x))
    case AwaitWrite =>
      if p.bReady && x.bValid then q.(phase := Phase.Idle, cur := None) else q.(bReady := true)
    case Complete =>
      if Free(p, x) && p.cur.Some? then
        q.(phase := Phase.Idle, cur := None, hdr := p.cur.value, lanes := [], valid := true, sop := true, eop := true)
      else q
  }

  // With no entry in hand the next one is taken from the queue.
  function Step(width: nat, p: Resp, x: Pins, head: Option<Entry>): Resp {
    var q := Work(width, p, x);
    if q.cur.None? then q.(cur := head) else q
  }

  predicate Pops(width: nat, p: Resp, x: Pins) {
    Work(width, p, x).cur.None?
  }

  function Sends(p: Resp, x: Pins): seq<Beat> {
    if p.valid && x.cplReady then [Beat(p.hdr, p.lanes, p.sop, p.eop)] else []
  }

  // An entry leaves the unit with the data it fetched, if any.
  datatype Retired = Retired(entry: Entry, data: nat)

  function Retires(width: nat, p: Resp, x: Pins): seq<Retired> {
    if p.cur.Some? && Work(width, p, x).cur.None? then [Retired(p.cur.value, x.rData)] else []
  }

  // ---- Completions as a stream of tokens ----

  datatype Token = Open(hdr: Entry) | Dw(data: nat) | Close

  function Dws(lanes: seq<nat>): seq<Token> {
    if lanes == [] then [] else Dws(lanes[..|lanes| - 1]) + [Dw(lanes[|lanes| - 1])]
  }

  function BeatTokens(b: Beat): seq<Token> {
    (if b.sop then [Open(b.hdr)] else []) + Dws(b.lanes) + (if b.eop then [Close] else [])
  }

  function Stream(beats: seq<Beat>): seq<Token> {
    if beats == [] then [] else Stream(beats[..|beats| - 1]) + BeatTokens(beats[|beats| - 1])
  }

  // What an entry contributes: a read its DW, opening and closing completions as it says; a refused request a
  // completion without data; a write nothing.
  function EntryTokens(r: Retired): seq<Token> {
    match r.entry
    case ReadEntry(first, last, _, _, _, _) =>
      (if first then [Open(r.entry)] else []) + [Dw(r.data)] + (if last then [Close] else [])
    case Refused(_) => [Open(r.entry), Close]
    case WriteEntry => []
  }

  function Tokens(rs: seq<Retired>): seq<Token> {
    if rs == [] then [] else Tokens(rs[..|rs| - 1]) + EntryTokens(rs[|rs| - 1])
  }

  // A completion is open after these entries.
  predicate IsOpen(e: Entry) {
    e.ReadEntry? && !e.last
  }

  predicate OpenAfter(rs: seq<Retired>) {
    rs != [] && IsOpen(rs[|rs| - 1].entry)
  }

  // The next entry continues an open completion, or none is open.
  predicate Follows(open: bool, e: Entry) {
    if e.ReadEntry? then e.first == !open else !open
  }

  // Tokens in the output registers: a beat on offer, or the lanes collected so far.
  function Held(p: Resp, open: bool): seq<Token> {
    if p.valid then BeatTokens(Beat(p.hdr, p.lanes, p.sop, p.eop))
    else if open && p.chunk != 0 then BeatTokens(Beat(p.hdr, p.lanes, p.sop, false))
    else []
  }

  predicate RespOk(width: nat, p: Resp, open: bool) {
    && 2 <= width && p.chunk < width
    && (p.rReady ==> !p.valid && p.phase.Fetch?)
    && (open && p.valid ==> p.chunk == 0 && !p.eop)
    && (open && !p.valid && p.chunk != 0 ==> |p.lanes| == p.chunk)
    && (p.valid ==> |p.lanes| <= width && (!p.eop ==> |p.lanes| == width))
    && (p.phase.Fetch? ==> p.cur.Some? && p.cur.value.ReadEntry?)
    && (p.phase.Complete? ==> p.cur.Some? && p.cur.value.Refused?)
    && (p.phase.AwaitWrite? ==> p.cur == Some(WriteEntry))
  }

  // Only the last beat of a completion may be partly filled.
  predicate BeatsFull(width: nat, beats: seq<Beat>) {
    forall i :: 0 <= i < |beats| ==> |beats[i].lanes| <= width && (!beats[i].eop ==> |beats[i].lanes| == width)
  }

  lemma StreamOne(b: Beat)
    ensures Stream([b]) == BeatTokens(b) && Stream([]) == []
  {
    assert [b][..0] == [];
  }

  lemma TokensOne(r: Retired)
    ensures Tokens([r]) == EntryTokens(r) && Tokens([]) == []
  {
    assert [r][..0] == [];
  }

  lemma DwsMore(lanes: seq<nat>, d: nat)
    ensures Dws(lanes + [d]) == Dws(lanes) + [Dw(d)] && Dws([d]) == [Dw(d)] && Dws([]) == []
  {
    assert (lanes + [d])[..|lanes|] == lanes && [d][..0] == [];
  }

  lemma BeatMore(hdr: Entry, lanes: seq<nat>, sop: bool, d: nat, eop: bool)
    ensures BeatTokens(Beat(hdr, lanes + [d], sop, eop))
         == BeatTokens(Beat(hdr, lanes, sop, false)) + [Dw(d)] + (if eop then [Close] else [])
  {
    DwsMore(lanes, d);
    hide Dws;
  }

  lemma BeatFirst(hdr: Entry, sop: bool, d: nat, eop: bool)
    ensures BeatTokens(Beat(hdr, [d], sop, eop))
         == (if sop then [Open(hdr)] else []) + [Dw(d)] + (if eop then [Close] else [])
  {
    DwsMore([], d);
    hide Dws;
  }

  // A fetched DW joins the lanes collected, after the completion's opening if it is the first.
  lemma FetchTokens(width: nat, p: Resp, x: Pins, open: bool)
    requires RespOk(width, p, open) && Fetches(p, x) && Follows(open, p.cur.value)
    ensures var p', r := Work(width, p, x), Retired(p.cur.value, x.rData);
      && p'.cur.None? && RespOk(width, p', IsOpen(r.entry))
      && Held(p', IsOpen(r.entry)) == Held(p, open) + EntryTokens(r) && !p.valid
  {
    var e, d := p.cur.value, x.rData;
    if e.first || p.chunk == 0 {
      BeatFirst(if e.first then e else p.hdr, e.first, d, e.last);
    } else {
      BeatMore(p.hdr, p.lanes, p.sop, d, e.last);
      assert p.chunk == |p.lanes|;
    }
    hide BeatTokens;
  }

  lemma CompleteTokens(width: nat, p: Resp, x: Pins, open: bool)
    requires RespOk(width, p, open) && p.phase.Complete? && Free(p, x) && Follows(open, p.cur.value)
    ensures var p', r := Work(width, p, x), Retired(p.cur.value, x.rData);
      && p'.cur.None? && RespOk(width, p', false) && !open
      && Stream(Sends(p, x)) + Held(p', false) == Held(p, open) + EntryTokens(r)
  {
    StreamOne(Beat(p.hdr, p.lanes, p.sop, p.eop));
    assert Dws([]) == [];
    hide Dws, Stream;
  }

  // No entry retires, or a write does: at most the beat on offer leaves.
  lemma QuietTokens(width: nat, p: Resp, x: Pins, open: bool)
    requires RespOk(width, p, open) && !Fetches(p, x) && !(p.phase.Complete? && Free(p, x))
    ensures var p' := Work(width, p, x);
      && RespOk(width, p', open) && Stream(Sends(p, x)) + Held(p', open) == Held(p, open)
      && (p.cur.Some? && p'.cur.None? ==> p.cur == Some(WriteEntry))
  {
    StreamOne(Beat(p.hdr, p.lanes, p.sop, p.eop));
    hide Dws, Stream, BeatTokens;
  }

  // What leaves, then what the registers hold, is what they held and what the retired entry adds.
  lemma StepTokens(width: nat, p: Resp, x: Pins, head: Option<Entry>, open: bool)
    requires RespOk(width, p, open) && (p.cur.Some? ==> Follows(open, p.cur.value))
    ensures var p', r := Step(width, p, x, head), Retires(width, p, x);
      var open' := if r == [] then open else IsOpen(r[0].entry);
      && RespOk(width, p', open')
      && Stream(Sends(p, x)) + Held(p', open') == Held(p, open) + Tokens(r)
  {
    var w, r, open' := Work(width, p, x), Retires(width, p, x), if Retires(width, p, x) == [] then open
        else IsOpen(Retires(width, p, x)[0].entry);
    assert RespOk(width, w, open') && Stream(Sends(p, x)) + Held(w, open') == Held(p, open) + Tokens(r) by {
      WorkTokens(width, p, x, open);
    }
    hide Work, Stream, Tokens, BeatTokens, Sends, Follows;
  }

  lemma WorkTokens(width: nat, p: Resp, x: Pins, open: bool)
    requires RespOk(width, p, open) && (p.cur.Some? ==> Follows(open, p.cur.value))
    ensures var w, r := Work(width, p, x), Retires(width, p, x);
      var open' := if r == [] then open else IsOpen(r[0].entry);
      RespOk(width, w, open') && Stream(Sends(p, x)) + Held(w, open') == Held(p, open) + Tokens(r)
  {
    hide Stream, Tokens, BeatTokens, Held, RespOk, Follows;
    var w := Work(width, p, x);
    if p.cur.Some? {
      TokensOne(Retired(p.cur.value, x.rData));
    }
    if Fetches(p, x) {
      FetchTokens(width, p, x, open);
      SendsNothing(p, x);
      assert [] + Held(w, IsOpen(p.cur.value)) == Held(w, IsOpen(p.cur.value));
    } else if p.phase.Complete? && Free(p, x) {
      Refuses(width, p, open);
      CompleteTokens(width, p, x, open);
    } else {
      QuietTokens(width, p, x, open);
      assert Held(p, open) + [] == Held(p, open);
      NothingClosed(width, p, open);
      assert Tokens([]) == [] by { TokensOne(Retired(WriteEntry, 0)); }
    }
    hide Work;
  }

  lemma SendsNothing(p: Resp, x: Pins)
    requires !p.valid
    ensures Stream(Sends(p, x)) == []
  {
  }

  lemma Refuses(width: nat, p: Resp, open: bool)
    requires RespOk(width, p, open) && p.phase.Complete?
    ensures p.cur.Some? && p.cur.value.Refused? && !IsOpen(p.cur.value)
  {
  }

  // A write in hand never continues a completion.
  lemma NothingClosed(width: nat, p: Resp, open: bool)
    requires RespOk(width, p, open) && (p.cur.Some? ==> Follows(open, p.cur.value))
    ensures p.cur == Some(WriteEntry) ==> !open
  {
  }
}
