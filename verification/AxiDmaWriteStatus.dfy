// axi_dma_wr, response side: the k-th write response meets the k-th burst's status entry, the status
// FIFO cannot overflow, and a failed burst shows up in its own descriptor's status.
module AxiDmaWriteStatus {
  import opened Wrappers
  import opened AxiBus
  import opened AxiDmaWrite
  import OutputFifo

  // One reported descriptor: its bursts' entries, their responses, the status sent.
  datatype Answer = Answer(entries: seq<Entry>, resps: seq<Resp>, status: Status)

  // The past of the response side. pushed: every entry ever queued; queued: those not yet answered;
  // open: answered entries of a descriptor not yet reported.
  datatype Ledger = Ledger(issued: nat, pushed: seq<Entry>, queued: seq<Entry>, answers: seq<Answer>,
                           openEntries: seq<Entry>, openResps: seq<Resp>)

  const NO_LEDGER := Ledger(0, [], [], [], [], [])

  function LedgerStep(l: Ledger, t: StatusRegs, entry: Option<Entry>, issue: bool, i: Input): Ledger
    requires StatusTyped(t)
  {
    var o := StatusStep(t, entry, issue, i);
    var pop := Pops(t, i) && l.queued != [];
    var entries := if pop then l.openEntries + [l.queued[0]] else l.openEntries;
    var resps := if pop then l.openResps + [i.bResp] else l.openResps;
    var reported := o.status.Some?;
    Ledger(
      if issue then l.issued + 1 else l.issued,
      l.pushed + entry.AsSeq(),
      (if pop then l.queued[1..] else l.queued) + entry.AsSeq(),
      if reported then l.answers + [Answer(entries, resps, o.status.value)] else l.answers,
      if reported then [] else entries,
      if reported then [] else resps)
  }

  // A descriptor's entries: only the final one is marked last.
  predicate Closed(entries: seq<Entry>) {
    entries != [] && forall k :: 0 <= k < |entries| ==> entries[k].last == (k == |entries| - 1)
  }

  predicate GoodAnswer(a: Answer) {
    && Closed(a.entries) && |a.resps| == |a.entries|
    && var final := a.entries[|a.entries| - 1];
       a.status == Status(final.len, final.tag, ErrorOf(LastFailure(a.resps)))
  }

  function Groups(answers: seq<Answer>): (g: seq<seq<Entry>>)
    ensures |g| == |answers|
  {
    seq(|answers|, k requires 0 <= k < |answers| => answers[k].entries)
  }

  predicate Queue(t: StatusRegs, q: seq<Entry>)
    requires StatusTyped(t)
  {
    var n := OutputFifo.Distance(STATUS_DEPTH, t.rd, t.wr);
    n <= STATUS_DEPTH && OutputFifo.Ring(t.cells, t.rd, n) == q
  }

  // bursting: a burst has been issued whose entry is not queued yet.
  predicate CountInv(t: StatusRegs, l: Ledger, bursting: bool) {
    && l.issued == |l.pushed| + (if bursting then 1 else 0)
    && |l.queued| <= |l.pushed| && t.active == l.issued - (|l.pushed| - |l.queued|) <= STATUS_DEPTH
    && (t.av ==> t.active < STATUS_DEPTH)
    && (t.bReady ==> l.queued != [])
  }

  predicate StatusInv(t: StatusRegs, l: Ledger, bursting: bool)
    requires StatusTyped(t)
  {
    Queue(t, l.queued) && CountInv(t, l, bursting) && AnswersInv(t, l)
  }

  // Every report so far matches its entries and their responses; the running response is the latest
  // failure since the last report.
  predicate AnswersInv(t: StatusRegs, l: Ledger) {
    && |l.openResps| == |l.openEntries| && (forall k :: 0 <= k < |l.openEntries| ==> !l.openEntries[k].last)
    && (forall k :: 0 <= k < |l.answers| ==> GoodAnswer(l.answers[k]))
    && Flatten(Groups(l.answers)) + l.openEntries + l.queued == l.pushed
    && t.bresp == LastFailure(l.openResps)
  }

  lemma PushKept(cells: seq<Entry>, rd: nat, wr: nat, q: seq<Entry>, entry: Option<Entry>)
    requires |cells| == STATUS_DEPTH && rd < 2 * STATUS_DEPTH && wr < 2 * STATUS_DEPTH
    requires OutputFifo.Distance(STATUS_DEPTH, rd, wr) == |q| && |q| + |entry.AsSeq()| <= STATUS_DEPTH
    requires OutputFifo.Ring(cells, rd, |q|) == q
    ensures var cells' := if entry.Some? then cells[OutputFifo.Slot(STATUS_DEPTH, wr) := entry.value] else cells;
            var wr' := if entry.Some? then OutputFifo.Wrap(STATUS_DEPTH, wr + 1) else wr;
            && OutputFifo.Distance(STATUS_DEPTH, rd, wr') == |q| + |entry.AsSeq()|
            && OutputFifo.Ring(cells', rd, |q| + |entry.AsSeq()|) == q + entry.AsSeq()
  {
    hide OutputFifo.Ring, OutputFifo.Wrap, OutputFifo.Slot, OutputFifo.Distance;
    if entry.Some? {
      OutputFifo.RingPush(cells, rd, |q|, entry.value);
      OutputFifo.PointerPush(STATUS_DEPTH, rd, wr);
    }
  }

  lemma QueueKept(t: StatusRegs, l: Ledger, entry: Option<Entry>, issue: bool, i: Input)
    requires StatusTyped(t) && Queue(t, l.queued) && (entry.Some? ==> |l.queued| < STATUS_DEPTH)
    ensures Pops(t, i) ==> l.queued != [] && t.cells[OutputFifo.Slot(STATUS_DEPTH, t.rd)] == l.queued[0]
    ensures (t.rd == t.wr) == (l.queued == [])
    ensures Queue(StatusStep(t, entry, issue, i).regs, LedgerStep(l, t, entry, issue, i).queued)
  {
    OutputFifo.FullAndEmpty(STATUS_DEPTH, t.rd, t.wr);
    hide OutputFifo.Ring, OutputFifo.Wrap, OutputFifo.Slot, OutputFifo.Distance;
    if Pops(t, i) {
      OutputFifo.RingPop(t.cells, t.rd, |l.queued|);
      OutputFifo.PointerPop(STATUS_DEPTH, t.rd, t.wr);
      PushKept(t.cells, OutputFifo.Wrap(STATUS_DEPTH, t.rd + 1), t.wr, l.queued[1..], entry);
    } else {
      PushKept(t.cells, t.rd, t.wr, l.queued, entry);
    }
  }

  lemma Regroup<T>(done: seq<T>, open: seq<T>, queued: seq<T>, pushed: seq<T>, entry: seq<T>, pop: bool)
    requires done + open + queued == pushed && (pop ==> queued != [])
    ensures !pop ==> done + open + (queued + entry) == pushed + entry
    ensures pop ==> done + (open + [queued[0]]) + (queued[1..] + entry) == pushed + entry
  {
    if pop {
      assert queued == [queued[0]] + queued[1..];
    }
    assert done + open + (queued + entry) == done + open + queued + entry;
  }

  lemma AnswerAdded(answers: seq<Answer>, a: Answer)
    ensures Flatten(Groups(answers + [a])) == Flatten(Groups(answers)) + a.entries
  {
    assert Groups(answers + [a])[..|answers|] == Groups(answers);
  }

  lemma AnswersWait(t: StatusRegs, l: Ledger, entry: Option<Entry>, issue: bool, i: Input)
    requires StatusTyped(t) && AnswersInv(t, l) && (t.bReady ==> t.rd != t.wr)
    requires !Pops(t, i)
    ensures AnswersInv(StatusStep(t, entry, issue, i).regs, LedgerStep(l, t, entry, issue, i))
  {
    hide OutputFifo.Wrap, OutputFifo.Slot, Flatten, Groups, GoodAnswer, LastFailure;
    Regroup(Flatten(Groups(l.answers)), l.openEntries, l.queued, l.pushed, entry.AsSeq(), false);
  }

  lemma AnswersPop(t: StatusRegs, l: Ledger, entry: Option<Entry>, issue: bool, i: Input)
    requires StatusTyped(t) && AnswersInv(t, l) && (t.bReady ==> t.rd != t.wr)
    requires Pops(t, i) && l.queued != [] && t.cells[OutputFifo.Slot(STATUS_DEPTH, t.rd)] == l.queued[0]
    ensures AnswersInv(StatusStep(t, entry, issue, i).regs, LedgerStep(l, t, entry, issue, i))
  {
    hide OutputFifo.Wrap, OutputFifo.Slot, Flatten, Groups;
    var l' := LedgerStep(l, t, entry, issue, i);
    Regroup(Flatten(Groups(l.answers)), l.openEntries, l.queued, l.pushed, entry.AsSeq(), true);
    if l.queued[0].last {
      AnswerAdded(l.answers, l'.answers[|l.answers|]);
      assert Flatten(Groups(l'.answers)) + [] + l'.queued == Flatten(Groups(l'.answers)) + l'.queued;
    }
  }

  // One clock: the k-th response met the k-th entry, nothing was overwritten, and the credit count is
  // exactly the bursts issued and not yet answered.
  lemma StatusKept(t: StatusRegs, l: Ledger, entry: Option<Entry>, issue: bool, i: Input, bursting: bool,
                   bursting': bool)
    requires StatusTyped(t) && StatusInv(t, l, bursting)
    requires issue ==> t.av && !bursting && bursting' && entry.None?
    requires (entry.Some? ==> bursting && !bursting') && (!issue && entry.None? ==> bursting' == bursting)
    ensures Pops(t, i) ==> l.queued != []
    ensures entry.Some? ==> |l.queued| < STATUS_DEPTH
    ensures StatusInv(StatusStep(t, entry, issue, i).regs, LedgerStep(l, t, entry, issue, i), bursting')
  {
    QueueKept(t, l, entry, issue, i);
    if Pops(t, i) {
      AnswersPop(t, l, entry, issue, i);
    } else {
      AnswersWait(t, l, entry, issue, i);
    }
    hide Queue, AnswersInv, OutputFifo.Wrap, OutputFifo.Slot;
  }

  // ----- Reports match jobs -----

  lemma {:induction false} FlattenHead<T>(parts: seq<seq<T>>)
    requires parts != []
    ensures Flatten(parts) == parts[0] + Flatten(parts[1..])
  {
    if |parts| == 1 {
      assert parts[..0] == [] && parts[1..] == [];
    } else {
      var front := parts[..|parts| - 1];
      FlattenHead(front);
      assert parts[1..][..|parts| - 2] == front[1..];
      assert Flatten(parts[1..]) == Flatten(front[1..]) + parts[|parts| - 1];
      assert parts[0] + Flatten(front[1..]) + parts[|parts| - 1] == parts[0] +
          (Flatten(front[1..]) + parts[|parts| - 1]);
    }
  }

  lemma NoLonger(x: seq<Entry>, y: seq<Entry>, all: seq<Entry>)
    requires Closed(x) && Closed(y) && x <= all && y <= all
    ensures |y| <= |x|
  {
    if |x| <= |y| {
      assert y[|x| - 1] == all[|x| - 1] == x[|x| - 1];
    }
  }

  // Two ways of cutting the same entries into descriptors agree.
  lemma {:induction false} SameGroups(a: seq<seq<Entry>>, rest: seq<Entry>, b: seq<seq<Entry>>, open: seq<Entry>)
    requires Flatten(a) + rest == Flatten(b) + open
    requires forall k :: 0 <= k < |a| ==> Closed(a[k])
    requires forall k :: 0 <= k < |b| ==> Closed(b[k])
    requires forall k :: 0 <= k < |open| ==> !open[k].last
    ensures a <= b
  {
    if a != [] {
      FlattenHead(a);
      var all := Flatten(b) + open;
      assert b == [] ==> all == open;
      assert all == a[0] + (Flatten(a[1..]) + rest);
      assert all[|a[0]| - 1] == a[0][|a[0]| - 1];
      FlattenHead(b);
      assert all == b[0] + (Flatten(b[1..]) + open);
      NoLonger(a[0], b[0], all);
      NoLonger(b[0], a[0], all);
      assert a[0] == all[..|a[0]|] == b[0];
      assert Flatten(a[1..]) + rest == all[|a[0]|..] == Flatten(b[1..]) + open;
      SameGroups(a[1..], rest, b[1..], open);
      assert a == [a[0]] + a[1..] && b == [b[0]] + b[1..];
    }
  }
}
