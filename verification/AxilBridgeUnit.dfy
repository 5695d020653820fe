// The registers of pcie_axil_master: the request machine, the AXI-Lite channels and the response machine.
module AxilBridgeUnit {
  import opened Wrappers
  import opened AxilRequest
  import opened AxilBridge
  import R = AxilResponse

  class RequestUnit {
    const width: nat
    var phase: AxilRequest.Phase
    var ready: bool
    var addr: nat
    var data: seq<nat>
    var opCount: nat
    var dwCount: nat
    var byteCount: int
    var chunk: nat
    var lastBe: Enables
    var last: bool
    var id: nat

    function View(): Req
      reads this
    {
      Req(phase, ready, addr, data, opCount, dwCount, byteCount, chunk, lastBe, last, id)
    }

    constructor (width: nat)
      requires 2 <= width
      ensures this.width == width && AxilRequest.Typed(width, View())
      ensures phase.Idle? && !ready
    {
      this.width := width;
      phase, ready, addr, data := AxilRequest.Phase.Idle, false, 0, seq(width, _ => 0);
      opCount, dwCount, byteCount, chunk := 0, 0, 0, 0;
      lastBe, last, id := NONE, false, 0;
    }

    method Clock(b: Bus, x: In) returns (op: Option<Op>)
      requires AxilRequest.Typed(width, View()) && Fits(width, x)
      modifies this
      ensures View() == AxilRequest.Step(width, old(View()), b, x).req
      ensures op == AxilRequest.Step(width, old(View()), b, x).op
    {
      hide BusFree, ReadGate, WriteGate;
      op := None;
      match phase {
        case Idle =>
          if ready && x.valid && x.sop {
            op := Accept(b, x);
          } else {
            ready := BusFree(b, x);
          }
        case Read1 =>
          ready := false;
          if ReadGate(b, x) {
            op := IssueRead();
          }
        case Read2 =>
          ready := false;
          if ReadGate(b, x) {
            op := IssueRead();
          }
        case Write1 =>
          if ready && x.valid {
            op := IssueWrite(x.data);
          } else {
            ready := WriteGate(b, x);
          }
        case Write2 =>
          if WriteGate(b, x) {
            op := IssueWrite(data);
          } else {
            ready := false;
          }
        case WaitEnd =>
          if ready && x.valid && x.eop {
            ready, phase := BusFree(b, x), AxilRequest.Phase.Idle;
          } else {
            ready := true;
          }
      }
    }

    method Accept(b: Bus, x: In) returns (op: Option<Op>)
      requires AxilRequest.Typed(width, View()) && Fits(width, x)
      modifies this
      ensures Out(View(), op) == AcceptOut(old(View()), b, x)
    {
      hide BusFree, FirstReadOp, FirstWriteOp, AfterFirstRead, AfterFirstWrite;
      if IsRead(x.hdr) {
        op := Some(FirstReadOp(x.hdr));
        TakeRead(x);
      } else if IsWrite(x.hdr) {
        op := Some(FirstWriteOp(x));
        TakeWrite(x);
      } else {
        op := OtherOp(x.hdr);
        ready, phase, id := if x.eop then BusFree(b, x) else true, AfterTlp(x), x.hdr.id;
      }
    }

    method TakeRead(x: In)
      modifies this
      ensures View() == AfterFirstRead(old(View()), x)
    {
      hide LastOffset, ChunkLength, Length;
      var h, n := x.hdr, Length(x.hdr);
      addr, opCount, lastBe, id := 4 * h.addr + 4, Dec(n, 2048), h.lastBe, h.id;
      dwCount := Dec(ChunkLength(n, h.addr), 64);
      last := dwCount == 1;
      byteCount := 4 * (n - 1) - LastOffset(h.lastBe);
      ready, phase := n == 1 && !x.eop, if n == 1 then AfterTlp(x) else Read2;
    }

    method TakeWrite(x: In)
      modifies this
      ensures View() == AfterFirstWrite(old(View()), x)
    {
      hide Length;
      var h, n := x.hdr, Length(x.hdr);
      addr, data, opCount, lastBe, id := 4 * h.addr + 4, x.data, Dec(n, 2048), h.lastBe, h.id;
      last, chunk := n == 2, 1;
      ready, phase := n == 1 && !x.eop, if n == 1 then AfterTlp(x) else Write2;
    }

    // The next DW of a read; READ_1 also sizes the completion it opens.
    method IssueRead() returns (op: Option<Op>)
      requires phase.Read1? || phase.Read2?
      modifies this
      ensures View() == AfterRead(old(View()).(ready := false)) && op == Some(ReadOp(old(View())))
    {
      var opens, closes := phase.Read1?, last;
      if opens {
        dwCount := ChunkLength(opCount, addr / 4);
        closes := opCount == 1;
      }
      op := Some(Read(addr, ReadEntry(opens, closes, dwCount, Bits(byteCount), addr % 128, id)));
      addr := addr / 4 * 4 + 4;
      var more := Dec(opCount, 2048);
      if opens {
        phase := if opCount == 1 then AxilRequest.Phase.Idle else Read2;
      } else if last {
        phase := if more == 0 then AxilRequest.Phase.Idle else Read1;
      }
      opCount, dwCount := more, Dec(dwCount, 64);
      last, byteCount, ready := dwCount == 1, byteCount - 4, false;
    }

    method IssueWrite(beat: seq<nat>) returns (op: Option<Op>)
      requires AxilRequest.Typed(width, View()) && |beat| == width
      modifies this
      ensures View() == AfterWrite(width, old(View()), beat) && op == Some(WriteOp(old(View()), beat))
    {
      op := Some(Write(addr, beat[chunk], if last then lastBe else ALL));
      data, addr, ready := beat, addr / 4 * 4 + 4, false;
      var full := chunk + 1 == width;
      phase := if last then AxilRequest.Phase.Idle else if full then Write1 else Write2;
      chunk := if full then 0 else chunk + 1;
      opCount := Dec(opCount, 2048);
      last := opCount == 1;
    }
  }

  class ResponseUnit {
    const width: nat
    var phase: R.Phase
    var cur: Option<Entry>
    var chunk: nat
    var hdr: Entry
    var lanes: seq<nat>
    var valid: bool
    var sop: bool
    var eop: bool
    var rReady: bool
    var bReady: bool

    function View(): R.Resp
      reads this
    {
      R.Resp(phase, cur, chunk, hdr, lanes, valid, sop, eop, rReady, bReady)
    }

    constructor (width: nat)
      requires 2 <= width
      ensures this.width == width && phase.Idle? && cur.None? && chunk == 0 && !valid && !rReady && !bReady
    {
      this.width := width;
      phase, cur, chunk, hdr, lanes := R.Idle, None, 0, WriteEntry, [];
      valid, sop, eop, rReady, bReady := false, false, false, false, false;
    }

    // The R channel delivered the DW of the entry in hand.
    method Collect(e: Entry, d: nat)
      requires e.ReadEntry?
      modifies this
      ensures View() == R.Fetched(width, old(View()), e, d)
    {
      phase, cur, rReady := R.Idle, None, false;
      if e.first {
        chunk, lanes, hdr, sop := 1, [d], e, true;
        valid := e.last;
      } else {
        valid := chunk + 1 == width || e.last;
        if chunk == 0 {
          chunk, lanes, sop := 1, [d], false;
        } else {
          lanes := if chunk < |lanes| then lanes[chunk := d] else lanes + [d];
          chunk := if chunk + 1 == width then 0 else chunk + 1;
        }
      }
      eop := e.last;
    }

    // One clock; sent is the beat taken, and the queue's head is taken when nothing is in hand.
    method Clock(x: R.Pins, head: Option<Entry>) returns (sent: seq<R.Beat>, takesHead: bool)
      modifies this
      ensures View() == R.Step(width, old(View()), x, head)
      ensures sent == R.Sends(old(View()), x) && takesHead == R.Pops(width, old(View()), x)
    {
      sent := if valid && x.cplReady then [R.Beat(hdr, lanes, sop, eop)] else [];
      Work(x);
      hide R.Work;
      takesHead := cur.None?;
      if takesHead {
        cur := head;
      }
    }

    method Work(x: R.Pins)
      modifies this
      ensures View() == R.Work(width, old(View()), x)
    {
      hide R.Work;
      if phase.Idle? {
        Dispatch(x);
      } else if phase.Fetch? {
        Fetch(x);
      } else if phase.AwaitWrite? {
        AwaitWrite(x);
      } else {
        Complete(x);
      }
    }

    method Dispatch(x: R.Pins)
      requires phase.Idle?
      modifies this
      ensures View() == R.Work(width, old(View()), x)
    {
      var free := !valid || x.cplReady;
      valid, rReady, bReady := valid && !x.cplReady, false, false;
      if cur.Some? {
        if cur.value.ReadEntry? {
          phase, rReady := R.Fetch, free;
        } else if cur.value.WriteEntry? {
          phase, bReady := R.AwaitWrite, true;
        } else {
          phase := R.Complete;
        }
      }
    }

    method Fetch(x: R.Pins)
      requires phase.Fetch?
      modifies this
      ensures View() == R.Work(width, old(View()), x)
    {
      hide R.Fetched;
      var free, fetches := !valid || x.cplReady, rReady && x.rValid;
      valid, rReady, bReady := valid && !x.cplReady, false, false;
      if fetches && cur.Some? && cur.value.ReadEntry? {
        Collect(cur.value, x.rData);
      } else {
        rReady := free;
      }
    }

    method AwaitWrite(x: R.Pins)
      requires phase.AwaitWrite?
      modifies this
      ensures View() == R.Work(width, old(View()), x)
    {
      var answered := bReady && x.bValid;
      valid, rReady, bReady := valid && !x.cplReady, false, !answered;
      if answered {
        phase, cur := R.Idle, None;
      }
    }

    method Complete(x: R.Pins)
      requires phase.Complete?
      modifies this
      ensures View() == R.Work(width, old(View()), x)
    {
      var free := !valid || x.cplReady;
      valid, rReady, bReady := valid && !x.cplReady, false, false;
      if free && cur.Some? {
        hdr, lanes, valid, sop, eop := cur.value, [], true, true, true;
        phase, cur := R.Idle, None;
      }
    }
  }

  class Bridge {
    const width: nat
    const requests: RequestUnit
    const responses: ResponseUnit
    var bus: Bus
    var queue: seq<Entry>
    var half: bool

    predicate Valid()
      reads this, requests, responses
    {
      requests.width == responses.width == width && AxilRequest.Typed(width, requests.View())
    }

    function View(): System
      reads this, requests, responses
    {
      System(requests.View(), bus, queue, half, responses.View())
    }

    constructor (width: nat)
      requires 2 <= width
      ensures this.width == width && Valid() && AtReset(width, View()) && fresh(requests) && fresh(responses)
    {
      this.width := width;
      requests := new RequestUnit(width);
      responses := new ResponseUnit(width);
      bus, queue, half := Bus(false, false, false, 0, 0, NONE), [], false;
    }

    method Clock(i: Input) returns (sent: seq<R.Beat>)
      requires Valid() && InputFits(width, i)
      modifies this, requests, responses
      ensures Valid() && View() == Next(width, old(View()), i)
      ensures sent == R.Sends(old(View()).resp, i.pins)
    {
      hide AxilRequest.Step, R.Step, R.Pops, R.Sends, BusStep;
      ghost var was := View();
      var x, head, count := i.req.(halfFull := half), Head(queue), |queue|;
      var beats, takes := responses.Clock(i.pins, head);
      sent := beats;
      assert requests.View() == was.req && responses.View() == R.Step(width, was.resp, i.pins, head);
      var op := requests.Clock(bus, x);
      assert responses.View() == R.Step(width, was.resp, i.pins, head);
      Latch(BusStep(bus, x, op), takes, op, count);
    }

    method Latch(next: Bus, takes: bool, op: Option<Op>, count: nat)
      requires count == |queue|
      modifies this
      ensures bus == next && half == (DEPTH / 2 <= count)
      ensures queue == old(queue)[(if takes && old(queue) != [] then 1 else 0)..] + Pushed(op)
    {
      bus, half := next, DEPTH / 2 <= count;
      if takes && queue != [] {
        queue := queue[1..];
      }
      queue := queue + Pushed(op);
    }
  }
}
