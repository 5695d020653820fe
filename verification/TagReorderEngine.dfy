// The registers of dma_if_pcie_axis_rd_v1: a tag table and one completion queue per tag, updated in place.
module TagReorderEngine {
  import opened AxiBus
  import opened TagReorder
  import opened Wrappers

  class ReadRequester {
    const cfg: Config
    const table: array<nat>
    const fifos: array<seq<Word>>
    var job: Job
    var requests: nat
    var issued: nat
    var tlpAddr: nat
    var wrTag: nat
    var rdTag: nat
    var held: nat
    var releasing: bool
    var expected: nat
    var got: nat
    var irq: bool
    var cycle: nat
    var left: nat

    predicate Valid()
      reads this, table, fifos
    {
      Typed(cfg, View())
    }

    function View(): Device
      reads this, table, fifos
    {
      Device(job, requests, issued, tlpAddr, table[..], wrTag, rdTag, held, releasing,
             fifos[..], expected, got, irq, cycle, left)
    }

    constructor (cfg: Config)
      requires cfg.Ok()
      ensures this.cfg == cfg && fresh(table) && fresh(fifos)
      ensures Valid() && View() == Start(cfg, Job(0, 0))
    {
      this.cfg := cfg;
      table := new nat[cfg.tags](_ => 0);
      fifos := new seq<Word>[cfg.tags](_ => []);
      job, requests, issued, tlpAddr := Job(0, 0), 0, 0, 0;
      wrTag, rdTag, held, releasing := 0, 0, 0, false;
      expected, got, irq, cycle, left := 0, 0, false, 0, 0;
      new;
      assert table[..] == ClearTable(cfg.tags);
      assert fifos[..] == EmptyQueues(cfg.tags);
    }

    lemma ConfigOk()
      requires Valid()
      ensures cfg.Ok()
    {
    }

    // A descriptor is taken once the one before it is drained: the counters restart, the table and queues stay.
    method Accept(next: Job)
      requires Valid() && !releasing && held == 0
      requires table[..] == ClearTable(cfg.tags) && fifos[..] == EmptyQueues(cfg.tags)
      modifies this
      ensures Valid() && View() == Start(cfg, next)
    {
      hide Ceil, ClearTable, EmptyQueues, Typed;
      assert cfg.Ok() by {
        ConfigOk();
      }
      StartTyped(cfg, next);
      job, issued, tlpAddr := next, 0, next.addr;
      wrTag, rdTag, got, irq, cycle := 0, 0, 0, false, 0;
      requests, expected := Ceil(next.len, READ), Ceil(next.len, BUS);
      left := expected;
    }

    method Allocate() returns (request: Option<Request>)
      requires Valid()
      modifies this, table
      ensures Valid() && View() == Step(cfg, old(View()), Event.Allocate)
      ensures request.AsSeq() == Issues(cfg, old(View()), Event.Allocate)
    {
      hide Header, TableEntry;
      request := None;
      irq := false;
      if issued < requests && held < cfg.room {
        var last := issued + 1 == requests;
        request := Some(Header(job, tlpAddr, wrTag, last));
        table[wrTag] := TableEntry(job.len, last);
        issued, tlpAddr, held := issued + 1, tlpAddr + READ, held + 1;
        wrTag := (wrTag + 1) % cfg.tags;
      }
    }

    method Receive(tag: nat, data: Word)
      requires Valid()
      modifies this, fifos
      ensures Valid() && View() == Step(cfg, old(View()), Completion(tag, data))
    {
      irq := false;
      if got < expected {
        var t := tag % cfg.tags;
        fifos[t] := fifos[t] + [data];
        got := got + 1;
        irq := got == expected;
      }
    }

    method Drain() returns (beat: Option<Out>)
      requires Valid()
      modifies this, fifos
      ensures Valid() && View() == Step(cfg, old(View()), Event.Drain)
      ensures beat.AsSeq() == Emits(cfg, old(View()), Event.Drain)
    {
      beat := None;
      irq := false;
      var queue := fifos[rdTag];
      if 0 < left && queue != [] {
        fifos[rdTag] := queue[1..];
        left := left - 1;
        cycle := cycle + 1;
        var keep := if left == 0 && job.len % BUS != 0 then job.len % BUS else BUS;
        beat := Some(Out(queue[0], keep, left == 0));
        if cycle == table[rdTag] {
          cycle, releasing := 0, true;
        }
      }
    }

    method Release()
      requires Valid()
      modifies this, table
      ensures Valid() && View() == Step(cfg, old(View()), Event.Release)
    {
      irq := false;
      if releasing {
        table[rdTag] := 0;
        rdTag := (rdTag + 1) % cfg.tags;
        held := if held == 0 then 0 else held - 1;
        releasing := false;
      }
    }
  }

  lemma StartTyped(cfg: Config, job: Job)
    requires cfg.Ok()
    ensures Typed(cfg, Start(cfg, job))
  {
    hide Ceil;
  }
}
