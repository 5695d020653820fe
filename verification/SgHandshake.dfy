// The scatter-gather handshake: a waiting process (sg_c2h or sg_h2c), the interrupt handler that
// copies every status register into a flag word, and the device with its sticky status registers.
// One step is one access to something shared, so the three parties interleave freely.
module SgHandshake {

  // The order of the last accesses differs between the two directions.
  datatype Direction = C2H | H2C

  // Register writes are posted: they reach the device later, in order.
  datatype Write = ClearStatus | StartList | StartDma

  // What the device is doing for one channel.
  datatype Phase = Quiet | Listing | Listed | Moving

  // What happened on one channel, as seen at the device and at the caller.
  datatype Mark = ListStarted | ListDone | DmaStarted | DmaDone | Success

  // Where the waiting process is.
  datatype Pc =
    | Idle                // no transfer
    | Checking            // about to test the flag, asleep if it is zero
    | Asleep
    | Looking             // woken, about to test the flag again
    | Reading             // about to read the status register
    | ListSeen(left: nat) // read 1: accesses left until it waits again
    | DmaSeen(left: nat)  // read 2: accesses left until it returns
    | Failed              // signal or timeout

  datatype Channel = Channel(pc: Pc, flag: nat, sticky: nat, posts: seq<Write>, phase: Phase, log: seq<Mark>)

  datatype HandlerPc = Off | Loading(i: nat) | Storing(i: nat) | Waking(i: nat)

  datatype Handler = Handler(pc: HandlerPc, words: seq<nat>)

  datatype System = System(chans: seq<Channel>, handler: Handler, pending: bool)

  datatype Move =
    | Begin             // a call writes START = 1, whether the last one succeeded or gave up
    | Proceed           // the waiting process makes its next access
    | GiveUp            // a signal or the timeout ends the wait
    | Deliver           // the oldest posted write reaches the device
    | Pulse             // the device finishes what it is doing

  datatype Action = On(c: nat, move: Move) | OtherSource | Handle

  const FRESH: Channel := Channel(Idle, 0, 0, [], Quiet, [])

  function Clean(n: nat): System {
    System(seq(n, _ => FRESH), Handler(Off, seq(n, _ => 0)), false)
  }

  // ---- The waiting process ----

  // Status 1: clear the flag, clear the register, write START = 2, wait again.
  function AfterListSeen(ch: Channel): Channel
    requires ch.pc.ListSeen?
  {
    match ch.pc.left
    case 2 => ch.(flag := 0, pc := ListSeen(1))
    case 1 => ch.(posts := ch.posts + [ClearStatus], pc := ListSeen(0))
    case _ => ch.(posts := ch.posts + [StartDma], pc := Checking)
  }

  // Status 2: clear flag and register in the order of the direction, then return the byte count.
  function AfterDmaSeen(dir: Direction, ch: Channel): Channel
    requires ch.pc.DmaSeen?
  {
    var post := ch.posts + [ClearStatus];
    match ch.pc.left
    case 2 => if dir.C2H? then ch.(posts := post, pc := DmaSeen(1)) else ch.(flag := 0, pc := DmaSeen(1))
    case 1 => if dir.C2H? then ch.(flag := 0, pc := DmaSeen(0)) else ch.(posts := post, pc := DmaSeen(0))
    case _ => ch.(pc := Idle, log := ch.log + [Success])
  }

  // A register read waits for the posted writes ahead of it.
  function Proceeds(dir: Direction, ch: Channel): Channel {
    match ch.pc
    case Checking => ch.(pc := if ch.flag != 0 then Looking else Asleep)
    case Looking => ch.(pc := if ch.flag != 0 then Reading else Checking)
    case Reading =>
      if ch.posts != [] then ch
      else ch.(pc := if ch.sticky == 1 then ListSeen(2) else if ch.sticky == 2 then DmaSeen(2) else Checking)
    case ListSeen(_) => AfterListSeen(ch)
    case DmaSeen(_) => AfterDmaSeen(dir, ch)
    case _ => ch
  }

  // ---- The device ----

  function Delivers(ch: Channel): Channel {
    if ch.posts == [] then ch
    else
      var rest := ch.(posts := ch.posts[1..]);
      match ch.posts[0]
      case ClearStatus => rest.(sticky := 0)
      case StartList => rest.(phase := Listing, log := ch.log + [ListStarted])
      case StartDma => rest.(phase := Moving, log := ch.log + [DmaStarted])
  }

  predicate Finishes(ch: Channel) {
    ch.phase.Listing? || ch.phase.Moving?
  }

  // The status register takes a done code only while it is zero.
  function Latch(sticky: nat, code: nat): nat {
    if sticky == 0 then code else sticky
  }

  function Pulses(ch: Channel): Channel {
    match ch.phase
    case Listing => ch.(sticky := Latch(ch.sticky, 1), phase := Listed, log := ch.log + [ListDone])
    case Moving => ch.(sticky := Latch(ch.sticky, 2), phase := Quiet, log := ch.log + [DmaDone])
    case _ => ch
  }

  function Local(dir: Direction, ch: Channel, m: Move): Channel {
    match m
    case Begin => if ch.pc.Idle? || ch.pc.Failed? then ch.(pc := Checking, posts := ch.posts + [StartList]) else ch
    case Proceed => Proceeds(dir, ch)
    case GiveUp => if ch.pc.Asleep? then ch.(pc := Failed, flag := 0) else ch
    case Deliver => Delivers(ch)
    case Pulse => Pulses(ch)
  }

  // ---- The interrupt handler ----

  predicate Typed(s: System) {
    && |s.handler.words| == |s.chans|
    && (!s.handler.pc.Off? ==> s.handler.pc.i < |s.chans|)
  }

  // The next index of the same sweep over the channels, or the start of the next sweep.
  function NextLoad(n: nat, i: nat): HandlerPc
    requires i < n
  {
    if i + 1 < n then Loading(i + 1) else Storing(0)
  }

  function NextStore(n: nat, i: nat): HandlerPc
    requires i < n
  {
    if i + 1 < n then Storing(i + 1) else Waking(0)
  }

  function NextWake(n: nat, i: nat): HandlerPc
    requires i < n
  {
    if i + 1 < n then Waking(i + 1) else Off
  }

  function Woken(ch: Channel, word: nat): Channel {
    if (word == 1 || word == 2) && ch.pc.Asleep? then ch.(pc := Checking) else ch
  }

  // All registers are read first, then all flags are stored, then the queues are woken.
  function Handles(s: System): (s': System)
    requires Typed(s)
    ensures Typed(s') && |s'.chans| == |s.chans|
  {
    var h, n := s.handler, |s.chans|;
    match h.pc
    case Off =>
      if s.pending && 0 < n then s.(handler := h.(pc := Loading(0)), pending := false) else s
    case Loading(i) =>
      if s.chans[i].posts != [] then s
      else s.(handler := Handler(NextLoad(n, i), h.words[i := s.chans[i].sticky]))
    case Storing(i) =>
      s.(chans := s.chans[i := s.chans[i].(flag := h.words[i])], handler := h.(pc := NextStore(n, i)))
    case Waking(i) =>
      s.(chans := s.chans[i := Woken(s.chans[i], h.words[i])], handler := h.(pc := NextWake(n, i)))
  }

  function Step(dirs: seq<Direction>, s: System, a: Action): (s': System)
    requires Typed(s) && |dirs| == |s.chans|
    ensures Typed(s') && |s'.chans| == |s.chans|
  {
    match a
    case On(c, m) =>
      if c < |s.chans| then
        s.(chans := s.chans[c := Local(dirs[c], s.chans[c], m)],
           pending := s.pending || (m.Pulse? && Finishes(s.chans[c])))
      else s
    case OtherSource => s.(pending := true)
    case Handle => Handles(s)
  }

  function After(dirs: seq<Direction>, s: System, run: seq<Action>): (s': System)
    requires Typed(s) && |dirs| == |s.chans|
    ensures Typed(s') && |s'.chans| == |s.chans|
    decreases |run|
  {
    if run == [] then s else After(dirs, Step(dirs, s, run[0]), run[1..])
  }
}
