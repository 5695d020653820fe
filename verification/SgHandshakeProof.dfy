// No completion is lost, no done code meets a full register, and success follows the whole sequence.
module SgHandshakeProof {
  import opened SgHandshake

  // What the running handler has done with one channel.
  datatype Seen = Absent | WillLoad | Loaded(word: nat) | Stored(word: nat)

  function SeenBy(h: Handler, c: nat): Seen
    requires c < |h.words|
  {
    match h.pc
    case Off => Absent
    case Loading(i) => if i <= c then WillLoad else Loaded(h.words[c])
    case Storing(i) => if i <= c then Loaded(h.words[c]) else Stored(h.words[c])
    case Waking(i) => if i <= c then Stored(h.words[c]) else Absent
  }

  // The stages of a transfer: posted writes, device phase, status register, and marks of this transfer so far.
  predicate Stage(ch: Channel, posts: seq<Write>, phase: Phase, sticky: nat, marks: nat) {
    ch.posts == posts && ch.phase == phase && ch.sticky == sticky && |ch.log| % 5 == marks
  }

  predicate AllClear(posts: seq<Write>) {
    forall i :: 0 <= i < |posts| ==> posts[i].ClearStatus?
  }

  // Nothing of an earlier transfer is left: no start on its way, the device at rest, and the status register
  // clear or about to be cleared.
  predicate Settled(ch: Channel) {
    AllClear(ch.posts) && !Finishes(ch) && (ch.posts != [] || ch.sticky == 0) && ch.sticky <= 2
  }

  predicate Between(ch: Channel) {
    Settled(ch) && |ch.log| % 5 == 0
  }

  predicate ListPosted(ch: Channel) {
    && ch.posts != [] && ch.posts[|ch.posts| - 1].StartList?
    && Between(ch.(posts := ch.posts[..|ch.posts| - 1]))
  }

  predicate ListReady(ch: Channel) {
    Stage(ch, [], Listed, 1, 2)
  }

  predicate ListCleared(ch: Channel) {
    Stage(ch, [ClearStatus], Listed, 1, 2) || Stage(ch, [], Listed, 0, 2)
  }

  predicate DmaPosted(ch: Channel) {
    Stage(ch, [ClearStatus, StartDma], Listed, 1, 2) || Stage(ch, [StartDma], Listed, 0, 2)
  }

  predicate DmaReady(ch: Channel) {
    Stage(ch, [], Quiet, 2, 4)
  }

  predicate DmaCleared(ch: Channel) {
    Stage(ch, [ClearStatus], Quiet, 2, 4) || Stage(ch, [], Quiet, 0, 4)
  }

  // The device owes the waiting process something.
  predicate Working(ch: Channel) {
    ListPosted(ch) || Stage(ch, [], Listing, 0, 1) || DmaPosted(ch) || Stage(ch, [], Moving, 0, 3)
  }

  predicate StageOk(dir: Direction, ch: Channel) {
    match ch.pc
    case Idle => Between(ch)
    case ListSeen(n) => n <= 2 && (if n == 0 then ListCleared(ch) else ListReady(ch))
    case DmaSeen(n) => n <= 2 && (if n == 2 || (n == 1 && dir.H2C?) then DmaReady(ch) else DmaCleared(ch))
    case _ => Working(ch) || ListReady(ch) || DmaReady(ch)
  }

  function Cycle(i: nat): Mark {
    match i % 5
    case 0 => ListStarted
    case 1 => ListDone
    case 2 => DmaStarted
    case 3 => DmaDone
    case _ => Success
  }

  ghost predicate InOrder(log: seq<Mark>) {
    forall i :: 0 <= i < |log| ==> log[i] == Cycle(i)
  }

  // A done code not yet copied to the flag will be: by an interrupt to come or by the handler running now.
  predicate ToBeServiced(seen: Seen, pending: bool) {
    pending || seen.WillLoad? || (seen.Loaded? && seen.word != 0)
  }

  predicate WaitsFor(ch: Channel) {
    ch.pc.Checking? || ch.pc.Asleep? || ch.pc.Looking? || ch.pc.Reading?
  }

  ghost predicate ChannelOk(dir: Direction, ch: Channel, seen: Seen, pending: bool) {
    && StageOk(dir, ch) && InOrder(ch.log)
    && (seen.Loaded? || seen.Stored? ==> seen.word <= 2)
    // a completion waiting to be seen is flagged or will be
    && (WaitsFor(ch) && (ListReady(ch) || DmaReady(ch)) && ch.flag == 0 ==> ToBeServiced(seen, pending))
    // a zero copied before the done code is followed by another interrupt
    && (seen.Loaded? && seen.word == 0 && ch.sticky != 0 ==> pending)
    // a sleeper with its flag set is about to be woken
    && (ch.pc.Asleep? && ch.flag != 0 ==> seen.Stored? && seen.word != 0)
  }

  ghost predicate Inv(dirs: seq<Direction>, s: System) {
    && Typed(s) && |dirs| == |s.chans|
    && forall c :: 0 <= c < |dirs| ==> ChannelOk(dirs[c], s.chans[c], SeenBy(s.handler, c), s.pending)
  }

  lemma Start(dirs: seq<Direction>)
    ensures Inv(dirs, Clean(|dirs|))
  {
  }

  lemma LogGrows(log: seq<Mark>, m: Mark)
    requires InOrder(log) && m == Cycle(|log|)
    ensures InOrder(log + [m]) && |log + [m]| % 5 == (|log| % 5 + 1) % 5
  {
    hide Cycle;
    OneMore(|log|);
  }

  lemma OneMore(n: nat)
    ensures (n + 1) % 5 == (n % 5 + 1) % 5
  {
  }

  lemma BeginKept(dir: Direction, ch: Channel, seen: Seen, pending: bool)
    requires ChannelOk(dir, ch, seen, pending)
    ensures !ch.pc.Failed? ==> ChannelOk(dir, Local(dir, ch, Begin), seen, pending)
    ensures ChannelOk(dir, Local(dir, ch, GiveUp), seen, pending)
  {
    var posts := ch.posts + [StartList];
    assert posts[..|posts| - 1] == ch.posts;
    hide InOrder;
  }

  lemma WaitKept(dir: Direction, ch: Channel, seen: Seen, pending: bool)
    requires ChannelOk(dir, ch, seen, pending) && WaitsFor(ch)
    ensures ChannelOk(dir, Local(dir, ch, Proceed), seen, pending)
  {
    hide InOrder;
  }

  lemma ListSeenKept(dir: Direction, ch: Channel, seen: Seen, pending: bool)
    requires ChannelOk(dir, ch, seen, pending) && ch.pc.ListSeen?
    ensures ChannelOk(dir, Local(dir, ch, Proceed), seen, pending)
  {
    hide InOrder;
  }

  lemma DmaSeenKept(dir: Direction, ch: Channel, seen: Seen, pending: bool)
    requires ChannelOk(dir, ch, seen, pending) && ch.pc.DmaSeen?
    ensures ChannelOk(dir, Local(dir, ch, Proceed), seen, pending)
  {
    if ch.pc.left == 0 {
      LogGrows(ch.log, Success);
    }
    hide InOrder, Cycle;
  }

  lemma DeliverKept(dir: Direction, ch: Channel, seen: Seen, pending: bool)
    requires ChannelOk(dir, ch, seen, pending)
    ensures ChannelOk(dir, Local(dir, ch, Deliver), seen, pending)
  {
    if ch.posts != [] && !ch.posts[0].ClearStatus? {
      LogGrows(ch.log, if ch.posts[0].StartList? then ListStarted else DmaStarted);
    }
    hide InOrder, Cycle;
  }

  lemma PulseKept(dir: Direction, ch: Channel, seen: Seen, pending: bool)
    requires ChannelOk(dir, ch, seen, pending)
    ensures ChannelOk(dir, Local(dir, ch, Pulse), seen, pending || Finishes(ch))
  {
    if Finishes(ch) {
      LogGrows(ch.log, if ch.phase.Listing? then ListDone else DmaDone);
    }
    hide InOrder, Cycle;
  }

  lemma LocalKept(dir: Direction, ch: Channel, seen: Seen, pending: bool, m: Move)
    requires ChannelOk(dir, ch, seen, pending) && !(m.Begin? && ch.pc.Failed?)
    ensures ChannelOk(dir, Local(dir, ch, m), seen, pending || (m.Pulse? && Finishes(ch)))
  {
    hide ChannelOk;
    match m
    case Begin => BeginKept(dir, ch, seen, pending);
    case GiveUp => BeginKept(dir, ch, seen, pending);
    case Proceed => ProceedKept(dir, ch, seen, pending);
    case Deliver => DeliverKept(dir, ch, seen, pending);
    case Pulse => PulseKept(dir, ch, seen, pending);
  }

  lemma ProceedKept(dir: Direction, ch: Channel, seen: Seen, pending: bool)
    requires ChannelOk(dir, ch, seen, pending)
    ensures ChannelOk(dir, Local(dir, ch, Proceed), seen, pending)
  {
    hide ChannelOk;
    if WaitsFor(ch) {
      WaitKept(dir, ch, seen, pending);
    } else if ch.pc.ListSeen? {
      ListSeenKept(dir, ch, seen, pending);
    } else if ch.pc.DmaSeen? {
      DmaSeenKept(dir, ch, seen, pending);
    }
  }

  // ---- The handler's accesses, as one channel sees them ----

  lemma MorePending(dir: Direction, ch: Channel, seen: Seen, pending: bool)
    requires ChannelOk(dir, ch, seen, pending)
    ensures ChannelOk(dir, ch, seen, true)
  {
  }

  lemma EnterKept(dir: Direction, ch: Channel)
    requires ChannelOk(dir, ch, Absent, true)
    ensures ChannelOk(dir, ch, WillLoad, false)
  {
  }

  lemma LoadKept(dir: Direction, ch: Channel, pending: bool)
    requires ChannelOk(dir, ch, WillLoad, pending) && ch.posts == []
    ensures ChannelOk(dir, ch, Loaded(ch.sticky), pending)
  {
    hide InOrder;
  }

  lemma StoreKept(dir: Direction, ch: Channel, word: nat, pending: bool)
    requires ChannelOk(dir, ch, Loaded(word), pending)
    ensures ChannelOk(dir, ch.(flag := word), Stored(word), pending)
  {
    hide InOrder;
  }

  lemma WakeKept(dir: Direction, ch: Channel, word: nat, pending: bool)
    requires ChannelOk(dir, ch, Stored(word), pending)
    ensures ChannelOk(dir, Woken(ch, word), Absent, pending)
  {
    hide InOrder;
  }

  lemma HandleOne(dirs: seq<Direction>, s: System, c: nat)
    requires Inv(dirs, s) && c < |dirs|
    ensures ChannelOk(dirs[c], Handles(s).chans[c], SeenBy(Handles(s).handler, c), Handles(s).pending)
  {
    var ch, seen := s.chans[c], SeenBy(s.handler, c);
    assert ChannelOk(dirs[c], ch, seen, s.pending);
    hide ChannelOk;
    match s.handler.pc
    case Off => if s.pending { EnterKept(dirs[c], ch); }
    case Loading(i) => if ch.posts == [] && i == c { LoadKept(dirs[c], ch, s.pending); }
    case Storing(i) => if i == c { StoreKept(dirs[c], ch, s.handler.words[c], s.pending); }
    case Waking(i) => if i == c { WakeKept(dirs[c], ch, s.handler.words[c], s.pending); }
  }

  // A call that starts on a channel whose last call gave up.
  predicate Retries(s: System, a: Action) {
    a.On? && a.move.Begin? && a.c < |s.chans| && s.chans[a.c].pc.Failed?
  }

  lemma StepKept(dirs: seq<Direction>, s: System, a: Action)
    requires Inv(dirs, s) && !Retries(s, a)
    ensures Inv(dirs, Step(dirs, s, a))
  {
    var s' := Step(dirs, s, a);
    forall c | 0 <= c < |dirs| ensures ChannelOk(dirs[c], s'.chans[c], SeenBy(s'.handler, c), s'.pending) {
      assert ChannelOk(dirs[c], s.chans[c], SeenBy(s.handler, c), s.pending);
      hide ChannelOk, SeenBy;
      match a
      case On(k, m) =>
        if k == c {
          LocalKept(dirs[c], s.chans[c], SeenBy(s.handler, c), s.pending, m);
        } else {
          MorePending(dirs[c], s.chans[c], SeenBy(s.handler, c), s.pending);
        }
      case OtherSource => MorePending(dirs[c], s.chans[c], SeenBy(s.handler, c), s.pending);
      case Handle => HandleOne(dirs, s, c);
    }
  }

  // A run in which no call follows one that gave up on its channel.
  predicate NoRetry(dirs: seq<Direction>, s: System, run: seq<Action>)
    requires Typed(s) && |dirs| == |s.chans|
    decreases |run|
  {
    run == [] || (!Retries(s, run[0]) && NoRetry(dirs, Step(dirs, s, run[0]), run[1..]))
  }

  lemma {:induction false} RunKept(dirs: seq<Direction>, s: System, run: seq<Action>)
    requires Inv(dirs, s) && NoRetry(dirs, s, run)
    ensures Inv(dirs, After(dirs, s, run))
    decreases |run|
  {
    if run != [] {
      StepKept(dirs, s, run[0]);
      RunKept(dirs, Step(dirs, s, run[0]), run[1..]);
    }
  }

  ghost predicate Reached(dirs: seq<Direction>, s: System) {
    |dirs| == |s.chans| && exists run :: NoRetry(dirs, Clean(|dirs|), run) && After(dirs, Clean(|dirs|), run) == s
  }

  lemma ReachedOk(dirs: seq<Direction>, s: System)
    requires Reached(dirs, s)
    ensures Inv(dirs, s)
  {
    var run :| NoRetry(dirs, Clean(|dirs|), run) && After(dirs, Clean(|dirs|), run) == s;
    Start(dirs);
    RunKept(dirs, Clean(|dirs|), run);
  }

  // ---- Main results, from a clean start and under every interleaving without a retry ----

  // A done code always finds its register clear, so none is swallowed.
  lemma PulseLands(dirs: seq<Direction>, s: System, c: nat)
    requires Reached(dirs, s) && c < |dirs| && Finishes(s.chans[c])
    ensures s.chans[c].sticky == 0
    ensures Step(dirs, s, On(c, Pulse)).chans[c].sticky == (if s.chans[c].phase.Listing? then 1 else 2)
    ensures Step(dirs, s, On(c, Pulse)).pending
  {
    ReachedOk(dirs, s);
    assert ChannelOk(dirs[c], s.chans[c], SeenBy(s.handler, c), s.pending);
    hide InOrder, Cycle;
  }

  // A status register that nothing on its way will clear belongs to this transfer.
  lemma CodeIsOwn(ch: Channel)
    requires Working(ch) && ch.sticky != 0
    ensures ClearStatus in ch.posts
  {
    if ListPosted(ch) {
      assert ch.posts[0] == ch.posts[..|ch.posts| - 1][0];
    }
  }

  // A completion the waiting process has not seen is in its flag, or an interrupt for it is still to be serviced.
  lemma NoLostCompletion(dirs: seq<Direction>, s: System, c: nat)
    requires Reached(dirs, s) && c < |dirs|
    requires WaitsFor(s.chans[c]) && s.chans[c].sticky != 0 && ClearStatus !in s.chans[c].posts
    ensures s.chans[c].flag != 0 || ToBeServiced(SeenBy(s.handler, c), s.pending)
  {
    ReachedOk(dirs, s);
    assert ChannelOk(dirs[c], s.chans[c], SeenBy(s.handler, c), s.pending);
    if Working(s.chans[c]) {
      CodeIsOwn(s.chans[c]);
    }
    hide InOrder, Cycle;
  }

  // With every interrupt serviced and every write delivered, a process sleeps only while the device works for it.
  lemma NoEndlessSleep(dirs: seq<Direction>, s: System, c: nat)
    requires Reached(dirs, s) && c < |dirs|
    requires s.handler.pc.Off? && !s.pending && s.chans[c].posts == [] && s.chans[c].pc.Asleep?
    ensures s.chans[c].flag == 0 && s.chans[c].sticky == 0 && Finishes(s.chans[c])
  {
    ReachedOk(dirs, s);
    assert ChannelOk(dirs[c], s.chans[c], SeenBy(s.handler, c), s.pending);
    hide InOrder, Cycle;
  }

  lemma LogOf(dirs: seq<Direction>, s: System, c: nat)
    requires Inv(dirs, s) && c < |dirs|
    ensures InOrder(s.chans[c].log)
  {
    assert ChannelOk(dirs[c], s.chans[c], SeenBy(s.handler, c), s.pending);
  }

  lemma BeforeSuccess(i: nat)
    requires Cycle(i) == Success
    ensures i >= 4 && Cycle(i-4) == ListStarted && Cycle(i-3) == ListDone && Cycle(i-2) == DmaStarted &&
      Cycle(i-1) == DmaDone
  {
    var k := i / 5;
    assert i == 5 * k + 4;
  }

  // Mark i is a success that follows its own list start, list done, DMA start and DMA done.
  predicate Earned(log: seq<Mark>, i: nat)
    requires i < |log|
  {
    log[i] == Success ==>
      i >= 4 && log[i-4] == ListStarted && log[i-3] == ListDone && log[i-2] == DmaStarted && log[i-1] == DmaDone
  }

  lemma OrderShows(log: seq<Mark>, i: nat)
    requires InOrder(log) && i < |log|
    ensures log[i] == Cycle(i) && Earned(log, i)
  {
    if log[i] == Success {
      BeforeSuccess(i);
    }
    hide Cycle;
  }

  // On each channel list start, list done, DMA start, DMA done and success follow one another in this
  // order for ever, so success is returned only after the whole sequence of its own transfer.
  lemma SuccessInOrder(dirs: seq<Direction>, run: seq<Action>, c: nat, i: nat)
    requires c < |dirs| && NoRetry(dirs, Clean(|dirs|), run) && i < |After(dirs, Clean(|dirs|), run).chans[c].log|
    ensures var log := After(dirs, Clean(|dirs|), run).chans[c].log;
      log[i] == Cycle(i) && Earned(log, i)
  {
    hide *;
    Start(dirs);
    RunKept(dirs, Clean(|dirs|), run);
    var s := After(dirs, Clean(|dirs|), run);
    LogOf(dirs, s, c);
    OrderShows(s.chans[c].log, i);
  }
}
