// A transfer started after one that gave up: when its marks are sure to keep their order, and when not.
module SgHandshakeRetry {
  import opened SgHandshake
  import opened SgHandshakeProof

  // A run in which no call follows one that gave up on channel c.
  ghost predicate NoRetryOn(dirs: seq<Direction>, s: System, run: seq<Action>, c: nat)
    requires Typed(s) && |dirs| == |s.chans|
    decreases |run|
  {
    run == [] || (!(Retries(s, run[0]) && run[0].c == c) && NoRetryOn(dirs, Step(dirs, s, run[0]), run[1..], c))
  }

  // The marks from base on follow the cycle.
  ghost predicate OrderFrom(log: seq<Mark>, base: nat) {
    forall i :: base <= i < |log| ==> log[i] == Cycle(i - base)
  }

  // Whatever happens from s on, every mark that channel c adds is in order.
  ghost predicate KeepsOrder(dirs: seq<Direction>, s: System, c: nat)
    requires Typed(s) && |dirs| == |s.chans| && c < |dirs|
  {
    forall run | NoRetryOn(dirs, s, run, c) :: OrderFrom(After(dirs, s, run).chans[c].log, |s.chans[c].log|)
  }

  predicate Startable(ch: Channel) {
    (ch.pc.Idle? || ch.pc.Failed?) && ch.sticky <= 2
  }

  // ---- A settled start keeps order ----

  function Cut(ch: Channel, base: nat): Channel {
    ch.(log := if base <= |ch.log| then ch.log[base..] else [])
  }

  ghost predicate CutOk(dir: Direction, ch: Channel, base: nat) {
    base <= |ch.log| && StageOk(dir, Cut(ch, base)) && InOrder(Cut(ch, base).log)
  }

  lemma CutLocal(dir: Direction, ch: Channel, base: nat, m: Move)
    requires base <= |ch.log|
    ensures base <= |Local(dir, ch, m).log| && Cut(Local(dir, ch, m), base) == Local(dir, Cut(ch, base), m)
  {
    forall x: Mark ensures (ch.log + [x])[base..] == ch.log[base..] + [x] {}
  }

  lemma OkMeans(dir: Direction, ch: Channel)
    ensures ChannelOk(dir, ch, Stored(1), true) <==> StageOk(dir, ch) && InOrder(ch.log)
  {
    hide StageOk, InOrder;
  }

  lemma CutMoves(dir: Direction, ch: Channel, base: nat, m: Move)
    requires CutOk(dir, ch, base) && !(m.Begin? && ch.pc.Failed?)
    ensures CutOk(dir, Local(dir, ch, m), base)
  {
    hide ChannelOk, StageOk, InOrder, Local;
    var cut := Cut(ch, base);
    OkMeans(dir, cut);
    LocalKept(dir, cut, Stored(1), true, m);
    CutLocal(dir, ch, base, m);
    OkMeans(dir, Local(dir, cut, m));
  }

  // A stage says nothing of the flag, and waking a sleeper leaves its stage as it is.
  lemma StageHandled(dir: Direction, ch: Channel, word: nat)
    requires StageOk(dir, ch)
    ensures StageOk(dir, ch.(flag := word)) && StageOk(dir, Woken(ch, word))
  {
    hide AllClear;
  }

  lemma CutHandled(dir: Direction, ch: Channel, base: nat, word: nat)
    requires CutOk(dir, ch, base)
    ensures CutOk(dir, ch.(flag := word), base) && CutOk(dir, Woken(ch, word), base)
  {
    StageHandled(dir, Cut(ch, base), word);
    hide InOrder, StageOk;
  }

  lemma CutStep(dirs: seq<Direction>, s: System, a: Action, c: nat, base: nat)
    requires Typed(s) && |dirs| == |s.chans| && c < |dirs|
    requires CutOk(dirs[c], s.chans[c], base) && !(Retries(s, a) && a.c == c)
    ensures CutOk(dirs[c], Step(dirs, s, a).chans[c], base)
  {
    hide CutOk, Local;
    match a
    case On(k, m) =>
      if k == c {
        CutMoves(dirs[c], s.chans[c], base, m);
      }
    case OtherSource =>
    case Handle => CutHandled(dirs[c], s.chans[c], base, s.handler.words[c]);
  }

  lemma {:induction false} CutRun(dirs: seq<Direction>, s: System, run: seq<Action>, c: nat, base: nat)
    requires Typed(s) && |dirs| == |s.chans| && c < |dirs|
    requires CutOk(dirs[c], s.chans[c], base) && NoRetryOn(dirs, s, run, c)
    ensures CutOk(dirs[c], After(dirs, s, run).chans[c], base)
    decreases |run|
  {
    hide CutOk, Step;
    if run != [] {
      CutStep(dirs, s, run[0], c, base);
      CutRun(dirs, Step(dirs, s, run[0]), run[1..], c, base);
    }
  }

  lemma CutInOrder(dir: Direction, ch: Channel, base: nat)
    requires CutOk(dir, ch, base)
    ensures OrderFrom(ch.log, base)
  {
    hide StageOk, Cycle;
    forall i | base <= i < |ch.log| ensures ch.log[i] == Cycle(i - base) {
      assert ch.log[base..][i - base] == ch.log[i];
    }
  }

  lemma SettledStart(dir: Direction, ch: Channel)
    requires Startable(ch) && Settled(ch)
    ensures CutOk(dir, Local(dir, ch, Begin), |ch.log|)
  {
    var next := Local(dir, ch, Begin);
    assert Cut(next, |ch.log|).log == [];
    assert next.posts[..|next.posts| - 1] == ch.posts;
  }

  lemma SettledKeepsOrder(dirs: seq<Direction>, s: System, c: nat)
    requires Typed(s) && |dirs| == |s.chans| && c < |dirs|
    requires Startable(s.chans[c]) && Settled(s.chans[c])
    ensures KeepsOrder(dirs, Step(dirs, s, On(c, Begin)), c)
  {
    hide Local, CutOk, OrderFrom;
    var s1, base := Step(dirs, s, On(c, Begin)), |s.chans[c].log|;
    SettledStart(dirs[c], s.chans[c]);
    BeginLog(dirs[c], s.chans[c]);
    forall run | NoRetryOn(dirs, s1, run, c) ensures OrderFrom(After(dirs, s1, run).chans[c].log, base) {
      CutRun(dirs, s1, run, c, base);
      CutInOrder(dirs[c], After(dirs, s1, run).chans[c], base);
    }
  }

  lemma BeginLog(dir: Direction, ch: Channel)
    ensures Local(dir, ch, Begin).log == ch.log
  {
  }

  // ---- Runs that break the order ----

  predicate Plain(run: seq<Action>) {
    forall a :: a in run ==> !(a.On? && a.move.Begin?)
  }

  lemma {:induction false} PlainHasNoRetry(dirs: seq<Direction>, s: System, run: seq<Action>, c: nat)
    requires Typed(s) && |dirs| == |s.chans| && Plain(run)
    ensures NoRetryOn(dirs, s, run, c)
    decreases |run|
  {
    hide Step;
    if run != [] {
      assert run[0] in run && forall a :: a in run[1..] ==> a in run;
      PlainHasNoRetry(dirs, Step(dirs, s, run[0]), run[1..], c);
    }
  }

  lemma {:induction false} Chain(dirs: seq<Direction>, s: System, first: seq<Action>, last: seq<Action>)
    requires Typed(s) && |dirs| == |s.chans|
    ensures After(dirs, s, first + last) == After(dirs, After(dirs, s, first), last)
    decreases |first|
  {
    hide Step;
    if first == [] {
      assert first + last == last;
    } else {
      var run := first + last;
      assert run[0] == first[0] && run[1..] == first[1..] + last;
      Chain(dirs, Step(dirs, s, first[0]), first[1..], last);
    }
  }

  predicate Sized(dirs: seq<Direction>, s: System, c: nat) {
    Typed(s) && |dirs| == |s.chans| && c < |dirs|
  }

  // Some run without a Begin leads from s to t.
  ghost predicate Leads(dirs: seq<Direction>, s: System, t: System) {
    Typed(s) && |dirs| == |s.chans| && exists run :: Plain(run) && After(dirs, s, run) == t
  }

  lemma NoStep(dirs: seq<Direction>, s: System)
    requires Typed(s) && |dirs| == |s.chans|
    ensures Leads(dirs, s, s)
  {
    assert Plain([]) && After(dirs, s, []) == s;
  }

  lemma OneStep(dirs: seq<Direction>, s: System, a: Action)
    requires Typed(s) && |dirs| == |s.chans| && !(a.On? && a.move.Begin?)
    ensures Leads(dirs, s, Step(dirs, s, a))
  {
    hide Step;
    assert Plain([a]) && [a][1..] == [];
    assert After(dirs, s, [a]) == After(dirs, Step(dirs, s, a), []);
  }

  lemma TwoLegs(dirs: seq<Direction>, s: System, t: System, u: System)
    requires Leads(dirs, s, t) && Leads(dirs, t, u)
    ensures Leads(dirs, s, u)
  {
    hide After;
    var first :| Plain(first) && After(dirs, s, first) == t;
    var last :| Plain(last) && After(dirs, t, last) == u;
    Chain(dirs, s, first, last);
    assert Plain(first + last);
  }

  // Channel c after n times the same move.
  function Times(dir: Direction, ch: Channel, m: Move, n: nat): Channel
    decreases n
  {
    if n == 0 then ch else Times(dir, Local(dir, ch, m), m, n - 1)
  }

  lemma {:induction false} Repeat(dirs: seq<Direction>, s: System, c: nat, m: Move, n: nat) returns (t: System)
    requires Sized(dirs, s, c) && !m.Begin?
    ensures Leads(dirs, s, t) && Sized(dirs, t, c) && t.handler == s.handler
    ensures t.chans == s.chans[c := Times(dirs[c], s.chans[c], m, n)]
    decreases n
  {
    hide Leads, Local;
    if n == 0 {
      NoStep(dirs, s);
      t := s;
    } else {
      var s1 := Step(dirs, s, On(c, m));
      OneStep(dirs, s, On(c, m));
      t := Repeat(dirs, s1, c, m, n - 1);
      TwoLegs(dirs, s, s1, t);
    }
  }

  lemma Broken(dirs: seq<Direction>, s: System, t: System, c: nat)
    requires Sized(dirs, s, c) && Leads(dirs, s, t) && Sized(dirs, t, c)
    requires !OrderFrom(t.chans[c].log, |s.chans[c].log|)
    ensures !KeepsOrder(dirs, s, c)
  {
    hide OrderFrom, After;
    var run :| Plain(run) && After(dirs, s, run) == t;
    PlainHasNoRetry(dirs, s, run, c);
  }

  lemma BadMark(log: seq<Mark>, base: nat, i: nat)
    requires base + i < |log| && log[base + i] != Cycle(i)
    ensures !OrderFrom(log, base)
  {
    hide Cycle;
    assert base + i - base == i;
  }

  // A start write of the abandoned transfer still on its way: two starts reach the device.

  function Starts(posts: seq<Write>): nat {
    if posts == [] then 0 else (if posts[0].ClearStatus? then 0 else 1) + Starts(posts[1..])
  }

  lemma {:induction false} StartsOf(posts: seq<Write>)
    ensures AllClear(posts) || Starts(posts) > 0
    ensures Starts(posts + [StartList]) == Starts(posts) + 1
  {
    if posts == [] {
      assert posts + [StartList] == [StartList];
    } else {
      StartsOf(posts[1..]);
      assert (posts + [StartList])[1..] == posts[1..] + [StartList];
      if AllClear(posts[1..]) && posts[0].ClearStatus? {
        assert forall i :: 0 < i < |posts| ==> posts[i] == posts[1..][i - 1];
      }
    }
  }

  lemma {:induction false} Drained(dir: Direction, ch: Channel)
    ensures var d := Times(dir, ch, Deliver, |ch.posts|);
      && d.posts == [] && d.pc == ch.pc && d.flag == ch.flag
      && |d.log| == |ch.log| + Starts(ch.posts) && ch.log <= d.log
      && forall i :: |ch.log| <= i < |d.log| ==> d.log[i].ListStarted? || d.log[i].DmaStarted?
    decreases |ch.posts|
  {
    if ch.posts != [] {
      var next := Local(dir, ch, Deliver);
      Drained(dir, next);
      assert ch.log <= next.log && |next.log| <= |ch.log| + 1;
      assert |next.log| > |ch.log| ==> next.log[|ch.log|].ListStarted? || next.log[|ch.log|].DmaStarted?;
    }
  }

  lemma LateStart(dirs: seq<Direction>, s: System, c: nat)
    requires Sized(dirs, s, c) && Starts(s.chans[c].posts) >= 2
    ensures !KeepsOrder(dirs, s, c)
  {
    hide Leads, KeepsOrder, OrderFrom, Times, Starts, Local;
    var ch := s.chans[c];
    var t := Repeat(dirs, s, c, Deliver, |ch.posts|);
    Drained(dirs[c], ch);
    BadMark(t.chans[c].log, |ch.log|, 1);
    Broken(dirs, s, t, c);
  }

  // The device still at work for the abandoned transfer: its done mark comes before the new start.
  lemma LateDone(dirs: seq<Direction>, s: System, c: nat)
    requires Sized(dirs, s, c) && Finishes(s.chans[c])
    ensures !KeepsOrder(dirs, s, c)
  {
    hide Leads, KeepsOrder, OrderFrom;
    var t := Step(dirs, s, On(c, Pulse));
    OneStep(dirs, s, On(c, Pulse));
    BadMark(t.chans[c].log, |s.chans[c].log|, 0);
    Broken(dirs, s, t, c);
  }

  // A done code left in the register: the waiting process takes it for its own.

  // All posts of channels k and above are delivered.
  lemma {:induction false} DrainFrom(dirs: seq<Direction>, s: System, c: nat, k: nat) returns (t: System)
    requires Sized(dirs, s, c) && k <= |dirs| && forall i :: 0 <= i < k ==> s.chans[i].posts == []
    ensures Leads(dirs, s, t) && Sized(dirs, t, c) && t.handler == s.handler
    ensures forall i :: 0 <= i < |dirs| ==> t.chans[i].posts == []
    ensures t.chans[c] == if c < k then s.chans[c] else Times(dirs[c], s.chans[c], Deliver, |s.chans[c].posts|)
    decreases |dirs| - k
  {
    hide Leads, Times, Local, Starts;
    if k == |dirs| {
      NoStep(dirs, s);
      t := s;
    } else {
      var s1 := Repeat(dirs, s, k, Deliver, |s.chans[k].posts|);
      Drained(dirs[k], s.chans[k]);
      t := DrainFrom(dirs, s1, c, k + 1);
      TwoLegs(dirs, s, s1, t);
    }
  }

  // Channel c waits with nothing posted anywhere, and only the handler will move.
  predicate Poised(dirs: seq<Direction>, s: System, c: nat) {
    Sized(dirs, s, c) && s.chans[c].pc.Checking? && forall i :: 0 <= i < |dirs| ==> s.chans[i].posts == []
  }

  function Left(h: HandlerPc, n: nat): int {
    match h
    case Off => 0
    case Loading(i) => 3 * n - i
    case Storing(i) => 2 * n - i
    case Waking(i) => n - i
  }

  lemma HandleMoves(dirs: seq<Direction>, s: System, c: nat)
    requires Poised(dirs, s, c) && !s.handler.pc.Off?
    ensures var t := Handles(s); Poised(dirs, t, c) && t.chans[c] == s.chans[c].(flag := t.chans[c].flag)
    ensures 0 <= Left(Handles(s).handler.pc, |dirs|) < Left(s.handler.pc, |dirs|)
  {
  }

  lemma {:induction false} SweepEnds(dirs: seq<Direction>, s: System, c: nat) returns (t: System)
    requires Poised(dirs, s, c)
    ensures Leads(dirs, s, t) && Poised(dirs, t, c) && t.handler.pc.Off?
    ensures t.chans[c] == s.chans[c].(flag := t.chans[c].flag)
    decreases Left(s.handler.pc, |dirs|)
  {
    hide Leads, Left, Handles;
    if s.handler.pc.Off? {
      NoStep(dirs, s);
      t := s;
    } else {
      HandleMoves(dirs, s, c);
      OneStep(dirs, s, Handle);
      t := SweepEnds(dirs, Handles(s), c);
      TwoLegs(dirs, s, Handles(s), t);
    }
  }

  // The sweep in progress will store a nonzero word in the flag of channel c, or has.
  predicate WillFlag(s: System, c: nat)
    requires Typed(s) && c < |s.chans|
  {
    match SeenBy(s.handler, c)
    case WillLoad => true
    case Loaded(word) => word != 0
    case _ => s.chans[c].flag != 0
  }

  lemma HandleFlags(dirs: seq<Direction>, s: System, c: nat)
    requires Poised(dirs, s, c) && s.chans[c].sticky != 0 && WillFlag(s, c)
    ensures WillFlag(Handles(s), c) || s.handler.pc.Off?
  {
  }

  lemma {:induction false} FlagRises(dirs: seq<Direction>, s: System, c: nat) returns (t: System)
    requires Poised(dirs, s, c) && s.chans[c].sticky != 0 && WillFlag(s, c)
    ensures Leads(dirs, s, t) && Poised(dirs, t, c) && t.chans[c].flag != 0
    ensures t.chans[c] == s.chans[c].(flag := t.chans[c].flag)
    decreases Left(s.handler.pc, |dirs|)
  {
    hide Leads, Left, Handles;
    if s.handler.pc.Off? {
      NoStep(dirs, s);
      t := s;
    } else {
      HandleMoves(dirs, s, c);
      HandleFlags(dirs, s, c);
      OneStep(dirs, s, Handle);
      t := FlagRises(dirs, Handles(s), c);
      TwoLegs(dirs, s, Handles(s), t);
    }
  }

  // Any interrupt will do: the handler reads every register.
  lemma FullSweep(dirs: seq<Direction>, s: System, c: nat) returns (t: System)
    requires Poised(dirs, s, c) && s.handler.pc.Off? && s.chans[c].sticky != 0
    ensures Leads(dirs, s, t) && Poised(dirs, t, c) && t.chans[c].flag != 0
    ensures t.chans[c] == s.chans[c].(flag := t.chans[c].flag)
  {
    hide Leads;
    var s1 := Step(dirs, s, OtherSource);
    var s2 := Step(dirs, s1, Handle);
    OneStep(dirs, s, OtherSource);
    OneStep(dirs, s1, Handle);
    TwoLegs(dirs, s, s1, s2);
    t := FlagRises(dirs, s2, c);
    TwoLegs(dirs, s, s2, t);
  }

  // With its flag up the waiting process reads the register and answers what it finds there.
  lemma Misled(dir: Direction, ch: Channel)
    requires ch.pc.Checking? && ch.flag != 0 && ch.posts == [] && ch.phase.Listing? && ch.sticky in {1, 2}
    ensures var a := Times(dir, ch, Proceed, 6);
      var b := Times(dir, a, Deliver, 2);
      b.log == ch.log + [if ch.sticky == 1 then DmaStarted else Success]
  {
    var a3 := Local(dir, Local(dir, Local(dir, ch, Proceed), Proceed), Proceed);
    assert a3 == ch.(pc := if ch.sticky == 1 then ListSeen(2) else DmaSeen(2));
    var a6 := Local(dir, Local(dir, Local(dir, a3, Proceed), Proceed), Proceed);
    assert Times(dir, ch, Proceed, 6) == Times(dir, a3, Proceed, 3) == a6;
    var b := Local(dir, Local(dir, a6, Deliver), Deliver);
    assert Times(dir, a6, Deliver, 2) == b;
  }

  // The channel right after the call has started: only its own start is posted, over a nonzero register.
  predicate Stale(ch: Channel) {
    ch.pc.Checking? && ch.posts == [StartList] && !Finishes(ch) && ch.sticky in {1, 2}
  }

  lemma OwnStart(dir: Direction, ch: Channel)
    requires Stale(ch)
    ensures Times(dir, ch, Deliver, |ch.posts|) == ch.(posts := [], phase := Listing, log := ch.log + [ListStarted])
  {
    var next := Local(dir, ch, Deliver);
    assert Times(dir, ch, Deliver, 1) == Times(dir, next, Deliver, 0);
  }

  lemma StaleCode(dirs: seq<Direction>, s: System, c: nat)
    requires Sized(dirs, s, c) && Stale(s.chans[c])
    ensures !KeepsOrder(dirs, s, c)
  {
    hide Leads, KeepsOrder, OrderFrom, Times, Local;
    var base, code := |s.chans[c].log|, s.chans[c].sticky;
    var t0 := DrainFrom(dirs, s, c, 0);
    OwnStart(dirs[c], s.chans[c]);
    var t1 := SweepEnds(dirs, t0, c);
    var t2 := FullSweep(dirs, t1, c);
    var t3 := Repeat(dirs, t2, c, Proceed, 6);
    var t4 := Repeat(dirs, t3, c, Deliver, 2);
    Misled(dirs[c], t2.chans[c]);
    TwoLegs(dirs, s, t0, t1);
    TwoLegs(dirs, s, t1, t2);
    TwoLegs(dirs, s, t2, t3);
    TwoLegs(dirs, s, t3, t4);
    BadMark(t4.chans[c].log, base, 1);
    Broken(dirs, s, t4, c);
  }

  // ---- Main results ----

  // A call keeps its marks in order, whatever happens after it starts, exactly when it starts on a settled
  // channel: no start of an earlier transfer on its way, the device at rest, the register clear or about to be.
  lemma OrderExact(dirs: seq<Direction>, s: System, c: nat)
    requires Sized(dirs, s, c) && Startable(s.chans[c])
    ensures KeepsOrder(dirs, Step(dirs, s, On(c, Begin)), c) <==> Settled(s.chans[c])
  {
    hide KeepsOrder;
    var ch, s1 := s.chans[c], Step(dirs, s, On(c, Begin));
    StartsOf(ch.posts);
    if Settled(ch) {
      SettledKeepsOrder(dirs, s, c);
    } else if Finishes(ch) {
      LateDone(dirs, s1, c);
    } else if !AllClear(ch.posts) {
      LateStart(dirs, s1, c);
    } else {
      assert ch.posts == [] && ch.posts + [StartList] == [StartList];
      StaleCode(dirs, s1, c);
    }
  }

  // The driver resets nothing when it gives up, so no call that follows is ever safe.
  lemma RetryIsNeverSafe(dirs: seq<Direction>, s: System, c: nat)
    requires Reached(dirs, s) && c < |dirs| && s.chans[c].pc.Failed?
    ensures !KeepsOrder(dirs, Step(dirs, s, On(c, Begin)), c)
  {
    hide KeepsOrder, Step;
    ReachedOk(dirs, s);
    GivenUp(dirs[c], s.chans[c], SeenBy(s.handler, c), s.pending);
    OrderExact(dirs, s, c);
  }

  lemma StartOnItsWay(posts: seq<Write>)
    requires posts != [] && !posts[|posts| - 1].ClearStatus?
    ensures !AllClear(posts)
  {
  }

  lemma GivenUp(dir: Direction, ch: Channel, seen: Seen, pending: bool)
    requires ChannelOk(dir, ch, seen, pending) && ch.pc.Failed?
    ensures Startable(ch) && !Settled(ch)
  {
    hide InOrder, ToBeServiced, WaitsFor, AllClear;
    if ch.posts != [] && !ch.posts[|ch.posts| - 1].ClearStatus? {
      StartOnItsWay(ch.posts);
    }
  }

  // One such run from a clean start: the abandoned start and the new one both reach the device.
  lemma RetryBreaks(dirs: seq<Direction>, c: nat) returns (run: seq<Action>)
    requires c < |dirs|
    ensures After(dirs, Clean(|dirs|), run).chans[c].log == [ListStarted, ListStarted]
    ensures !InOrder(After(dirs, Clean(|dirs|), run).chans[c].log)
  {
    hide Step, After, Cycle, InOrder;
    run := [On(c, Begin), On(c, Proceed), On(c, GiveUp), On(c, Begin), On(c, Deliver), On(c, Deliver)];
    var s := Clean(|dirs|);
    var s1 := FirstOf(dirs, s, run, c, Begin);
    var s2 := FirstOf(dirs, s1, run[1..], c, Proceed);
    var s3 := FirstOf(dirs, s2, run[2..], c, GiveUp);
    var s4 := FirstOf(dirs, s3, run[3..], c, Begin);
    assert s4.chans[c] == FRESH.(pc := Checking, posts := [StartList, StartList]);
    var s5 := FirstOf(dirs, s4, run[4..], c, Deliver);
    var s6 := FirstOf(dirs, s5, run[5..], c, Deliver);
    Stays(dirs, s6);
    TwoStarts(s6.chans[c].log);
  }

  lemma FirstOf(dirs: seq<Direction>, s: System, run: seq<Action>, c: nat, m: Move) returns (t: System)
    requires Sized(dirs, s, c) && run != [] && run[0] == On(c, m)
    ensures Sized(dirs, t, c) && t.chans[c] == Local(dirs[c], s.chans[c], m)
    ensures After(dirs, s, run) == After(dirs, t, run[1..])
  {
    hide Local;
    t := Step(dirs, s, On(c, m));
  }

  lemma Stays(dirs: seq<Direction>, s: System)
    requires Typed(s) && |dirs| == |s.chans|
    ensures After(dirs, s, []) == s
  {
  }

  lemma TwoStarts(log: seq<Mark>)
    requires log == [ListStarted, ListStarted]
    ensures !InOrder(log)
  {
    assert log[1] != Cycle(1);
  }
}
