// The shared words of the handshake as they are in the driver and the device, changed in place.
module SgHandshakeDriver {
  import opened SgHandshake

  // One direction: the flag of the driver, the status register and the state of the device.
  class SgChannel {
    const dir: Direction
    var pc: Pc
    var flag: nat
    var sticky: nat
    var posts: seq<Write>
    var phase: Phase
    var log: seq<Mark>

    function View(): Channel
      reads this
    {
      Channel(pc, flag, sticky, posts, phase, log)
    }

    constructor (dir: Direction)
      ensures this.dir == dir && View() == FRESH
    {
      this.dir := dir;
      pc, flag, sticky, posts, phase, log := Idle, 0, 0, [], Quiet, [];
    }

    method Begin()
      modifies this
      ensures View() == Local(dir, old(View()), Move.Begin)
    {
      if pc.Idle? || pc.Failed? {
        posts := posts + [StartList];
        pc := Checking;
      }
    }

    // One access of the wait loop.
    method Proceed()
      modifies this
      ensures View() == Local(dir, old(View()), Move.Proceed)
    {
      match pc {
        case Checking => pc := if flag != 0 then Looking else Asleep;
        case Looking => pc := if flag != 0 then Reading else Checking;
        case Reading => ReadStatus();
        case ListSeen(left) => AnswerList(left);
        case DmaSeen(left) => AnswerDma(left);
        case _ =>
      }
    }

    method ReadStatus()
      requires pc.Reading?
      modifies this`pc
      ensures View() == Proceeds(dir, old(View()))
    {
      if posts == [] {
        if sticky == 1 {
          pc := ListSeen(2);
        } else if sticky == 2 {
          pc := DmaSeen(2);
        } else {
          pc := Checking;
        }
      }
    }

    method AnswerList(left: nat)
      requires pc == ListSeen(left)
      modifies this
      ensures View() == AfterListSeen(old(View()))
    {
      if left == 2 {
        flag := 0;
        pc := ListSeen(1);
      } else if left == 1 {
        posts := posts + [ClearStatus];
        pc := ListSeen(0);
      } else {
        posts := posts + [StartDma];
        pc := Checking;
      }
    }

    method AnswerDma(left: nat)
      requires pc == DmaSeen(left)
      modifies this
      ensures View() == AfterDmaSeen(dir, old(View()))
    {
      var clearsRegister := if dir.C2H? then left == 2 else left == 1;
      if left != 1 && left != 2 {
        pc := Idle;
        log := log + [Success];
      } else {
        if clearsRegister {
          posts := posts + [ClearStatus];
        } else {
          flag := 0;
        }
        pc := DmaSeen(left - 1);
      }
    }

    method GiveUp()
      modifies this
      ensures View() == Local(dir, old(View()), Move.GiveUp)
    {
      if pc.Asleep? {
        flag := 0;
        pc := Failed;
      }
    }

    method Deliver()
      modifies this
      ensures View() == Local(dir, old(View()), Move.Deliver)
    {
      if posts != [] {
        match posts[0] {
          case ClearStatus => sticky := 0;
          case StartList => phase, log := Listing, log + [ListStarted];
          case StartDma => phase, log := Moving, log + [DmaStarted];
        }
        posts := posts[1..];
      }
    }

    // Reports whether an interrupt is requested.
    method Pulse() returns (interrupt: bool)
      modifies this
      ensures View() == Local(dir, old(View()), Move.Pulse) && interrupt == Finishes(old(View()))
    {
      interrupt := phase.Listing? || phase.Moving?;
      if interrupt {
        var code := if phase.Listing? then 1 else 2;
        if sticky == 0 {
          sticky := code;
        }
        log := log + [if phase.Listing? then ListDone else DmaDone];
        phase := if phase.Listing? then Listed else Quiet;
      }
    }

    method Store(word: nat)
      modifies this`flag
      ensures flag == word
    {
      flag := word;
    }

    method Wake(word: nat)
      modifies this`pc
      ensures View() == Woken(old(View()), word)
    {
      if (word == 1 || word == 2) && pc.Asleep? {
        pc := Checking;
      }
    }
  }

  // fpga_irq_handler and process_irq, one access at a time.
  class InterruptHandler {
    const chans: seq<SgChannel>
    var pc: HandlerPc
    var words: seq<nat>
    var pending: bool

    predicate Valid()
      reads this
    {
      && 0 < |chans| == |words|
      && (!pc.Off? ==> pc.i < |chans|)
      && forall i, j :: 0 <= i < j < |chans| ==> chans[i] != chans[j]
    }

    function View(): (s: System)
      requires Valid()
      reads this, chans
      ensures Typed(s)
    {
      System(seq(|chans|, i requires 0 <= i < |chans| reads this, chans => chans[i].View()), Handler(pc, words),
             pending)
    }

    constructor (chans: seq<SgChannel>)
      requires 0 < |chans| && forall i, j :: 0 <= i < j < |chans| ==> chans[i] != chans[j]
      ensures Valid() && this.chans == chans && pc == Off && !pending
    {
      this.chans := chans;
      pc, words, pending := Off, seq(|chans|, _ => 0), false;
    }

    method Access()
      requires Valid()
      modifies this, chans
      ensures Valid() && View() == Handles(old(View()))
    {
      var n := |chans|;
      ghost var was := View();
      match pc {
        case Off =>
          if pending {
            pc, pending := Loading(0), false;
          }
        case Loading(i) =>
          if chans[i].posts == [] {
            words := words[i := chans[i].sticky];
            pc := NextLoad(n, i);
          }
        case Storing(i) =>
          chans[i].Store(words[i]);
          pc := NextStore(n, i);
        case Waking(i) =>
          chans[i].Wake(words[i]);
          pc := NextWake(n, i);
      }
      assert View().chans == Handles(was).chans;
    }
  }
}
