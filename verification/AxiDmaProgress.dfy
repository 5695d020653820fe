// What both engines' progress measures share: the output FIFO, and the two late flags that hold a word
// back, half-full and ready.
module AxiDmaProgress {
  import opened Wrappers
  import OutputFifo

  function One(b: bool): nat {
    if b then 1 else 0
  }

  function FifoWork<T>(f: OutputFifo.Fifo<T>): nat {
    2 * |f.q| + One(f.out.Some?)
  }

  lemma FifoWorkFalls<T>(depth: nat, f: OutputFifo.Fifo<T>, push: Option<T>, ready: bool)
    requires 3 <= depth
    ensures var f' := OutputFifo.Step(depth, f, push, ready);
            && FifoWork(f') + One(ready && OutputFifo.Held(f) != []) <= FifoWork(f) + 2 * |push.AsSeq()|
            && (f'.half ==> f'.q != [])
            && f'.half == (2 * |f.q| >= depth)
            && (push.None? ==> |f'.q| <= |f.q|)
  {
  }

  // How far the two late flags, half-full and ready, are from letting the next word in. Only a push
  // can raise it.
  function Stall(ready: bool, half: bool, full: bool): (n: nat)
    ensures n <= 4
  {
    if half then (if ready && full then 3 else 2)
    else if full then 4
    else if ready then 0 else 1
  }

  // The late flags settle as long as nothing is pushed.
  lemma StallFalls(ready: bool, half: bool, full: bool, full': bool)
    requires full' ==> full
    ensures Stall(!half, full, full') + One(!ready && !half) <= Stall(ready, half, full)
  {
  }
}
