// priority_encoder: a tree of two-way choices over the input padded to a power of two.
module PriorityEncoder {
  import opened Arith
  import opened GrayCode

  // A subtree: does it hold a set bit, and which one, counted from its first bit.
  datatype Node = Node(valid: bool, enc: nat)

  datatype Result = Result(valid: bool, index: nat)

  function Leaf(lsb: bool, b0: bool, b1: bool): Node {
    Node(b0 || b1, if (if lsb then !b0 else b1) then 1 else 0)
  }

  // Two subtrees of 2^l bits each: one more bit in front of the code of the chosen one.
  function Merge(lsb: bool, l: nat, lo: Node, hi: Node): Node {
    var takeLow := if lsb then lo.valid else !hi.valid;
    Node(lo.valid || hi.valid, if takeLow then lo.enc else Pow2(l) + hi.enc)
  }

  function Levels(width: nat): (l: nat)
    requires 0 < width
    ensures 1 <= l && width <= Pow2(l)
  {
    if width <= 2 then 1 else 1 + Levels((width + 1) / 2)
  }

  function Padded(bits: seq<bool>): (p: seq<bool>)
    requires bits != []
    ensures |p| == Pow2(Levels(|bits|))
    ensures forall i :: 0 <= i < |p| ==> (p[i] <==> i < |bits| && bits[i])
  {
    bits + seq(Pow2(Levels(|bits|)) - |bits|, _ => false)
  }

  // All nodes of level l over 2^k bits.
  function Level(lsb: bool, bits: seq<bool>, k: nat, l: nat): (nodes: seq<Node>)
    requires |bits| == Pow2(k) && l < k
    ensures |nodes| == Pow2(k - 1 - l)
  {
    if l == 0 then
      seq(Pow2(k - 1), n requires 0 <= n < Pow2(k - 1) => Leaf(lsb, bits[2 * n], bits[2 * n + 1]))
    else
      var below := Level(lsb, bits, k, l - 1);
      seq(Pow2(k - 1 - l), n requires 0 <= n < Pow2(k - 1 - l) => Merge(lsb, l, below[2 * n], below[2 * n + 1]))
  }

  function Encode(lsb: bool, bits: seq<bool>): Result
    requires bits != []
  {
    var k := Levels(|bits|);
    var root := Level(lsb, Padded(bits), k, k - 1)[0];
    Result(root.valid, root.enc)
  }

  // ---- The linear scan it equals ----

  // The first set bit at or after i, or |bits|.
  function ScanUp(bits: seq<bool>, i: nat): (j: nat)
    requires i <= |bits|
    ensures i <= j <= |bits| && (j < |bits| ==> bits[j]) && forall k :: i <= k < j ==> !bits[k]
    decreases |bits| - i
  {
    if i == |bits| || bits[i] then i else ScanUp(bits, i + 1)
  }

  // The last set bit before i, or -1.
  function ScanDown(bits: seq<bool>, i: nat): (j: int)
    requires i <= |bits|
    ensures -1 <= j < i && (j >= 0 ==> bits[j]) && forall k :: j < k < i ==> !bits[k]
  {
    if i == 0 then -1 else if bits[i - 1] then i - 1 else ScanDown(bits, i - 1)
  }

  predicate AnySet(bits: seq<bool>, lo: nat, hi: nat)
    requires lo <= hi <= |bits|
  {
    exists i :: lo <= i < hi && bits[i]
  }

  // i is the set bit of highest priority in [lo, hi).
  predicate Best(lsb: bool, bits: seq<bool>, lo: nat, hi: nat, i: nat)
    requires lo <= hi <= |bits|
  {
    && lo <= i < hi && bits[i]
    && (if lsb then forall j :: lo <= j < i ==> !bits[j] else forall j :: i < j < hi ==> !bits[j])
  }

  // A node speaks for the bits [lo, hi) below it.
  predicate Speaks(lsb: bool, bits: seq<bool>, lo: nat, hi: nat, node: Node)
    requires lo <= hi <= |bits|
  {
    && (node.valid <==> AnySet(bits, lo, hi))
    && (node.valid ==> Best(lsb, bits, lo, hi, lo + node.enc))
  }

  lemma NoneSet(bits: seq<bool>, lo: nat, mid: nat, hi: nat)
    requires lo <= mid <= hi <= |bits| && !AnySet(bits, lo, mid) && !AnySet(bits, mid, hi)
    ensures !AnySet(bits, lo, hi)
  {
  }

  lemma MergeSpeaks(lsb: bool, bits: seq<bool>, l: nat, lo: nat, a: Node, b: Node)
    requires lo + 2 * Pow2(l) <= |bits|
    requires Speaks(lsb, bits, lo, lo + Pow2(l), a) && Speaks(lsb, bits, lo + Pow2(l), lo + 2 * Pow2(l), b)
    ensures Speaks(lsb, bits, lo, lo + 2 * Pow2(l), Merge(lsb, l, a, b))
  {
    var mid, hi := lo + Pow2(l), lo + 2 * Pow2(l);
    if a.valid || b.valid {
      var i := if a.valid then lo + a.enc else mid + b.enc;
      assert lo <= i < hi && bits[i];
    } else {
      NoneSet(bits, lo, mid, hi);
    }
  }

  // First bit below node n of level l.
  function From(n: nat, l: nat): nat {
    n * Pow2(l + 1)
  }

  lemma HalfSpans(n: nat, l: nat)
    requires 0 < l
    ensures From(2 * n, l - 1) == From(n, l)
    ensures From(2 * n + 1, l - 1) == From(n, l) + Pow2(l)
    ensures From(2 * n + 1 + 1, l - 1) == From(n + 1, l) == From(n, l) + 2 * Pow2(l)
  {
    assert Pow2(l + 1) == 2 * Pow2(l);
    MulStep(n, Pow2(l + 1));
    MulAssoc(n, 2, Pow2(l));
    MulStep(2 * n, Pow2(l));
    MulStep(2 * n + 1, Pow2(l));
  }

  lemma LevelStep(lsb: bool, bits: seq<bool>, k: nat, l: nat, n: nat)
    requires |bits| == Pow2(k) && 0 < l < k && n < Pow2(k - 1 - l)
    ensures 2 * n + 1 < Pow2(k - l)
    ensures var below := Level(lsb, bits, k, l - 1);
      Level(lsb, bits, k, l)[n] == Merge(lsb, l, below[2 * n], below[2 * n + 1])
  {
  }

  lemma LevelZero(lsb: bool, bits: seq<bool>, k: nat, n: nat)
    requires |bits| == Pow2(k) && 0 < k && n < Pow2(k - 1)
    ensures From(n, 0) == 2 * n && From(n + 1, 0) == 2 * n + 2 <= |bits|
    ensures Level(lsb, bits, k, 0)[n] == Leaf(lsb, bits[2 * n], bits[2 * n + 1])
  {
    assert Pow2(1) == 2;
  }

  lemma {:induction false} NodeSpeaks(lsb: bool, bits: seq<bool>, k: nat, l: nat, n: nat)
    requires |bits| == Pow2(k) && l < k && n < Pow2(k - 1 - l)
    ensures From(n, l) <= From(n + 1, l) <= |bits|
    ensures Speaks(lsb, bits, From(n, l), From(n + 1, l), Level(lsb, bits, k, l)[n])
    decreases l
  {
    hide *;
    if l == 0 {
      LevelZero(lsb, bits, k, n);
      LeafSpeaks(lsb, bits, 2 * n);
    } else {
      LevelStep(lsb, bits, k, l, n);
      NodeSpeaks(lsb, bits, k, l - 1, 2 * n);
      NodeSpeaks(lsb, bits, k, l - 1, 2 * n + 1);
      HalfSpans(n, l);
      var below := Level(lsb, bits, k, l - 1);
      MergeSpeaks(lsb, bits, l, From(n, l), below[2 * n], below[2 * n + 1]);
    }
  }

  lemma LeafSpeaks(lsb: bool, bits: seq<bool>, i: nat)
    requires i + 2 <= |bits|
    ensures Speaks(lsb, bits, i, i + 2, Leaf(lsb, bits[i], bits[i + 1]))
  {
    if bits[i] || bits[i + 1] {
      assert AnySet(bits, i, i + 2);
    }
  }

  lemma EncodeBest(lsb: bool, bits: seq<bool>)
    requires bits != []
    ensures var r := Encode(lsb, bits);
      && (r.valid <==> AnySet(bits, 0, |bits|))
      && (r.valid ==> Best(lsb, bits, 0, |bits|, r.index))
  {
    var k := Levels(|bits|);
    var p := Padded(bits);
    assert Pow2(0) == 1 && From(0, k - 1) == 0 && From(1, k - 1) == Pow2(k);
    NodeSpeaks(lsb, p, k, k - 1, 0);
    var r := Encode(lsb, bits);
    if AnySet(bits, 0, |bits|) {
      var i :| 0 <= i < |bits| && bits[i];
      assert p[i];
    }
  }

  // For every width the tree finds what a scan from the high-priority end finds.
  lemma EncodeIsScan(lsb: bool, bits: seq<bool>)
    requires bits != []
    ensures var r := Encode(lsb, bits);
      if lsb then r.valid == (ScanUp(bits, 0) < |bits|) && (r.valid ==> r.index == ScanUp(bits, 0))
      else r.valid == (ScanDown(bits, |bits|) >= 0) && (r.valid ==> r.index == ScanDown(bits, |bits|))
  {
    EncodeBest(lsb, bits);
    hide Encode;
    var r := Encode(lsb, bits);
    var up, down := ScanUp(bits, 0), ScanDown(bits, |bits|);
    assert up < |bits| ==> bits[up];
    assert down >= 0 ==> bits[down];
  }
}
