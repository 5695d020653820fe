// Gray-coded pointers: x ^ (x >> 1) on a fixed number of bits, lowest bit first.
module GrayCode {
  import opened Arith

  function Pow2(n: nat): (p: nat)
    ensures 1 <= p
  {
    if n == 0 then 1 else 2 * Pow2(n - 1)
  }

  type Bits = seq<bool>

  function BitsOf(n: nat, x: nat): (b: Bits)
    ensures |b| == n
  {
    if n == 0 then [] else [x % 2 == 1] + BitsOf(n - 1, x / 2)
  }

  function Xor(a: Bits, b: Bits): (c: Bits)
    requires |a| == |b|
    ensures |c| == |a|
  {
    seq(|a|, i requires 0 <= i < |a| => a[i] != b[i])
  }

  // (x >> 1) ^ x
  function Gray(n: nat, x: nat): (g: Bits)
    ensures |g| == n
  {
    Xor(BitsOf(n, x / 2), BitsOf(n, x))
  }

  lemma GrayStep(n: nat, x: nat)
    requires 0 < n && x < Pow2(n)
    ensures Gray(n, x) == [(x % 2 == 1) != (x / 2 % 2 == 1)] + Gray(n - 1, x / 2)
    ensures x / 2 < Pow2(n - 1)
  {
    var g := [(x % 2 == 1) != (x / 2 % 2 == 1)] + Gray(n - 1, x / 2);
    assert BitsOf(n, x / 2) == [x / 2 % 2 == 1] + BitsOf(n - 1, x / 2 / 2);
    forall i | 0 <= i < n ensures Gray(n, x)[i] == g[i] {
    }
  }

  // Different pointers have different codes.
  lemma {:induction false} GrayInjective(n: nat, x: nat, y: nat)
    requires x < Pow2(n) && y < Pow2(n) && Gray(n, x) == Gray(n, y)
    ensures x == y
  {
    if n > 0 {
      GrayStep(n, x);
      GrayStep(n, y);
      assert Gray(n, x)[1..] == Gray(n, y)[1..];
      assert Gray(n, x)[0] == Gray(n, y)[0];
      hide Gray;
      GrayInjective(n - 1, x / 2, y / 2);
    }
  }

  function Next(n: nat, x: nat): nat {
    (x + 1) % Pow2(n)
  }

  // Two words that differ in bit k and nowhere else.
  predicate DifferAt(a: Bits, b: Bits, k: nat) {
    |a| == |b| && k < |a| && forall i :: 0 <= i < |a| ==> (a[i] != b[i]) == (i == k)
  }

  // Counting up, wrap included, changes exactly one bit of the code.
  lemma {:induction false} GrayOneBit(n: nat, x: nat) returns (k: nat)
    requires 0 < n && x < Pow2(n)
    ensures DifferAt(Gray(n, x), Gray(n, Next(n, x)), k)
  {
    var y := Next(n, x);
    GrayStep(n, x);
    NextHalf(n, x);
    GrayStep(n, y);
    hide Gray, Next;
    if x % 2 == 0 {
      k := 0;
    } else if n == 1 {
      k := 0;
    } else {
      k := GrayOneBit(n - 1, x / 2);
      NextParity(n - 1, x / 2);
      k := k + 1;
    }
  }

  lemma NextHalf(n: nat, x: nat)
    requires 0 < n && x < Pow2(n)
    ensures var y := Next(n, x);
            && y < Pow2(n)
            && (x % 2 == 0 ==> y / 2 == x / 2 && y % 2 == 1)
            && (x % 2 == 1 ==> y / 2 == Next(n - 1, x / 2) && y % 2 == 0)
  {
    var h := Pow2(n - 1);
    assert Pow2(n) == 2 * h;
    hide Pow2;
    HalfOfNext(h, x);
  }

  // The same with 2h values.
  lemma HalfOfNext(h: nat, x: nat)
    requires 0 < h && x < 2 * h
    ensures var y := (x + 1) % (2 * h);
            && y < 2 * h
            && (x % 2 == 0 ==> y / 2 == x / 2 && y % 2 == 1)
            && (x % 2 == 1 ==> y / 2 == (x / 2 + 1) % h && y % 2 == 0)
  {
    if x + 1 < 2 * h {
      DivUnique(x + 1, 2 * h, 0);
      if x / 2 + 1 < h {
        DivUnique(x / 2 + 1, h, 0);
      }
    } else {
      DivUnique(x + 1, 2 * h, 1);
      DivUnique(x / 2 + 1, h, 1);
    }
  }

  lemma NextParity(n: nat, x: nat)
    requires 0 < n && x < Pow2(n)
    ensures Next(n, x) % 2 != x % 2
  {
    NextHalf(n, x);
    hide Next;
  }

  // The full test inverts the top two bits of the other pointer's code.
  function InvertTopTwo(g: Bits): (r: Bits)
    requires 2 <= |g|
    ensures |r| == |g|
  {
    g[..|g| - 2] + [!g[|g| - 2], !g[|g| - 1]]
  }

  function HalfTurn(n: nat, x: nat): nat
    requires 0 < n
  {
    (x + Pow2(n - 1)) % Pow2(n)
  }

  lemma InvertKeepsLow(low: bool, g: Bits)
    requires 2 <= |g|
    ensures InvertTopTwo([low] + g) == [low] + InvertTopTwo(g)
  {
    assert ([low] + g)[..|g| - 1] == [low] + g[..|g| - 2];
  }

  lemma GrayTwoBits(x: nat)
    requires x < 4
    ensures Pow2(2) == 4 && Gray(2, x) == [(x % 2 == 1) != (x / 2 == 1), x / 2 == 1]
  {
    assert Pow2(1) == 2 && Pow2(0) == 1 && Pow2(2) == 4;
    GrayStep(2, x);
    GrayStep(1, x / 2);
    assert Gray(0, 0) == [];
  }

  // That is the code of the pointer half a turn ahead.
  lemma {:induction false} GrayHalfTurn(n: nat, x: nat)
    requires 2 <= n && x < Pow2(n)
    ensures HalfTurn(n, x) < Pow2(n) && Gray(n, HalfTurn(n, x)) == InvertTopTwo(Gray(n, x))
  {
    var y := HalfTurn(n, x);
    HalfTurnHalf(n, x);
    if n == 2 {
      GrayTwoBits(0);
      HalfTurnIs(n, x);
      assert Pow2(1) == 2;
      hide Gray, Pow2, HalfTurn;
      GrayTwoBits(x);
      GrayTwoBits(y);
    } else {
      GrayStep(n, x);
      GrayStep(n, y);
      hide Gray, Pow2, HalfTurn, InvertTopTwo;
      GrayHalfTurn(n - 1, x / 2);
      InvertKeepsLow((x % 2 == 1) != (x / 2 % 2 == 1), Gray(n - 1, x / 2));
    }
  }

  lemma HalfTurnHalf(n: nat, x: nat)
    requires 2 <= n && x < Pow2(n)
    ensures var y := HalfTurn(n, x); y < Pow2(n) && y / 2 == HalfTurn(n - 1, x / 2) && y % 2 == x % 2
    ensures n > 2 ==> HalfTurn(n - 1, x / 2) % 2 == x / 2 % 2
  {
    var q := Pow2(n - 2);
    assert Pow2(n - 1) == 2 * q && Pow2(n) == 4 * q;
    HalfTurnIs(n, x);
    HalfTurnIs(n - 1, x / 2);
    var r := if n > 2 then Pow2(n - 3) else 0;
    assert n > 2 ==> q == 2 * r;
    hide *;
    Halves(x, q);
    if n > 2 {
      Parity(x / 2, q, r);
    }
  }

  lemma Halves(x: nat, q: nat)
    ensures (x + 2 * q) / 2 == x / 2 + q && (x + 2 * q) % 2 == x % 2 && ((x < 2 * q) == (x / 2 < q))
    ensures 2 * q <= x ==> (x - 2 * q) / 2 == x / 2 - q && (x - 2 * q) % 2 == x % 2
  {
  }

  lemma Parity(x: nat, q: nat, r: nat)
    requires q == 2 * r
    ensures (x + q) % 2 == x % 2 && (q <= x ==> (x - q) % 2 == x % 2)
  {
  }

  lemma HalfTurnIs(n: nat, x: nat)
    requires 1 <= n && x < Pow2(n)
    ensures HalfTurn(n, x) == (if x < Pow2(n - 1) then x + Pow2(n - 1) else x - Pow2(n - 1))
  {
    var h := Pow2(n - 1);
    if x < h {
      DivUnique(x + h, 2 * h, 0);
    } else {
      DivUnique(x + h, 2 * h, 1);
    }
  }
}
