// Division facts used wherever a bus-width mask or shift appears.
module Arith {

  lemma MulAtLeast(d: int, s: int)
    requires 0 < s && 1 <= d
    ensures s <= d * s
  {
  }

  lemma MulOrder(x: int, y: int, s: int)
    requires 0 < s
    ensures x < y ==> x * s + s <= y * s
    ensures y < x ==> y * s + s <= x * s
  {
    if x < y {
      MulAtLeast(y - x, s);
    } else if y < x {
      MulAtLeast(x - y, s);
    }
  }

  // x / s is the only q with q * s <= x < (q + 1) * s.
  lemma DivUnique(x: int, s: int, q: int)
    requires 0 < s && q * s <= x < q * s + s
    ensures x / s == q && x % s == x - q * s
  {
    MulOrder(x / s, q, s);
  }

  lemma DivBounds(x: int, s: int)
    requires 0 < s
    ensures (x / s) * s <= x < (x / s) * s + s
    ensures x == (x / s) * s + x % s
  {
  }

  lemma AddMultiple(x: int, k: int, s: int)
    requires 0 < s
    ensures (x + k * s) % s == x % s
    ensures (x + k * s) / s == x / s + k
  {
    DivBounds(x, s);
    assert (x / s + k) * s == (x / s) * s + k * s;
    DivUnique(x + k * s, s, x / s + k);
  }

  lemma MultipleOf(k: int, s: int)
    requires 0 < s
    ensures (k * s) % s == 0 && (k * s) / s == k
  {
    DivUnique(k * s, s, k);
  }

  // Reducing modulo a multiple of s does not change the residue modulo s.
  lemma ModOfMultiple(x: int, m: int, s: int)
    requires 0 < s && 0 < m && m % s == 0
    ensures (x % m) % s == x % s
    ensures (x % m) / s == (x / s) % (m / s)
  {
    var k, q := m / s, x / m;
    DivBounds(m, s);
    DivBounds(x, m);
    MulOrder(k, 0, s);
    assert q * m == (q * k) * s;
    AddMultiple(x % m, q * k, s);
    var r := (x % m) / s;
    DivBounds(x % m, s);
    MulOrder(r, k, s);
    MulOrder(r, 0, s);
    DivUnique(x / s, k, q);
  }

  // Sums and differences of multiples are multiples.
  lemma MultipleSum(x: int, y: int, s: int)
    requires 0 < s && x % s == 0 && y % s == 0
    ensures (x + y) % s == 0 && (x - y) % s == 0
  {
    DivBounds(y, s);
    AddMultiple(x, y / s, s);
    AddMultiple(x, -(y / s), s);
  }

  // Two different multiples of s are at least s apart.
  lemma NextMultiple(x: int, y: int, s: int)
    requires 0 < s && x % s == 0 && y % s == 0 && x < y
    ensures x + s <= y
  {
    DivBounds(x, s);
    DivBounds(y, s);
    MulOrder(x / s, y / s, s);
  }

  lemma MulStep(n: int, s: int)
    ensures (n + 1) * s == n * s + s
  {
  }

  lemma MulSum(a: int, b: int, s: int)
    ensures (a + b) * s == a * s + b * s
  {
  }

  lemma MulAssoc(a: int, b: int, s: int)
    ensures a * (b * s) == (a * b) * s
  {
  }
}
