// Banked addressing: logical position p lives in bank p mod segs, row p div segs mod rows.
module SegmentBanks {
  import opened Arith

  function Bank(segs: nat, p: nat): (b: nat)
    requires 0 < segs
    ensures b < segs
  {
    p % segs
  }

  function Row(segs: nat, rows: nat, p: nat): (r: nat)
    requires 0 < segs && 0 < rows
    ensures r < rows
  {
    p / segs % rows
  }

  // The first position at or after p in bank b.
  function NextIn(segs: nat, b: nat, p: nat): (q: nat)
    requires b < segs
    ensures p <= q < p + segs
  {
    p + (b + segs - p % segs) % segs
  }

  lemma InBank(segs: nat, b: nat, p: nat)
    requires b < segs
    ensures Bank(segs, NextIn(segs, b, p)) == b
  {
    var off := (b + segs - p % segs) % segs;
    DivBounds(p, segs);
    if p % segs <= b {
      DivUnique(b + segs - p % segs, segs, 1);
      DivUnique(p + off, segs, p / segs);
    } else {
      DivUnique(b + segs - p % segs, segs, 0);
      assert (p / segs + 1) * segs == p / segs * segs + segs;
      DivUnique(p + off, segs, p / segs + 1);
    }
  }

  // Two positions of one bank less than a word apart are the same.
  lemma SameBank(segs: nat, p: nat, q: nat)
    requires 0 < segs && Bank(segs, p) == Bank(segs, q) && p <= q < p + segs
    ensures p == q
  {
    DivBounds(p, segs);
    DivBounds(q, segs);
    MulOrder(p / segs, q / segs, segs);
  }

  lemma FirstIn(segs: nat, b: nat, p: nat, q: nat)
    requires b < segs && p <= q < p + segs && Bank(segs, q) == b
    ensures NextIn(segs, b, p) == q
  {
    InBank(segs, b, p);
    hide Bank, NextIn;
    if q <= NextIn(segs, b, p) {
      SameBank(segs, q, NextIn(segs, b, p));
    } else {
      SameBank(segs, NextIn(segs, b, p), q);
    }
  }

  // Moving the start forward by at most a word.
  lemma MovedStart(segs: nat, b: nat, p: nat, p': nat)
    requires b < segs && p <= p' <= p + segs
    ensures NextIn(segs, b, p') == (if NextIn(segs, b, p) < p' then NextIn(segs, b, p) + segs else NextIn(segs, b, p))
  {
    InBank(segs, b, p);
    var q := NextIn(segs, b, p);
    AddMultiple(q, 1, segs);
    assert Bank(segs, q + segs) == b;
    hide Bank, NextIn;
    FirstIn(segs, b, p', if q < p' then q + segs else q);
  }

  // The k-th position from p, in its own bank.
  lemma OwnBank(segs: nat, p: nat, k: nat)
    requires k < segs
    ensures NextIn(segs, Bank(segs, p + k), p) == p + k
  {
    hide Bank;
    FirstIn(segs, Bank(segs, p + k), p, p + k);
  }

  // The address registers are kept as a rounded pointer: (pointer + segs - 1 - b) / segs.
  lemma RoundedPointer(segs: nat, rows: nat, b: nat, p: nat, ptr: nat)
    requires b < segs && 0 < rows && ptr == p % (2 * rows * segs)
    ensures (ptr + (segs - 1 - b)) / segs % rows == Row(segs, rows, NextIn(segs, b, p))
  {
    var wrap := 2 * rows * segs;
    var q := NextIn(segs, b, p);
    InBank(segs, b, p);
    DivBounds(q, segs);
    DivBounds(p, wrap);
    var k := p / wrap;
    assert ptr == p - k * wrap && k * wrap == (2 * k * rows) * segs;
    // p + segs - 1 - b lies in the word of q
    DivUnique(p + (segs - 1 - b), segs, q / segs);
    AddMultiple(ptr + (segs - 1 - b), 2 * k * rows, segs);
    AddMultiple((ptr + (segs - 1 - b)) / segs, 2 * k, rows);
  }

  // Distinct positions closer than the capacity never share a cell.
  lemma DistinctCells(segs: nat, rows: nat, p: nat, q: nat)
    requires 0 < segs && 0 < rows && p < q < p + rows * segs && Bank(segs, p) == Bank(segs, q)
    ensures Row(segs, rows, p) != Row(segs, rows, q)
  {
    DivBounds(p, segs);
    DivBounds(q, segs);
    MulOrder(p / segs, q / segs, segs);
    var a, d := p / segs, q / segs - p / segs;
    assert d * segs == q - p;
    MulOrder(d, 0, segs);
    MulOrder(d, rows, segs);
    assert 0 < d < rows;
    DivBounds(a, rows);
    DivBounds(a + d, rows);
    MulOrder(a / rows, (a + d) / rows, rows);
  }

  // A pointer that is p up to whole turns; it may have run past its wrap.
  ghost predicate OnTurn(segs: nat, rows: nat, ptr: nat, p: nat) {
    exists k: nat :: Turned(segs, rows, ptr, k) == p
  }

  function Turned(segs: nat, rows: nat, ptr: nat, k: nat): nat {
    ptr + k * (2 * rows * segs)
  }

  lemma OnTurnNext(segs: nat, rows: nat, ptr: nat, p: nat)
    requires OnTurn(segs, rows, ptr, p)
    ensures OnTurn(segs, rows, ptr + 1, p + 1)
  {
    var k: nat :| Turned(segs, rows, ptr, k) == p;
    assert Turned(segs, rows, ptr + 1, k) == p + 1;
  }

  lemma TwiceDepth(segs: nat, rows: nat)
    ensures 2 * rows * segs == 2 * (rows * segs)
  {
  }

  // The capacity is a whole number of words, and pointers wrap at twice that.
  lemma WrapWhole(segs: nat, rows: nat)
    requires 0 < segs && 0 < rows
    ensures 0 < 2 * rows * segs && (2 * rows * segs) % segs == 0
  {
    MulAtLeast(2 * rows, segs);
    MultipleOf(2 * rows, segs);
  }

  lemma WrappedOnTurn(segs: nat, rows: nat, p: nat)
    requires 0 < segs && 0 < rows
    ensures 0 < 2 * rows * segs && OnTurn(segs, rows, p % (2 * rows * segs), p)
    ensures (p % (2 * rows * segs)) % segs == Bank(segs, p)
  {
    WrapWhole(segs, rows);
    var wrap := 2 * rows * segs;
    ModOfMultiple(p, wrap, segs);
    DivBounds(p, wrap);
    assert Turned(segs, rows, p % wrap, p / wrap) == p % wrap + p / wrap * wrap;
    hide *;
  }

  // The row after the one a pointer is in.
  function RowAfter(segs: nat, rows: nat, ptr: nat): (r: nat)
    requires 0 < segs && 0 < rows
    ensures r < rows
  {
    (ptr / segs + 1) % rows
  }

  // It is the next row of the same bank.
  lemma NextRow(segs: nat, rows: nat, p: nat, ptr: nat)
    requires 0 < segs && 0 < rows && OnTurn(segs, rows, ptr, p)
    ensures RowAfter(segs, rows, ptr) == Row(segs, rows, p + segs)
  {
    var k: nat :| Turned(segs, rows, ptr, k) == p;
    MulAssoc(k, 2 * rows, segs);
    MulAssoc(k, 2, rows);
    var turns := k * (2 * rows);
    AddMultiple(ptr, turns, segs);
    AddMultiple(p, 1, segs);
    var word := ptr / segs;
    assert (p + segs) / segs == word + 1 + k * 2 * rows;
    AddMultiple(word + 1, k * 2, rows);
  }

  // Pointers one wrap apart differ by the true distance.
  lemma PointerDistance(wrap: nat, a: nat, b: nat)
    requires 0 < wrap && b <= a < b + wrap
    ensures (a % wrap - b % wrap + wrap) % wrap == a - b
  {
    DivBounds(a, wrap);
    DivBounds(b, wrap);
    MulOrder(a / wrap, b / wrap, wrap);
    MulOrder(a / wrap, b / wrap + 1, wrap);
    assert (b / wrap + 1) * wrap == b / wrap * wrap + wrap;
    if a / wrap == b / wrap {
      DivUnique(a % wrap - b % wrap + wrap, wrap, 1);
    } else {
      DivUnique(a % wrap - b % wrap + wrap, wrap, 0);
    }
  }
}
