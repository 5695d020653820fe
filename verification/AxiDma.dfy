// What the AXI read and write engines share: their configuration, descriptors and burst lengths.
module AxiDma {
  import opened Arith
  import opened BurstPlanner
  import opened AxiBus

  // strb: bytes per word; space: 2^AXI_ADDR_WIDTH bytes; unaligned: ENABLE_UNALIGNED.
  datatype Config = Config(strb: nat, maxBeats: nat, space: nat, unaligned: bool) {
    predicate Ok() {
      Geometry(strb, maxBeats) && 0 < space && space % PAGE == 0
    }
  }

  function RowCount(c: Config): (n: nat)
    requires c.Ok()
    ensures 0 < n
  {
    ModOfMultiple(c.space, PAGE, c.strb);
    DivBounds(c.space, c.strb);
    c.space / c.strb
  }

  datatype Desc = Desc(addr: nat, len: pos, tag: nat)

  function LoadAddr(c: Config, d: Desc): nat
    requires c.Ok()
  {
    if c.unaligned then d.addr else d.addr - d.addr % c.strb
  }

  lemma LoadAddrAligned(c: Config, d: Desc)
    requires c.Ok() && !c.unaligned
    ensures LoadAddr(c, d) % c.strb == 0
  {
    DivBounds(d.addr, c.strb);
    MultipleOf(d.addr / c.strb, c.strb);
  }

  // tr_word_count_next; with nothing left it is zero.
  function NextBurst(c: Config, addr: nat, left: nat): (n: nat)
    requires c.Ok()
    ensures n <= left
    ensures 0 < left ==> n == BurstBytes(c.strb, c.maxBeats, addr, left)
  {
    if left == 0 then 0
    else
      BurstIsLegal(c.strb, c.maxBeats, addr, left);
      BurstBytes(c.strb, c.maxBeats, addr, left)
  }

  function Advance(c: Config, addr: nat, n: nat): nat
    requires c.Ok()
  {
    (addr + n) % c.space
  }

  // The next word's row, wrapping with the address register.
  lemma RowAdvance(c: Config, addr: nat)
    requires c.Ok()
    ensures RowOf(c.strb, Advance(c, addr, c.strb)) == (RowOf(c.strb, addr) + 1) % RowCount(c)
  {
    ModOfMultiple(c.space, PAGE, c.strb);
    ModOfMultiple(addr + c.strb, c.space, c.strb);
    AddMultiple(addr, 1, c.strb);
  }

  lemma NextRow(c: Config, addr: nat, n: nat)
    requires c.Ok()
    ensures Rows(RowCount(c), RowOf(c.strb, Advance(c, addr, c.strb)), n) ==
      Rows(RowCount(c), RowOf(c.strb, addr) + 1, n)
  {
    RowAdvance(c, addr);
    hide RowOf, Advance, RowCount;
    SameRows(RowCount(c), RowOf(c.strb, addr) + 1, n);
  }

  // m_axi_arlen and m_axi_awlen: eight bits.
  function BurstLen(c: Config, addr: nat, n: nat): nat
    requires c.Ok()
  {
    ((if c.unaligned then n + addr % c.strb else n) - 1) / c.strb % 256
  }

  lemma EightBits(span: nat, strb: nat, n: nat, addr: nat)
    requires 1 <= strb && 1 <= n && span == n + addr % strb && BeatCount(strb, addr, n) <= 256
    ensures (span - 1) / strb % 256 + 1 == BeatCount(strb, addr, n)
  {
    DivBounds(span - 1, strb);
    MulOrder((span - 1) / strb, -1, strb);
  }

  // Eight bits are always enough.
  lemma BurstLenExact(c: Config, addr: nat, left: nat)
    requires c.Ok() && 1 <= left && (c.unaligned || addr % c.strb == 0)
    ensures var n := NextBurst(c, addr, left);
            1 <= n && BurstLen(c, addr, n) + 1 == BeatCount(c.strb, addr, n)
  {
    BurstIsLegal(c.strb, c.maxBeats, addr, left);
    hide BurstBytes, BeatCount;
    var n := NextBurst(c, addr, left);
    EightBits(n + addr % c.strb, c.strb, n, addr);
  }
}
