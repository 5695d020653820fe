// get_sg_list: a user buffer is cut into page entries, and the mapped entries become the descriptor list.
module ScatterList {

  const PAGE := 4096
  const MAX_PAGES := 512 * 4096
  const WORD := 0x1_0000_0000

  // The coherent buffer the list is built in: 8 KB, four words an entry.
  const LIST_WORDS := 8 * 1024 / 4
  const LIST_ENTRIES := LIST_WORDS / 4

  datatype Error = BadParameter | TooManyPages | PinFailed | NotPageAligned

  datatype Result<T> = Ok(value: T) | Err(error: Error)

  // An entry before mapping: which pinned page, and how many bytes of it.
  datatype Entry = Entry(page: nat, len: nat)

  // An entry after mapping: device address and bytes.
  datatype Mapped = Mapped(addr: nat, len: nat)

  // Pages touched by a buffer.
  function PagesNeeded(user: nat, length: nat): nat
    requires 0 < length
  {
    (user + length - 1) / PAGE - user / PAGE + 1
  }

  function Total(es: seq<Entry>): nat {
    if es == [] then 0 else Total(es[..|es| - 1]) + es[|es| - 1].len
  }

  // Full pages and then the rest, each of its own page, adding up to the length.
  predicate Tiles(es: seq<Entry>, length: nat) {
    && Total(es) == length
    && forall i :: 0 <= i < |es| ==>
         es[i].page == i && 1 <= es[i].len <= PAGE && (i + 1 < |es| ==> es[i].len == PAGE)
  }

  // A page is needed if and only if it holds a byte of the buffer.
  lemma PagesExact(user: nat, length: nat, p: nat)
    requires 0 < length
    ensures user / PAGE <= p < user / PAGE + PagesNeeded(user, length)
       <==> exists b :: user <= b < user + length && b / PAGE == p
  {
    var first, last := user / PAGE, (user + length - 1) / PAGE;
    if first <= p <= last {
      var b := if p == first then user else p * PAGE;
      assert user <= b < user + length && b / PAGE == p;
    }
  }

  // What get_sg_list accepts. pinned: pages get_user_pages delivered.
  predicate Accepts(user: nat, length: nat, pinned: nat) {
    0 < length && user % PAGE == 0 && PagesNeeded(user, length) <= MAX_PAGES && pinned == PagesNeeded(user, length)
  }

  method CutPages(user: nat, length: nat, pinned: nat) returns (r: Result<seq<Entry>>)
    ensures r.Ok? <==> Accepts(user, length, pinned)
    ensures r.Ok? ==> Tiles(r.value, length) && |r.value| == PagesNeeded(user, length)
    ensures r.Err? ==> r.error == (if length == 0 then BadParameter
      else if PagesNeeded(user, length) > MAX_PAGES then TooManyPages
      else if pinned != PagesNeeded(user, length) then PinFailed else NotPageAligned)
  {
    if length == 0 {
      return Err(BadParameter);
    }
    var pages := PagesNeeded(user, length);
    if pages > MAX_PAGES {
      return Err(TooManyPages);
    }
    if pinned != pages {
      return Err(PinFailed);
    }
    if user % PAGE != 0 {
      return Err(NotPageAligned);
    }
    var es: seq<Entry>, rest, i := [], length, 0;
    while i < pages
      invariant 0 <= i <= pages && |es| == i && Total(es) + rest == length
      invariant forall k :: 0 <= k < i ==> es[k] == Entry(k, if k + 1 == pages then length - k * PAGE else PAGE)
      invariant i < pages ==> rest == length - i * PAGE > 0
      invariant i == pages ==> rest == 0
    {
      var len := if rest > PAGE then PAGE else rest;
      assert (es + [Entry(i, len)])[..|es|] == es;
      es := es + [Entry(i, len)];
      rest := rest - len;
      i := i + 1;
      if rest == 0 {
        break;
      }
    }
    return Ok(es);
  }

  function Word(e: Mapped, index: nat, k: nat): nat {
    if k == 0 then e.addr % WORD else if k == 1 then e.addr / WORD else if k == 2 then e.len else index
  }

  // The words written for a mapped list, by their distance from the start of the buffer.
  function Written(mapped: seq<Mapped>): (w: map<nat, nat>)
    ensures forall k: nat :: k in w <==> k < 4 * |mapped|
  {
    map k | 0 <= k < 4 * |mapped| :: Word(mapped[k / 4], k / 4, k % 4)
  }

  // What the device reads back from four words.
  function Decode(words: map<nat, nat>, i: nat): Mapped
    requires 4 * i in words && 4 * i + 1 in words && 4 * i + 2 in words
  {
    Mapped(words[4 * i + 1] * WORD + words[4 * i], words[4 * i + 2])
  }

  // Memory from the start of the buffer on, buffer and beyond.
  class ListMemory {
    var words: map<nat, nat>

    constructor ()
      ensures words == map[]
    {
      words := map[];
    }

    // Four words per entry: address low and high, length, index.
    method PutEntry(i: nat, e: Mapped)
      modifies this
      ensures words == old(words) + EntryWords(i, e)
    {
      words := words[4 * i := Word(e, i, 0)];
      words := words[4 * i + 1 := Word(e, i, 1)];
      words := words[4 * i + 2 := Word(e, i, 2)];
      words := words[4 * i + 3 := Word(e, i, 3)];
    }

    // Nothing here looks at the buffer's size.
    method WriteList(mapped: seq<Mapped>)
      modifies this
      ensures words == old(words) + Written(mapped)
    {
      hide Written, EntryWords;
      NoneWritten();
      for i := 0 to |mapped|
        invariant words == old(words) + Written(mapped[..i])
      {
        PutEntry(i, mapped[i]);
        OneMore(mapped[..i], mapped[i]);
        assert mapped[..i + 1] == mapped[..i] + [mapped[i]];
      }
      assert mapped[..|mapped|] == mapped;
    }
  }

  function EntryWords(i: nat, e: Mapped): map<nat, nat> {
    map[4 * i := Word(e, i, 0), 4 * i + 1 := Word(e, i, 1), 4 * i + 2 := Word(e, i, 2), 4 * i + 3 := Word(e, i, 3)]
  }

  lemma NoneWritten()
    ensures Written([]) == map[]
  {
  }

  lemma OneMore(mapped: seq<Mapped>, e: Mapped)
    ensures Written(mapped + [e]) == Written(mapped) + EntryWords(|mapped|, e)
  {
  }

  // Each mapped entry can be read back, with its index.
  lemma ListReadsBack(mapped: seq<Mapped>, i: nat)
    requires i < |mapped|
    ensures var w := Written(mapped); Decode(w, i) == mapped[i] && w[4 * i + 3] == i
  {
    var w := Written(mapped);
    assert w[4 * i] == mapped[i].addr % WORD && w[4 * i + 1] == mapped[i].addr / WORD && w[4 * i + 2] == mapped[i].len;
  }

  predicate Inside(mapped: seq<Mapped>) {
    forall k :: k in Written(mapped) ==> k < LIST_WORDS
  }

  // All writes fall in the buffer if and only if there are at most 512 mapped entries.
  lemma WritesFit(mapped: seq<Mapped>)
    ensures Inside(mapped) <==> |mapped| <= LIST_ENTRIES
  {
    if LIST_ENTRIES < |mapped| {
      assert LIST_WORDS in Written(mapped);
    }
  }

  // dma_map_sg merges neighbouring pages or not: any count from one to the number of pages can come back.
  ghost predicate AlwaysInside(user: nat, length: nat)
    requires 0 < length
  {
    forall mapped: seq<Mapped> :: 1 <= |mapped| <= PagesNeeded(user, length) ==> Inside(mapped)
  }

  // A buffer that is accepted is written inside the list, however its pages are merged, if and only if it has
  // at most 512 pages; the check before the loop lets 512 * 4096 through.
  lemma CallFits(user: nat, length: nat, pinned: nat)
    requires Accepts(user, length, pinned)
    ensures AlwaysInside(user, length) <==> PagesNeeded(user, length) <= LIST_ENTRIES
  {
    var n := PagesNeeded(user, length);
    if LIST_ENTRIES < n {
      var mapped := seq(n, _ => Mapped(0, PAGE));
      WritesFit(mapped);
    } else {
      forall mapped: seq<Mapped> | 1 <= |mapped| <= n ensures Inside(mapped) {
        WritesFit(mapped);
      }
    }
    hide Inside;
  }

  // The smallest such buffer: 513 pages, accepted, and with no page merged word 2048 is written.
  lemma ListOverrun(user: nat, mapped: seq<Mapped>)
    requires user % PAGE == 0 && |mapped| == 513
    ensures Accepts(user, 513 * PAGE, 513) && LIST_WORDS == 2048 && 2048 in Written(mapped)
    ensures !AlwaysInside(user, 513 * PAGE)
  {
    CallFits(user, 513 * PAGE, 513);
    hide AlwaysInside, Written;
  }
}
