/** Pages, socket buffers and the bytes they stand for (include/linux/skbuff.h, page_pool.c).

    Memory is one sequence of bytes and a pointer is an index into it, 0 being NULL.  Pages and
    buffers are named by numbers, so that two fragment slots can name one page. */
module PacketMemory {
  import opened Basics

  type Byte = b: nat | b < 256
  type PageId = nat
  type SkbId = nat

  const UINT_MAX: nat := 0xFFFF_FFFF
  const INT_MAX: nat := 0x7FFF_FFFF
  const MAX_FRAGS: nat := 8

  /** A page lives in [addr, addr + size) and has `refs` references. */
  datatype Page = Page(addr: nat, size: nat, refs: int)

  datatype Frag = Frag(page: Option<PageId>, offset: nat, size: nat)

  const EMPTY := Frag(None, 0, 0)

  /** `head` and `data` are addresses; `tail` and `end` are offsets from `head`. */
  datatype Skb = Skb(head: nat, headPage: Option<PageId>, data: nat, len: nat, tail: nat, end: nat,
                     dataLen: nat, nrFrags: nat, frags: seq<Frag>)

  // ----- pages in memory

  predicate InMemory(mem: seq<Byte>, page: Page) {
    0 < page.addr && 0 < page.size && page.addr + page.size <= |mem|
  }

  predicate Apart(p: Page, q: Page) {
    p.addr + p.size <= q.addr || q.addr + q.size <= p.addr
  }

  /** Registered pages lie in memory and do not overlap. */
  predicate PagesOk(mem: seq<Byte>, pages: map<PageId, Page>) {
    && (forall p <- pages :: InMemory(mem, pages[p]))
    && (forall p <- pages, q <- pages | p != q :: Apart(pages[p], pages[q]))
  }

  /** memcpy of `src` to address `at`. */
  function Blit(mem: seq<Byte>, at: nat, src: seq<Byte>): (r: seq<Byte>)
    requires at + |src| <= |mem|
    ensures |r| == |mem|
    ensures r[at..at + |src|] == src
  {
    mem[..at] + src + mem[at + |src|..]
  }

  lemma BlitElsewhere(mem: seq<Byte>, at: nat, src: seq<Byte>, from: nat, to: nat)
    requires at + |src| <= |mem| && from <= to <= |mem| && (to <= at || at + |src| <= from)
    ensures Blit(mem, at, src)[from..to] == mem[from..to]
  {
    assert forall i | from <= i < to :: Blit(mem, at, src)[i] == mem[i];
  }

  // ----- one buffer

  predicate FragOk(pages: map<PageId, Page>, f: Frag) {
    f.page.Some? && f.page.value in pages && f.offset + f.size <= pages[f.page.value].size && f.size <= UINT_MAX
  }

  function FragTotal(fs: seq<Frag>): nat {
    if fs == [] then 0 else fs[0].size + FragTotal(fs[1..])
  }

  function Used(skb: Skb): seq<Frag>
    requires skb.nrFrags <= |skb.frags|
  {
    skb.frags[..skb.nrFrags]
  }

  /** A fragment slot names no page, or a range inside its page. */
  predicate FragFits(pages: map<PageId, Page>, f: Frag) {
    f.page.Some? ==> FragOk(pages, f)
  }

  /** Bounds of the head page and of every fragment; `tail` always marks the end of the linear bytes. */
  predicate SkbShape(pages: map<PageId, Page>, skb: Skb) {
    && |skb.frags| == MAX_FRAGS && skb.nrFrags <= MAX_FRAGS
    && 0 < skb.head <= skb.data && skb.dataLen <= skb.len <= UINT_MAX
    && skb.tail == skb.data - skb.head + (skb.len - skb.dataLen) && skb.tail <= skb.end <= UINT_MAX
    && skb.headPage.Some? && skb.headPage.value in pages
    && var page := pages[skb.headPage.value];
    && page.addr <= skb.head && skb.head + skb.end <= page.addr + page.size
    && (forall f <- Used(skb) :: FragFits(pages, f))
    && (forall i | skb.nrFrags <= i < MAX_FRAGS :: skb.frags[i] == EMPTY)
  }

  /** The fragments really hold data_len bytes. */
  predicate Whole(skb: Skb)
    requires skb.nrFrags <= |skb.frags|
  {
    (forall f <- Used(skb) :: f.page.Some?) && skb.dataLen <= FragTotal(Used(skb))
  }

  predicate SkbOk(pages: map<PageId, Page>, skb: Skb) {
    SkbShape(pages, skb) && Whole(skb)
  }

  /** lcompat_skb_valid_bounds (skbuff.h:53-73); offsets are unsigned 32-bit. */
  predicate ValidBounds(skb: Skb) {
    && skb.head != 0 && skb.data >= skb.head && skb.dataLen <= skb.len
    && var off := (skb.data - skb.head) % WORD;
       var linear := skb.len - skb.dataLen;
    && off <= skb.end && skb.tail <= skb.end && linear <= skb.end - off
    && off <= skb.tail && linear <= skb.tail - off
  }

  function Headlen(skb: Skb): nat {
    if skb.len >= skb.dataLen then skb.len - skb.dataLen else 0
  }

  function Headroom(skb: Skb): int { skb.data - skb.head }

  function Tailroom(skb: Skb): int { skb.end - skb.tail }

  predicate LinearIn(mem: seq<Byte>, skb: Skb) {
    skb.data + Headlen(skb) <= |mem|
  }

  function Linear(mem: seq<Byte>, skb: Skb): seq<Byte>
    requires LinearIn(mem, skb)
  {
    mem[skb.data..skb.data + Headlen(skb)]
  }

  function FragBytes(mem: seq<Byte>, pages: map<PageId, Page>, f: Frag): (r: seq<Byte>)
    requires PagesOk(mem, pages) && FragOk(pages, f)
    ensures |r| == f.size
  {
    var at := pages[f.page.value].addr + f.offset;
    mem[at..at + f.size]
  }

  function Concat(mem: seq<Byte>, pages: map<PageId, Page>, fs: seq<Frag>): (r: seq<Byte>)
    requires PagesOk(mem, pages) && forall f <- fs :: FragOk(pages, f)
    ensures |r| == FragTotal(fs)
  {
    if fs == [] then [] else FragBytes(mem, pages, fs[0]) + Concat(mem, pages, fs[1..])
  }

  function Paged(mem: seq<Byte>, pages: map<PageId, Page>, skb: Skb): seq<Byte>
    requires PagesOk(mem, pages) && SkbOk(pages, skb)
  {
    Concat(mem, pages, Used(skb))[..skb.dataLen]
  }

  /** The packet: linear bytes, then the first data_len bytes of the fragments. */
  function Content(mem: seq<Byte>, pages: map<PageId, Page>, skb: Skb): (r: seq<Byte>)
    requires PagesOk(mem, pages) && SkbOk(pages, skb)
    ensures |r| == skb.len
  {
    Linear(mem, skb) + Paged(mem, pages, skb)
  }

  /** The bounds check accepts every buffer the operations produce. */
  lemma OkIsValid(pages: map<PageId, Page>, skb: Skb)
    requires SkbOk(pages, skb)
    ensures ValidBounds(skb)
  {
  }

  // ----- fragment lists

  lemma {:induction false} TotalSplit(a: seq<Frag>, b: seq<Frag>)
    ensures FragTotal(a + b) == FragTotal(a) + FragTotal(b)
  {
    if a == [] {
      assert a + b == b;
    } else {
      TotalSplit(a[1..], b);
      assert (a + b)[1..] == a[1..] + b;
    }
  }

  lemma {:induction false} ConcatSplit(mem: seq<Byte>, pages: map<PageId, Page>, a: seq<Frag>, b: seq<Frag>)
    requires PagesOk(mem, pages) && (forall f <- a :: FragOk(pages, f)) && (forall f <- b :: FragOk(pages, f))
    ensures Concat(mem, pages, a + b) == Concat(mem, pages, a) + Concat(mem, pages, b)
  {
    hide PagesOk, FragOk, FragBytes;
    if a == [] {
      assert a + b == b;
    } else {
      ConcatSplit(mem, pages, a[1..], b);
      assert (a + b)[1..] == a[1..] + b && (a + b)[0] == a[0];
    }
  }

  lemma SliceOfSlice<T>(s: seq<T>, a: nat, n: nat, c: nat, m: nat)
    requires a + n <= |s| && c + m <= n
    ensures s[a..a + n][c..c + m] == s[a + c..a + c + m]
  {
    var x, y := s[a..a + n][c..c + m], s[a + c..a + c + m];
    assert forall i | 0 <= i < m :: x[i] == s[a + c + i] == y[i];
  }

  function PageBytes(mem: seq<Byte>, page: Page): seq<Byte>
    requires InMemory(mem, page)
  {
    mem[page.addr..page.addr + page.size]
  }

  /** Page `p` is where it was and holds what it held. */
  predicate SamePage(mem: seq<Byte>, pages: map<PageId, Page>, mem': seq<Byte>, pages': map<PageId, Page>, p: PageId) {
    && p in pages && p in pages' && pages'[p].addr == pages[p].addr && pages'[p].size == pages[p].size
    && InMemory(mem, pages[p]) && InMemory(mem', pages'[p]) && PageBytes(mem', pages'[p]) == PageBytes(mem, pages[p])
  }

  lemma FragSame(mem: seq<Byte>, pages: map<PageId, Page>, mem': seq<Byte>, pages': map<PageId, Page>, f: Frag)
    requires PagesOk(mem, pages) && PagesOk(mem', pages') && FragOk(pages, f)
    requires SamePage(mem, pages, mem', pages', f.page.value)
    ensures FragOk(pages', f) && FragBytes(mem', pages', f) == FragBytes(mem, pages, f)
  {
    var page := pages[f.page.value];
    SliceOfSlice(mem, page.addr, page.size, f.offset, f.size);
    SliceOfSlice(mem', page.addr, page.size, f.offset, f.size);
  }

  /** Fragment bytes depend only on the pages they name. */
  lemma {:induction false} ConcatSame(mem: seq<Byte>, pages: map<PageId, Page>, mem': seq<Byte>, pages': map<PageId, Page>, fs: seq<Frag>)
    requires PagesOk(mem, pages) && PagesOk(mem', pages')
    requires forall f <- fs :: FragOk(pages, f) && SamePage(mem, pages, mem', pages', f.page.value)
    ensures forall f <- fs :: FragOk(pages', f)
    ensures Concat(mem', pages', fs) == Concat(mem, pages, fs)
  {
    hide PagesOk, SamePage, FragBytes;
    if fs != [] {
      ConcatSame(mem, pages, mem', pages', fs[1..]);
      FragSame(mem, pages, mem', pages', fs[0]);
      forall f <- fs ensures FragOk(pages', f) { assert f == fs[0] || f in fs[1..]; }
    }
  }

  lemma LinearSame(mem: seq<Byte>, pages: map<PageId, Page>, mem': seq<Byte>, pages': map<PageId, Page>, skb: Skb)
    requires PagesOk(mem, pages) && PagesOk(mem', pages') && SkbOk(pages, skb)
    requires SamePage(mem, pages, mem', pages', skb.headPage.value)
    ensures LinearIn(mem', skb) && Linear(mem', skb) == Linear(mem, skb)
  {
    var page := pages[skb.headPage.value];
    var off := skb.data - page.addr;
    SliceOfSlice(mem, page.addr, page.size, off, Headlen(skb));
    SliceOfSlice(mem', page.addr, page.size, off, Headlen(skb));
  }

  /** So does a packet. */
  lemma ContentSame(mem: seq<Byte>, pages: map<PageId, Page>, mem': seq<Byte>, pages': map<PageId, Page>, skb: Skb)
    requires PagesOk(mem, pages) && PagesOk(mem', pages') && SkbOk(pages, skb)
    requires SamePage(mem, pages, mem', pages', skb.headPage.value)
    requires forall f <- Used(skb) :: FragOk(pages, f) && SamePage(mem, pages, mem', pages', f.page.value)
    ensures SkbOk(pages', skb) && Content(mem', pages', skb) == Content(mem, pages, skb)
  {
    hide PagesOk;
    LinearSame(mem, pages, mem', pages', skb);
    ConcatSame(mem, pages, mem', pages', Used(skb));
  }
}
