/** The page allocator and the socket buffers that live on it (page_pool.c, include/linux/skbuff.h). */
module PacketHeap {
  import opened Basics
  import opened PacketMemory
  import opened PageRefs
  import opened PageOrder
  import opened SkbWindow

  /** sizeof(struct page). */
  const PAGE_RECORD: nat := 56

  /** The registry lists every page once. */
  predicate RegistryOk(registry: seq<PageId>, pages: map<PageId, Page>) {
    && (forall i | 0 <= i < |registry| :: registry[i] in pages)
    && (forall p <- pages :: p in registry)
    && (forall i, j | 0 <= i < j < |registry| :: registry[i] != registry[j])
  }

  /** Pages that are still there are where they were and hold what they held. */
  ghost predicate PagesKept(mem: seq<Byte>, pages: map<PageId, Page>, mem': seq<Byte>, pages': map<PageId, Page>) {
    forall p <- pages' | p in pages :: SamePage(mem, pages, mem', pages', p)
  }

  /** Every other buffer that was usable still is, with the same content. */
  ghost predicate OthersKept(mem: seq<Byte>, pages: map<PageId, Page>, skbs: map<SkbId, Skb>,
                             mem': seq<Byte>, pages': map<PageId, Page>, skbs': map<SkbId, Skb>, k: SkbId) {
    && PagesOk(mem, pages) && PagesOk(mem', pages')
    && forall j <- skbs | j != k && SkbOk(pages, skbs[j]) ::
         && j in skbs' && skbs'[j] == skbs[j] && SkbOk(pages', skbs[j])
         && Content(mem', pages', skbs[j]) == Content(mem, pages, skbs[j])
  }

  lemma NamedAreThere(pages: map<PageId, Page>, skbs: map<SkbId, Skb>, callers: multiset<PageId>, j: SkbId)
    requires RefsOk(pages, skbs, callers) && j in skbs && skbs[j].nrFrags <= MAX_FRAGS
    ensures skbs[j].headPage.Some? ==> skbs[j].headPage.value in pages
    ensures forall f <- Used(skbs[j]) :: f.page.Some? ==> f.page.value in pages
  {
    assert SlotPage(skbs[j], HEAD_SLOT) == skbs[j].headPage;
    forall i: nat | i < skbs[j].nrFrags
      ensures skbs[j].frags[i].page.Some? ==> skbs[j].frags[i].page.value in pages
    {
      assert SlotPage(skbs[j], i) == skbs[j].frags[i].page;
    }
  }

  /** Reference counting protects the others. */
  lemma OthersFrom(mem: seq<Byte>, pages: map<PageId, Page>, skbs: map<SkbId, Skb>,
                   mem': seq<Byte>, pages': map<PageId, Page>, skbs': map<SkbId, Skb>, callers': multiset<PageId>, k: SkbId)
    requires PagesOk(mem, pages) && PagesOk(mem', pages') && PagesKept(mem, pages, mem', pages')
    requires RefsOk(pages', skbs', callers')
    requires forall j <- skbs | j != k :: j in skbs' && skbs'[j] == skbs[j]
    ensures OthersKept(mem, pages, skbs, mem', pages', skbs', k)
  {
    hide PagesOk, RefsOk, SamePage, Content;
    forall j <- skbs | j != k && SkbOk(pages, skbs[j])
      ensures SkbOk(pages', skbs[j]) && Content(mem', pages', skbs[j]) == Content(mem, pages, skbs[j])
    {
      NamedAreThere(pages', skbs', callers', j);
      ContentSame(mem, pages, mem', pages', skbs[j]);
    }
  }

  predicate FreeRange(mem: seq<Byte>, pages: map<PageId, Page>, at: nat, size: nat) {
    0 < at && 0 < size && at + size <= |mem| && forall p <- pages :: Apart(pages[p], Page(at, size, 1))
  }

  function Without(s: seq<PageId>, p: PageId): seq<PageId> {
    if s == [] then [] else if s[0] == p then s[1..] else [s[0]] + Without(s[1..], p)
  }

  lemma {:induction false} WithoutHas(s: seq<PageId>, p: PageId)
    requires forall i, j | 0 <= i < j < |s| :: s[i] != s[j]
    ensures forall q :: q in Without(s, p) <==> q in s && q != p
    ensures forall i, j | 0 <= i < j < |Without(s, p)| :: Without(s, p)[i] != Without(s, p)[j]
  {
    if s != [] {
      var rest := s[1..];
      WithoutHas(rest, p);
      assert forall q :: q in s <==> q == s[0] || q in rest;
      assert s[0] !in rest;
      if s[0] != p {
        var w := Without(rest, p);
        assert Without(s, p) == [s[0]] + w && s[0] !in w;
        forall i, j | 0 <= i < j < |Without(s, p)|
          ensures Without(s, p)[i] != Without(s, p)[j]
        {
          if i > 0 { assert w[i - 1] != w[j - 1]; } else { assert w[j - 1] in w; }
        }
      }
    }
  }

  /** The state of the heap as a value. */
  datatype Heap = Heap(mem: seq<Byte>, pages: map<PageId, Page>, registry: seq<PageId>, skbs: map<SkbId, Skb>,
                       nextPage: nat, nextSkb: nat)

  predicate HeapOk(h: Heap, callers: multiset<PageId>) {
    && PagesOk(h.mem, h.pages) && RegistryOk(h.registry, h.pages) && RefsOk(h.pages, h.skbs, callers)
    && (forall p <- h.pages :: p < h.nextPage) && (forall k <- h.skbs :: k < h.nextSkb)
  }

  function WithPage(h: Heap, at: nat, size: nat): Heap {
    h.(pages := h.pages[h.nextPage := Page(at, size, 1)], registry := h.registry + [h.nextPage], nextPage := h.nextPage + 1)
  }

  lemma WithPageOk(h: Heap, callers: multiset<PageId>, at: nat, size: nat)
    requires HeapOk(h, callers) && FreeRange(h.mem, h.pages, at, size)
    ensures HeapOk(WithPage(h, at, size), callers + multiset{h.nextPage}) && h.nextPage !in h.pages
  {
    hide RefsOk;
    assert h.nextPage !in h.pages;
    AddPage(h.pages, h.skbs, callers, h.nextPage, Page(at, size, 1));
    var h' := WithPage(h, at, size);
    assert RegistryOk(h'.registry, h'.pages) by {
      assert h'.registry[|h.registry|] == h.nextPage;
      assert forall p <- h.pages :: p in h.registry ==> p in h'.registry;
    }
  }

  lemma NewestUnused(h: Heap, callers: multiset<PageId>)
    requires HeapOk(h, callers)
    ensures h.nextPage !in h.pages
  {
  }

  lemma NullPageBreaks(h: Heap, callers: multiset<PageId>, size: nat)
    ensures !HeapOk(WithPage(h, 0, size), callers)
  {
    hide RefsOk, RegistryOk;
    assert h.nextPage in WithPage(h, 0, size).pages;
  }

  function WithGet(h: Heap, p: PageId): Heap
    requires p in h.pages
  {
    h.(pages := Got(h.pages, p))
  }

  lemma WithGetOk(h: Heap, callers: multiset<PageId>, p: PageId)
    requires HeapOk(h, callers) && p in h.pages
    ensures HeapOk(WithGet(h, p), callers + multiset{p})
  {
    hide RefsOk;
    GetKeeps(h.pages, h.skbs, callers, p);
  }

  function WithPut(h: Heap, p: PageId): Heap
    requires p in h.pages
  {
    h.(pages := Dropped(h.pages, p), registry := if h.pages[p].refs == 1 then Without(h.registry, p) else h.registry)
  }

  /** Fewer pages, or pages with other counts, are still apart. */
  lemma StillApart(mem: seq<Byte>, pages: map<PageId, Page>, pages': map<PageId, Page>)
    requires PagesOk(mem, pages)
    requires forall p <- pages' :: p in pages && pages'[p].addr == pages[p].addr && pages'[p].size == pages[p].size
    ensures PagesOk(mem, pages')
  {
    forall p <- pages', q <- pages' | p != q
      ensures Apart(pages'[p], pages'[q])
    {
      assert Apart(pages[p], pages[q]);
    }
  }

  lemma RegistryAfterPut(registry: seq<PageId>, pages: map<PageId, Page>, p: PageId)
    requires RegistryOk(registry, pages) && p in pages
    ensures RegistryOk(if pages[p].refs == 1 then Without(registry, p) else registry, Dropped(pages, p))
  {
    if pages[p].refs == 1 {
      WithoutHas(registry, p);
      var w := Without(registry, p);
      forall i | 0 <= i < |w|
        ensures w[i] in Dropped(pages, p)
      {
        assert w[i] in w;
      }
    }
  }

  lemma WithPutOk(h: Heap, callers: multiset<PageId>, p: PageId)
    requires HeapOk(h, callers) && p in h.pages && p in callers
    ensures HeapOk(WithPut(h, p), callers - multiset{p})
  {
    hide RefsOk, PagesOk, RegistryOk;
    PutKeeps(h.pages, h.skbs, callers, p);
    RegistryAfterPut(h.registry, h.pages, p);
    StillApart(h.mem, h.pages, Dropped(h.pages, p));
  }

  // ----- pages that stay

  lemma KeptByPut(mem: seq<Byte>, pages: map<PageId, Page>, p: PageId)
    requires PagesOk(mem, pages) && p in pages
    ensures PagesKept(mem, pages, mem, Dropped(pages, p))
  {
  }

  lemma KeptByNothing(mem: seq<Byte>, pages: map<PageId, Page>)
    requires PagesOk(mem, pages)
    ensures PagesKept(mem, pages, mem, pages)
  {
  }

  /** Filling a fresh page leaves the others alone. */
  lemma KeptByFill(mem: seq<Byte>, pages: map<PageId, Page>, p: PageId, at: nat, size: nat, to: nat, src: seq<Byte>)
    requires PagesOk(mem, pages) && p !in pages && FreeRange(mem, pages, at, size)
    requires at <= to && to + |src| <= at + size
    ensures var mem' := Blit(mem, to, src); var pages' := pages[p := Page(at, size, 1)];
            PagesOk(mem', pages') && PagesKept(mem, pages, mem', pages')
  {
    var mem' := Blit(mem, to, src);
    var pages' := pages[p := Page(at, size, 1)];
    forall q <- pages' | q in pages
      ensures SamePage(mem, pages, mem', pages', q)
    {
      assert Apart(pages[q], Page(at, size, 1));
      BlitElsewhere(mem, to, src, pages[q].addr, pages[q].addr + pages[q].size);
    }
  }

  lemma KeptTrans(mem: seq<Byte>, pages: map<PageId, Page>, mem1: seq<Byte>, pages1: map<PageId, Page>,
                  mem2: seq<Byte>, pages2: map<PageId, Page>)
    requires PagesKept(mem, pages, mem1, pages1) && PagesKept(mem1, pages1, mem2, pages2)
    requires forall p <- pages2 | p in pages :: p in pages1
    ensures PagesKept(mem, pages, mem2, pages2)
  {
  }

  /** Memory outside this page is as it was. */
  ghost predicate OnlyIn(mem: seq<Byte>, mem': seq<Byte>, page: Page) {
    && |mem'| == |mem|
    && forall i: nat | i < |mem| && !(page.addr <= i < page.addr + page.size) :: mem'[i] == mem[i]
  }

  lemma BlitOnlyIn(mem: seq<Byte>, at: nat, src: seq<Byte>, page: Page)
    requires at + |src| <= |mem| && page.addr <= at && at + |src| <= page.addr + page.size
    ensures OnlyIn(mem, Blit(mem, at, src), page)
  {
  }

  lemma OnlyInTrans(mem: seq<Byte>, mem1: seq<Byte>, mem2: seq<Byte>, page: Page)
    requires OnlyIn(mem, mem1, page) && OnlyIn(mem1, mem2, page)
    ensures OnlyIn(mem, mem2, page)
  {
  }

  lemma OtherPages(mem: seq<Byte>, pages: map<PageId, Page>, mem': seq<Byte>, p: PageId)
    requires PagesOk(mem, pages) && p in pages && OnlyIn(mem, mem', pages[p])
    ensures PagesOk(mem', pages) && forall q <- pages | q != p :: SamePage(mem, pages, mem', pages, q)
  {
    forall q <- pages | q != p
      ensures SamePage(mem, pages, mem', pages, q)
    {
      assert Apart(pages[q], pages[p]);
    }
  }

  /** So all pages there were before `p` are kept. */
  lemma KeptByOwn(mem0: seq<Byte>, pages0: map<PageId, Page>, mem: seq<Byte>, pages: map<PageId, Page>, mem': seq<Byte>, p: PageId)
    requires PagesKept(mem0, pages0, mem, pages) && PagesOk(mem, pages) && p in pages && p !in pages0 && OnlyIn(mem, mem', pages[p])
    ensures PagesOk(mem', pages) && PagesKept(mem0, pages0, mem', pages)
  {
    OtherPages(mem, pages, mem', p);
    hide PagesOk, OnlyIn;
  }

  lemma DroppedSubset(pages: map<PageId, Page>, p: PageId)
    requires p in pages
    ensures forall q <- Dropped(pages, p) :: q in pages
  {
  }

  // ----- slots on a heap

  function WithSkb(h: Heap, k: SkbId, skb: Skb): Heap {
    h.(skbs := h.skbs[k := skb])
  }

  lemma DetachOk(h: Heap, callers: multiset<PageId>, k: SkbId, skb': Skb, i: nat, p: PageId)
    requires HeapOk(h, callers) && k in h.skbs && SlotMove(h.skbs[k], skb', i, Some(p), None)
    ensures p in h.pages && HeapOk(WithSkb(h, k, skb'), callers + multiset{p})
  {
    hide RefsOk, PagesOk, RegistryOk, SlotMove;
    EmptySlot(h.pages, h.skbs, callers, k, skb', i, p);
  }

  lemma AttachOk(h: Heap, callers: multiset<PageId>, k: SkbId, skb': Skb, i: nat, p: PageId)
    requires HeapOk(h, callers) && k in h.skbs && p in callers && SlotMove(h.skbs[k], skb', i, None, Some(p))
    ensures HeapOk(WithSkb(h, k, skb'), callers - multiset{p})
  {
    hide RefsOk, PagesOk, RegistryOk, SlotMove;
    FillSlot(h.pages, h.skbs, callers, k, skb', i, p);
  }

  lemma MoveWindowOk(h: Heap, callers: multiset<PageId>, k: SkbId, skb': Skb)
    requires HeapOk(h, callers) && k in h.skbs && |skb'.frags| == MAX_FRAGS
    requires skb'.headPage == h.skbs[k].headPage && forall i | 0 <= i < MAX_FRAGS :: SlotPage(skb', i) == SlotPage(h.skbs[k], i)
    ensures HeapOk(WithSkb(h, k, skb'), callers)
  {
    hide RefsOk, PagesOk, RegistryOk;
    SameSlots(h.pages, h.skbs, callers, k, skb');
  }

  /** A new buffer takes the caller's reference to its head page. */
  lemma NewSkbOk(h: Heap, callers: multiset<PageId>, skb: Skb, p: PageId)
    requires HeapOk(h, callers) && p in callers && |skb.frags| == MAX_FRAGS && skb.headPage == Some(p)
    requires forall i | 0 <= i < MAX_FRAGS :: skb.frags[i].page == None
    ensures HeapOk(WithSkb(h, h.nextSkb, skb).(nextSkb := h.nextSkb + 1), callers - multiset{p}) && h.nextSkb !in h.skbs
  {
    hide RefsOk, PagesOk, RegistryOk;
    var k := h.nextSkb;
    assert k !in h.skbs;
    var bare := skb.(headPage := None);
    AddBare(h.pages, h.skbs, callers, k, bare);
    FillSlot(h.pages, h.skbs[k := bare], callers, k, skb, HEAD_SLOT, p);
    assert h.skbs[k := bare][k := skb] == h.skbs[k := skb];
  }

  lemma DropSkbOk(h: Heap, callers: multiset<PageId>, k: SkbId)
    requires HeapOk(h, callers) && k in h.skbs && Bare(h.skbs[k])
    ensures HeapOk(h.(skbs := h.skbs - {k}), callers)
  {
    hide RefsOk, PagesOk, RegistryOk;
    RemoveBare(h.pages, h.skbs, callers, k);
  }

  lemma ShapedAt(h: Heap, callers: multiset<PageId>, k: SkbId)
    requires HeapOk(h, callers) && k in h.skbs
    ensures |h.skbs[k].frags| == MAX_FRAGS
  {
  }

  lemma HeapPages(h: Heap, callers: multiset<PageId>)
    requires HeapOk(h, callers)
    ensures PagesOk(h.mem, h.pages) && RefsOk(h.pages, h.skbs, callers)
  {
  }

  /** The first `n` fragment slots of `skb` cleared. */
  function Cleared(skb: Skb, n: nat): Skb
    requires n <= |skb.frags|
  {
    skb.(frags := seq(n, i => EMPTY) + skb.frags[n..])
  }

  lemma ClearNext(skb: Skb, i: nat)
    requires |skb.frags| == MAX_FRAGS && i < MAX_FRAGS
    ensures var now := Cleared(skb, i);
            && |now.frags| == MAX_FRAGS && now.frags[i] == skb.frags[i]
            && now.(frags := now.frags[i := EMPTY]) == Cleared(skb, i + 1)
  {
    var now, next := Cleared(skb, i), Cleared(skb, i + 1);
    assert now.frags[i := EMPTY] == next.frags;
  }

  lemma ClearStart(skb: Skb)
    ensures Cleared(skb, 0) == skb
  {
  }

  /** The slots at nr_frags and above are empty.  Every operation keeps this, whatever it does to the window. */
  predicate SlotsTidy(skb: Skb) {
    |skb.frags| == MAX_FRAGS && skb.nrFrags <= MAX_FRAGS && forall i | skb.nrFrags <= i < MAX_FRAGS :: skb.frags[i] == EMPTY
  }

  lemma ShapeTidy(pages: map<PageId, Page>, skb: Skb)
    requires SkbShape(pages, skb)
    ensures SlotsTidy(skb)
  {
  }

  lemma ClearDone(skb: Skb)
    requires SlotsTidy(skb)
    ensures Cleared(skb, skb.nrFrags).(nrFrags := 0, dataLen := 0) == NoFrags(skb)
  {
    assert Cleared(skb, skb.nrFrags).frags == NoFrags(skb).frags;
  }

  lemma NoFragsSlots(skb: Skb)
    requires SlotsTidy(skb)
    ensures var now := Cleared(skb, skb.nrFrags); var skb' := NoFrags(skb);
            && |skb'.frags| == |now.frags| == MAX_FRAGS && skb'.headPage == now.headPage
            && forall i | 0 <= i < MAX_FRAGS :: SlotPage(skb', i) == SlotPage(now, i)
  {
  }

  lemma ClearSlotOk(h: Heap, callers: multiset<PageId>, k: SkbId, i: nat)
    requires HeapOk(h, callers) && k in h.skbs && |h.skbs[k].frags| == MAX_FRAGS && i < MAX_FRAGS
    ensures var page := h.skbs[k].frags[i].page; var h' := WithSkb(h, k, h.skbs[k].(frags := h.skbs[k].frags[i := EMPTY]));
            if page.Some? then page.value in h.pages && HeapOk(h', callers + multiset{page.value}) else HeapOk(h', callers)
  {
    hide HeapOk;
    var skb := h.skbs[k];
    var skb' := skb.(frags := skb.frags[i := EMPTY]);
    var page := skb.frags[i].page;
    if page.Some? {
      DetachOk(h, callers, k, skb', i, page.value);
    } else {
      MoveWindowOk(h, callers, k, skb');
    }
  }

  datatype Ret = Done | EINVAL | ENOMEM

  /** Only where the bytes live changed. */
  predicate HeadMoved(skb: Skb, skb': Skb) {
    && skb'.frags == skb.frags && skb'.nrFrags == skb.nrFrags && skb'.len == skb.len && skb'.dataLen == skb.dataLen
  }

  /** A buffer whose linear bytes were copied into a fresh page has the same content. */
  lemma CowContent(mem: seq<Byte>, pages: map<PageId, Page>, skb: Skb, mem': seq<Byte>, pages': map<PageId, Page>, skb': Skb,
                   skbs': map<SkbId, Skb>, callers': multiset<PageId>, k: SkbId)
    requires PagesOk(mem, pages) && PagesOk(mem', pages') && SkbOk(pages, skb) && PagesKept(mem, pages, mem', pages')
    requires RefsOk(pages', skbs', callers') && k in skbs' && skbs'[k] == skb' && HeadMoved(skb, skb')
    requires SkbShape(pages', skb') || HeadFits(pages', skb')
    requires LinearIn(mem, skb) && LinearIn(mem', skb') && Linear(mem', skb') == Linear(mem, skb)
    ensures SkbOk(pages', skb') && Content(mem', pages', skb') == Content(mem, pages, skb)
  {
    hide PagesOk, RefsOk, SamePage, Linear;
    NamedAreThere(pages', skbs', callers', k);
    assert Used(skb') == Used(skb);
    ConcatSame(mem, pages, mem', pages', Used(skb));
  }

  /** The part of SkbShape about the head page. */
  predicate HeadFits(pages: map<PageId, Page>, skb: Skb) {
    && 0 < skb.head <= skb.data
    && skb.tail == skb.data - skb.head + (skb.len - skb.dataLen) && skb.tail <= skb.end <= UINT_MAX
    && skb.headPage.Some? && skb.headPage.value in pages
    && var page := pages[skb.headPage.value];
       page.addr <= skb.head && skb.head + skb.end <= page.addr + page.size
  }

  lemma NewHeadFits(mem: seq<Byte>, pages: map<PageId, Page>, p: PageId, at: nat, size: nat, pages': map<PageId, Page>, skb': Skb)
    requires p in pages && pages[p].addr == at && pages[p].size == size && PagesOk(mem, pages) && 0 < at
    requires PagesKept(mem, pages, mem, pages') && skb'.headPage == Some(p) && p in pages'
    requires skb'.head == at && at <= skb'.data && skb'.dataLen <= skb'.len && skb'.end <= size && skb'.end <= UINT_MAX
    requires skb'.tail == skb'.data - skb'.head + (skb'.len - skb'.dataLen) && skb'.tail <= skb'.end
    ensures HeadFits(pages', skb')
  {
    assert SamePage(mem, pages, mem, pages', p);
  }

  lemma FreshPageRange(mem: seq<Byte>, pages: map<PageId, Page>, at: nat, size: nat)
    requires FreeRange(mem, pages, at, size)
    ensures 0 < at && at + size <= |mem|
  {
  }

  lemma BlitOk(h: Heap, callers: multiset<PageId>, at: nat, src: seq<Byte>)
    requires HeapOk(h, callers) && at + |src| <= |h.mem|
    ensures HeapOk(h.(mem := Blit(h.mem, at, src)), callers)
  {
  }

  lemma NewestStays(pages: map<PageId, Page>, skbs: map<SkbId, Skb>, callers: multiset<PageId>, k: SkbId)
    requires RefsOk(pages, skbs, callers) && k in skbs && skbs[k].headPage.Some?
    ensures skbs[k].headPage.value in pages
  {
    assert SlotPage(skbs[k], HEAD_SLOT) == skbs[k].headPage;
  }

  lemma HeadSlotMoves(skb: Skb, skb': Skb)
    requires |skb.frags| == MAX_FRAGS && skb'.frags == skb.frags && skb.headPage.Some? && skb'.headPage.Some?
    ensures var bare := skb.(headPage := None);
            && SlotMove(skb, bare, HEAD_SLOT, skb.headPage, None)
            && SlotMove(bare, skb', HEAD_SLOT, None, skb'.headPage)
  {
  }

  /** skb_cow_head's copy, seen from outside: the new head page holds the linear bytes behind `headroom` spare ones. */
  function CowSkb(skb: Skb, p: PageId, at: nat, headroom: nat): Skb
    requires skb.dataLen <= skb.len && skb.tail <= skb.end
  {
    var linear := skb.len - skb.dataLen;
    skb.(head := at, headPage := Some(p), data := at + headroom, tail := headroom + linear,
         end := headroom + linear + (skb.end - skb.tail))
  }

  lemma OkBounds(pages: map<PageId, Page>, skb: Skb)
    requires SkbOk(pages, skb)
    ensures skb.head <= skb.data && skb.dataLen <= skb.len && ValidBounds(skb)
    ensures skb.tail == skb.data - skb.head + (skb.len - skb.dataLen) <= skb.end <= UINT_MAX
    ensures Headlen(skb) == skb.len - skb.dataLen && |skb.frags| == MAX_FRAGS && skb.nrFrags <= MAX_FRAGS
  {
  }

  lemma CowKeepsShape(pages: map<PageId, Page>, skb: Skb, p: PageId, at: nat, headroom: nat)
    requires SkbOk(pages, skb) && headroom + Headlen(skb) + Tailroom(skb) <= UINT_MAX && 0 < at
    ensures var skb' := CowSkb(skb, p, at, headroom);
            && HeadMoved(skb, skb') && skb'.headPage == Some(p) && skb'.head == at && at <= skb'.data && skb.headPage.Some?
            && skb'.dataLen <= skb'.len && skb'.end == headroom + Headlen(skb) + Tailroom(skb) <= UINT_MAX
            && skb'.tail == skb'.data - skb'.head + (skb'.len - skb'.dataLen) && skb'.tail <= skb'.end
            && Headroom(skb') == headroom && Tailroom(skb') == Tailroom(skb)
  {
  }

  lemma CowLinear(mem: seq<Byte>, pages: map<PageId, Page>, skb: Skb, p: PageId, at: nat, headroom: nat)
    requires PagesOk(mem, pages) && SkbOk(pages, skb) && LinearIn(mem, skb) && at + headroom + Headlen(skb) <= |mem|
    ensures var skb' := CowSkb(skb, p, at, headroom); var mem' := Blit(mem, at + headroom, Linear(mem, skb));
            LinearIn(mem', skb') && Linear(mem', skb') == Linear(mem, skb)
  {
  }

  // ----- gathering fragments into one page

  lemma KeptByMore(mem0: seq<Byte>, pages0: map<PageId, Page>, mem: seq<Byte>, p: PageId, at: nat, size: nat, to: nat, src: seq<Byte>)
    requires PagesOk(mem0, pages0) && p !in pages0 && FreeRange(mem0, pages0, at, size) && |mem| == |mem0|
    requires var pages := pages0[p := Page(at, size, 1)]; PagesOk(mem, pages) && PagesKept(mem0, pages0, mem, pages)
    requires at <= to && to + |src| <= at + size
    ensures to + |src| <= |mem|
    ensures var pages := pages0[p := Page(at, size, 1)]; var mem' := Blit(mem, to, src);
            PagesOk(mem', pages) && PagesKept(mem0, pages0, mem', pages)
  {
    var pages := pages0[p := Page(at, size, 1)];
    var mem' := Blit(mem, to, src);
    forall q <- pages | q in pages0
      ensures SamePage(mem0, pages0, mem', pages, q)
    {
      assert SamePage(mem0, pages0, mem, pages, q);
      assert Apart(pages0[q], Page(at, size, 1));
      BlitElsewhere(mem, to, src, pages0[q].addr, pages0[q].addr + pages0[q].size);
    }
  }

  /** After `i` fragments, `copied` bytes of the packet stand at `dst`. */
  ghost predicate Gathered(mem0: seq<Byte>, pages0: map<PageId, Page>, skb: Skb, mem: seq<Byte>, dst: nat, i: nat, copied: nat) {
    && PagesOk(mem0, pages0) && SkbShape(pages0, skb) && LinearIn(mem0, skb) && i <= skb.nrFrags && dst + copied <= |mem|
    && (forall f <- Used(skb)[..i] :: FragOk(pages0, f))
    && copied == Least(skb.len, Headlen(skb) + FragTotal(Used(skb)[..i]))
    && mem[dst..dst + copied] == (Linear(mem0, skb) + Concat(mem0, pages0, Used(skb)[..i]))[..copied]
  }

  lemma GatherStart(mem0: seq<Byte>, pages0: map<PageId, Page>, skb: Skb, mem: seq<Byte>, dst: nat)
    requires PagesOk(mem0, pages0) && SkbShape(pages0, skb) && LinearIn(mem0, skb) && dst + Headlen(skb) <= |mem|
    requires mem[dst..dst + Headlen(skb)] == Linear(mem0, skb)
    ensures Gathered(mem0, pages0, skb, mem, dst, 0, Headlen(skb))
  {
    assert Used(skb)[..0] == [];
    assert Linear(mem0, skb) + [] == Linear(mem0, skb);
  }

  lemma BlitAppends(mem: seq<Byte>, dst: nat, n: nat, src: seq<Byte>)
    requires dst + n + |src| <= |mem|
    ensures Blit(mem, dst + n, src)[dst..dst + n + |src|] == mem[dst..dst + n] + src
  {
    BlitElsewhere(mem, dst + n, src, dst, dst + n);
    var mem' := Blit(mem, dst + n, src);
    assert mem'[dst..dst + n + |src|] == mem'[dst..dst + n] + mem'[dst + n..dst + n + |src|];
  }

  lemma PrefixGrows<T>(a: seq<T>, b: seq<T>, more: seq<T>, n: nat)
    requires n <= |more|
    ensures (a + (b + more))[..|a| + |b| + n] == (a + b) + more[..n]
  {
  }

  lemma PrefixIsAll<T>(a: seq<T>, b: seq<T>, rest: seq<T>, n: nat)
    requires n <= |b|
    ensures (a + b)[..|a| + n] == a + (b + rest)[..n]
  {
  }

  lemma ConcatOneMore(mem: seq<Byte>, pages: map<PageId, Page>, fs: seq<Frag>, i: nat)
    requires PagesOk(mem, pages) && i < |fs| && forall f <- fs[..i + 1] :: FragOk(pages, f)
    ensures (forall f <- fs[..i] :: FragOk(pages, f)) && FragOk(pages, fs[i])
    ensures Concat(mem, pages, fs[..i + 1]) == Concat(mem, pages, fs[..i]) + FragBytes(mem, pages, fs[i])
    ensures FragTotal(fs[..i + 1]) == FragTotal(fs[..i]) + fs[i].size
  {
    hide PagesOk, FragOk, FragBytes;
    var before, f := fs[..i], fs[i];
    assert fs[..i + 1] == before + [f];
    assert forall g <- before :: g in fs[..i + 1];
    TotalSplit(before, [f]);
    ConcatSplit(mem, pages, before, [f]);
    assert Concat(mem, pages, [f]) == FragBytes(mem, pages, f) + [];
  }

  lemma UsedSize(pages: map<PageId, Page>, skb: Skb)
    requires SkbShape(pages, skb)
    ensures skb.nrFrags <= |skb.frags| && |Used(skb)| == skb.nrFrags && skb.dataLen <= skb.len && Headlen(skb) == skb.len - skb.dataLen
  {
  }

  lemma GatherMore(mem0: seq<Byte>, pages0: map<PageId, Page>, skb: Skb, mem: seq<Byte>, dst: nat, i: nat, copied: nat, n: nat, src: seq<Byte>)
    requires Gathered(mem0, pages0, skb, mem, dst, i, copied) && i < skb.nrFrags && copied < skb.len
    requires skb.nrFrags <= |skb.frags| && FragOk(pages0, Used(skb)[i]) && n == Least(Used(skb)[i].size, skb.len - copied)
    requires dst + copied + n <= |mem| && src == FragBytes(mem0, pages0, Used(skb)[i])[..n]
    ensures Gathered(mem0, pages0, skb, Blit(mem, dst + copied, src), dst, i + 1, copied + n)
  {
    hide PagesOk, SkbShape, FragBytes, Blit, Linear, FragOk, FragTotal, Concat;
    UsedSize(pages0, skb);
    LinearSize(mem0, skb);
    var fs := Used(skb);
    forall g <- fs[..i + 1] ensures FragOk(pages0, g) { assert g == fs[i] || g in fs[..i]; }
    ConcatOneMore(mem0, pages0, fs, i);
    BlitAppends(mem, dst, copied, src);
    PrefixGrows(Linear(mem0, skb), Concat(mem0, pages0, fs[..i]), FragBytes(mem0, pages0, fs[i]), n);
  }

  lemma LinearSize(mem: seq<Byte>, skb: Skb)
    requires LinearIn(mem, skb)
    ensures |Linear(mem, skb)| == Headlen(skb)
  {
  }

  /** When the fragments hold enough bytes, all of the packet is there. */
  lemma GatherAll(mem0: seq<Byte>, pages0: map<PageId, Page>, skb: Skb, mem: seq<Byte>, dst: nat, i: nat, copied: nat)
    requires Gathered(mem0, pages0, skb, mem, dst, i, copied) && SkbOk(pages0, skb) && (i == skb.nrFrags || copied == skb.len)
    ensures copied == skb.len && mem[dst..dst + skb.len] == Content(mem0, pages0, skb)
  {
    hide PagesOk, FragBytes, FragOk, Linear;
    var fs := Used(skb);
    LinearSize(mem0, skb);
    if i == skb.nrFrags { assert fs[..i] == fs; }
    GatherSplit(mem0, pages0, skb, i);
    PrefixIsAll(Linear(mem0, skb), Concat(mem0, pages0, fs[..i]), Concat(mem0, pages0, fs[i..]), skb.dataLen);
  }

  lemma GatherSplit(mem: seq<Byte>, pages: map<PageId, Page>, skb: Skb, i: nat)
    requires PagesOk(mem, pages) && SkbOk(pages, skb) && i <= skb.nrFrags
    ensures (forall f <- Used(skb)[..i] :: FragOk(pages, f)) && (forall f <- Used(skb)[i..] :: FragOk(pages, f))
    ensures Concat(mem, pages, Used(skb)) == Concat(mem, pages, Used(skb)[..i]) + Concat(mem, pages, Used(skb)[i..])
  {
    hide PagesOk, FragBytes;
    assert Used(skb) == Used(skb)[..i] + Used(skb)[i..];
    forall f <- Used(skb)[..i] ensures FragOk(pages, f) { assert f in Used(skb); }
    forall f <- Used(skb)[i..] ensures FragOk(pages, f) { assert f in Used(skb); }
    ConcatSplit(mem, pages, Used(skb)[..i], Used(skb)[i..]);
  }

  lemma NotWhole(skb: Skb, i: nat)
    requires skb.nrFrags <= |skb.frags| && i < skb.nrFrags && skb.frags[i].page.None?
    ensures !Whole(skb)
  {
    assert Used(skb)[i] == skb.frags[i];
    assert skb.frags[i] in Used(skb);
  }

  /** The bytes of a fragment are still what they were. */
  lemma FragHere(mem0: seq<Byte>, pages0: map<PageId, Page>, mem: seq<Byte>, pages: map<PageId, Page>, skb: Skb, i: nat)
    requires PagesOk(mem0, pages0) && PagesKept(mem0, pages0, mem, pages) && SkbShape(pages0, skb)
    requires i < skb.nrFrags && skb.frags[i].page.Some? && forall p <- pages0 :: p in pages
    ensures var f := skb.frags[i]; var p := f.page.value;
            && FragOk(pages0, f) && f == Used(skb)[i] && p in pages
            && pages[p].addr + f.offset + f.size <= |mem|
            && mem[pages[p].addr + f.offset..pages[p].addr + f.offset + f.size] == FragBytes(mem0, pages0, f)
            && forall n: nat | n <= f.size :: mem[pages[p].addr + f.offset..pages[p].addr + f.offset + n] == FragBytes(mem0, pages0, f)[..n]
  {
    var f := skb.frags[i];
    assert f == Used(skb)[i];
    assert f in Used(skb) && FragFits(pages0, f);
    assert f.page.value in pages0 && f.page.value in pages;
    assert SamePage(mem0, pages0, mem, pages, f.page.value);
    SliceOfSlice(mem0, pages0[f.page.value].addr, pages0[f.page.value].size, f.offset, f.size);
    SliceOfSlice(mem, pages0[f.page.value].addr, pages0[f.page.value].size, f.offset, f.size);
  }

  lemma GatherShort(mem0: seq<Byte>, pages0: map<PageId, Page>, skb: Skb, mem: seq<Byte>, dst: nat, i: nat, copied: nat)
    requires Gathered(mem0, pages0, skb, mem, dst, i, copied) && i == skb.nrFrags && copied < skb.len
    ensures |skb.frags| == MAX_FRAGS && !Whole(skb)
  {
    assert Used(skb)[..i] == Used(skb);
  }

  lemma GatherEnd(mem0: seq<Byte>, pages0: map<PageId, Page>, skb: Skb, mem: seq<Byte>, dst: nat, i: nat, copied: nat)
    requires Gathered(mem0, pages0, skb, mem, dst, i, copied) && (i >= skb.nrFrags || copied >= skb.len) && copied <= skb.len
    ensures PagesOk(mem0, pages0) && |skb.frags| == MAX_FRAGS && skb.nrFrags <= MAX_FRAGS
    ensures copied != skb.len ==> !Whole(skb)
    ensures copied == skb.len && SkbOk(pages0, skb) ==> dst + skb.len <= |mem| && mem[dst..dst + skb.len] == Content(mem0, pages0, skb)
  {
    hide SkbOk, Content, Whole, PagesOk;
    assert i <= skb.nrFrags;
    if copied != skb.len { GatherShort(mem0, pages0, skb, mem, dst, i, copied); }
    if SkbOk(pages0, skb) { GatherAll(mem0, pages0, skb, mem, dst, i, copied); }
  }

  lemma ShapeHead(pages: map<PageId, Page>, skb: Skb)
    requires SkbShape(pages, skb)
    ensures skb.head <= skb.data && skb.dataLen <= skb.len && skb.headPage.Some? && |skb.frags| == MAX_FRAGS && skb.nrFrags <= MAX_FRAGS
    ensures Headlen(skb) == skb.len - skb.dataLen && skb.len <= UINT_MAX
  {
  }

  lemma ShapeLinear(mem: seq<Byte>, pages: map<PageId, Page>, skb: Skb)
    requires PagesOk(mem, pages) && SkbShape(pages, skb)
    ensures LinearIn(mem, skb) && |Linear(mem, skb)| == Headlen(skb) <= skb.len
  {
  }

  lemma LinearBytes(mem: seq<Byte>, skb: Skb)
    requires LinearIn(mem, skb)
    ensures skb.data + Headlen(skb) <= |mem| && Linear(mem, skb) == mem[skb.data..skb.data + Headlen(skb)]
  {
  }

  lemma DropFresh(mem0: seq<Byte>, pages: map<PageId, Page>, mem: seq<Byte>, p: PageId, at: nat, size: nat)
    requires p !in pages && PagesKept(mem0, pages, mem, pages[p := Page(at, size, 1)])
    ensures Dropped(pages[p := Page(at, size, 1)], p) == pages && PagesKept(mem0, pages, mem, pages)
  {
    forall q <- pages ensures SamePage(mem0, pages, mem, pages, q) {
      assert SamePage(mem0, pages, mem, pages[p := Page(at, size, 1)], q);
    }
  }


  lemma NoFragsHead(skb: Skb, p: PageId, at: nat)
    requires skb.head <= skb.data
    ensures NoFrags(skb).headPage == skb.headPage
    ensures LinearSkb(skb, p, at).frags == NoFrags(skb).frags && LinearSkb(skb, p, at).headPage == Some(p)
  {
  }

  lemma CallerPage(pages: map<PageId, Page>, skbs: map<SkbId, Skb>, callers: multiset<PageId>, p: PageId)
    requires RefsOk(pages, skbs, callers) && p in callers
    ensures p in pages
  {
  }

  lemma KeptAt(mem: seq<Byte>, pages: map<PageId, Page>, mem': seq<Byte>, pages': map<PageId, Page>, p: PageId)
    requires PagesKept(mem, pages, mem', pages') && p in pages && p in pages'
    ensures pages'[p].addr == pages[p].addr && pages'[p].size == pages[p].size
  {
    assert SamePage(mem, pages, mem', pages', p);
  }

  lemma ShapeGrows(pages: map<PageId, Page>, pages': map<PageId, Page>, skb: Skb)
    requires SkbShape(pages, skb) && forall p <- pages :: p in pages' && pages'[p] == pages[p]
    ensures SkbShape(pages', skb)
  {
  }

  function LinearSkb(skb: Skb, p: PageId, at: nat): Skb
    requires skb.head <= skb.data
  {
    var off := skb.data - skb.head;
    NoFrags(skb).(head := at, headPage := Some(p), data := at + off, tail := off + skb.len, end := off + skb.len)
  }

  lemma LinearSkbOk(mem: seq<Byte>, pages: map<PageId, Page>, skb: Skb, p: PageId, at: nat)
    requires PagesOk(mem, pages) && p in pages && pages[p].addr == at && skb.head <= skb.data
    requires skb.data - skb.head + skb.len <= pages[p].size && skb.data - skb.head + skb.len <= UINT_MAX
    ensures var skb' := LinearSkb(skb, p, at);
            && SkbOk(pages, skb') && LinearIn(mem, skb') && at + (skb.data - skb.head) + skb.len <= |mem|
            && Content(mem, pages, skb') == Linear(mem, skb') == mem[at + (skb.data - skb.head)..at + (skb.data - skb.head) + skb.len]
            && Headroom(skb') == Headroom(skb) && skb'.dataLen == 0 && skb'.head <= skb'.data
  {
    var skb' := LinearSkb(skb, p, at);
    assert Used(skb') == [];
    assert Content(mem, pages, skb') == Linear(mem, skb');
  }

  /** The same packet, now without fragment bytes. */
  ghost predicate Flattened(mem: seq<Byte>, pages: map<PageId, Page>, skb: Skb, mem': seq<Byte>, pages': map<PageId, Page>, skb': Skb) {
    PagesOk(mem, pages) && SkbOk(pages, skb) ==>
      && PagesOk(mem', pages') && SkbOk(pages', skb') && skb'.dataLen == 0 && LinearIn(mem', skb')
      && Linear(mem', skb') == Content(mem', pages', skb') == Content(mem, pages, skb)
      && Headroom(skb') == Headroom(skb)
  }

  lemma FlatAlready(mem: seq<Byte>, pages: map<PageId, Page>, skb: Skb)
    requires skb.dataLen == 0
    ensures Flattened(mem, pages, skb, mem, pages, skb)
  {
    if PagesOk(mem, pages) && SkbOk(pages, skb) {
      assert Content(mem, pages, skb) == Linear(mem, skb);
    }
  }

  lemma FlattenedBy(mem0: seq<Byte>, pages0: map<PageId, Page>, skb: Skb, mem: seq<Byte>, pages: map<PageId, Page>, p: PageId, at: nat)
    requires PagesOk(mem, pages) && PagesOk(mem0, pages0) && p in pages && pages[p].addr == at && skb.head <= skb.data
    requires skb.data - skb.head + skb.len <= pages[p].size && skb.data - skb.head + skb.len <= UINT_MAX
    requires SkbOk(pages0, skb) ==>
               var dst := at + (skb.data - skb.head);
               dst + skb.len <= |mem| && mem[dst..dst + skb.len] == Content(mem0, pages0, skb)
    ensures Flattened(mem0, pages0, skb, mem, pages, LinearSkb(skb, p, at))
  {
    hide PagesOk, SkbOk, Content, LinearSkb;
    LinearSkbOk(mem, pages, skb, p, at);
  }

  lemma KeptByAlloc(mem: seq<Byte>, pages: map<PageId, Page>, p: PageId, at: nat, size: nat)
    requires PagesOk(mem, pages) && p !in pages
    ensures PagesKept(mem, pages, mem, pages[p := Page(at, size, 1)])
  {
  }

  /** What kzalloc and alloc_skb leave in a new buffer. */
  function NewSkb(p: PageId, at: nat, size: nat): Skb {
    Skb(at, Some(p), at, 0, 0, size, 0, 0, seq(MAX_FRAGS, i => EMPTY))
  }

  lemma NewSkbFacts(pages: map<PageId, Page>, p: PageId, size: nat)
    requires p in pages && 0 < pages[p].addr && size <= pages[p].size && size <= UINT_MAX
    ensures SkbOk(pages, NewSkb(p, pages[p].addr, size))
  {
    assert Used(NewSkb(p, pages[p].addr, size)) == [];
  }

  lemma NoFragsBare(skb: Skb)
    ensures Bare(NoFrags(skb).(headPage := None)) && SlotMove(NoFrags(skb), NoFrags(skb).(headPage := None), HEAD_SLOT, skb.headPage, None)
  {
  }

  lemma CopyFacts(mem: seq<Byte>, pages: map<PageId, Page>, p: PageId, end: nat, off: nat, linear: nat, bytes: seq<Byte>)
    requires PagesOk(mem, pages) && p in pages && end <= pages[p].size && off + linear <= end <= UINT_MAX && |bytes| == linear
    requires pages[p].addr + off + linear <= |mem| && mem[pages[p].addr + off..pages[p].addr + off + linear] == bytes
    ensures var skb := NewSkb(p, pages[p].addr, end).(data := pages[p].addr + off, tail := off + linear, len := linear);
            SkbOk(pages, skb) && Content(mem, pages, skb) == bytes
  {
    var skb := NewSkb(p, pages[p].addr, end).(data := pages[p].addr + off, tail := off + linear, len := linear);
    assert Used(skb) == [];
    assert Content(mem, pages, skb) == Linear(mem, skb);
  }

  lemma HeadNamed(pages: map<PageId, Page>, skb: Skb)
    requires SkbOk(pages, skb)
    ensures skb.headPage.Some? && skb.headPage.value in pages
  {
  }

  lemma OkShape(pages: map<PageId, Page>, skb: Skb)
    requires SkbOk(pages, skb)
    ensures SkbShape(pages, skb)
  {
  }

  lemma OverwriteOk(h: Heap, callers: multiset<PageId>, k: SkbId, i: nat, page: PageId, off: nat, size: nat)
    requires HeapOk(h, callers) && k in h.skbs && |h.skbs[k].frags| == MAX_FRAGS && i < MAX_FRAGS && page in callers
    ensures HeapOk(WithSkb(h, k, AddFragSkb(h.skbs[k], i, page, off, size)), callers - multiset{page})
       <==> h.skbs[k].frags[i].page.None?
  {
    hide RefsOk, PagesOk, RegistryOk;
    var skb' := AddFragSkb(h.skbs[k], i, page, off, size);
    OverwriteLeaks(h.pages, h.skbs, callers, k, skb', i, h.skbs[k].frags[i].page, page);
  }

  class PacketHeap {
    var mem: seq<Byte>
    var pages: map<PageId, Page>
    var registry: seq<PageId>      // lcompat_pages
    var skbs: map<SkbId, Skb>
    var nextPage: nat
    var nextSkb: nat
    ghost var callers: multiset<PageId>   // references held by callers, not by buffers

    function Snap(): Heap
      reads this
    {
      Heap(mem, pages, registry, skbs, nextPage, nextSkb)
    }

    ghost predicate Valid()
      reads this
    {
      HeapOk(Snap(), callers)
    }

    /** lcompat_page_alloc (page_pool.c:10-36).  `record` says whether kzalloc succeeds, and `frames` is what
        alloc_frames_bytes answers: an unused range, or NULL.  NULL is not looked at: a page at address 0 is registered
        and handed out, and the heap is in order afterwards if and only if that did not happen. */
    method PageAlloc(size: nat, record: bool, frames: Option<nat>) returns (r: Option<PageId>)
      requires Valid()
      requires frames.Some? ==> FreeRange(mem, pages, frames.value, if size == 0 then PAGE_SIZE else size)
      modifies this
      ensures r.Some? <==> record && (if size == 0 then PAGE_SIZE else size) <= LONG_SPAN - 1 - PAGE_RECORD
      ensures Valid() <==> r.None? || frames.Some?
      ensures r.None? ==> Snap() == old(Snap()) && callers == old(callers)
      ensures r.Some? ==>
                && r.value == old(nextPage) && r.value !in old(pages) && callers == old(callers) + multiset{r.value}
                && r.value in pages && pages[r.value].size == (if size == 0 then PAGE_SIZE else size)
                && pages[r.value].addr == (if frames.Some? then frames.value else 0)
                && Snap() == WithPage(old(Snap()), pages[r.value].addr, pages[r.value].size)
    {
      hide HeapOk, FreeRange, RegistryOk;
      var bytes := if size == 0 then PAGE_SIZE else size;
      if bytes > LONG_SPAN - 1 - PAGE_RECORD || !record { return None; }
      var at := if frames.Some? then frames.value else 0;
      var p := nextPage;
      NewestUnused(Snap(), callers);
      if frames.Some? { WithPageOk(Snap(), callers, at, bytes); } else { NullPageBreaks(Snap(), callers + multiset{p}, bytes); }
      pages := pages[p := Page(at, bytes, 1)];
      registry := registry + [p];
      nextPage := nextPage + 1;
      callers := callers + multiset{p};
      r := Some(p);
    }

    method GetPage(p: PageId)
      requires Valid() && p in pages
      modifies this`pages, this`callers
      ensures Valid() && Snap() == WithGet(old(Snap()), p) && callers == old(callers) + multiset{p}
    {
      hide HeapOk;
      WithGetOk(Snap(), callers, p);
      pages := pages[p := pages[p].(refs := pages[p].refs + 1)];
      callers := callers + multiset{p};
    }

    /** The last reference frees the page and takes it off the registry (page_pool.c:38-49, 84-89). */
    method PutPage(p: PageId)
      requires Valid() && p in pages && p in callers
      modifies this`pages, this`registry, this`callers
      ensures Valid() && Snap() == WithPut(old(Snap()), p) && callers == old(callers) - multiset{p}
    {
      hide HeapOk;
      WithPutOk(Snap(), callers, p);
      ghost var was := pages;
      pages := pages[p := pages[p].(refs := pages[p].refs - 1)];
      if pages[p].refs == 0 {
        registry := Without(registry, p);
        pages := pages - {p};
        assert pages == was - {p};
      }
      callers := callers - multiset{p};
    }

    /** virt_to_head_page finds the one page that contains the address, if there is one. */
    method VirtToHeadPage(target: nat) returns (found: Option<PageId>)
      requires Valid()
      ensures found.Some? ==> found.value in pages && pages[found.value].addr <= target < pages[found.value].addr + pages[found.value].size
      ensures forall p <- pages | pages[p].addr <= target < pages[p].addr + pages[p].size :: found == Some(p)
    {
      found := None;
      if target == 0 { return; }
      var i := 0;
      while i < |registry|
        invariant 0 <= i <= |registry|
        invariant forall j | 0 <= j < i :: !(pages[registry[j]].addr <= target < pages[registry[j]].addr + pages[registry[j]].size)
      {
        var page := pages[registry[i]];
        if page.addr <= target < page.addr + page.size {
          return Some(registry[i]);
        }
        i := i + 1;
      }
    }
  
    // ----- fragments and buffers given back

    /** One round of lcompat_skb_release_frags; here the slot is cleared before its page is put. */
    method ReleaseSlot(k: SkbId, i: nat)
      requires Valid() && k in skbs && |skbs[k].frags| == MAX_FRAGS && i < MAX_FRAGS
      modifies this`pages, this`registry, this`callers, this`skbs
      ensures Valid() && callers == old(callers)
      ensures skbs == old(skbs)[k := old(skbs[k]).(frags := old(skbs[k]).frags[i := EMPTY])]
      ensures PagesKept(mem, old(pages), mem, pages) && forall p <- pages :: p in old(pages)
    {
      hide HeapOk, PagesKept, Dropped, PagesOk, RefsOk;
      ClearSlotOk(Snap(), callers, k, i);
      HeapPages(Snap(), callers);
      KeptByNothing(mem, pages);
      var page := skbs[k].frags[i].page;
      skbs := skbs[k := skbs[k].(frags := skbs[k].frags[i := EMPTY])];
      if page.Some? {
        callers := callers + multiset{page.value};
        KeptByPut(mem, pages, page.value);
        DroppedSubset(pages, page.value);
        PutPage(page.value);
      }
    }

    /** lcompat_skb_release_frags (skbuff.h:103-118): every slot below nr_frags gives its reference back. */
    method ReleaseFrags(k: SkbId)
      requires Valid() && k in skbs && SlotsTidy(skbs[k])
      modifies this`pages, this`registry, this`callers, this`skbs
      ensures Valid() && callers == old(callers)
      ensures skbs == old(skbs)[k := NoFrags(old(skbs[k]))]
      ensures PagesKept(mem, old(pages), mem, pages) && forall p <- pages :: p in old(pages)
    {
      hide HeapOk, PagesKept, Cleared, PagesOk, RefsOk, NoFrags, SlotPage;
      ghost var skb := skbs[k];
      ghost var start := pages;
      HeapPages(Snap(), callers);
      KeptByNothing(mem, pages);
      ClearStart(skb);
      var n := skbs[k].nrFrags;
      for i := 0 to n
        invariant Valid() && callers == old(callers) && k in skbs && skbs == old(skbs)[k := Cleared(skb, i)]
        invariant PagesKept(mem, start, mem, pages) && forall p <- pages :: p in start
      {
        ClearNext(skb, i);
        ghost var before := pages;
        ReleaseSlot(k, i);
        KeptTrans(mem, start, mem, before, mem, pages);
      }
      ClearDone(skb);
      NoFragsSlots(skb);
      MoveWindowOk(Snap(), callers, k, NoFrags(skb));
      skbs := skbs[k := skbs[k].(nrFrags := 0, dataLen := 0)];
    }

    /** The common end of skb_cow_head and skb_linearize: put the old head page, install the new one
        (skbuff.h:168-176, 436-445).  `skb'` takes the caller's reference to its head page. */
    method ReplaceHead(k: SkbId, skb': Skb)
      requires Valid() && k in skbs && skbs[k].headPage.Some? && skb'.frags == skbs[k].frags
      requires skb'.headPage.Some? && skb'.headPage.value in callers
      modifies this`pages, this`registry, this`callers, this`skbs
      ensures Valid() && skbs == old(skbs)[k := skb'] && callers == old(callers) - multiset{skb'.headPage.value}
      ensures PagesKept(mem, old(pages), mem, pages) && forall p <- pages :: p in old(pages)
    {
      hide HeapOk, PagesKept, Dropped, PagesOk, RefsOk, SlotMove;
      ShapedAt(Snap(), callers, k);
      HeadSlotMoves(skbs[k], skb');
      var p := skbs[k].headPage.value;
      ghost var before := pages;
      DetachOk(Snap(), callers, k, skbs[k].(headPage := None), HEAD_SLOT, p);
      skbs := skbs[k := skbs[k].(headPage := None)];
      callers := callers + multiset{p};
      HeapPages(Snap(), callers);
      KeptByPut(mem, pages, p);
      DroppedSubset(pages, p);
      PutPage(p);
      AttachOk(Snap(), callers, k, skb', HEAD_SLOT, skb'.headPage.value);
      skbs := skbs[k := skb'];
      callers := callers - multiset{skb'.headPage.value};
    }
  
    /** __dev_alloc_pages (page_pool.c:91-99); from here on alloc_frames_bytes is taken to answer with an unused range. */
    method DevAllocPages(order: nat) returns (r: Option<PageId>)
      requires Valid()
      modifies this
      ensures Valid()
      ensures r.None? ==> Snap() == old(Snap()) && callers == old(callers)
      ensures r.Some? ==>
                && r.value == old(nextPage) && r.value !in old(pages) && callers == old(callers) + multiset{r.value}
                && r.value in pages && pages[r.value].size == BlockBytes(order)
                && FreeRange(mem, old(pages), pages[r.value].addr, pages[r.value].size)
                && Snap() == WithPage(old(Snap()), pages[r.value].addr, pages[r.value].size)
    {
      hide HeapOk, FreeRange, Pow2;
      if order >= LONG_BITS { return None; }
      var size := PAGE_SIZE * Pow2(order) % LONG_SPAN;
      var record: bool := *;
      var at: nat := *;
      if !FreeRange(mem, pages, at, if size == 0 then PAGE_SIZE else size) { return None; }
      r := PageAlloc(size, record, Some(at));
    }

    /** A block for `size` bytes, as alloc_skb, skb_cow_head and skb_linearize ask for it. */
    method AllocFor(size: nat) returns (r: Option<PageId>)
      requires Valid() && size <= UINT_MAX
      modifies this
      ensures Valid()
      ensures r.None? ==> Snap() == old(Snap()) && callers == old(callers)
      ensures r.Some? ==>
                && r.value == old(nextPage) && r.value !in old(pages) && callers == old(callers) + multiset{r.value}
                && r.value in pages && pages[r.value].size >= size
                && FreeRange(mem, old(pages), pages[r.value].addr, pages[r.value].size)
                && Snap() == WithPage(old(Snap()), pages[r.value].addr, pages[r.value].size)
    {
      hide HeapOk, FreeRange, BlockBytes, IsOrder;
      var order := GetOrder(if size == 0 then 1 else size);
      BlockHoldsSize(order, if size == 0 then 1 else size);
      r := DevAllocPages(order);
    }

    /** skb_cow_head (skbuff.h:140-178): more headroom, same packet, same tailroom. */
    method CowHead(k: SkbId, headroom: nat) returns (ret: Ret)
      requires Valid() && k in skbs && headroom <= UINT_MAX && (ValidBounds(skbs[k]) ==> SkbOk(pages, skbs[k]))
      modifies this
      ensures Valid() && callers == old(callers)
      ensures ret == EINVAL <==> !old(ValidBounds(skbs[k]))
      ensures ret != Done ==> Snap() == old(Snap())
      ensures old(PagesOk(mem, pages)) && PagesOk(mem, pages)
      ensures ret == Done ==>
                && k in skbs && SkbOk(pages, skbs[k]) && Content(mem, pages, skbs[k]) == old(Content(mem, pages, skbs[k]))
                && Headroom(skbs[k]) >= headroom && Tailroom(skbs[k]) == old(Tailroom(skbs[k]))
      ensures OthersKept(old(mem), old(pages), old(skbs), mem, pages, skbs, k)
    {
      hide HeapOk, FreeRange, PagesOk, RefsOk, PagesKept, OthersKept, Content, SkbShape, Whole, CowSkb, Linear, HeadMoved, HeadFits, Blit, SkbOk;
      HeapPages(Snap(), callers);
      ghost var mem0, pages0, skbs0 := mem, pages, skbs;
      KeptByNothing(mem, pages);
      OthersFrom(mem, pages, skbs, mem, pages, skbs, callers, k);
      var skb := skbs[k];
      if !ValidBounds(skb) { return EINVAL; }
      OkBounds(pages, skb);
      var off := skb.data - skb.head;
      if off >= headroom { return Done; }
      var linear, tailroom := skb.len - skb.dataLen, skb.end - skb.tail;
      if headroom > UINT_MAX - linear || headroom + linear > UINT_MAX - tailroom { return ENOMEM; }
      var page := AllocFor(headroom + linear + tailroom);
      if page.None? { return ENOMEM; }
      var at := pages[page.value].addr;
      ghost var size, pages1 := pages[page.value].size, pages;
      LinearFits(mem, pages0, skb);
      FreshPageRange(mem, pages0, at, size);
      KeptByFill(mem, pages0, page.value, at, size, at + headroom, Linear(mem, skb));
      CowLinear(mem, pages0, skb, page.value, at, headroom);
      BlitOk(Snap(), callers, at + headroom, Linear(mem, skb));
      mem := Blit(mem, at + headroom, Linear(mem, skb));
      CowKeepsShape(pages0, skb, page.value, at, headroom);
      ReplaceHead(k, CowSkb(skb, page.value, at, headroom));
      KeptTrans(mem0, pages0, mem, pages1, mem, pages);
      HeapPages(Snap(), callers);
      NewestStays(pages, skbs, callers, k);
      NewHeadFits(mem, pages1, page.value, at, size, pages, skbs[k]);
      CowContent(mem0, pages0, skb, mem, pages, skbs[k], skbs, callers, k);
      OthersFrom(mem0, pages0, skbs0, mem, pages, skbs, callers, k);
      ret := Done;
    }
  
    /** Copy fragments behind the linear bytes until the packet is complete (skbuff.h:412-428).
        `mem0`, `pages0` are the heap before the new page came. */
    method CopyFrags(ghost mem0: seq<Byte>, ghost pages0: map<PageId, Page>, k: SkbId, page: PageId, dst: nat)
      returns (ret: Ret, copied: nat)
      requires Valid() && k in skbs && page !in pages0 && page in pages && pages[page].refs == 1
      requires pages == pages0[page := Page(pages[page].addr, pages[page].size, 1)]
      requires FreeRange(mem0, pages0, pages[page].addr, pages[page].size) && PagesOk(mem0, pages0) && PagesKept(mem0, pages0, mem, pages)
      requires |mem| == |mem0| && pages[page].addr <= dst && dst + skbs[k].len <= pages[page].addr + pages[page].size
      requires SkbShape(pages0, skbs[k]) && LinearIn(mem0, skbs[k]) && Gathered(mem0, pages0, skbs[k], mem, dst, 0, Headlen(skbs[k]))
      modifies this`mem
      ensures Valid() && PagesKept(mem0, pages0, mem, pages)
      ensures ret == EINVAL ==> !Whole(skbs[k])
      ensures ret == Done && SkbOk(pages0, skbs[k]) ==>
                && dst + skbs[k].len <= |mem| && copied == skbs[k].len
                && mem[dst..dst + skbs[k].len] == Content(mem0, pages0, skbs[k])
      ensures ret != ENOMEM
    {
      hide HeapOk, FreeRange, PagesOk, PagesKept, SkbShape, Gathered, Blit, Content, Linear, FragOk, FragTotal, Whole, SkbOk, FragBytes,
           Concat, Headlen, LinearIn, RefsOk;
      var skb := skbs[k];
      UsedSize(pages0, skb);
      FreshPageRange(mem0, pages0, pages[page].addr, pages[page].size);
      copied := skb.len - skb.dataLen;
      var i := 0;
      while i < skb.nrFrags && copied < skb.len
        invariant 0 <= i <= skb.nrFrags && copied <= skb.len && |mem| == |mem0|
        invariant Valid() && PagesKept(mem0, pages0, mem, pages) && Gathered(mem0, pages0, skb, mem, dst, i, copied)
        decreases skb.nrFrags - i
      {
        var f := skb.frags[i];
        if f.page.None? {
          NotWhole(skb, i);
          return EINVAL, copied;
        }
        FragHere(mem0, pages0, mem, pages, skb, i);
        var n := if f.size <= skb.len - copied then f.size else skb.len - copied;
        var at := pages[f.page.value].addr + f.offset;
        HeapPages(Snap(), callers);
        KeptByMore(mem0, pages0, mem, page, pages[page].addr, pages[page].size, dst + copied, mem[at..at + n]);
        GatherMore(mem0, pages0, skb, mem, dst, i, copied, n, mem[at..at + n]);
        BlitOk(Snap(), callers, dst + copied, mem[at..at + n]);
        mem := Blit(mem, dst + copied, mem[at..at + n]);
        copied := copied + n;
        i := i + 1;
      }
      GatherEnd(mem0, pages0, skb, mem, dst, i, copied);
      ret := if copied != skb.len then EINVAL else Done;
    }
  
    /** The packet, byte for byte, into a fresh page, behind as much headroom as it has now (skbuff.h:410-433). */
    method GatherInto(k: SkbId, page: PageId, ghost mem0: seq<Byte>, ghost pages0: map<PageId, Page>) returns (ret: Ret)
      requires Valid() && k in skbs && page !in pages0 && page in pages && mem == mem0 && PagesOk(mem0, pages0)
      requires pages == pages0[page := Page(pages[page].addr, pages[page].size, 1)]
      requires FreeRange(mem0, pages0, pages[page].addr, pages[page].size)
      requires SkbShape(pages0, skbs[k]) && skbs[k].head <= skbs[k].data
      requires skbs[k].data - skbs[k].head + skbs[k].len <= pages[page].size
      modifies this`mem
      ensures Valid() && PagesKept(mem0, pages0, mem, pages)
      ensures ret == EINVAL ==> !SkbOk(pages0, skbs[k])
      ensures ret == Done && SkbOk(pages0, skbs[k]) ==>
                var dst := pages[page].addr + (skbs[k].data - skbs[k].head);
                dst + skbs[k].len <= |mem| && mem[dst..dst + skbs[k].len] == Content(mem0, pages0, skbs[k])
      ensures ret != ENOMEM
    {
      hide HeapOk, PagesOk, PagesKept, SkbShape, Content, Linear, FreeRange, Gathered, Blit, Whole;
      var skb := skbs[k];
      var dst := pages[page].addr + (skb.data - skb.head);
      var linear := skb.len - skb.dataLen;
      ShapeLinear(mem, pages0, skb);
      ShapeHead(pages0, skb);
      LinearBytes(mem, skb);
      FreshPageRange(mem, pages0, pages[page].addr, pages[page].size);
      KeptByFill(mem, pages0, page, pages[page].addr, pages[page].size, dst, Linear(mem, skb));
      BlitOk(Snap(), callers, dst, Linear(mem, skb));
      mem := Blit(mem, dst, mem[skb.data..skb.data + linear]);
      GatherStart(mem0, pages0, skb, mem, dst);
      var copied;
      ret, copied := CopyFrags(mem0, pages0, k, page, dst);
    }

    /** The old fragments and head page go, the new page takes over (skbuff.h:435-445). */
    method InstallLinear(k: SkbId, page: PageId)
      requires Valid() && k in skbs && page in pages && page in callers && SkbShape(pages, skbs[k])
      requires skbs[k].data - skbs[k].head + skbs[k].len <= pages[page].size && skbs[k].data - skbs[k].head + skbs[k].len <= UINT_MAX
      modifies this`pages, this`registry, this`callers, this`skbs
      ensures Valid() && callers == old(callers) - multiset{page}
      ensures skbs == old(skbs)[k := LinearSkb(old(skbs[k]), page, old(pages[page].addr))]
      ensures PagesKept(mem, old(pages), mem, pages) && forall p <- pages :: p in old(pages)
      ensures page in pages && pages[page].addr == old(pages[page].addr) && pages[page].size == old(pages[page].size)
    {
      hide HeapOk, PagesOk, PagesKept, SkbShape, RefsOk, NoFrags;
      var skb := skbs[k];
      ghost var start := pages;
      var at := pages[page].addr;
      ShapeHead(pages, skb);
      ShapeTidy(pages, skb);
      ReleaseFrags(k);
      ghost var middle := pages;
      NoFragsHead(skb, page, at);
      HeapPages(Snap(), callers);
      CallerPage(pages, skbs, callers, page);
      ReplaceHead(k, LinearSkb(skb, page, at));
      KeptTrans(mem, start, mem, middle, mem, pages);
      HeapPages(Snap(), callers);
      NewestStays(pages, skbs, callers, k);
      KeptAt(mem, start, mem, pages, page);
    }

    /** Allocate a page and copy the packet into it; give the page back if a fragment is missing (skbuff.h:400-433). */
    method GatherFresh(k: SkbId) returns (ret: Ret, page: PageId)
      requires Valid() && k in skbs && SkbShape(pages, skbs[k])
      modifies this
      ensures Valid() && skbs == old(skbs) && PagesKept(old(mem), old(pages), mem, pages)
      ensures ret != Done ==> pages == old(pages) && callers == old(callers)
      ensures ret == EINVAL ==> !old(SkbOk(pages, skbs[k]))
      ensures ret == Done ==>
                && page !in old(pages) && page in pages && callers == old(callers) + multiset{page}
                && pages == old(pages)[page := Page(pages[page].addr, pages[page].size, 1)]
                && skbs[k].head <= skbs[k].data && skbs[k].data - skbs[k].head + skbs[k].len <= UINT_MAX
                && skbs[k].data - skbs[k].head + skbs[k].len <= pages[page].size
      ensures ret == Done && old(SkbOk(pages, skbs[k])) ==>
                var dst := pages[page].addr + (skbs[k].data - skbs[k].head);
                && dst + skbs[k].len <= |mem| && old(PagesOk(mem, pages))
                && mem[dst..dst + skbs[k].len] == old(Content(mem, pages, skbs[k]))
    {
      hide HeapOk, PagesOk, PagesKept, SkbShape, RefsOk, Content, FreeRange, SkbOk, Dropped, Without;
      HeapPages(Snap(), callers);
      ghost var mem0, pages0 := mem, pages;
      KeptByNothing(mem, pages);
      page := 0;
      var skb := skbs[k];
      ShapeHead(pages, skb);
      var off := skb.data - skb.head;
      if skb.len > UINT_MAX - off { return ENOMEM, page; }
      var block := AllocFor(off + skb.len);
      if block.None? { return ENOMEM, page; }
      page := block.value;
      ghost var at, size := pages[page].addr, pages[page].size;
      ret := GatherInto(k, page, mem0, pages0);
      if ret == EINVAL {
        DropFresh(mem0, pages0, mem, page, at, size);
        PutPage(page);
      }
    }

    /** skb_linearize once there are fragments to copy. */
    method LinearizePaged(k: SkbId) returns (ret: Ret)
      requires Valid() && k in skbs && SkbShape(pages, skbs[k])
      modifies this
      ensures Valid() && callers == old(callers)
      ensures ret != Done ==> skbs == old(skbs) && pages == old(pages)
      ensures PagesKept(old(mem), old(pages), mem, pages)
      ensures forall j <- old(skbs) | j != k :: j in skbs && skbs[j] == old(skbs[j])
      ensures ret == EINVAL ==> !old(SkbOk(pages, skbs[k]))
      ensures ret == Done ==> k in skbs && Flattened(old(mem), old(pages), old(skbs[k]), mem, pages, skbs[k])
    {
      hide HeapOk, PagesOk, PagesKept, SkbShape, RefsOk, Content, LinearSkb, SkbOk, Flattened, Dropped, Without, WithPut, WithPage,
           WithGet, Headlen, Linear, Least;
      HeapPages(Snap(), callers);
      ghost var mem0, pages0 := mem, pages;
      ghost var skb := skbs[k];
      var page;
      ret, page := GatherFresh(k);
      if ret != Done { return; }
      ghost var at, pages1 := pages[page].addr, pages;
      ShapeGrows(pages0, pages1, skb);
      InstallLinear(k, page);
      KeptTrans(mem0, pages0, mem, pages1, mem, pages);
      HeapPages(Snap(), callers);
      FlattenedBy(mem0, pages0, skb, mem, pages, page, at);
    }

    /** skb_linearize (skbuff.h:387-447): the packet ends up in one piece, or nothing changes. */
    method Linearize(k: SkbId) returns (ret: Ret)
      requires Valid() && k in skbs && (ValidBounds(skbs[k]) ==> SkbShape(pages, skbs[k]))
      modifies this
      ensures Valid() && callers == old(callers)
      ensures ret != Done ==> skbs == old(skbs) && pages == old(pages) && PagesKept(old(mem), old(pages), mem, pages)
      ensures ret == EINVAL ==> !old(ValidBounds(skbs[k])) || !old(SkbOk(pages, skbs[k]))
      ensures ret == Done ==> k in skbs && Flattened(old(mem), old(pages), old(skbs[k]), mem, pages, skbs[k])
      ensures OthersKept(old(mem), old(pages), old(skbs), mem, pages, skbs, k)
    {
      hide HeapOk, PagesOk, PagesKept, SkbShape, RefsOk, OthersKept, Content, SkbOk, Flattened, ValidBounds;
      HeapPages(Snap(), callers);
      ghost var mem0, pages0, skbs0 := mem, pages, skbs;
      KeptByNothing(mem, pages);
      OthersFrom(mem, pages, skbs, mem, pages, skbs, callers, k);
      var skb := skbs[k];
      if !ValidBounds(skb) { return EINVAL; }
      if skb.dataLen == 0 {
        FlatAlready(mem, pages, skb);
        return Done;
      }
      ret := LinearizePaged(k);
      HeapPages(Snap(), callers);
      OthersFrom(mem0, pages0, skbs0, mem, pages, skbs, callers, k);
    }
  
    // ----- buffers made and freed

    /** A new struct sk_buff takes the caller's reference to its head page. */
    method AddSkb(skb: Skb, page: PageId) returns (k: SkbId)
      requires Valid() && page in callers && skb.headPage == Some(page) && skb.frags == seq(MAX_FRAGS, i => EMPTY)
      modifies this`skbs, this`nextSkb, this`callers
      ensures Valid() && k !in old(skbs) && skbs == old(skbs)[k := skb] && callers == old(callers) - multiset{page}
    {
      hide HeapOk;
      NewSkbOk(Snap(), callers, skb, page);
      k := nextSkb;
      skbs := skbs[k := skb];
      nextSkb := nextSkb + 1;
      callers := callers - multiset{page};
    }

    /** alloc_skb (skbuff.h:75-97): an empty buffer with `size` bytes of tailroom; kzalloc or the page may fail. */
    method AllocSkb(size: nat) returns (r: Option<SkbId>)
      requires Valid()
      modifies this
      ensures Valid() && callers == old(callers)
      ensures size > UINT_MAX ==> r.None?
      ensures r.None? ==> Snap() == old(Snap())
      ensures r.Some? ==>
                && r.value !in old(skbs) && r.value in skbs && skbs == old(skbs)[r.value := skbs[r.value]]
                && SkbOk(pages, skbs[r.value]) && skbs[r.value].len == 0
                && Headroom(skbs[r.value]) == 0 && Tailroom(skbs[r.value]) == size
                && skbs[r.value].headPage.Some? && skbs[r.value].headPage.value !in old(pages)
                && skbs[r.value].headPage.value in pages && pages[skbs[r.value].headPage.value].refs == 1
      ensures PagesKept(old(mem), old(pages), mem, pages) && mem == old(mem)
    {
      hide HeapOk, PagesOk, PagesKept, RefsOk, FreeRange, SkbOk;
      HeapPages(Snap(), callers);
      KeptByNothing(mem, pages);
      if size > UINT_MAX { return None; }
      ghost var pages0 := pages;
      var page := AllocFor(size);
      if page.None? { return None; }
      var at := pages[page.value].addr;
      FreshPageRange(mem, pages0, at, pages[page.value].size);
      KeptByAlloc(mem, pages0, page.value, at, pages[page.value].size);
      var skb := NewSkb(page.value, at, size);
      NewSkbFacts(pages, page.value, size);
      var k := AddSkb(skb, page.value);
      r := Some(k);
    }

    /** The end of kfree_skb for a buffer with a head page. */
    method ReleaseHead(k: SkbId, ghost pages0: map<PageId, Page>)
      requires Valid() && k in skbs && skbs[k].headPage.Some?
      requires SlotMove(skbs[k], skbs[k].(headPage := None), HEAD_SLOT, skbs[k].headPage, None)
      requires PagesKept(mem, pages0, mem, pages) && forall p <- pages :: p in pages0
      modifies this`pages, this`registry, this`callers, this`skbs
      ensures Valid() && callers == old(callers) && skbs == old(skbs)[k := old(skbs[k]).(headPage := None)]
      ensures PagesKept(mem, pages0, mem, pages)
    {
      hide HeapOk, PagesOk, PagesKept, RefsOk, Dropped, SlotMove;
      ghost var pages1 := pages;
      HeapPages(Snap(), callers);
      var p := skbs[k].headPage.value;
      DetachOk(Snap(), callers, k, skbs[k].(headPage := None), HEAD_SLOT, p);
      skbs := skbs[k := skbs[k].(headPage := None)];
      callers := callers + multiset{p};
      KeptByPut(mem, pages, p);
      DroppedSubset(pages, p);
      PutPage(p);
      KeptTrans(mem, pages0, mem, pages1, mem, pages);
    }

    /** kfree_skb (skbuff.h:120-129): the buffer is gone, its references are given back, every other buffer is as it was.
        The window does not matter: a buffer that skb_pull left beyond its linear part is freed like any other. */
    method KfreeSkb(k: SkbId)
      requires Valid() && k in skbs && SlotsTidy(skbs[k])
      modifies this`pages, this`registry, this`callers, this`skbs
      ensures Valid() && callers == old(callers) && skbs == old(skbs) - {k}
      ensures OthersKept(mem, old(pages), old(skbs), mem, pages, skbs, k)
    {
      hide HeapOk, PagesOk, PagesKept, RefsOk, SlotsTidy, OthersKept, Dropped, SlotMove;
      HeapPages(Snap(), callers);
      ghost var pages0, skbs0 := pages, skbs;
      ReleaseFrags(k);
      NoFragsBare(skbs0[k]);
      if skbs[k].headPage.Some? { ReleaseHead(k, pages0); }
      DropSkbOk(Snap(), callers, k);
      skbs := skbs - {k};
      HeapPages(Snap(), callers);
      OthersFrom(mem, pages0, skbs0, mem, pages, skbs, callers, k);
      assert skbs == skbs0 - {k};
    }

    /** skb_copy (skbuff.h:309-329): a buffer of its own that holds the linear bytes; fragments are not copied. */
    method SkbCopy(k: SkbId) returns (r: Option<SkbId>)
      requires Valid() && k in skbs && (ValidBounds(skbs[k]) ==> SkbOk(pages, skbs[k]))
      modifies this
      ensures Valid() && callers == old(callers)
      ensures !old(ValidBounds(skbs[k])) ==> r.None?
      ensures r.None? ==> Snap() == old(Snap())
      ensures old(PagesOk(mem, pages)) && PagesOk(mem, pages)
      ensures r.Some? ==>
                && r.value !in old(skbs) && r.value in skbs && skbs == old(skbs)[r.value := skbs[r.value]]
                && SkbOk(pages, skbs[r.value]) && old(LinearIn(mem, skbs[k]))
                && Content(mem, pages, skbs[r.value]) == old(Linear(mem, skbs[k]))
                && Headroom(skbs[r.value]) == old(Headroom(skbs[k])) && Tailroom(skbs[r.value]) == old(Tailroom(skbs[k]))
                && skbs[r.value].headPage != old(skbs[k]).headPage
      ensures r.Some? ==> OthersKept(old(mem), old(pages), old(skbs), mem, pages, skbs, r.value)
    {
      hide HeapOk, PagesOk, PagesKept, RefsOk, FreeRange, SkbOk, OthersKept, Content, Linear, Blit, LinearIn, WithPut, WithGet, Got,
           Dropped;
      HeapPages(Snap(), callers);
      ghost var mem0, pages0, skbs0 := mem, pages, skbs;
      var skb := skbs[k];
      if !ValidBounds(skb) { return None; }
      OkBounds(pages, skb);
      LinearFits(mem, pages, skb);
      LinearBytes(mem, skb);
      var page := AllocFor(skb.end);
      if page.None? { return None; }
      var at := pages[page.value].addr;
      ghost var size := pages[page.value].size;
      var off := skb.data - skb.head;
      var linear := skb.len - skb.dataLen;
      FreshPageRange(mem, pages0, at, size);
      KeptByFill(mem, pages0, page.value, at, size, at + off, Linear(mem, skb));
      BlitOk(Snap(), callers, at + off, Linear(mem, skb));
      mem := Blit(mem, at + off, mem[skb.data..skb.data + linear]);
      var copy := NewSkb(page.value, at, skb.end).(data := at + off, tail := off + linear, len := linear);
      HeapPages(Snap(), callers);
      CopyFacts(mem, pages, page.value, skb.end, off, linear, Linear(mem0, skb));
      HeadNamed(pages0, skb);
      var made := AddSkb(copy, page.value);
      r := Some(made);
      HeapPages(Snap(), callers);
      OthersFrom(mem0, pages0, skbs0, mem, pages, skbs, callers, made);
    }
  
    // ----- the window; what each call does to the packet is proved in SkbWindow

    method Put(k: SkbId, len: nat) returns (pos: Option<nat>)
      requires Valid() && k in skbs
      modifies this`skbs
      ensures Valid()
      ensures pos.Some? <==> PutSkb(old(skbs[k]), len).Some?
      ensures pos.Some? ==> skbs == old(skbs)[k := PutSkb(old(skbs[k]), len).value] && pos.value == old(skbs[k].head + skbs[k].tail)
      ensures pos.None? ==> skbs == old(skbs)
    {
      hide HeapOk;
      var skb := skbs[k];
      ShapedAt(Snap(), callers, k);
      if !ValidBounds(skb) || len > skb.end - skb.tail || len > UINT_MAX - skb.len { return None; }
      MoveWindowOk(Snap(), callers, k, skb.(tail := skb.tail + len, len := skb.len + len));
      pos := Some(skb.head + skb.tail);
      skbs := skbs[k := skb.(tail := skb.tail + len, len := skb.len + len)];
    }

    method Push(k: SkbId, len: nat) returns (pos: Option<nat>)
      requires Valid() && k in skbs
      modifies this`skbs
      ensures Valid()
      ensures pos.Some? <==> PushSkb(old(skbs[k]), len).Some?
      ensures pos.Some? ==> skbs == old(skbs)[k := PushSkb(old(skbs[k]), len).value] && pos.value == skbs[k].data
      ensures pos.None? ==> skbs == old(skbs)
    {
      hide HeapOk;
      var skb := skbs[k];
      ShapedAt(Snap(), callers, k);
      if !ValidBounds(skb) || (skb.data - skb.head) % WORD < len || len > UINT_MAX - skb.len { return None; }
      MoveWindowOk(Snap(), callers, k, skb.(data := skb.data - len, len := skb.len + len));
      skbs := skbs[k := skb.(data := skb.data - len, len := skb.len + len)];
      pos := Some(skb.data - len);
    }

    method Pull(k: SkbId, len: nat) returns (pos: Option<nat>)
      requires Valid() && k in skbs
      modifies this`skbs
      ensures Valid()
      ensures pos.Some? <==> PullSkb(old(skbs[k]), len).Some?
      ensures pos.Some? ==> skbs == old(skbs)[k := PullSkb(old(skbs[k]), len).value] && pos.value == skbs[k].data
      ensures pos.None? ==> skbs == old(skbs)
    {
      hide HeapOk;
      var skb := skbs[k];
      ShapedAt(Snap(), callers, k);
      if !ValidBounds(skb) || len > skb.len { return None; }
      MoveWindowOk(Snap(), callers, k, skb.(data := skb.data + len, len := skb.len - len));
      skbs := skbs[k := skb.(data := skb.data + len, len := skb.len - len)];
      pos := Some(skb.data + len);
    }

    method Reserve(k: SkbId, len: nat)
      requires Valid() && k in skbs
      modifies this`skbs
      ensures Valid() && skbs == old(skbs)[k := ReserveSkb(old(skbs[k]), len)]
    {
      hide HeapOk;
      var skb := skbs[k];
      ShapedAt(Snap(), callers, k);
      if !ValidBounds(skb) || len > skb.end - skb.tail { return; }
      MoveWindowOk(Snap(), callers, k, skb.(data := skb.data + len, tail := skb.tail + len));
      skbs := skbs[k := skb.(data := skb.data + len, tail := skb.tail + len)];
    }

    /** skb_trim (skbuff.h:576-594): the prefix stays, fragments that are no longer needed are given back, others are as they were. */
    method Trim(k: SkbId, len: nat)
      requires Valid() && k in skbs && (ValidBounds(skbs[k]) ==> SkbOk(pages, skbs[k]))
      modifies this`pages, this`registry, this`callers, this`skbs
      ensures Valid() && callers == old(callers) && skbs == old(skbs)[k := TrimSkb(old(skbs[k]), len)]
      ensures PagesKept(mem, old(pages), mem, pages)
      ensures OthersKept(mem, old(pages), old(skbs), mem, pages, skbs, k)
    {
      hide HeapOk, PagesOk, PagesKept, RefsOk, SkbOk, OthersKept, Content;
      HeapPages(Snap(), callers);
      KeptByNothing(mem, pages);
      ghost var pages0, skbs0 := pages, skbs;
      var skb := skbs[k];
      ShapedAt(Snap(), callers, k);
      if ValidBounds(skb) && len <= skb.len {
        OkBounds(pages, skb);
        OkShape(pages, skb);
        var linear := skb.len - skb.dataLen;
        if len < linear {
          ShapeTidy(pages, skb);
          ReleaseFrags(k);
          linear := len;
        } else if len < skb.len {
          MoveWindowOk(Snap(), callers, k, skb.(dataLen := skb.dataLen - (skb.len - len)));
          skbs := skbs[k := skb.(dataLen := skb.dataLen - (skb.len - len))];
        }
        var off := skb.data - skb.head;
        ShapedAt(Snap(), callers, k);
        MoveWindowOk(Snap(), callers, k, skbs[k].(len := len, tail := off + linear));
        skbs := skbs[k := skbs[k].(len := len, tail := off + linear)];
      }
      HeapPages(Snap(), callers);
      OthersFrom(mem, pages0, skbs0, mem, pages, skbs, callers, k);
    }

    /** skb_add_rx_frag (skbuff.h:474-491) takes the caller's reference to `page`; the books balance
        afterwards if and only if slot `i` was empty. */
    method AddRxFrag(k: SkbId, i: int, page: PageId, off: int, size: int)
      requires Valid() && k in skbs && page in callers && page in pages
      modifies this`skbs, this`callers
      ensures skbs == old(skbs)[k := AddFragSkb(old(skbs[k]), i, page, off, size)]
      ensures var taken := 0 <= i < MAX_FRAGS && 0 <= off && 0 <= size;
              && callers == (if taken then old(callers) - multiset{page} else old(callers))
              && (Valid() <==> !taken || old(skbs[k].frags[i].page.None?))
    {
      ShapedAt(Snap(), callers, k);
      if i < 0 || i >= MAX_FRAGS || off < 0 || size < 0 {
        assert skbs == skbs[k := skbs[k]];
        return;
      }
      ghost var before := Snap();
      ghost var all := callers;
      skbs := skbs[k := AddFragSkb(skbs[k], i, page, off, size)];
      callers := callers - multiset{page};
      OverwriteOk(before, all, k, i, page, off, size);
    }
  }
}
