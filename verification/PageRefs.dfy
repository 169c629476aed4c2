/** Who refers to a page: head and fragment slots of buffers, and callers. */
module PageRefs {
  import opened Basics
  import opened PacketMemory

  const HEAD_SLOT: nat := 8

  predicate Shaped(skbs: map<SkbId, Skb>) {
    forall k <- skbs :: |skbs[k].frags| == MAX_FRAGS
  }

  function SlotPage(skb: Skb, i: nat): Option<PageId>
    requires |skb.frags| == MAX_FRAGS && i <= HEAD_SLOT
  {
    if i == HEAD_SLOT then skb.headPage else skb.frags[i].page
  }

  predicate Names(skbs: map<SkbId, Skb>, k: SkbId, i: nat, p: PageId)
    requires Shaped(skbs)
  {
    k in skbs && i <= HEAD_SLOT && SlotPage(skbs[k], i) == Some(p)
  }

  /** The slots that name page `p`. */
  function Slots(skbs: map<SkbId, Skb>, p: PageId): set<(SkbId, nat)>
    requires Shaped(skbs)
  {
    set k <- skbs.Keys, i: nat | i <= HEAD_SLOT && Names(skbs, k, i, p) :: (k, i)
  }

  /** lcompat_refcnt is the number of slots that name the page plus the references callers hold, and it is positive. */
  predicate Counted(pages: map<PageId, Page>, skbs: map<SkbId, Skb>, callers: multiset<PageId>, p: PageId)
    requires Shaped(skbs) && p in pages
  {
    0 < pages[p].refs == |Slots(skbs, p)| + callers[p]
  }

  /** No slot and no caller refers to a page that is gone. */
  predicate NoneDangling(pages: map<PageId, Page>, skbs: map<SkbId, Skb>, callers: multiset<PageId>)
    requires Shaped(skbs)
  {
    && (forall k <- skbs, i: nat | i <= HEAD_SLOT && SlotPage(skbs[k], i).Some? :: SlotPage(skbs[k], i).value in pages)
    && (forall p <- callers :: p in pages)
  }

  predicate RefsOk(pages: map<PageId, Page>, skbs: map<SkbId, Skb>, callers: multiset<PageId>) {
    && Shaped(skbs) && NoneDangling(pages, skbs, callers)
    && (forall p <- pages :: Counted(pages, skbs, callers, p))
  }

  // ----- get_page and put_page (page_pool.c:78-89)

  function Got(pages: map<PageId, Page>, p: PageId): map<PageId, Page>
    requires p in pages
  {
    pages[p := pages[p].(refs := pages[p].refs + 1)]
  }

  function Dropped(pages: map<PageId, Page>, p: PageId): map<PageId, Page>
    requires p in pages
  {
    if pages[p].refs == 1 then pages - {p} else pages[p := pages[p].(refs := pages[p].refs - 1)]
  }

  lemma GetKeeps(pages: map<PageId, Page>, skbs: map<SkbId, Skb>, callers: multiset<PageId>, p: PageId)
    requires RefsOk(pages, skbs, callers) && p in pages
    ensures RefsOk(Got(pages, p), skbs, callers + multiset{p})
  {
    hide Slots;
    forall q <- Got(pages, p) ensures Counted(Got(pages, p), skbs, callers + multiset{p}, q) {
      assert Counted(pages, skbs, callers, q);
    }
  }

  lemma PutKeeps(pages: map<PageId, Page>, skbs: map<SkbId, Skb>, callers: multiset<PageId>, p: PageId)
    requires RefsOk(pages, skbs, callers) && p in callers && p in pages
    ensures RefsOk(Dropped(pages, p), skbs, callers - multiset{p})
  {
    var pages' := Dropped(pages, p);
    assert Counted(pages, skbs, callers, p);
    forall q <- pages' ensures Counted(pages', skbs, callers - multiset{p}, q) {
      assert Counted(pages, skbs, callers, q);
    }
    if pages[p].refs == 1 {
      NoSlots(skbs, p);
    }
  }

  lemma NoSlots(skbs: map<SkbId, Skb>, p: PageId)
    requires Shaped(skbs) && |Slots(skbs, p)| == 0
    ensures forall k <- skbs, i: nat | i <= HEAD_SLOT :: SlotPage(skbs[k], i) != Some(p)
  {
    forall k <- skbs, i: nat | i <= HEAD_SLOT
      ensures SlotPage(skbs[k], i) != Some(p)
    {
      assert Names(skbs, k, i, p) <==> (k, i) in Slots(skbs, p);
    }
  }

  // ----- what happens to slots

  /** Slot `i` of buffer `k` goes from `was` to `now`, all other slots stay. */
  predicate SlotMove(skb: Skb, skb': Skb, i: nat, was: Option<PageId>, now: Option<PageId>) {
    && |skb.frags| == MAX_FRAGS && |skb'.frags| == MAX_FRAGS && i <= HEAD_SLOT
    && SlotPage(skb, i) == was && SlotPage(skb', i) == now
    && forall j: nat | j <= HEAD_SLOT && j != i :: SlotPage(skb', j) == SlotPage(skb, j)
  }

  lemma SlotsAfter(skbs: map<SkbId, Skb>, k: SkbId, skb': Skb, i: nat, was: Option<PageId>, now: Option<PageId>, p: PageId)
    requires Shaped(skbs) && k in skbs && SlotMove(skbs[k], skb', i, was, now)
    ensures Shaped(skbs[k := skb'])
    ensures Slots(skbs[k := skb'], p) == if now == Some(p) then Slots(skbs, p) + {(k, i)} else Slots(skbs, p) - {(k, i)}
    ensures (k, i) in Slots(skbs, p) <==> was == Some(p)
  {
    var skbs' := skbs[k := skb'];
    forall l <- skbs, j: nat | j <= HEAD_SLOT && (l, j) != (k, i)
      ensures Names(skbs', l, j, p) <==> Names(skbs, l, j, p)
    {
    }
  }

  /** A slot gives its reference to the caller. */
  lemma EmptySlot(pages: map<PageId, Page>, skbs: map<SkbId, Skb>, callers: multiset<PageId>, k: SkbId, skb': Skb, i: nat, p: PageId)
    requires RefsOk(pages, skbs, callers) && k in skbs && SlotMove(skbs[k], skb', i, Some(p), None)
    ensures p in pages && RefsOk(pages, skbs[k := skb'], callers + multiset{p})
  {
    hide Slots;
    var skbs' := skbs[k := skb'];
    assert SlotPage(skbs[k], i).value in pages;
    forall q <- pages
      ensures Shaped(skbs') && Counted(pages, skbs', callers + multiset{p}, q)
    {
      SlotsAfter(skbs, k, skb', i, Some(p), None, q);
      assert Counted(pages, skbs, callers, q);
    }
    forall l <- skbs', j: nat | j <= HEAD_SLOT && SlotPage(skbs'[l], j).Some?
      ensures SlotPage(skbs'[l], j).value in pages
    {
      assert SlotPage(skbs[l], j) == SlotPage(skbs'[l], j);
    }
  }

  /** A caller gives its reference to an empty slot. */
  lemma FillSlot(pages: map<PageId, Page>, skbs: map<SkbId, Skb>, callers: multiset<PageId>, k: SkbId, skb': Skb, i: nat, p: PageId)
    requires RefsOk(pages, skbs, callers) && k in skbs && p in callers && SlotMove(skbs[k], skb', i, None, Some(p))
    ensures RefsOk(pages, skbs[k := skb'], callers - multiset{p})
  {
    hide Slots;
    var skbs' := skbs[k := skb'];
    forall q <- pages
      ensures Shaped(skbs') && Counted(pages, skbs', callers - multiset{p}, q)
    {
      SlotsAfter(skbs, k, skb', i, None, Some(p), q);
      assert Counted(pages, skbs, callers, q);
    }
    forall l <- skbs', j: nat | j <= HEAD_SLOT && SlotPage(skbs'[l], j).Some?
      ensures SlotPage(skbs'[l], j).value in pages
    {
      if (l, j) != (k, i) { assert SlotPage(skbs[l], j) == SlotPage(skbs'[l], j); }
    }
  }

  /** No slot changes. */
  lemma SameSlots(pages: map<PageId, Page>, skbs: map<SkbId, Skb>, callers: multiset<PageId>, k: SkbId, skb': Skb)
    requires RefsOk(pages, skbs, callers) && k in skbs && |skb'.frags| == MAX_FRAGS
    requires forall j: nat | j <= HEAD_SLOT :: SlotPage(skb', j) == SlotPage(skbs[k], j)
    ensures RefsOk(pages, skbs[k := skb'], callers)
  {
    var skbs' := skbs[k := skb'];
    forall q <- pages ensures Counted(pages, skbs', callers, q) {
      assert Slots(skbs', q) == Slots(skbs, q);
      assert Counted(pages, skbs, callers, q);
    }
  }

  predicate Bare(skb: Skb) {
    |skb.frags| == MAX_FRAGS && forall j: nat | j <= HEAD_SLOT :: SlotPage(skb, j) == None
  }

  /** A buffer that names no page comes into being, or goes. */
  lemma AddBare(pages: map<PageId, Page>, skbs: map<SkbId, Skb>, callers: multiset<PageId>, k: SkbId, skb: Skb)
    requires RefsOk(pages, skbs, callers) && k !in skbs && Bare(skb)
    ensures RefsOk(pages, skbs[k := skb], callers)
  {
    var skbs' := skbs[k := skb];
    forall q <- pages ensures Counted(pages, skbs', callers, q) {
      assert Slots(skbs', q) == Slots(skbs, q);
      assert Counted(pages, skbs, callers, q);
    }
  }

  lemma RemoveBare(pages: map<PageId, Page>, skbs: map<SkbId, Skb>, callers: multiset<PageId>, k: SkbId)
    requires RefsOk(pages, skbs, callers) && k in skbs && Bare(skbs[k])
    ensures RefsOk(pages, skbs - {k}, callers)
  {
    var skbs' := skbs - {k};
    forall q <- pages ensures Counted(pages, skbs', callers, q) {
      assert Slots(skbs', q) == Slots(skbs, q);
      assert Counted(pages, skbs, callers, q);
    }
  }

  /** A new page starts with the caller's reference. */
  lemma AddPage(pages: map<PageId, Page>, skbs: map<SkbId, Skb>, callers: multiset<PageId>, p: PageId, page: Page)
    requires RefsOk(pages, skbs, callers) && p !in pages && page.refs == 1
    ensures RefsOk(pages[p := page], skbs, callers + multiset{p})
  {
    var pages' := pages[p := page];
    assert forall k <- skbs, i: nat | i <= HEAD_SLOT :: !Names(skbs, k, i, p);
    assert Slots(skbs, p) == {};
    forall q <- pages' ensures Counted(pages', skbs, callers + multiset{p}, q) {
      if q != p { assert Counted(pages, skbs, callers, q); }
    }
  }

  // ----- overwriting a slot

  /** Storing a caller's page into a slot keeps the books if and only if the slot was empty:
      otherwise the page it named keeps a reference that nobody holds. */
  lemma OverwriteLeaks(pages: map<PageId, Page>, skbs: map<SkbId, Skb>, callers: multiset<PageId>, k: SkbId, skb': Skb, i: nat,
                       was: Option<PageId>, p: PageId)
    requires RefsOk(pages, skbs, callers) && k in skbs && p in callers && SlotMove(skbs[k], skb', i, was, Some(p))
    ensures RefsOk(pages, skbs[k := skb'], callers - multiset{p}) <==> was == None
  {
    if was == None {
      FillSlot(pages, skbs, callers, k, skb', i, p);
    } else {
      var q := was.value;
      assert SlotPage(skbs[k], i).value in pages;
      SlotsAfter(skbs, k, skb', i, was, Some(p), q);
      assert Counted(pages, skbs, callers, q);
      assert Shaped(skbs[k := skb']) && !Counted(pages, skbs[k := skb'], callers - multiset{p}, q);
    }
  }
}
