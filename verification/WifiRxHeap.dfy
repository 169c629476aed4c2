/** The data half of the receive path on the heap of pages and socket buffers (mac80211.c:1964-2149, 2348-2361). */
module WifiRxHeap {
  import opened Basics
  import opened PacketMemory
  import opened PageRefs
  import opened SkbWindow
  import opened PacketHeap
  import opened WifiFrames
  import opened WifiTx
  import opened WifiRx

  // ----- what stays

  /** No slot of this buffer names the page. */
  predicate Avoids(skb: Skb, p: PageId) {
    |skb.frags| == MAX_FRAGS && forall i: nat | i <= HEAD_SLOT :: SlotPage(skb, i) != Some(p)
  }

  ghost predicate SameIn(was: Heap, now: Heap, j: SkbId)
    requires PagesOk(was.mem, was.pages) && PagesOk(now.mem, now.pages) && j in was.skbs && SkbOk(was.pages, was.skbs[j])
  {
    && j in now.skbs && now.skbs[j] == was.skbs[j] && SkbOk(now.pages, now.skbs[j])
    && Content(now.mem, now.pages, now.skbs[j]) == Content(was.mem, was.pages, was.skbs[j])
  }

  /** Every usable buffer is still there with the same content. */
  ghost predicate AllKept(was: Heap, now: Heap) {
    && PagesOk(was.mem, was.pages) && PagesOk(now.mem, now.pages)
    && forall j <- was.skbs | SkbOk(was.pages, was.skbs[j]) :: SameIn(was, now, j)
  }

  /** Every usable buffer but `k` that does not share the page is still there with the same content. */
  ghost predicate KeptBut(was: Heap, now: Heap, k: SkbId, p: PageId) {
    && PagesOk(was.mem, was.pages) && PagesOk(now.mem, now.pages)
    && forall j <- was.skbs | j != k && Avoids(was.skbs[j], p) && SkbOk(was.pages, was.skbs[j]) :: SameIn(was, now, j)
  }

  lemma AllKeptTrans(a: Heap, b: Heap, c: Heap)
    requires AllKept(a, b) && AllKept(b, c)
    ensures AllKept(a, c)
  {
    hide PagesOk, SkbOk, Content;
    forall j <- a.skbs | SkbOk(a.pages, a.skbs[j])
      ensures SameIn(a, c, j)
    {
      assert SameIn(a, b, j) && SameIn(b, c, j);
    }
  }

  lemma NewOneKeeps(was: Heap, now: Heap, k: SkbId)
    requires OthersKept(was.mem, was.pages, was.skbs, now.mem, now.pages, now.skbs, k) && k !in was.skbs
    ensures AllKept(was, now)
  {
    hide PagesOk, SkbOk, Content;
  }

  lemma StartKept(h: Heap)
    requires PagesOk(h.mem, h.pages)
    ensures AllKept(h, h)
  {
    hide PagesOk, SkbOk, Content;
  }

  lemma LinearContent(mem: seq<Byte>, pages: map<PageId, Page>, skb: Skb)
    requires PagesOk(mem, pages) && SkbOk(pages, skb) && skb.dataLen == 0
    ensures LinearIn(mem, skb) && Content(mem, pages, skb) == Linear(mem, skb) && Headlen(skb) == skb.len
  {
  }

  // ----- one subframe

  /** lcompat_ieee80211_build_eth_skb (mac80211.c:2066-2105): a new buffer with the Ethernet frame of the subframe. */
  method BuildEthSkb(heap: PacketHeap, m: Msdu) returns (r: Option<SkbId>)
    requires heap.Valid()
    modifies heap
    ensures heap.Valid() && heap.callers == old(heap.callers)
    ensures EthFrame(m).None? ==> r.None?
    ensures r.None? ==> heap.Snap() == old(heap.Snap())
    ensures r.Some? ==>
              && r.value !in old(heap.skbs) && r.value in heap.skbs && heap.skbs == old(heap.skbs)[r.value := heap.skbs[r.value]]
              && IsLinear(heap, r.value) && EthFrame(m).Some? && Content(heap.mem, heap.pages, heap.skbs[r.value]) == EthFrame(m).value
              && OthersKept(old(heap.mem), old(heap.pages), old(heap.skbs), heap.mem, heap.pages, heap.skbs, r.value)
  {
    hide HeapOk, PagesOk, SkbOk, Content, PagesKept, OnlyOwn, OthersKept, SnapType;
    ghost var was := heap.Snap();
    HeapPages(was, heap.callers);
    if SnapType(m.body).None? { return None; }
    SnapLong(m.body);
    var n := |m.body| - SNAP_LEN;
    if n > UINT_MAX - ETH_HLEN { return None; }
    r := heap.AllocSkb(ETH_HLEN + n);
    if r.None? { return None; }
    var k := r.value;
    HeapPages(heap.Snap(), heap.callers);
    EmptyContent(heap.mem, heap.pages, heap.skbs[k]);
    ghost var head, mem1 := heap.skbs[k].headPage, heap.mem;
    var ok := PutData(heap, k, m.dst + m.src + m.body[6..8]);
    if !ok { assert false; }
    if n != 0 {
      ghost var mem2 := heap.mem;
      ContentLen(heap.mem, heap.pages, heap.skbs[k]);
      ok := PutData(heap, k, m.body[SNAP_LEN..]);
      if !ok { assert false; }
      OnlyOwnTrans(mem1, mem2, heap.mem, heap.pages, head);
    }
    OwnKept(was, mem1, heap.Snap(), heap.callers, k);
  }

  lemma SnapLong(body: seq<Byte>)
    requires SnapType(body).Some?
    ensures |body| >= SNAP_LEN
  {
  }

  // ----- the subframes of an A-MSDU

  /** The buffers hold these frames, in order. */
  ghost predicate Holds(h: Heap, queue: seq<SkbId>, frames: seq<seq<Byte>>) {
    && PagesOk(h.mem, h.pages) && |queue| == |frames|
    && forall i | 0 <= i < |queue| ::
         queue[i] in h.skbs && SkbOk(h.pages, h.skbs[queue[i]]) && Content(h.mem, h.pages, h.skbs[queue[i]]) == frames[i]
  }

  /** The heap has gained exactly these buffers, each of them once. */
  ghost predicate Gained(was: Heap, now: Heap, queue: seq<SkbId>) {
    && now.skbs.Keys == was.skbs.Keys + (set q <- queue) && (forall q <- queue :: q !in was.skbs)
    && forall i, j | 0 <= i < j < |queue| :: queue[i] != queue[j]
  }

  lemma HoldsMore(was: Heap, now: Heap, queue: seq<SkbId>, frames: seq<seq<Byte>>, k: SkbId, frame: seq<Byte>)
    requires Holds(was, queue, frames) && AllKept(was, now)
    requires k in now.skbs && SkbOk(now.pages, now.skbs[k]) && PagesOk(now.mem, now.pages) && Content(now.mem, now.pages, now.skbs[k]) == frame
    ensures Holds(now, queue + [k], frames + [frame])
  {
    hide PagesOk, SkbOk, Content;
    forall i | 0 <= i < |queue|
      ensures SameIn(was, now, queue[i])
    {
    }
  }

  lemma GainedMore(h0: Heap, was: Heap, now: Heap, queue: seq<SkbId>, k: SkbId)
    requires Gained(h0, was, queue) && k !in was.skbs && now.skbs.Keys == was.skbs.Keys + {k}
    ensures Gained(h0, now, queue + [k])
  {
  }

  lemma {:induction false} LaterFailure(ms: seq<Msdu>, failed: set<nat>, n: nat)
    requires |ms| <= n
    ensures Delivered(ms, failed + {n}) == Delivered(ms, failed)
  {
    hide EthFrame;
    if ms != [] { LaterFailure(ms[..|ms| - 1], failed, n); }
  }

  lemma StillFrame(was: Heap, now: Heap, k: SkbId, frame: seq<Byte>)
    requires AllKept(was, now) && k in was.skbs && SkbOk(was.pages, was.skbs[k]) && was.skbs[k].dataLen == 0
    requires Content(was.mem, was.pages, was.skbs[k]) == frame
    ensures k in now.skbs && SkbOk(now.pages, now.skbs[k]) && PagesOk(now.mem, now.pages) && now.skbs[k] == was.skbs[k]
    ensures LinearIn(now.mem, now.skbs[k]) && Linear(now.mem, now.skbs[k]) == frame == Content(now.mem, now.pages, now.skbs[k])
  {
    hide PagesOk, SkbOk, Content, Linear, LinearIn;
    assert SameIn(was, now, k);
    LinearContent(now.mem, now.pages, now.skbs[k]);
  }

  /** lcompat_ieee80211_enqueue_amsdu on the heap: a new buffer for each subframe with a known header, in order, but for those
      whose allocation fails.  Nothing else changes, the buffer with the A-MSDU included. */
  method EnqueueAmsdu(heap: PacketHeap, k: SkbId, hdrLen: nat) returns (queue: seq<SkbId>, ghost failed: set<nat>)
    requires IsLinear(heap, k) && hdrLen <= heap.skbs[k].len
    modifies heap
    ensures heap.Valid() && heap.callers == old(heap.callers)
    ensures Holds(heap.Snap(), queue, Delivered(Subframes(old(Content(heap.mem, heap.pages, heap.skbs[k]))[hdrLen..]), failed))
    ensures Gained(old(heap.Snap()), heap.Snap(), queue) && AllKept(old(heap.Snap()), heap.Snap())
  {
    hide HeapOk, PagesOk, SkbOk, Content, Subframes, Padded, EthFrame, Delivered, Be16, AllKept, Holds, Gained, Linear, LinearIn,
         OthersKept, RefsOk;
    ghost var h0 := heap.Snap();
    ghost var frame := Content(heap.mem, heap.pages, heap.skbs[k]);
    ghost var all := Subframes(frame[hdrLen..]);
    ghost var seen: seq<Msdu> := [];
    ghost var more := true;
    queue, failed := [], {};
    StartKept(h0);
    NothingHeld(h0);
    NoneDelivered(failed);
    var pos, remaining := hdrLen, heap.skbs[k].len - hdrLen;
    while remaining >= ETH_HLEN
      invariant 0 <= pos && 0 <= remaining && pos + remaining == |frame| && more && all == seen + Subframes(frame[pos..])
      invariant heap.Valid() && heap.callers == old(heap.callers) && AllKept(h0, heap.Snap())
      invariant Holds(heap.Snap(), queue, Delivered(seen, failed)) && Gained(h0, heap.Snap(), queue)
      invariant forall i <- failed :: i < |seen|
      decreases remaining
    {
      StillFrame(h0, heap.Snap(), k, frame);
      var bytes := Linear(heap.mem, heap.skbs[k]);
      OneSubframe(frame, pos);
      var dst, src := bytes[pos..pos + 6], bytes[pos + 6..pos + 12];
      var n := Be16(bytes[pos + 12], bytes[pos + 13]);
      pos := pos + ETH_HLEN;
      remaining := remaining - ETH_HLEN;
      if n == 0 || n > remaining {
        assert all == seen;
        more := false;
        break;
      }
      var m := Msdu(dst, src, bytes[pos..pos + n]);
      queue, failed := OneMore(heap, m, queue, h0, seen, failed);
      seen := seen + [m];
      var step := Padded(ETH_HLEN + n) - ETH_HLEN;
      if step > remaining {
        assert all == seen;
        more := false;
        break;
      }
      assert all == seen + Subframes(frame[pos + step..]);
      pos := pos + step;
      remaining := remaining - step;
    }
    if more {
      Short(frame, pos);
      assert all == seen;
    }
  }

  lemma NothingHeld(h: Heap)
    requires PagesOk(h.mem, h.pages)
    ensures Holds(h, [], []) && Gained(h, h, [])
  {
    hide PagesOk;
  }

  /** One subframe is put into a buffer of its own and the buffer on the queue. */
  method OneMore(heap: PacketHeap, m: Msdu, queue: seq<SkbId>, ghost h0: Heap, ghost seen: seq<Msdu>, ghost failed: set<nat>)
    returns (queue': seq<SkbId>, ghost failed': set<nat>)
    requires heap.Valid() && AllKept(h0, heap.Snap()) && Gained(h0, heap.Snap(), queue) && Holds(heap.Snap(), queue, Delivered(seen, failed))
    requires forall i <- failed :: i < |seen|
    modifies heap
    ensures heap.Valid() && heap.callers == old(heap.callers) && AllKept(h0, heap.Snap()) && Gained(h0, heap.Snap(), queue')
    ensures Holds(heap.Snap(), queue', Delivered(seen + [m], failed')) && forall i <- failed' :: i < |seen + [m]|
  {
    hide HeapOk, PagesOk, SkbOk, Content, EthFrame, Delivered, AllKept, Holds, Gained, OthersKept;
    ghost var h1 := heap.Snap();
    var skb := BuildEthSkb(heap, m);
    queue', failed' := queue, failed;
    if skb.Some? {
      NewOneKeeps(h1, heap.Snap(), skb.value);
      AllKeptTrans(h0, h1, heap.Snap());
      HoldsMore(h1, heap.Snap(), queue, Delivered(seen, failed), skb.value, EthFrame(m).value);
      GainedMore(h0, h1, heap.Snap(), queue, skb.value);
      queue' := queue + [skb.value];
    } else if EthFrame(m).Some? {
      LaterFailure(seen, failed, |seen|);
      failed' := failed + {|seen|};
    }
    DeliveredSnoc(seen, m, failed');
    assert skb.None? ==> Delivered(seen + [m], failed') == Delivered(seen, failed') + [] == Delivered(seen, failed');
  }

  // ----- the frame itself

  lemma OthersAreKept(was: Heap, now: Heap, k: SkbId, p: PageId)
    requires OthersKept(was.mem, was.pages, was.skbs, now.mem, now.pages, now.skbs, k)
    ensures KeptBut(was, now, k, p)
  {
    hide PagesOk, SkbOk, Content, Avoids;
  }

  lemma AllAreKept(was: Heap, now: Heap, k: SkbId, p: PageId)
    requires AllKept(was, now)
    ensures KeptBut(was, now, k, p)
  {
    hide PagesOk, SkbOk, Content, Avoids, SameIn;
  }

  lemma KeptButTrans(a: Heap, b: Heap, c: Heap, k: SkbId, p: PageId)
    requires KeptBut(a, b, k, p) && KeptBut(b, c, k, p)
    ensures KeptBut(a, c, k, p)
  {
    hide PagesOk, SkbOk, Content, Avoids;
    forall j <- a.skbs | j != k && Avoids(a.skbs[j], p) && SkbOk(a.pages, a.skbs[j])
      ensures SameIn(a, c, j)
    {
      assert SameIn(a, b, j) && SameIn(b, c, j);
    }
  }

  /** Writing into page `p` alone does not touch a buffer that avoids it. */
  lemma WriteKeeps(was: Heap, now: Heap, callers: multiset<PageId>, k: SkbId, p: PageId)
    requires HeapOk(was, callers) && p in was.pages && OnlyIn(was.mem, now.mem, was.pages[p]) && now == was.(mem := now.mem)
    ensures KeptBut(was, now, k, p)
  {
    hide PagesOk, RefsOk, RegistryOk, OnlyIn, SamePage, Content;
    OtherPages(was.mem, was.pages, now.mem, p);
    forall j <- was.skbs | j != k && Avoids(was.skbs[j], p) && SkbOk(was.pages, was.skbs[j])
      ensures SameIn(was, now, j)
    {
      AvoidsAll(was.pages, was.skbs[j], p);
      ContentSame(was.mem, was.pages, now.mem, now.pages, was.skbs[j]);
    }
  }

  lemma AvoidsAll(pages: map<PageId, Page>, skb: Skb, p: PageId)
    requires SkbOk(pages, skb) && Avoids(skb, p)
    ensures skb.headPage.Some? && skb.headPage.value in pages && skb.headPage.value != p
    ensures forall f <- Used(skb) :: FragOk(pages, f) && f.page.value != p
  {
    assert SlotPage(skb, HEAD_SLOT) == skb.headPage;
    forall f <- Used(skb)
      ensures FragOk(pages, f) && f.page.value != p
    {
      var i: nat :| i < skb.nrFrags && f == skb.frags[i];
      assert SlotPage(skb, i) == f.page;
    }
  }

  /** A page with one reference is named by one slot: a buffer that is its only user shares it with nobody. */
  lemma SoleOwner(h: Heap, callers: multiset<PageId>, k: SkbId, p: PageId)
    requires HeapOk(h, callers) && k in h.skbs && h.skbs[k].headPage == Some(p) && p in h.pages && h.pages[p].refs == 1
    ensures forall j <- h.skbs | j != k :: Avoids(h.skbs[j], p)
  {
    hide PagesOk, RegistryOk;
    assert Counted(h.pages, h.skbs, callers, p);
    assert PageRefs.Names(h.skbs, k, HEAD_SLOT, p) && (k, HEAD_SLOT) in Slots(h.skbs, p);
    forall j <- h.skbs, i: nat | j != k && i <= HEAD_SLOT
      ensures SlotPage(h.skbs[j], i) != Some(p)
    {
      if SlotPage(h.skbs[j], i) == Some(p) {
        assert PageRefs.Names(h.skbs, j, i, p) && (j, i) in Slots(h.skbs, p);
        assert {(k, HEAD_SLOT), (j, i)} <= Slots(h.skbs, p);
        SubsetSize({(k, HEAD_SLOT), (j, i)}, Slots(h.skbs, p));
      }
    }
  }

  lemma {:induction false} SubsetSize<T>(a: set<T>, b: set<T>)
    requires a <= b
    ensures |a| <= |b|
  {
    if a != {} {
      var x :| x in a;
      SubsetSize(a - {x}, b - {x});
    }
  }

  /** skb_trim of a linear buffer. */
  method TrimTo(heap: PacketHeap, k: SkbId, len: nat)
    requires IsLinear(heap, k) && len <= heap.skbs[k].len
    modifies heap
    ensures IsLinear(heap, k) && heap.callers == old(heap.callers) && heap.skbs == old(heap.skbs)[k := heap.skbs[k]]
    ensures Content(heap.mem, heap.pages, heap.skbs[k]) == old(Content(heap.mem, heap.pages, heap.skbs[k]))[..len]
    ensures heap.skbs[k].headPage == old(heap.skbs[k].headPage) && heap.skbs[k].len == len
    ensures OthersKept(old(heap.mem), old(heap.pages), old(heap.skbs), heap.mem, heap.pages, heap.skbs, k)
  {
    hide HeapOk, PagesOk, SkbOk, Content, PagesKept, OthersKept, TrimSkb, RefsOk;
    ghost var pages0, skb := heap.pages, heap.skbs[k];
    TrimKeepsPrefix(heap.mem, heap.pages, skb, len);
    TrimLinearFacts(heap.pages, skb, len);
    heap.Trim(k, len);
    HeapPages(heap.Snap(), heap.callers);
    StaysUsable(heap.mem, pages0, heap.mem, heap.pages, heap.skbs, heap.callers, k);
  }

  lemma TrimLinearFacts(pages: map<PageId, Page>, skb: Skb, len: nat)
    requires SkbOk(pages, skb) && skb.dataLen == 0 && len <= skb.len
    ensures var skb' := TrimSkb(skb, len); skb'.headPage == skb.headPage && skb'.len == len && skb'.dataLen == 0
  {
  }

  /** The pages a buffer names are there, with what they held. */
  lemma StaysUsable(mem: seq<Byte>, pages: map<PageId, Page>, mem': seq<Byte>, pages': map<PageId, Page>, skbs: map<SkbId, Skb>,
                    callers: multiset<PageId>, k: SkbId)
    requires PagesOk(mem, pages) && PagesOk(mem', pages') && PagesKept(mem, pages, mem', pages') && RefsOk(pages', skbs, callers)
    requires k in skbs && SkbOk(pages, skbs[k])
    ensures SkbOk(pages', skbs[k]) && Content(mem', pages', skbs[k]) == Content(mem, pages, skbs[k])
  {
    hide PagesOk, RefsOk, SamePage, Content;
    NamedAreThere(pages', skbs, callers, k);
    ContentSame(mem, pages, mem', pages', skbs[k]);
  }

  /** The payload moved up to a new header, and the header written before it. */
  lemma Rewritten(mem: seq<Byte>, at: nat, head: seq<Byte>, from: nat, n: nat)
    requires at + |head| <= from && from + n <= |mem|
    ensures var moved := Blit(mem, at + |head|, mem[from..from + n]);
            Blit(moved, at, head)[at..at + |head| + n] == head + mem[from..from + n]
  {
    var moved := Blit(mem, at + |head|, mem[from..from + n]);
    var done := Blit(moved, at, head);
    BlitElsewhere(moved, at, head, at + |head|, at + |head| + n);
    assert done[at..at + |head| + n] == done[at..at + |head|] + done[at + |head|..at + |head| + n];
  }

  lemma FrameParts(mem: seq<Byte>, at: nat, len: nat, a: nat)
    requires a <= len && at + len <= |mem|
    ensures mem[at..at + len][a..] == mem[at + a..at + len]
  {
  }

  /** The linear bytes lie in the head page. */
  lemma LinearPlace(h: Heap, callers: multiset<PageId>, k: SkbId)
    requires HeapOk(h, callers) && k in h.skbs && SkbOk(h.pages, h.skbs[k]) && h.skbs[k].dataLen == 0
    ensures var skb := h.skbs[k];
            && skb.headPage.Some? && skb.headPage.value in h.pages && skb.data + skb.len <= |h.mem|
            && var page := h.pages[skb.headPage.value]; page.addr <= skb.data && skb.data + skb.len <= page.addr + page.size
  {
    hide RefsOk, RegistryOk;
  }

  lemma NothingRewritten(h: Heap, callers: multiset<PageId>, k: SkbId)
    requires HeapOk(h, callers) && k in h.skbs && SkbOk(h.pages, h.skbs[k])
    ensures h.skbs[k].headPage.Some? && KeptBut(h, h, k, h.skbs[k].headPage.value)
  {
    hide RefsOk, RegistryOk, PagesOk, Content, Avoids;
  }

  /** The two writes on memory, with the place they have in the heap. */
  lemma WritesFit(h: Heap, callers: multiset<PageId>, k: SkbId, head: seq<Byte>, from: nat)
    requires HeapOk(h, callers) && k in h.skbs && SkbOk(h.pages, h.skbs[k]) && h.skbs[k].dataLen == 0 && |head| <= from <= h.skbs[k].len
    ensures var at, n := h.skbs[k].data, h.skbs[k].len - from;
            && at + from + n <= |h.mem| && h.skbs[k].headPage.Some?
            && var mem := Blit(Blit(h.mem, at + |head|, h.mem[at + from..at + from + n]), at, head);
            && |mem| == |h.mem| && HeapOk(h.(mem := mem), callers) && PagesOk(mem, h.pages)
            && KeptBut(h, h.(mem := mem), k, h.skbs[k].headPage.value)
            && Content(mem, h.pages, h.skbs[k])[..|head| + n] == head + Content(h.mem, h.pages, h.skbs[k])[from..]
  {
    hide HeapOk, PagesOk, SkbOk, Content, Blit, KeptBut, OnlyIn;
    HeapPages(h, callers);
    LinearPlace(h, callers, k);
    var skb := h.skbs[k];
    var at, n, page := skb.data, skb.len - from, h.pages[skb.headPage.value];
    var src := h.mem[at + from..at + from + n];
    var moved := Blit(h.mem, at + |head|, src);
    var mem := Blit(moved, at, head);
    BlitOk(h, callers, at + |head|, src);
    BlitOk(h.(mem := moved), callers, at, head);
    BlitOnlyIn(h.mem, at + |head|, src, page);
    BlitOnlyIn(moved, at, head, page);
    OnlyInTrans(h.mem, moved, mem, page);
    WriteKeeps(h, h.(mem := mem), callers, k, skb.headPage.value);
    HeapPages(h.(mem := mem), callers);
    LinearContent(h.mem, h.pages, skb);
    LinearContent(mem, h.pages, skb);
    Rewritten(h.mem, at, head, at + from, n);
    SliceOfSlice(mem, at, skb.len, 0, |head| + n);
    FrameParts(h.mem, at, skb.len, from);
  }

  /** The bytes from `from` on move to a new header and the buffer is trimmed to what is left. */
  method Rewrite(heap: PacketHeap, k: SkbId, head: seq<Byte>, from: nat)
    requires IsLinear(heap, k) && |head| <= from <= heap.skbs[k].len
    modifies heap
    ensures IsLinear(heap, k) && heap.callers == old(heap.callers) && heap.skbs == old(heap.skbs)[k := heap.skbs[k]]
    ensures Content(heap.mem, heap.pages, heap.skbs[k]) == head + old(Content(heap.mem, heap.pages, heap.skbs[k]))[from..]
    ensures old(heap.skbs[k].headPage).Some? && KeptBut(old(heap.Snap()), heap.Snap(), k, old(heap.skbs[k].headPage).value)
  {
    hide HeapOk, PagesOk, SkbOk, Content, KeptBut, Blit, OthersKept;
    ghost var was, skb := heap.Snap(), heap.skbs[k];
    WritesFit(was, heap.callers, k, head, from);
    var at, n := heap.skbs[k].data, heap.skbs[k].len - from;
    heap.mem := Blit(heap.mem, at + |head|, heap.mem[at + from..at + from + n]);
    heap.mem := Blit(heap.mem, at, head);
    ghost var h1 := heap.Snap();
    TrimTo(heap, k, |head| + n);
    OthersAreKept(h1, heap.Snap(), k, skb.headPage.value);
    KeptButTrans(was, h1, heap.Snap(), k, skb.headPage.value);
  }

  /** lcompat_ieee80211_data_to_ethernet on the heap (mac80211.c:1964-2026): the bytes of the buffer are rewritten where they are
      and the buffer is trimmed, or nothing happens.  A buffer that shares the head page would see it, nobody else does. */
  method DataToEthernet(heap: PacketHeap, k: SkbId) returns (ok: bool)
    requires IsLinear(heap, k)
    modifies heap
    ensures heap.Valid() && heap.callers == old(heap.callers)
    ensures ok <==> ToEthernet(old(Content(heap.mem, heap.pages, heap.skbs[k]))).Some?
    ensures ok ==>
              && IsLinear(heap, k) && heap.skbs == old(heap.skbs)[k := heap.skbs[k]]
              && Content(heap.mem, heap.pages, heap.skbs[k]) == ToEthernet(old(Content(heap.mem, heap.pages, heap.skbs[k]))).value
    ensures !ok ==> heap.Snap() == old(heap.Snap())
    ensures old(heap.skbs[k].headPage).Some? && KeptBut(old(heap.Snap()), heap.Snap(), k, old(heap.skbs[k].headPage).value)
  {
    hide HeapOk, PagesOk, SkbOk, Content, Linear, LinearIn, KeptBut, ToEthernet, SnapType, DataHdrLen, DataPresent, ToDs, FromDs,
         Protected, NewHeader, OnlyOwn, Blit;
    ghost var was := heap.Snap();
    LinearContent(heap.mem, heap.pages, heap.skbs[k]);
    NothingRewritten(was, heap.callers, k);
    var bytes := Linear(heap.mem, heap.skbs[k]);
    ConversionParts(bytes);
    if |bytes| < HDR_3ADDR + SNAP_LEN { return false; }
    var fc := Le16(bytes[0], bytes[1]);
    if Protected(fc) { return false; }
    if !DataPresent(fc) || (ToDs(fc) && FromDs(fc)) { return false; }
    var hdrLen := DataHdrLen(fc);
    if |bytes| < hdrLen + SNAP_LEN { return false; }
    if SnapType(bytes[hdrLen..]).None? { return false; }
    var head := (if ToDs(fc) then bytes[16..22] else bytes[4..10]) + (if FromDs(fc) then bytes[16..22] else bytes[10..16])
                + bytes[hdrLen + 6..hdrLen + 8];
    HeaderIs(bytes, head, bytes);
    Rewrite(heap, k, head, hdrLen + SNAP_LEN);
    ok := true;
  }

  // ----- a received buffer

  /** The received buffer `k` is gone or on the queue, and the heap has no other new buffers than those on the queue. */
  ghost predicate Settled(was: Heap, now: Heap, k: SkbId, queue: seq<SkbId>) {
    && now.skbs.Keys == was.skbs.Keys - {k} + (set q <- queue) && (forall q <- queue :: q == k || q !in was.skbs)
    && forall i, j | 0 <= i < j < |queue| :: queue[i] != queue[j]
  }

  /** dev_kfree_skb_any of the received buffer, after the subframes in `queue` were taken from it. */
  method Free(heap: PacketHeap, k: SkbId, ghost was: Heap, ghost queue: seq<SkbId>, ghost frames: seq<seq<Byte>>, ghost p: PageId)
    requires IsLinear(heap, k) && k in was.skbs && KeptBut(was, heap.Snap(), k, p)
    requires Holds(heap.Snap(), queue, frames) && Gained(was, heap.Snap(), queue)
    modifies heap
    ensures heap.Valid() && heap.callers == old(heap.callers) && KeptBut(was, heap.Snap(), k, p)
    ensures Holds(heap.Snap(), queue, frames) && Settled(was, heap.Snap(), k, queue)
  {
    hide HeapOk, PagesOk, SkbOk, Content, KeptBut, Holds, SlotsTidy, OthersKept, Gained, Settled;
    ghost var before := heap.Snap();
    OkShape(heap.pages, heap.skbs[k]);
    ShapeTidy(heap.pages, heap.skbs[k]);
    heap.KfreeSkb(k);
    OthersAreKept(before, heap.Snap(), k, p);
    KeptButTrans(was, before, heap.Snap(), k, p);
    NotAmongNew(was, before, k, queue);
    StillHeld(before, heap.Snap(), k, queue, frames);
    GainedSettles(was, before, heap.Snap(), k, queue);
  }

  lemma StillHeld(was: Heap, now: Heap, k: SkbId, queue: seq<SkbId>, frames: seq<seq<Byte>>)
    requires OthersKept(was.mem, was.pages, was.skbs, now.mem, now.pages, now.skbs, k)
    requires Holds(was, queue, frames) && k !in queue
    ensures Holds(now, queue, frames)
  {
    hide PagesOk, SkbOk, Content;
    assert forall i | 0 <= i < |queue| :: queue[i] in queue && queue[i] in was.skbs && SkbOk(was.pages, was.skbs[queue[i]]);
  }

  lemma NotAmongNew(was: Heap, now: Heap, k: SkbId, queue: seq<SkbId>)
    requires Gained(was, now, queue) && k in was.skbs
    ensures k !in queue
  {
  }

  lemma GainedSettles(was: Heap, before: Heap, now: Heap, k: SkbId, queue: seq<SkbId>)
    requires k in was.skbs && Gained(was, before, queue) && now.skbs == before.skbs - {k}
    ensures Settled(was, now, k, queue)
  {
  }

  /** A data frame from our BSS (mac80211.c:2348-2361): its subframes go on rx_queue in buffers of their own, or the buffer itself
      does with the one frame it holds, or nothing does. */
  method RxData(heap: PacketHeap, k: SkbId, own: Addr, link: Option<Addr>) returns (queue: seq<SkbId>, ghost failed: set<nat>)
    requires IsLinear(heap, k) && heap.skbs[k].len >= HDR_3ADDR
    requires var frame := Content(heap.mem, heap.pages, heap.skbs[k]); DataPresent(FrameControl(frame)) && FromOurBss(frame, own, link)
    modifies heap
    ensures heap.Valid() && heap.callers == old(heap.callers) && Settled(old(heap.Snap()), heap.Snap(), k, queue)
    ensures Holds(heap.Snap(), queue, Incoming(old(Content(heap.mem, heap.pages, heap.skbs[k])), own, link, failed))
    ensures old(heap.skbs[k].headPage).Some? && KeptBut(old(heap.Snap()), heap.Snap(), k, old(heap.skbs[k].headPage).value)
  {
    hide HeapOk, PagesOk, SkbOk, Content, Linear, LinearIn, KeptBut, AllKept, Holds, Gained, Settled, ToEthernet, Delivered, Subframes,
         Incoming, DataPresent, FromOurBss, DataHdrLen;
    ghost var was, frame := heap.Snap(), Content(heap.mem, heap.pages, heap.skbs[k]);
    NothingRewritten(was, heap.callers, k);
    ghost var p := heap.skbs[k].headPage.value;
    LinearContent(heap.mem, heap.pages, heap.skbs[k]);
    var bytes := Linear(heap.mem, heap.skbs[k]);
    var hdrLen := DataHdrLen(FrameControl(bytes));
    failed := {};
    NothingHeld(was);
    StartKept(was);
    if IsAmsdu(bytes, hdrLen) {
      queue, failed := EnqueueAmsdu(heap, k, hdrLen);
      StillFrame(was, heap.Snap(), k, frame);
      AllAreKept(was, heap.Snap(), k, p);
      if queue != [] {
        HeldCount(heap.Snap(), queue, Parts(frame, failed));
        IncomingData(frame, own, link, failed);
        Free(heap, k, was, queue, Parts(frame, failed), p);
        return;
      }
      HeldCount(heap.Snap(), queue, Parts(frame, failed));
      NothingGained(was, heap.Snap());
    }
    IncomingData(frame, own, link, failed);
    queue := Convert(heap, k, was, frame, p);
  }

  lemma HeldCount(h: Heap, queue: seq<SkbId>, frames: seq<seq<Byte>>)
    requires Holds(h, queue, frames)
    ensures |queue| == |frames|
  {
  }

  lemma NothingGained(was: Heap, now: Heap)
    requires Gained(was, now, [])
    ensures now.skbs.Keys == was.skbs.Keys
  {
  }

  lemma NoneNew(was: Heap, now: Heap)
    requires PagesOk(now.mem, now.pages) && now.skbs.Keys == was.skbs.Keys
    ensures Holds(now, [], []) && Gained(was, now, [])
  {
    hide PagesOk;
  }

  lemma OneHeld(was: Heap, now: Heap, k: SkbId, frame: seq<Byte>)
    requires k in was.skbs && now.skbs.Keys == was.skbs.Keys && PagesOk(now.mem, now.pages) && SkbOk(now.pages, now.skbs[k])
    requires Content(now.mem, now.pages, now.skbs[k]) == frame
    ensures Holds(now, [k], [frame]) && Settled(was, now, k, [k])
  {
    hide PagesOk, SkbOk, Content;
    assert (set q <- [k]) == {k};
  }

  /** The single frame stays in its buffer and goes on rx_queue, or the buffer is freed (mac80211.c:2356-2361). */
  method Convert(heap: PacketHeap, k: SkbId, ghost was: Heap, ghost frame: seq<Byte>, ghost p: PageId) returns (queue: seq<SkbId>)
    requires IsLinear(heap, k) && Content(heap.mem, heap.pages, heap.skbs[k]) == frame && heap.skbs[k].headPage == Some(p)
    requires k in was.skbs && KeptBut(was, heap.Snap(), k, p) && heap.skbs.Keys == was.skbs.Keys
    modifies heap
    ensures heap.Valid() && heap.callers == old(heap.callers) && KeptBut(was, heap.Snap(), k, p) && Settled(was, heap.Snap(), k, queue)
    ensures Holds(heap.Snap(), queue, if ToEthernet(frame).Some? then [ToEthernet(frame).value] else [])
  {
    hide HeapOk, PagesOk, SkbOk, Content, KeptBut, Holds, Gained, Settled, ToEthernet;
    ghost var before := heap.Snap();
    var ok := DataToEthernet(heap, k);
    KeptButTrans(was, before, heap.Snap(), k, p);
    queue := [];
    if ok {
      queue := [k];
      OneHeld(was, heap.Snap(), k, ToEthernet(frame).value);
    } else {
      NoneNew(was, heap.Snap());
      Free(heap, k, was, [], [], p);
    }
  }

  lemma NotWorth(frame: seq<Byte>, own: Addr, link: Option<Addr>)
    requires |frame| < HDR_3ADDR || IsMgmt(FrameControl(frame)) || IsCtl(FrameControl(frame)) || !DataPresent(FrameControl(frame))
             || !FromOurBss(frame, own, link)
    ensures Incoming(frame, own, link, {}) == []
  {
  }

  /** The checks on the frame (mac80211.c:2305-2347).  A management frame is handed to the connection, which only reads it. */
  method Dispatch(heap: PacketHeap, k: SkbId, own: Addr, link: Option<Addr>) returns (queue: seq<SkbId>, ghost failed: set<nat>)
    requires IsLinear(heap, k)
    modifies heap
    ensures heap.Valid() && heap.callers == old(heap.callers) && Settled(old(heap.Snap()), heap.Snap(), k, queue)
    ensures Holds(heap.Snap(), queue, Incoming(old(Content(heap.mem, heap.pages, heap.skbs[k])), own, link, failed))
    ensures old(heap.skbs[k].headPage).Some? && KeptBut(old(heap.Snap()), heap.Snap(), k, old(heap.skbs[k].headPage).value)
  {
    hide HeapOk, PagesOk, SkbOk, Content, Linear, LinearIn, KeptBut, Holds, Gained, Settled, Incoming, DataPresent, FromOurBss;
    ghost var was := heap.Snap();
    NothingRewritten(was, heap.callers, k);
    LinearContent(heap.mem, heap.pages, heap.skbs[k]);
    var bytes := Linear(heap.mem, heap.skbs[k]);
    if || (|bytes| >= 2 && IsCtl(FrameControl(bytes))) || |bytes| < HDR_3ADDR || IsMgmt(FrameControl(bytes))
       || !DataPresent(FrameControl(bytes)) || !FromOurBss(bytes, own, link)
    {
      queue, failed := [], {};
      NotWorth(bytes, own, link);
      NothingHeld(was);
      Free(heap, k, was, [], [], was.skbs[k].headPage.value);
    } else {
      queue, failed := RxData(heap, k, own, link);
    }
  }

  lemma SettledFrom(was: Heap, before: Heap, now: Heap, k: SkbId, queue: seq<SkbId>)
    requires before.skbs.Keys == was.skbs.Keys && Settled(before, now, k, queue)
    ensures Settled(was, now, k, queue)
  {
  }

  /** ieee80211_rx_irqsafe on the heap (mac80211.c:2284-2362).  What goes on rx_queue holds exactly the frames the received one is worth;
      the received buffer is freed or queued, and no other buffer is made; page references stay in balance; and every other buffer
      keeps its content, unless it shares the head page of the received one. */
  method RxIrqsafe(heap: PacketHeap, k: SkbId, own: Addr, link: Option<Addr>, bad: bool, includesFcs: bool)
    returns (queue: seq<SkbId>, ghost failed: set<nat>)
    requires IsLinear(heap, k)
    modifies heap
    ensures heap.Valid() && heap.callers == old(heap.callers) && Settled(old(heap.Snap()), heap.Snap(), k, queue)
    ensures Holds(heap.Snap(), queue, Worth(own, link, old(Content(heap.mem, heap.pages, heap.skbs[k])), bad, includesFcs, failed))
    ensures old(heap.skbs[k].headPage).Some? && KeptBut(old(heap.Snap()), heap.Snap(), k, old(heap.skbs[k].headPage).value)
  {
    hide HeapOk, PagesOk, SkbOk, Content, KeptBut, Holds, Gained, Settled, Incoming, OthersKept;
    ghost var was := heap.Snap();
    NothingRewritten(was, heap.callers, k);
    ghost var p := was.skbs[k].headPage.value;
    NothingHeld(was);
    queue, failed := [], {};
    ContentLen(heap.mem, heap.pages, heap.skbs[k]);
    if bad || (includesFcs && heap.skbs[k].len <= FCS_LEN) {
      Free(heap, k, was, [], [], p);
      return;
    }
    if includesFcs {
      TrimTo(heap, k, heap.skbs[k].len - FCS_LEN);
      OthersAreKept(was, heap.Snap(), k, p);
    }
    ghost var before := heap.Snap();
    queue, failed := Dispatch(heap, k, own, link);
    KeptButTrans(was, before, heap.Snap(), k, p);
    SettledFrom(was, before, heap.Snap(), k, queue);
  }

  /** The head page of a buffer has one reference when alloc_skb returns.  As long as that is so, nobody shares it, and what is
      written there while the buffer is received changes no other buffer. */
  lemma NobodyElseSees(was: Heap, now: Heap, callers: multiset<PageId>, k: SkbId, p: PageId)
    requires HeapOk(was, callers) && KeptBut(was, now, k, p)
    requires k in was.skbs && was.skbs[k].headPage == Some(p) && p in was.pages && was.pages[p].refs == 1
    ensures OthersKept(was.mem, was.pages, was.skbs, now.mem, now.pages, now.skbs, k)
  {
    hide HeapOk, PagesOk, SkbOk, Content, Avoids;
    SoleOwner(was, callers, k, p);
  }
}
