/** Building an 802.11 data frame in a socket buffer (mac80211.c:221-247, 1342-1421). */
module WifiTx {
  import opened Basics
  import opened PacketMemory
  import opened SkbWindow
  import opened PacketHeap
  import opened WifiFrames

  datatype TxRet = Built | TooShort | NotStarted | NotConnected | Overflow | NoMemory

  /** A usable buffer on the heap, all of whose bytes are linear. */
  ghost predicate IsLinear(heap: PacketHeap, k: SkbId)
    reads heap
  {
    heap.Valid() && k in heap.skbs && PagesOk(heap.mem, heap.pages) && SkbOk(heap.pages, heap.skbs[k]) && heap.skbs[k].dataLen == 0
  }

  /** Memory has changed in this page only, the head page of the buffer being filled. */
  ghost predicate OnlyOwn(mem: seq<Byte>, mem': seq<Byte>, pages: map<PageId, Page>, head: Option<PageId>) {
    head.Some? && head.value in pages && OnlyIn(mem, mem', pages[head.value])
  }

  lemma OnlyOwnTrans(mem: seq<Byte>, mem1: seq<Byte>, mem2: seq<Byte>, pages: map<PageId, Page>, head: Option<PageId>)
    requires OnlyOwn(mem, mem1, pages, head) && OnlyOwn(mem1, mem2, pages, head)
    ensures OnlyOwn(mem, mem2, pages, head)
  {
    hide OnlyIn;
    OnlyInTrans(mem, mem1, mem2, pages[head.value]);
  }

  lemma PutInside(mem: seq<Byte>, pages: map<PageId, Page>, skb: Skb, data: seq<Byte>)
    requires SkbOk(pages, skb) && PutSkb(skb, |data|).Some? && skb.head + skb.tail + |data| <= |mem|
    ensures OnlyOwn(mem, Blit(mem, skb.head + skb.tail, data), pages, skb.headPage) && PutSkb(skb, |data|).value.headPage == skb.headPage
  {
    hide Blit, OnlyIn, Whole;
    BlitOnlyIn(mem, skb.head + skb.tail, data, pages[skb.headPage.value]);
  }

  lemma PutThenFill(mem: seq<Byte>, pages: map<PageId, Page>, skb: Skb, data: seq<Byte>)
    requires PagesOk(mem, pages) && SkbOk(pages, skb) && skb.dataLen == 0 && PutSkb(skb, |data|).Some?
    ensures var at := skb.head + skb.tail; var skb' := PutSkb(skb, |data|).value;
            && at + |data| <= |mem| && PagesOk(Blit(mem, at, data), pages) && SkbOk(pages, skb') && skb'.dataLen == 0
            && Content(Blit(mem, at, data), pages, skb') == Content(mem, pages, skb) + data
            && Headroom(skb') == Headroom(skb) && Tailroom(skb') == Tailroom(skb) - |data| && skb'.len == skb.len + |data|
  {
    var at, skb' := skb.head + skb.tail, PutSkb(skb, |data|).value;
    PutGrowsTail(mem, pages, skb, |data|);
    var mem' := Blit(mem, at, data);
    PutAppends(mem', pages, skb, |data|);
    BlitElsewhere(mem, at, data, skb.data, skb.data + Headlen(skb));
    assert Content(mem', pages, skb) == Linear(mem', skb) == Linear(mem, skb) == Content(mem, pages, skb);
  }

  /** skb_put followed by the copy of `data` into the bytes it hands out (skbuff.h:337-347, 560-566). */
  method PutData(heap: PacketHeap, k: SkbId, data: seq<Byte>) returns (ok: bool)
    requires IsLinear(heap, k)
    modifies heap
    ensures IsLinear(heap, k) && heap.callers == old(heap.callers) && heap.pages == old(heap.pages)
    ensures heap.skbs == old(heap.skbs)[k := heap.skbs[k]]
    ensures ok <==> |data| <= Tailroom(old(heap.skbs[k])) && old(heap.skbs[k]).len + |data| <= UINT_MAX
    ensures ok ==>
              && Content(heap.mem, heap.pages, heap.skbs[k]) == old(Content(heap.mem, heap.pages, heap.skbs[k])) + data
              && Headroom(heap.skbs[k]) == Headroom(old(heap.skbs[k])) && Tailroom(heap.skbs[k]) == Tailroom(old(heap.skbs[k])) - |data|
              && heap.skbs[k].headPage == old(heap.skbs[k]).headPage && OnlyOwn(old(heap.mem), heap.mem, heap.pages, heap.skbs[k].headPage)
  {
    hide HeapOk, PagesOk, SkbOk, Content, Blit, OnlyIn;
    PutGrowsTail(heap.mem, heap.pages, heap.skbs[k], |data|);
    if PutSkb(heap.skbs[k], |data|).Some? {
      PutThenFill(heap.mem, heap.pages, heap.skbs[k], data);
      PutInside(heap.mem, heap.pages, heap.skbs[k], data);
    }
    var pos := heap.Put(k, |data|);
    ok := pos.Some?;
    if ok {
      BlitOk(heap.Snap(), heap.callers, pos.value, data);
      heap.mem := Blit(heap.mem, pos.value, data);
    }
  }

  lemma EmptyContent(mem: seq<Byte>, pages: map<PageId, Page>, skb: Skb)
    requires PagesOk(mem, pages) && SkbOk(pages, skb) && skb.len == 0
    ensures skb.dataLen == 0 && Content(mem, pages, skb) == []
  {
  }

  /** lcompat_ieee80211_alloc_tx_skb (mac80211.c:221-247): an empty buffer with the driver's headroom. */
  method AllocTxSkb(heap: PacketHeap, extraHeadroom: int, size: nat) returns (r: Option<SkbId>)
    requires heap.Valid()
    modifies heap
    ensures heap.Valid() && heap.callers == old(heap.callers)
    ensures r.None? ==> heap.Snap() == old(heap.Snap())
    ensures r.Some? ==>
              && r.value !in old(heap.skbs) && IsLinear(heap, r.value) && heap.skbs == old(heap.skbs)[r.value := heap.skbs[r.value]]
              && heap.skbs[r.value].len == 0 && Headroom(heap.skbs[r.value]) == extraHeadroom && Tailroom(heap.skbs[r.value]) == size
              && Content(heap.mem, heap.pages, heap.skbs[r.value]) == []
              && heap.skbs[r.value].headPage.Some? && heap.skbs[r.value].headPage.value !in old(heap.pages)
    ensures heap.mem == old(heap.mem) && PagesKept(old(heap.mem), old(heap.pages), heap.mem, heap.pages)
  {
    hide HeapOk, PagesOk, SkbOk, Content, PagesKept, ReserveSkb;
    HeapPages(heap.Snap(), heap.callers);
    KeptByNothing(heap.mem, heap.pages);
    if extraHeadroom < 0 { return None; }
    if extraHeadroom > UINT_MAX || extraHeadroom + size > UINT_MAX { return None; }
    r := heap.AllocSkb(extraHeadroom + size);
    if r.Some? {
      HeapPages(heap.Snap(), heap.callers);
      ReservedFacts(heap.mem, heap.pages, heap.skbs[r.value], extraHeadroom);
      heap.Reserve(r.value, extraHeadroom);
    }
  }

  lemma ReservedFacts(mem: seq<Byte>, pages: map<PageId, Page>, skb: Skb, len: nat)
    requires PagesOk(mem, pages) && SkbOk(pages, skb) && skb.len == 0 && len <= Tailroom(skb)
    ensures var skb' := ReserveSkb(skb, len);
            && SkbOk(pages, skb') && skb'.len == 0 && skb'.dataLen == 0 && skb'.headPage == skb.headPage
            && Headroom(skb') == Headroom(skb) + len && Tailroom(skb') == Tailroom(skb) - len && Content(mem, pages, skb') == []
  {
    hide PagesOk, Content;
    ReserveMovesRoom(pages, skb, len);
    EmptyContent(mem, pages, ReserveSkb(skb, len));
  }

  /** lcompat_ieee80211_build_data_frame: the buffer holds exactly the frame.  It was allocated with room
      for it, so no skb_put fails after that. */
  method BuildDataFrame(heap: PacketHeap, started: bool, connected: bool, extraHeadroom: int, bssid: Addr, own: Addr,
                        seqNo: nat, qos: bool, data: seq<Byte>) returns (ret: TxRet, k: SkbId)
    requires heap.Valid()
    modifies heap
    ensures heap.Valid() && heap.callers == old(heap.callers)
    ensures ret == TooShort <==> |data| < ETH_HLEN
    ensures ret != Built ==> heap.Snap() == old(heap.Snap())
    ensures ret == Built ==>
              && started && connected && bssid != [0, 0, 0, 0, 0, 0]
              && k in heap.skbs && k !in old(heap.skbs) && heap.skbs == old(heap.skbs)[k := heap.skbs[k]] && IsLinear(heap, k)
              && Content(heap.mem, heap.pages, heap.skbs[k]) == TxFrame(bssid, own, seqNo, qos, data)
              && Headroom(heap.skbs[k]) == extraHeadroom && Tailroom(heap.skbs[k]) == 0
              && OthersKept(old(heap.mem), old(heap.pages), old(heap.skbs), heap.mem, heap.pages, heap.skbs, k)
  {
    hide HeapOk, PagesOk, SkbOk, Content, TxHeader, TxFrame, PagesKept, OnlyOwn, OthersKept;
    k := 0;
    if |data| < ETH_HLEN { return TooShort, k; }
    if !started { return NotStarted, k; }
    if !connected || bssid == [0, 0, 0, 0, 0, 0] { return NotConnected, k; }
    var payload := data[ETH_HLEN..];
    var hdrLen := HDR_3ADDR + if qos then 2 else 0;
    var frameLen := hdrLen + SNAP_LEN + |payload|;
    if frameLen > UINT_MAX { return Overflow, k; }
    var skb := AllocTxSkb(heap, extraHeadroom, frameLen);
    if skb.None? { return NoMemory, k; }
    k := skb.value;
    ghost var mem1 := heap.mem;
    ret := FillFrame(heap, k, bssid, own, seqNo, qos, data);
    OwnKept(old(heap.Snap()), mem1, heap.Snap(), heap.callers, k);
  }

  /** A new buffer with a new head page: whatever is written there, the other buffers are as they were. */
  lemma OwnKept(was: Heap, mem1: seq<Byte>, now: Heap, callers: multiset<PageId>, k: SkbId)
    requires HeapOk(was, callers) && HeapOk(now, callers) && PagesOk(mem1, now.pages)
    requires k in now.skbs && k !in was.skbs && now.skbs == was.skbs[k := now.skbs[k]] && OnlyOwn(mem1, now.mem, now.pages, now.skbs[k].headPage)
    requires now.skbs[k].headPage.value !in was.pages && PagesKept(was.mem, was.pages, mem1, now.pages)
    ensures OthersKept(was.mem, was.pages, was.skbs, now.mem, now.pages, now.skbs, k)
  {
    hide HeapOk, PagesOk, PagesKept, OthersKept, OnlyIn;
    HeapPages(was, callers);
    HeapPages(now, callers);
    KeptByOwn(was.mem, was.pages, mem1, now.pages, now.mem, now.skbs[k].headPage.value);
    OthersFrom(was.mem, was.pages, was.skbs, now.mem, now.pages, now.skbs, callers, k);
  }

  /** Header, QoS control, LLC/SNAP and payload (mac80211.c:1376-1409). */
  method FillFrame(heap: PacketHeap, k: SkbId, bssid: Addr, own: Addr, seqNo: nat, qos: bool, data: seq<Byte>) returns (ret: TxRet)
    requires |data| >= ETH_HLEN && IsLinear(heap, k) && Content(heap.mem, heap.pages, heap.skbs[k]) == []
    requires Tailroom(heap.skbs[k]) == HDR_3ADDR + (if qos then 2 else 0) + SNAP_LEN + (|data| - ETH_HLEN) <= UINT_MAX
    requires heap.skbs[k].len == 0
    modifies heap
    ensures IsLinear(heap, k) && heap.callers == old(heap.callers) && heap.skbs == old(heap.skbs)[k := heap.skbs[k]]
    ensures ret == Built && Content(heap.mem, heap.pages, heap.skbs[k]) == TxFrame(bssid, own, seqNo, qos, data)
    ensures Headroom(heap.skbs[k]) == Headroom(old(heap.skbs[k])) && Tailroom(heap.skbs[k]) == 0
    ensures heap.pages == old(heap.pages) && heap.skbs[k].headPage == old(heap.skbs[k]).headPage
    ensures OnlyOwn(old(heap.mem), heap.mem, heap.pages, heap.skbs[k].headPage)
  {
    hide HeapOk, PagesOk, SkbOk, Content, TxHeader, OnlyOwn;
    TxHeaderFields(bssid, own, data[..6], seqNo, qos);
    ContentLen(heap.mem, heap.pages, heap.skbs[k]);
    QosSplit(bssid, own, data[..6], seqNo);
    var ok := PutData(heap, k, TxHeader(bssid, own, data[..6], seqNo, qos)[..HDR_3ADDR]);
    if !ok { assert false; }
    ghost var head, mem1 := heap.skbs[k].headPage, heap.mem;
    if qos {
      ContentLen(heap.mem, heap.pages, heap.skbs[k]);
      ok := PutData(heap, k, [0, 0]);
      if !ok { assert false; }
      OnlyOwnTrans(old(heap.mem), mem1, heap.mem, heap.pages, head);
    }
    ghost var mem2 := heap.mem;
    ContentLen(heap.mem, heap.pages, heap.skbs[k]);
    ok := PutData(heap, k, RFC1042 + data[12..14]);
    if !ok { assert false; }
    OnlyOwnTrans(old(heap.mem), mem2, heap.mem, heap.pages, head);
    ghost var mem3 := heap.mem;
    ContentLen(heap.mem, heap.pages, heap.skbs[k]);
    ok := PutData(heap, k, data[ETH_HLEN..]);
    if !ok { assert false; }
    OnlyOwnTrans(old(heap.mem), mem3, heap.mem, heap.pages, head);
    ret := Built;
  }

  lemma QosSplit(bssid: Addr, own: Addr, dst: Addr, seqNo: nat)
    ensures TxHeader(bssid, own, dst, seqNo, true) == TxHeader(bssid, own, dst, seqNo, true)[..HDR_3ADDR] + [0, 0]
    ensures TxHeader(bssid, own, dst, seqNo, false)[..HDR_3ADDR] == TxHeader(bssid, own, dst, seqNo, false)
  {
  }

  lemma ContentLen(mem: seq<Byte>, pages: map<PageId, Page>, skb: Skb)
    requires PagesOk(mem, pages) && SkbOk(pages, skb)
    ensures |Content(mem, pages, skb)| == skb.len
  {
  }
}
