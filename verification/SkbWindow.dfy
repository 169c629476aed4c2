/** Moving the window of a socket buffer: put, push, pull, reserve, trim and add_rx_frag
    (include/linux/skbuff.h), each against what it does to the packet. */
module SkbWindow {
  import opened Basics
  import opened PacketMemory

  // ----- the struct after each call; None is a NULL result and an unchanged struct

  function PutSkb(skb: Skb, len: nat): Option<Skb> {
    if !ValidBounds(skb) || len > skb.end - skb.tail || len > UINT_MAX - skb.len then None
    else Some(skb.(tail := skb.tail + len, len := skb.len + len))
  }

  function PushSkb(skb: Skb, len: nat): Option<Skb> {
    if !ValidBounds(skb) || (skb.data - skb.head) % WORD < len || len > UINT_MAX - skb.len then None
    else Some(skb.(data := skb.data - len, len := skb.len + len))
  }

  function PullSkb(skb: Skb, len: nat): Option<Skb> {
    if !ValidBounds(skb) || len > skb.len then None
    else Some(skb.(data := skb.data + len, len := skb.len - len))
  }

  function ReserveSkb(skb: Skb, len: nat): Skb {
    if !ValidBounds(skb) || len > skb.end - skb.tail then skb
    else skb.(data := skb.data + len, tail := skb.tail + len)
  }

  function NoFrags(skb: Skb): Skb {
    skb.(frags := seq(MAX_FRAGS, i => EMPTY), nrFrags := 0, dataLen := 0)
  }

  /** Does skb_trim give the fragments back? */
  predicate TrimDropsFrags(skb: Skb, len: nat) {
    ValidBounds(skb) && len <= skb.len && len < skb.len - skb.dataLen
  }

  function TrimSkb(skb: Skb, len: nat): Skb {
    if !ValidBounds(skb) || len > skb.len then skb
    else if TrimDropsFrags(skb, len) then NoFrags(skb).(len := len, tail := (skb.data - skb.head) % WORD + len)
    else if len < skb.len then
      skb.(dataLen := skb.dataLen - (skb.len - len), len := len, tail := (skb.data - skb.head) % WORD + (skb.len - skb.dataLen))
    else skb.(tail := (skb.data - skb.head) % WORD + (skb.len - skb.dataLen))
  }

  /** off and size are ints; the sums are unsigned 32-bit. */
  function AddFragSkb(skb: Skb, i: int, page: PageId, off: int, size: int): Skb
    requires |skb.frags| == MAX_FRAGS
  {
    if i < 0 || i >= MAX_FRAGS || off < 0 || size < 0 then skb
    else skb.(frags := skb.frags[i := Frag(Some(page), off, size)],
              nrFrags := if i >= skb.nrFrags then i + 1 else skb.nrFrags,
              len := (skb.len + size) % WORD, dataLen := (skb.dataLen + size) % WORD)
  }

  lemma LinearFits(mem: seq<Byte>, pages: map<PageId, Page>, skb: Skb)
    requires PagesOk(mem, pages) && SkbOk(pages, skb)
    ensures LinearIn(mem, skb) && |Linear(mem, skb)| == Headlen(skb) == skb.len - skb.dataLen
  {
  }

  // ----- put, push and pull

  /** skb_put succeeds exactly when tailroom and length allow; the linear part grows at its end by the bytes handed out. */
  lemma PutGrowsTail(mem: seq<Byte>, pages: map<PageId, Page>, skb: Skb, len: nat)
    requires PagesOk(mem, pages) && SkbOk(pages, skb)
    ensures PutSkb(skb, len).Some? <==> len <= Tailroom(skb) && skb.len + len <= UINT_MAX
    ensures PutSkb(skb, len).Some? ==>
              var skb' := PutSkb(skb, len).value;
              var at := skb.head + skb.tail;
              && SkbOk(pages, skb') && at + len <= |mem|
              && Linear(mem, skb') == Linear(mem, skb) + mem[at..at + len]
              && Paged(mem, pages, skb') == Paged(mem, pages, skb)
              && Headroom(skb') == Headroom(skb) && Tailroom(skb') == Tailroom(skb) - len
  {
    if PutSkb(skb, len).Some? {
      var skb' := PutSkb(skb, len).value;
      assert Used(skb') == Used(skb);
      assert skb.data + Headlen(skb) == skb.head + skb.tail;
    }
  }

  lemma PutAppends(mem: seq<Byte>, pages: map<PageId, Page>, skb: Skb, len: nat)
    requires PagesOk(mem, pages) && SkbOk(pages, skb) && skb.dataLen == 0 && PutSkb(skb, len).Some?
    ensures var at := skb.head + skb.tail;
            && SkbOk(pages, PutSkb(skb, len).value) && at + len <= |mem|
            && Content(mem, pages, PutSkb(skb, len).value) == Content(mem, pages, skb) + mem[at..at + len]
  {
    PutGrowsTail(mem, pages, skb, len);
  }

  /** skb_push gives the packet the headroom bytes before it. */
  lemma PushPrepends(mem: seq<Byte>, pages: map<PageId, Page>, skb: Skb, len: nat)
    requires PagesOk(mem, pages) && SkbOk(pages, skb)
    ensures PushSkb(skb, len).Some? <==> len <= Headroom(skb) && skb.len + len <= UINT_MAX
    ensures PushSkb(skb, len).Some? ==>
              var skb' := PushSkb(skb, len).value;
              && SkbOk(pages, skb') && skb.data - len >= 0 && skb.data <= |mem|
              && Content(mem, pages, skb') == mem[skb.data - len..skb.data] + Content(mem, pages, skb)
              && Headroom(skb') == Headroom(skb) - len && Tailroom(skb') == Tailroom(skb)
  {
    if PushSkb(skb, len).Some? {
      var skb' := PushSkb(skb, len).value;
      assert Used(skb') == Used(skb);
      assert Linear(mem, skb') == mem[skb.data - len..skb.data] + Linear(mem, skb);
    }
  }

  /** skb_pull drops a prefix, and leaves a usable buffer, exactly when that prefix is linear. */
  lemma PullDropsPrefix(mem: seq<Byte>, pages: map<PageId, Page>, skb: Skb, len: nat)
    requires PagesOk(mem, pages) && SkbOk(pages, skb)
    ensures PullSkb(skb, len).Some? <==> len <= skb.len
    ensures len <= skb.len ==> (ValidBounds(PullSkb(skb, len).value) <==> len <= Headlen(skb))
    ensures len <= Headlen(skb) ==>
              var skb' := PullSkb(skb, len).value;
              && SkbOk(pages, skb') && Content(mem, pages, skb') == Content(mem, pages, skb)[len..]
              && Headroom(skb') == Headroom(skb) + len && Tailroom(skb') == Tailroom(skb)
  {
    if len <= skb.len {
      var skb' := PullSkb(skb, len).value;
      assert Used(skb') == Used(skb);
      if len <= Headlen(skb) {
        assert Linear(mem, skb') == Linear(mem, skb)[len..];
      }
    }
  }

  lemma PushUndoesPull(pages: map<PageId, Page>, skb: Skb, len: nat)
    requires SkbOk(pages, skb) && len <= Headlen(skb)
    ensures PullSkb(skb, len).Some? && PushSkb(PullSkb(skb, len).value, len) == Some(skb)
  {
  }

  // ----- reserve

  /** skb_reserve moves room from the tail to the head and always keeps the bounds. */
  lemma ReserveMovesRoom(pages: map<PageId, Page>, skb: Skb, len: nat)
    requires SkbOk(pages, skb)
    ensures SkbOk(pages, ReserveSkb(skb, len))
    ensures var moved := if len <= Tailroom(skb) then len else 0;
            && Headroom(ReserveSkb(skb, len)) == Headroom(skb) + moved
            && Tailroom(ReserveSkb(skb, len)) == Tailroom(skb) - moved
            && Headlen(ReserveSkb(skb, len)) == Headlen(skb)
  {
    assert Used(ReserveSkb(skb, len)) == Used(skb);
  }

  function Marked(size: nat, at: nat): seq<Byte> {
    seq(size, i => if i == at then 1 else 0)
  }

  /** Whatever memory holds, the linear bytes stay the same if and only if there are none, or nothing is reserved. */
  lemma ReserveNeedsEmpty(pages: map<PageId, Page>, skb: Skb, len: nat, size: nat)
    requires SkbOk(pages, skb) && len <= Tailroom(skb) && skb.head + skb.end <= size
    ensures (forall mem: seq<Byte> | |mem| == size :: Linear(mem, ReserveSkb(skb, len)) == Linear(mem, skb))
       <==> len == 0 || Headlen(skb) == 0
  {
    var skb' := ReserveSkb(skb, len);
    if len != 0 && Headlen(skb) != 0 {
      var mem := Marked(size, skb.data);
      assert Linear(mem, skb)[0] == 1 && Linear(mem, skb')[0] == 0;
    }
  }

  // ----- trim

  lemma TrimLinear(mem: seq<Byte>, pages: map<PageId, Page>, skb: Skb, len: nat)
    requires PagesOk(mem, pages) && SkbOk(pages, skb) && len < Headlen(skb)
    ensures SkbOk(pages, TrimSkb(skb, len)) && TrimDropsFrags(skb, len)
    ensures Content(mem, pages, TrimSkb(skb, len)) == Content(mem, pages, skb)[..len]
  {
    hide PagesOk;
    var skb' := TrimSkb(skb, len);
    LinearFits(mem, pages, skb);
    assert Used(skb') == [];
    LinearFits(mem, pages, skb');
    assert Linear(mem, skb') == Linear(mem, skb)[..len];
    assert Content(mem, pages, skb') == Linear(mem, skb');
  }

  lemma TrimPaged(mem: seq<Byte>, pages: map<PageId, Page>, skb: Skb, len: nat)
    requires PagesOk(mem, pages) && SkbOk(pages, skb) && Headlen(skb) <= len < skb.len
    ensures SkbOk(pages, TrimSkb(skb, len)) && !TrimDropsFrags(skb, len)
    ensures Content(mem, pages, TrimSkb(skb, len)) == Content(mem, pages, skb)[..len]
  {
    hide PagesOk;
    var skb' := TrimSkb(skb, len);
    LinearFits(mem, pages, skb);
    assert Used(skb') == Used(skb);
    LinearFits(mem, pages, skb');
    assert Linear(mem, skb') == Linear(mem, skb);
    assert Paged(mem, pages, skb') == Paged(mem, pages, skb)[..skb'.dataLen];
  }

  /** skb_trim keeps the prefix, whether the cut falls into the linear bytes or into the fragments. */
  lemma TrimKeepsPrefix(mem: seq<Byte>, pages: map<PageId, Page>, skb: Skb, len: nat)
    requires PagesOk(mem, pages) && SkbOk(pages, skb)
    ensures SkbOk(pages, TrimSkb(skb, len))
    ensures Content(mem, pages, TrimSkb(skb, len)) == Content(mem, pages, skb)[..if len <= skb.len then len else skb.len]
    ensures Headroom(TrimSkb(skb, len)) == Headroom(skb)
    ensures Tailroom(TrimSkb(skb, len)) == Tailroom(skb) + if len < Headlen(skb) then Headlen(skb) - len else 0
  {
    hide PagesOk, Content;
    if len >= skb.len {
      assert TrimSkb(skb, len) == skb;
    } else if len < Headlen(skb) {
      TrimLinear(mem, pages, skb, len);
    } else {
      TrimPaged(mem, pages, skb, len);
    }
  }

  // ----- add_rx_frag

  /** skb_add_rx_frag at the next free slot keeps a buffer usable. */
  lemma AddFragKeepsOk(pages: map<PageId, Page>, skb: Skb, page: PageId, off: int, size: int)
    requires SkbOk(pages, skb) && skb.nrFrags < MAX_FRAGS && 0 <= off && 0 <= size <= INT_MAX && skb.len + size <= UINT_MAX
    requires page in pages && off + size <= pages[page].size
    ensures var skb' := AddFragSkb(skb, skb.nrFrags, page, off, size);
            SkbOk(pages, skb') && Used(skb') == Used(skb) + [Frag(Some(page), off, size)]
  {
    var skb' := AddFragSkb(skb, skb.nrFrags, page, off, size);
    var f := Frag(Some(page), off, size);
    assert Used(skb') == Used(skb) + [f];
    TotalSplit(Used(skb), [f]);
    assert FragTotal([f]) == size;
  }

  /** Fragment bytes that an earlier skb_trim cut off; they are still in their pages. */
  function Stale(mem: seq<Byte>, pages: map<PageId, Page>, skb: Skb): seq<Byte>
    requires PagesOk(mem, pages) && SkbOk(pages, skb)
  {
    Concat(mem, pages, Used(skb))[skb.dataLen..]
  }

  /** What skb_add_rx_frag appends: the packet grows by `size` bytes, first those cut off before, then the new ones. */
  lemma AddFragExact(mem: seq<Byte>, pages: map<PageId, Page>, skb: Skb, page: PageId, off: int, size: int)
    requires PagesOk(mem, pages) && SkbOk(pages, skb) && skb.nrFrags < MAX_FRAGS && 0 <= off && 0 <= size <= INT_MAX
    requires skb.len + size <= UINT_MAX && page in pages && off + size <= pages[page].size
    ensures var skb' := AddFragSkb(skb, skb.nrFrags, page, off, size); var f := Frag(Some(page), off, size);
            && SkbOk(pages, skb') && FragOk(pages, f)
            && Content(mem, pages, skb') == Content(mem, pages, skb) + (Stale(mem, pages, skb) + FragBytes(mem, pages, f))[..size]
  {
    hide PagesOk, FragBytes;
    var skb' := AddFragSkb(skb, skb.nrFrags, page, off, size);
    AddFragKeepsOk(pages, skb, page, off, size);
    AddFragParts(mem, pages, skb, skb', Frag(Some(page), off, size));
  }

  lemma AddFragParts(mem: seq<Byte>, pages: map<PageId, Page>, skb: Skb, skb': Skb, f: Frag)
    requires PagesOk(mem, pages) && SkbOk(pages, skb) && SkbOk(pages, skb') && FragOk(pages, f)
    requires Used(skb') == Used(skb) + [f] && skb'.data == skb.data
    requires skb'.len == skb.len + f.size && skb'.dataLen == skb.dataLen + f.size
    ensures Content(mem, pages, skb') == Content(mem, pages, skb) + (Stale(mem, pages, skb) + FragBytes(mem, pages, f))[..f.size]
  {
    hide PagesOk, FragBytes;
    ConcatSplit(mem, pages, Used(skb), [f]);
    assert Concat(mem, pages, [f]) == FragBytes(mem, pages, f) + [];
    LinearFits(mem, pages, skb);
    LinearFits(mem, pages, skb');
    assert Linear(mem, skb') == Linear(mem, skb);
    var all := Concat(mem, pages, Used(skb));
    assert all == Paged(mem, pages, skb) + Stale(mem, pages, skb);
    assert Paged(mem, pages, skb') == Paged(mem, pages, skb) + (Stale(mem, pages, skb) + FragBytes(mem, pages, f))[..f.size];
  }

  // ----- when the new fragment's own bytes are what is appended

  /** Addresses of the bytes of a fragment, and of a list of fragments. */
  function Places(pages: map<PageId, Page>, f: Frag): (r: seq<nat>)
    requires FragOk(pages, f)
    ensures |r| == f.size
  {
    seq(f.size, i requires 0 <= i < f.size => pages[f.page.value].addr + f.offset + i)
  }

  function AllPlaces(pages: map<PageId, Page>, fs: seq<Frag>): (r: seq<nat>)
    requires forall f <- fs :: FragOk(pages, f)
    ensures |r| == FragTotal(fs)
  {
    if fs == [] then [] else Places(pages, fs[0]) + AllPlaces(pages, fs[1..])
  }

  lemma PlacesHold(mem: seq<Byte>, pages: map<PageId, Page>, f: Frag)
    requires PagesOk(mem, pages) && FragOk(pages, f)
    ensures forall i | 0 <= i < f.size :: Places(pages, f)[i] < |mem| && FragBytes(mem, pages, f)[i] == mem[Places(pages, f)[i]]
  {
  }

  lemma {:induction false} AllPlacesHold(mem: seq<Byte>, pages: map<PageId, Page>, fs: seq<Frag>)
    requires PagesOk(mem, pages) && forall f <- fs :: FragOk(pages, f)
    ensures forall i | 0 <= i < FragTotal(fs) ::
              AllPlaces(pages, fs)[i] < |mem| && Concat(mem, pages, fs)[i] == mem[AllPlaces(pages, fs)[i]]
  {
    hide PagesOk, FragOk, Places, FragBytes;
    if fs != [] {
      PlacesHold(mem, pages, fs[0]);
      AllPlacesHold(mem, pages, fs[1..]);
    }
  }

  /** Every address belongs to a page that a fragment names. */
  lemma {:induction false} PlaceInPage(pages: map<PageId, Page>, fs: seq<Frag>, i: nat) returns (f: Frag)
    requires (forall f <- fs :: FragOk(pages, f)) && i < FragTotal(fs)
    ensures f in fs && FragOk(pages, f) && pages[f.page.value].addr <= AllPlaces(pages, fs)[i] < pages[f.page.value].addr + pages[f.page.value].size
  {
    if i < fs[0].size { f := fs[0]; } else { f := PlaceInPage(pages, fs[1..], i - fs[0].size); }
  }

  /** Where the bytes that an earlier skb_trim cut off still are. */
  function StalePlaces(pages: map<PageId, Page>, skb: Skb): seq<nat>
    requires SkbOk(pages, skb)
  {
    AllPlaces(pages, Used(skb))[skb.dataLen..]
  }

  lemma SizeDecides(mem: seq<Byte>, mem': seq<Byte>, pages: map<PageId, Page>)
    requires PagesOk(mem, pages) && |mem'| == |mem|
    ensures PagesOk(mem', pages)
  {
  }

  /** The bytes appended are at the first `size` addresses of those cut off and those of the new fragment. */
  lemma AppendedPlaces(mem: seq<Byte>, pages: map<PageId, Page>, skb: Skb, f: Frag)
    requires PagesOk(mem, pages) && SkbOk(pages, skb) && FragOk(pages, f)
    ensures var at := (StalePlaces(pages, skb) + Places(pages, f))[..f.size];
            && |at| == f.size && |(Stale(mem, pages, skb) + FragBytes(mem, pages, f))[..f.size]| == f.size
            && forall i | 0 <= i < f.size :: at[i] < |mem| && (Stale(mem, pages, skb) + FragBytes(mem, pages, f))[..f.size][i] == mem[at[i]]
  {
    hide PagesOk, FragBytes, Places;
    AllPlacesHold(mem, pages, Used(skb));
    PlacesHold(mem, pages, f);
  }

  /** skb_add_rx_frag with index nr_frags, on a buffer and a page for which it is meant. */
  predicate CanAddFrag(pages: map<PageId, Page>, skb: Skb, page: PageId, off: int, size: int) {
    && SkbOk(pages, skb) && skb.nrFrags < MAX_FRAGS && 0 <= off && 0 <= size <= INT_MAX
    && skb.len + size <= UINT_MAX && page in pages && off + size <= pages[page].size
  }

  /** The fragment's own bytes are appended. */
  ghost predicate AppendsOwn(mem: seq<Byte>, pages: map<PageId, Page>, skb: Skb, page: PageId, off: int, size: int)
    requires CanAddFrag(pages, skb, page, off, size) && PagesOk(mem, pages)
  {
    var skb' := AddFragSkb(skb, skb.nrFrags, page, off, size);
    && SkbOk(pages, skb')
    && Content(mem, pages, skb') == Content(mem, pages, skb) + FragBytes(mem, pages, Frag(Some(page), off, size))
  }

  lemma AppendsOwnIs(mem: seq<Byte>, pages: map<PageId, Page>, skb: Skb, page: PageId, off: int, size: int)
    requires CanAddFrag(pages, skb, page, off, size) && PagesOk(mem, pages)
    ensures var f := Frag(Some(page), off, size);
            AppendsOwn(mem, pages, skb, page, off, size) <==>
            (Stale(mem, pages, skb) + FragBytes(mem, pages, f))[..size] == FragBytes(mem, pages, f)
  {
    hide PagesOk, FragBytes, Content, Stale;
    AddFragExact(mem, pages, skb, page, off, size);
    var f := Frag(Some(page), off, size);
    var c, x, y := Content(mem, pages, skb), (Stale(mem, pages, skb) + FragBytes(mem, pages, f))[..size], FragBytes(mem, pages, f);
    assert (c + x)[|c|..] == x && (c + y)[|c|..] == y;
  }

  /** Whatever memory holds, the fragment's own bytes are appended if and only if they are at the addresses that come next,
      those of bytes cut off before coming first. */
  lemma AddFragAppendsIff(mem0: seq<Byte>, pages: map<PageId, Page>, skb: Skb, page: PageId, off: int, size: int)
    requires CanAddFrag(pages, skb, page, off, size) && PagesOk(mem0, pages)
    ensures var own := Places(pages, Frag(Some(page), off, size));
            (forall mem: seq<Byte> | |mem| == |mem0| && PagesOk(mem, pages) :: AppendsOwn(mem, pages, skb, page, off, size))
            <==> (StalePlaces(pages, skb) + own)[..size] == own
  {
    hide PagesOk, FragBytes, Content, Stale, AppendsOwn, StalePlaces, Places;
    var f := Frag(Some(page), off, size);
    var at, own := (StalePlaces(pages, skb) + Places(pages, f))[..size], Places(pages, f);
    if at == own {
      forall mem: seq<Byte> | |mem| == |mem0| && PagesOk(mem, pages)
        ensures AppendsOwn(mem, pages, skb, page, off, size)
      {
        AppendedPlaces(mem, pages, skb, f);
        PlacesHold(mem, pages, f);
        AppendsOwnIs(mem, pages, skb, page, off, size);
      }
    } else {
      var i :| 0 <= i < size && at[i] != own[i];
      var mem := Marked(|mem0|, own[i]);
      SizeDecides(mem0, mem, pages);
      AppendedPlaces(mem, pages, skb, f);
      PlacesHold(mem, pages, f);
      AppendsOwnIs(mem, pages, skb, page, off, size);
      assert FragBytes(mem, pages, f)[i] == 1 && (Stale(mem, pages, skb) + FragBytes(mem, pages, f))[..size][i] == 0;
    }
  }

  /** For a page that no fragment of the buffer names: if and only if no fragment bytes were cut off, or nothing is added. */
  lemma AddFragAppends(mem0: seq<Byte>, pages: map<PageId, Page>, skb: Skb, page: PageId, off: int, size: int)
    requires CanAddFrag(pages, skb, page, off, size) && PagesOk(mem0, pages) && forall f <- Used(skb) :: f.page != Some(page)
    ensures (forall mem: seq<Byte> | |mem| == |mem0| && PagesOk(mem, pages) :: AppendsOwn(mem, pages, skb, page, off, size))
            <==> skb.dataLen == FragTotal(Used(skb)) || size == 0
  {
    hide AppendsOwn;
    AddFragAppendsIff(mem0, pages, skb, page, off, size);
    var own := Places(pages, Frag(Some(page), off, size));
    var stale := StalePlaces(pages, skb);
    if skb.dataLen == FragTotal(Used(skb)) {
      assert stale + own == own && own[..size] == own;
    } else if size > 0 {
      var f := PlaceInPage(pages, Used(skb), skb.dataLen);
      assert Apart(pages[f.page.value], pages[page]);
      assert (stale + own)[..size][0] == AllPlaces(pages, Used(skb))[skb.dataLen] != own[0];
    }
  }

  /** Three pages of two bytes each. */
  function ThreePages(): map<PageId, Page> {
    map[0 := Page(1, 2, 1), 1 := Page(3, 2, 1), 2 := Page(5, 2, 1)]
  }

  /** A buffer without linear bytes, whose packet is page 1. */
  function OneFragment(): Skb {
    Skb(1, Some(0), 1, 2, 0, 2, 2, 1, [Frag(Some(1), 0, 2), EMPTY, EMPTY, EMPTY, EMPTY, EMPTY, EMPTY, EMPTY])
  }

  const NINE_LAST: seq<Byte> := [0, 0, 0, 7, 8, 9, 9]

  /** Its packet, and what the pages hold. */
  lemma OneFragmentHolds() returns (mem: seq<Byte>, pages: map<PageId, Page>, whole: Skb)
    ensures mem == NINE_LAST && pages == ThreePages() && whole == OneFragment()
    ensures PagesOk(mem, pages) && SkbOk(pages, whole) && Content(mem, pages, whole) == [7, 8]
  {
    mem, pages, whole := NINE_LAST, ThreePages(), OneFragment();
    var f := Frag(Some(1), 0, 2);
    OneUsed(whole);
    assert FragBytes(mem, pages, f) == [7, 8];
    hide FragBytes, PagesOk;
    assert Concat(mem, pages, [f]) == FragBytes(mem, pages, f) + [];
    assert Linear(mem, whole) == [];
  }

  lemma OneUsed(skb: Skb)
    requires |skb.frags| == MAX_FRAGS && skb.nrFrags == 1
    ensures Used(skb) == [skb.frags[0]] && FragTotal(Used(skb)) == skb.frags[0].size
  {
  }

  /** The packet is trimmed by its last byte `b`, a fragment of one other byte is added, and `b` is back. */
  ghost predicate BringsBack(mem: seq<Byte>, pages: map<PageId, Page>, whole: Skb, page: PageId, packet: seq<Byte>, b: Byte) {
    var skb := TrimSkb(whole, |packet|);
    && PagesOk(mem, pages) && SkbOk(pages, whole) && Content(mem, pages, whole) == packet + [b]
    && CanAddFrag(pages, skb, page, 0, 1) && FragBytes(mem, pages, Frag(Some(page), 0, 1)) != [b]
    && Content(mem, pages, skb) == packet
    && var skb' := AddFragSkb(skb, skb.nrFrags, page, 0, 1);
       SkbOk(pages, skb') && Content(mem, pages, skb') == packet + [b]
  }

  /** With one byte cut off, adding one byte appends that byte. */
  lemma StaleByteReturns(mem: seq<Byte>, pages: map<PageId, Page>, whole: Skb, page: PageId, packet: seq<Byte>, b: Byte)
    requires PagesOk(mem, pages) && SkbOk(pages, whole) && CanAddFrag(pages, TrimSkb(whole, |packet|), page, 0, 1)
    requires Content(mem, pages, whole) == packet + [b] && Stale(mem, pages, TrimSkb(whole, |packet|)) == [b]
    requires FragBytes(mem, pages, Frag(Some(page), 0, 1)) != [b]
    ensures BringsBack(mem, pages, whole, page, packet, b)
  {
    hide PagesOk, Content, Stale, FragBytes, TrimSkb;
    TrimKeepsPrefix(mem, pages, whole, |packet|);
    assert (packet + [b])[..|packet|] == packet;
    AddFragExact(mem, pages, TrimSkb(whole, |packet|), page, 0, 1);
    assert ([b] + FragBytes(mem, pages, Frag(Some(page), 0, 1)))[..1] == [b];
  }

  /** So a fragment added after a trim inside the fragments can bring back a byte that was cut off: the packet 7 8 trimmed to 7,
      with the byte 9 added, is 7 8 again. */
  lemma TrimmedByteReturns() returns (mem: seq<Byte>, pages: map<PageId, Page>, whole: Skb)
    ensures mem == NINE_LAST && pages == ThreePages() && whole == OneFragment()
    ensures BringsBack(mem, pages, whole, 2, [7], 8)
  {
    hide *;
    mem, pages, whole := TrimExample();
    StaleByteReturns(mem, pages, whole, 2, [7], 8);
  }

  lemma TrimExample() returns (mem: seq<Byte>, pages: map<PageId, Page>, whole: Skb)
    ensures mem == NINE_LAST && pages == ThreePages() && whole == OneFragment()
    ensures PagesOk(mem, pages) && SkbOk(pages, whole) && CanAddFrag(pages, TrimSkb(whole, 1), 2, 0, 1)
    ensures Content(mem, pages, whole) == [7, 8] && Stale(mem, pages, TrimSkb(whole, 1)) == [8]
    ensures FragBytes(mem, pages, Frag(Some(2), 0, 1)) == [9]
  {
    hide *;
    mem, pages, whole := OneFragmentHolds();
    TrimmedReady(mem, pages, whole);
    TrimmedStale(mem, pages, whole);
  }

  lemma TrimmedIs(whole: Skb)
    requires whole == OneFragment()
    ensures TrimSkb(whole, 1) == whole.(dataLen := 1, len := 1, tail := 0)
  {
  }

  lemma TrimmedReady(mem: seq<Byte>, pages: map<PageId, Page>, whole: Skb)
    requires mem == NINE_LAST && pages == ThreePages() && whole == OneFragment() && PagesOk(mem, pages)
    ensures CanAddFrag(pages, TrimSkb(whole, 1), 2, 0, 1) && SkbOk(pages, TrimSkb(whole, 1))
    ensures FragBytes(mem, pages, Frag(Some(2), 0, 1)) == [9]
  {
    TrimmedIs(whole);
    OneUsed(whole);
    OneUsed(whole.(dataLen := 1, len := 1, tail := 0));
    hide TrimSkb;
  }

  lemma TrimmedStale(mem: seq<Byte>, pages: map<PageId, Page>, whole: Skb)
    requires mem == NINE_LAST && pages == ThreePages() && whole == OneFragment()
    requires PagesOk(mem, pages) && SkbOk(pages, TrimSkb(whole, 1))
    ensures Stale(mem, pages, TrimSkb(whole, 1)) == [8]
  {
    TrimmedIs(whole);
    var skb, f := whole.(dataLen := 1, len := 1, tail := 0), Frag(Some(1), 0, 2);
    OneUsed(skb);
    assert FragBytes(mem, pages, f) == [7, 8];
    hide FragBytes, PagesOk, TrimSkb;
    assert Concat(mem, pages, [f]) == FragBytes(mem, pages, f) + [];
  }
}
