/** From a packet to a scatterlist and from there to the bytes of a URB
    (include/linux/skbuff.h:499-555, usb.c:106-221).  A scatterlist entry has the shape of a fragment. */
module ScatterGather {
  import opened Basics
  import opened PacketMemory
  import opened PacketHeap
  import opened SkbWindow

  /** How much of a packet of `total` bytes the request covers. */
  function Clip(total: nat, offset: int, len: int): nat {
    if offset < 0 || len <= 0 || offset >= total then 0 else if len > total - offset then total - offset else len
  }

  /** Entries needed for `remaining` bytes behind the first `skip`: one for each fragment that contributes. */
  function Pieces(fs: seq<Frag>, skip: nat, remaining: nat): (r: nat)
    ensures r <= |fs|
  {
    if fs == [] || remaining == 0 then 0
    else if skip >= fs[0].size then Pieces(fs[1..], skip - fs[0].size, remaining)
    else 1 + Pieces(fs[1..], 0, remaining - Least(fs[0].size - skip, remaining))
  }

  function PiecesOf(skb: Skb, offset: nat, count: nat): nat
    requires skb.nrFrags <= |skb.frags|
  {
    var linear := Headlen(skb);
    if offset < linear then 1 + Pieces(Used(skb), 0, count - Least(linear - offset, count))
    else Pieces(Used(skb), offset - linear, count)
  }

  // ----- what one round of the loop does to the bytes still to come

  ghost predicate AllOk(pages: map<PageId, Page>, fs: seq<Frag>) {
    forall f <- fs :: FragOk(pages, f)
  }

  /** `sg` and `remaining` bytes behind `skip` in `rest` make up `target`. */
  ghost predicate Splits(mem: seq<Byte>, pages: map<PageId, Page>, target: seq<Byte>, sg: seq<Frag>, rest: seq<Frag>, skip: nat, remaining: nat) {
    && PagesOk(mem, pages) && AllOk(pages, sg) && AllOk(pages, rest)
    && (remaining > 0 ==> skip + remaining <= FragTotal(rest))
    && target == Concat(mem, pages, sg) + (if remaining == 0 then [] else Concat(mem, pages, rest)[skip..skip + remaining])
  }

  lemma DropSlice<T>(a: seq<T>, b: seq<T>, skip: nat, n: nat)
    requires |a| <= skip && skip + n <= |a| + |b|
    ensures (a + b)[skip..skip + n] == b[skip - |a|..skip - |a| + n]
  {
  }

  lemma CrossSlice<T>(a: seq<T>, b: seq<T>, skip: nat, n: nat)
    requires skip <= |a| && skip + n <= |a| + |b| && |a| - skip <= n
    ensures (a + b)[skip..skip + n] == a[skip..] + b[..n - (|a| - skip)]
  {
  }

  lemma InnerSlice<T>(a: seq<T>, b: seq<T>, skip: nat, n: nat)
    requires skip + n <= |a|
    ensures (a + b)[skip..skip + n] == a[skip..skip + n]
  {
  }

  lemma SkipOne(mem: seq<Byte>, pages: map<PageId, Page>, target: seq<Byte>, sg: seq<Frag>, rest: seq<Frag>, skip: nat, remaining: nat)
    requires Splits(mem, pages, target, sg, rest, skip, remaining) && rest != [] && remaining > 0 && skip >= rest[0].size
    ensures Splits(mem, pages, target, sg, rest[1..], skip - rest[0].size, remaining)
    ensures Pieces(rest, skip, remaining) == Pieces(rest[1..], skip - rest[0].size, remaining)
  {
    hide PagesOk, FragOk, FragBytes;
    DropSlice(FragBytes(mem, pages, rest[0]), Concat(mem, pages, rest[1..]), skip, remaining);
  }

  /** Part of a fragment, as an entry. */
  function Part(f: Frag, skip: nat, n: nat): Frag { Frag(f.page, f.offset + skip, n) }

  lemma PartBytes(mem: seq<Byte>, pages: map<PageId, Page>, f: Frag, skip: nat, n: nat)
    requires PagesOk(mem, pages) && FragOk(pages, f) && skip + n <= f.size
    ensures FragOk(pages, Part(f, skip, n)) && FragBytes(mem, pages, Part(f, skip, n)) == FragBytes(mem, pages, f)[skip..skip + n]
  {
    SliceOfSlice(mem, pages[f.page.value].addr + f.offset, f.size, skip, n);
  }

  lemma Snoc(mem: seq<Byte>, pages: map<PageId, Page>, sg: seq<Frag>, e: Frag)
    requires PagesOk(mem, pages) && AllOk(pages, sg) && FragOk(pages, e)
    ensures AllOk(pages, sg + [e]) && Concat(mem, pages, sg + [e]) == Concat(mem, pages, sg) + FragBytes(mem, pages, e)
    ensures FragTotal(sg + [e]) == FragTotal(sg) + e.size
  {
    hide PagesOk, FragOk, FragBytes;
    ConcatSplit(mem, pages, sg, [e]);
    TotalSplit(sg, [e]);
    assert Concat(mem, pages, [e]) == FragBytes(mem, pages, e) + [];
  }

  lemma TakeOne(mem: seq<Byte>, pages: map<PageId, Page>, target: seq<Byte>, sg: seq<Frag>, rest: seq<Frag>, skip: nat, remaining: nat)
    requires Splits(mem, pages, target, sg, rest, skip, remaining) && rest != [] && remaining > 0 && skip < rest[0].size
    ensures var n := Least(rest[0].size - skip, remaining);
            && FragOk(pages, rest[0])
            && Splits(mem, pages, target, sg + [Part(rest[0], skip, n)], rest[1..], 0, remaining - n)
            && Pieces(rest, skip, remaining) == 1 + Pieces(rest[1..], 0, remaining - n)
  {
    hide PagesOk, FragOk, FragBytes;
    var f := rest[0];
    var n := Least(f.size - skip, remaining);
    PartBytes(mem, pages, f, skip, n);
    Snoc(mem, pages, sg, Part(f, skip, n));
    assert AllOk(pages, rest[1..]);
    TakeBytes(FragBytes(mem, pages, f), Concat(mem, pages, rest[1..]), skip, remaining);
  }

  /** The bytes asked for, as those of the first fragment and those of the others. */
  lemma TakeBytes<T>(a: seq<T>, b: seq<T>, skip: nat, remaining: nat)
    requires skip < |a| && skip + remaining <= |a| + |b|
    ensures var n := Least(|a| - skip, remaining);
            (a + b)[skip..skip + remaining] == a[skip..skip + n] + if remaining - n == 0 then [] else b[0..0 + (remaining - n)]
  {
    if remaining <= |a| - skip {
      InnerSlice(a, b, skip, remaining);
    } else {
      CrossSlice(a, b, skip, remaining);
      assert a[skip..] == a[skip..skip + (|a| - skip)];
    }
  }

  /** Before the loop: only fragments are asked for. */
  lemma StartPaged(mem: seq<Byte>, pages: map<PageId, Page>, skb: Skb, offset: nat, count: nat)
    requires PagesOk(mem, pages) && SkbOk(pages, skb) && Headlen(skb) <= offset && offset + count <= skb.len
    ensures Splits(mem, pages, Content(mem, pages, skb)[offset..offset + count], [], Used(skb), offset - Headlen(skb), count)
  {
    hide PagesOk, FragBytes;
    LinearFits(mem, pages, skb);
    DropSlice(Linear(mem, skb), Paged(mem, pages, skb), offset, count);
  }

  /** Before the loop: the linear part contributes an entry. */
  lemma StartLinear(mem: seq<Byte>, pages: map<PageId, Page>, skb: Skb, offset: nat, count: nat, e: Frag)
    requires PagesOk(mem, pages) && SkbOk(pages, skb) && offset < Headlen(skb) && offset + count <= skb.len
    requires e.size == Least(Headlen(skb) - offset, count) && FragOk(pages, e)
    requires LinearIn(mem, skb) && FragBytes(mem, pages, e) == Linear(mem, skb)[offset..offset + e.size]
    ensures Splits(mem, pages, Content(mem, pages, skb)[offset..offset + count], [e], Used(skb), 0, count - e.size)
  {
    hide PagesOk, FragBytes, Linear;
    LinearFits(mem, pages, skb);
    var a, b := Linear(mem, skb), Paged(mem, pages, skb);
    assert Concat(mem, pages, [e]) == FragBytes(mem, pages, e) + [];
    if e.size == count {
      InnerSlice(a, b, offset, count);
    } else {
      CrossSlice(a, b, offset, count);
      assert a[offset..] == a[offset..offset + e.size];
      assert Concat(mem, pages, Used(skb))[0..0 + (count - e.size)] == b[..count - e.size];
    }
  }

  /** The linear bytes from `at` on, as an entry of their page. */
  lemma LinearEntry(mem: seq<Byte>, pages: map<PageId, Page>, skb: Skb, offset: nat, n: nat, p: PageId)
    requires PagesOk(mem, pages) && SkbOk(pages, skb) && offset + n <= Headlen(skb) && n <= UINT_MAX && LinearIn(mem, skb)
    requires skb.headPage == Some(p)
    ensures p in pages && skb.data + offset >= pages[p].addr
    ensures var e := Frag(Some(p), skb.data + offset - pages[p].addr, n);
            FragOk(pages, e) && FragBytes(mem, pages, e) == Linear(mem, skb)[offset..offset + n]
  {
    SliceOfSlice(mem, skb.data, Headlen(skb), offset, n);
  }

  lemma HeadContains(mem: seq<Byte>, pages: map<PageId, Page>, skb: Skb, offset: nat)
    requires PagesOk(mem, pages) && SkbOk(pages, skb) && offset < Headlen(skb)
    ensures skb.headPage.Some? && skb.headPage.value in pages
    ensures var page := pages[skb.headPage.value]; page.addr <= skb.data + offset < page.addr + page.size
  {
  }

  /** After the loop: done, or a ninth entry would be needed. */
  lemma SplitsEnd(mem: seq<Byte>, pages: map<PageId, Page>, target: seq<Byte>, sg: seq<Frag>, rest: seq<Frag>, skip: nat, remaining: nat, total: nat)
    requires Splits(mem, pages, target, sg, rest, skip, remaining) && |target| > 0 && |sg| <= 8
    requires |sg| + Pieces(rest, skip, remaining) == total
    requires remaining == 0 || rest == [] || (|sg| >= 8 && Pieces(rest, skip, remaining) >= 1)
    ensures remaining == 0 <==> total <= 8
    ensures remaining == 0 ==> 0 < |sg| == total && PagesOk(mem, pages) && AllOk(pages, sg) && Concat(mem, pages, sg) == target && FragTotal(sg) == |target|
  {
    hide PagesOk, FragOk, FragBytes;
    assert Concat(mem, pages, sg) + [] == Concat(mem, pages, sg);
  }

  lemma Tail(skb: Skb, i: nat)
    requires skb.nrFrags <= |skb.frags| && i <= skb.nrFrags
    ensures i == skb.nrFrags ==> Used(skb)[i..] == []
    ensures i < skb.nrFrags ==> Used(skb)[i..] != [] && Used(skb)[i..][0] == skb.frags[i] && Used(skb)[i..][1..] == Used(skb)[i + 1..]
    ensures Used(skb)[0..] == Used(skb)
  {
  }

  lemma HasPage(pages: map<PageId, Page>, f: Frag)
    requires FragOk(pages, f)
    ensures f.page.Some?
  {
  }

  /** The fragment loop of skb_to_sgvec (skbuff.h:532-552). */
  method FragEntries(mem: seq<Byte>, pages: map<PageId, Page>, skb: Skb, ghost target: seq<Byte>, start: seq<Frag>, skip0: nat, remaining0: nat)
    returns (sg: seq<Frag>, remaining: nat)
    requires skb.nrFrags <= |skb.frags| && |start| <= 1 && |target| > 0
    requires Splits(mem, pages, target, start, Used(skb), skip0, remaining0)
    ensures remaining == 0 <==> |start| + Pieces(Used(skb), skip0, remaining0) <= 8
    ensures remaining == 0 ==>
              && 0 < |sg| == |start| + Pieces(Used(skb), skip0, remaining0)
              && PagesOk(mem, pages) && AllOk(pages, sg) && Concat(mem, pages, sg) == target && FragTotal(sg) == |target|
  {
    hide PagesOk, Splits, Pieces, FragTotal, Concat, AllOk, FragOk;
    sg, remaining := start, remaining0;
    var skip: nat := skip0;
    var i := 0;
    ghost var total := |start| + Pieces(Used(skb), skip, remaining);
    Tail(skb, 0);
    while i < skb.nrFrags && remaining > 0
      invariant 0 <= i <= skb.nrFrags && |sg| <= 8
      invariant Splits(mem, pages, target, sg, Used(skb)[i..], skip, remaining)
      invariant |sg| + Pieces(Used(skb)[i..], skip, remaining) == total
      decreases skb.nrFrags - i
    {
      var f := skb.frags[i];
      Tail(skb, i);
      if skip >= f.size {
        SkipOne(mem, pages, target, sg, Used(skb)[i..], skip, remaining);
        skip := skip - f.size;
      } else {
        TakeOne(mem, pages, target, sg, Used(skb)[i..], skip, remaining);
        HasPage(pages, f);
        if f.page.None? || |sg| >= 8 { break; }
        var fragLen := Least(f.size - skip, remaining);
        sg := sg + [Part(f, skip, fragLen)];
        remaining := remaining - fragLen;
        skip := 0;
      }
      i := i + 1;
    }
    Tail(skb, i);
    SplitsEnd(mem, pages, target, sg, Used(skb)[i..], skip, remaining, total);
  }

  /** Its first entry, if the request starts in the linear part (skbuff.h:513-530).  The head page is
      registered and contains the address, so virt_to_head_page does not answer NULL here. */
  method LinearEntryOf(heap: PacketHeap, k: SkbId, offset: nat, count: nat) returns (sg: seq<Frag>, skip: nat, remaining: nat)
    requires heap.Valid() && k in heap.skbs && SkbOk(heap.pages, heap.skbs[k])
    requires 0 < count && offset + count <= heap.skbs[k].len
    ensures PagesOk(heap.mem, heap.pages) && |sg| <= 1 && heap.skbs[k].nrFrags <= |heap.skbs[k].frags|
    ensures Splits(heap.mem, heap.pages, Content(heap.mem, heap.pages, heap.skbs[k])[offset..offset + count], sg, Used(heap.skbs[k]), skip, remaining)
    ensures |sg| + Pieces(Used(heap.skbs[k]), skip, remaining) == PiecesOf(heap.skbs[k], offset, count)
  {
    hide PagesOk, SkbOk, Content, Splits, HeapOk, Pieces, FragTotal, Concat, AllOk, FragOk, Linear, Paged;
    HeapPages(heap.Snap(), heap.callers);
    var skb := heap.skbs[k];
    OkBounds(heap.pages, skb);
    LinearFits(heap.mem, heap.pages, skb);
    var linear := Headlen(skb);
    if offset < linear && count > 0 {
      HeadContains(heap.mem, heap.pages, skb, offset);
      var page := heap.VirtToHeadPage(skb.data + offset);
      var fragLen := Least(linear - offset, count);
      LinearEntry(heap.mem, heap.pages, skb, offset, fragLen, page.value);
      sg := [Frag(page, skb.data + offset - heap.pages[page.value].addr, fragLen)];
      StartLinear(heap.mem, heap.pages, skb, offset, count, sg[0]);
      skip, remaining := 0, count - fragLen;
    } else {
      StartPaged(heap.mem, heap.pages, skb, offset, count);
      sg, skip, remaining := [], offset - Least(offset, linear), count;
    }
  }

  /** skb_to_sgvec: at most eight entries that together are exactly the requested bytes of the packet;
      nothing if the request lies outside it or needs a ninth entry. */
  method ToSgvec(heap: PacketHeap, k: SkbId, offset: int, len: int) returns (n: nat, sg: seq<Frag>)
    requires heap.Valid() && k in heap.skbs && SkbOk(heap.pages, heap.skbs[k]) && heap.skbs[k].len <= INT_MAX
    ensures PagesOk(heap.mem, heap.pages)
    ensures var skb := heap.skbs[k]; var count := Clip(skb.len, offset, len);
            && (n > 0 <==> count > 0 && PiecesOf(skb, offset, count) <= 8)
            && (n > 0 ==> n == |sg| == PiecesOf(skb, offset, count) && AllOk(heap.pages, sg) && FragTotal(sg) == count
                          && Concat(heap.mem, heap.pages, sg) == Content(heap.mem, heap.pages, skb)[offset..offset + count])
  {
    hide PagesOk, SkbOk, Content, Splits, HeapOk, Pieces, FragTotal, Concat, AllOk, FragOk, Linear, Paged;
    HeapPages(heap.Snap(), heap.callers);
    var skb := heap.skbs[k];
    n, sg := 0, [];
    if offset < 0 || len <= 0 || offset >= skb.len { return; }
    var remaining := if len > skb.len - offset then skb.len - offset else len;
    ghost var count := remaining;
    ghost var target := Content(heap.mem, heap.pages, skb)[offset..offset + count];
    OkBounds(heap.pages, skb);
    var skip;
    sg, skip, remaining := LinearEntryOf(heap, k, offset, remaining);
    sg, remaining := FragEntries(heap.mem, heap.pages, skb, target, sg, skip, remaining);
    n := if remaining == 0 then |sg| else 0;
  }

  // ----- the URB side

  /** lcompat_usb_sg_total_len (usb.c:106-121): the exact sum, unless a page is missing or it exceeds INT_MAX. */
  method SgTotalLen(sg: seq<Frag>) returns (r: Length)
    ensures r.Size? <==> (forall e <- sg :: e.page.Some?) && FragTotal(sg) <= INT_MAX
    ensures r.Size? ==> r.count == FragTotal(sg)
    ensures r.EInval? ==> exists e <- sg :: e.page.None?
    ensures r.EOverflow? ==> FragTotal(sg) > INT_MAX
    ensures !r.ENoMem?
  {
    var total := 0;
    for i := 0 to |sg|
      invariant total == FragTotal(sg[..i]) <= INT_MAX
      invariant forall j | 0 <= j < i :: sg[j].page.Some?
    {
      assert sg[..i + 1] == sg[..i] + [sg[i]];
      TotalSplit(sg[..i], [sg[i]]);
      assert FragTotal([sg[i]]) == sg[i].size;
      TotalPrefix(sg, i + 1);
      if sg[i].page.None? { return EInval; }
      if sg[i].size > INT_MAX - total { return EOverflow; }
      total := total + sg[i].size;
    }
    assert sg[..|sg|] == sg;
    r := Size(total);
  }

  lemma TotalPrefix(sg: seq<Frag>, i: nat)
    requires i <= |sg|
    ensures FragTotal(sg[..i]) <= FragTotal(sg)
  {
    assert sg == sg[..i] + sg[i..];
    TotalSplit(sg[..i], sg[i..]);
  }

  /** lcompat_usb_urb_data_len (usb.c:123-139); an empty `sg` stands for a URB without scatterlist.  A transfer length that
      is not positive means the whole scatterlist, and one that is larger is refused. */
  method UrbDataLen(sg: seq<Frag>, transferLength: int) returns (r: Length)
    ensures sg == [] ==> r == if transferLength < 0 then BadLength(transferLength) else Size(transferLength)
    ensures sg != [] && r.Size? ==> r.count <= FragTotal(sg) && r.count == if transferLength <= 0 then FragTotal(sg) else transferLength
    ensures sg != [] ==> (r.Size? <==> (forall e <- sg :: e.page.Some?) && FragTotal(sg) <= INT_MAX && transferLength <= FragTotal(sg))
    ensures !r.ENoMem?
  {
    if sg == [] { return TransferLength(None, transferLength); }
    var total := SgTotalLen(sg);
    return TransferLength(Some(total), transferLength);
  }

  /** Every entry names no page, or a range inside its page. */
  ghost predicate EntriesFit(pages: map<PageId, Page>, sg: seq<Frag>) {
    forall e <- sg :: FragFits(pages, e)
  }

  /** The entries before the first one without a page. */
  function Present(sg: seq<Frag>): seq<Frag> {
    if sg == [] || sg[0].page.None? then [] else [sg[0]] + Present(sg[1..])
  }

  lemma {:induction false} PresentIs(pages: map<PageId, Page>, sg: seq<Frag>)
    requires EntriesFit(pages, sg)
    ensures Present(sg) <= sg && AllOk(pages, Present(sg))
    ensures |Present(sg)| < |sg| ==> sg[|Present(sg)|].page.None?
  {
    hide FragOk;
    if sg != [] && sg[0].page.Some? {
      PresentIs(pages, sg[1..]);
      assert sg[0] in sg;
      assert sg == [sg[0]] + sg[1..];
    }
  }

  lemma {:induction false} PresentAll(sg: seq<Frag>)
    requires forall e <- sg :: e.page.Some?
    ensures Present(sg) == sg
  {
    if sg != [] { PresentAll(sg[1..]); }
  }

  /** lcompat_usb_sg_copy_from_urb (usb.c:141-158): the first `len` bytes the entries name, in order, if the entries before the
      first one without a page name that many.  The source's int arithmetic needs the lengths to fit an int. */
  method SgCopyFromUrb(mem: seq<Byte>, pages: map<PageId, Page>, sg: seq<Frag>, dst: array<Byte>, len: nat) returns (ok: bool)
    requires PagesOk(mem, pages) && EntriesFit(pages, sg) && FragTotal(sg) <= INT_MAX && len <= dst.Length
    modifies dst
    ensures AllOk(pages, Present(sg))
    ensures ok <==> len <= FragTotal(Present(sg))
    ensures ok ==> dst[..len] == Concat(mem, pages, Present(sg))[..len]
    ensures dst[len..] == old(dst[len..])
  {
    hide PagesOk, FragTotal, Concat, FragBytes, FragOk, Present, FragFits;
    PresentIs(pages, sg);
    ghost var there := Present(sg);
    ghost var tail := dst[len..];
    var copied: nat := 0;
    var i := 0;
    CopiedStart(mem, pages, there);
    while i < |sg| && copied < len
      invariant 0 <= i <= |there| && copied <= len
      invariant CopiedSoFar(mem, pages, there, i, copied, len, dst[..copied])
      invariant dst[len..] == tail
      decreases |sg| - i
    {
      var n := Least(sg[i].size, len - copied);
      if sg[i].page.None? {
        PageThere(pages, there, i);
        CopiedEnd(mem, pages, there, i, copied, len, dst[..copied]);
        return false;
      }
      EntryBytes(mem, pages, there, i);
      var src := pages[sg[i].page.value].addr + sg[i].offset;
      ghost var was := dst[..copied];
      forall j | 0 <= j < n { dst[copied + j] := mem[src + j]; }
      assert dst[..copied + n] == was + mem[src..src + n];
      assert dst[len..] == tail;
      CopiedMore(mem, pages, there, i, copied, len, was, n, mem[src..src + n]);
      copied := copied + n;
      i := i + 1;
    }
    CopiedEnd(mem, pages, there, i, copied, len, dst[..copied]);
    ok := copied == len;
  }

  lemma PageThere(pages: map<PageId, Page>, there: seq<Frag>, i: nat)
    requires AllOk(pages, there) && i <= |there|
    ensures i < |there| ==> there[i].page.Some?
  {
    if i < |there| { assert there[i] in there; }
  }

  ghost predicate CopiedSoFar(mem: seq<Byte>, pages: map<PageId, Page>, sg: seq<Frag>, i: nat, copied: nat, len: nat, bytes: seq<Byte>) {
    && PagesOk(mem, pages) && AllOk(pages, sg) && i <= |sg| && copied == Least(len, FragTotal(sg[..i]))
    && bytes == Concat(mem, pages, sg[..i])[..copied]
  }

  lemma CopiedStart(mem: seq<Byte>, pages: map<PageId, Page>, sg: seq<Frag>)
    requires PagesOk(mem, pages) && AllOk(pages, sg)
    ensures forall len: nat :: CopiedSoFar(mem, pages, sg, 0, 0, len, [])
  {
    assert sg[..0] == [];
  }

  lemma EntryBytes(mem: seq<Byte>, pages: map<PageId, Page>, sg: seq<Frag>, i: nat)
    requires PagesOk(mem, pages) && AllOk(pages, sg) && i < |sg|
    ensures sg[i].page.Some? && sg[i].page.value in pages && FragOk(pages, sg[i])
    ensures var at := pages[sg[i].page.value].addr + sg[i].offset;
            && at + sg[i].size <= |mem|
            && forall n: nat | n <= sg[i].size :: mem[at..at + n] == FragBytes(mem, pages, sg[i])[..n]
  {
    assert sg[i] in sg;
    var at := pages[sg[i].page.value].addr + sg[i].offset;
    forall n: nat | n <= sg[i].size
      ensures mem[at..at + n] == FragBytes(mem, pages, sg[i])[..n]
    {
      SliceOfSlice(mem, at, sg[i].size, 0, n);
    }
  }

  lemma CopiedMore(mem: seq<Byte>, pages: map<PageId, Page>, sg: seq<Frag>, i: nat, copied: nat, len: nat, bytes: seq<Byte>, n: nat, more: seq<Byte>)
    requires CopiedSoFar(mem, pages, sg, i, copied, len, bytes) && i < |sg| && copied < len && FragOk(pages, sg[i])
    requires n == Least(sg[i].size, len - copied) && more == FragBytes(mem, pages, sg[i])[..n]
    ensures CopiedSoFar(mem, pages, sg, i + 1, copied + n, len, bytes + more)
  {
    hide PagesOk, FragBytes, FragOk, Concat, FragTotal;
    ConcatOneMore(mem, pages, sg, i);
    PrefixIsAll(Concat(mem, pages, sg[..i]), FragBytes(mem, pages, sg[i]), [], n);
    assert FragBytes(mem, pages, sg[i]) + [] == FragBytes(mem, pages, sg[i]);
  }

  lemma CopiedEnd(mem: seq<Byte>, pages: map<PageId, Page>, sg: seq<Frag>, i: nat, copied: nat, len: nat, bytes: seq<Byte>)
    requires CopiedSoFar(mem, pages, sg, i, copied, len, bytes) && (i >= |sg| || copied >= len)
    ensures copied == len <==> len <= FragTotal(sg)
    ensures copied == len ==> bytes == Concat(mem, pages, sg)[..len]
  {
    hide PagesOk, FragBytes, FragOk;
    assert sg == sg[..i] + sg[i..];
    forall f <- sg[..i] ensures FragOk(pages, f) { assert f in sg; }
    forall f <- sg[i..] ensures FragOk(pages, f) { assert f in sg; }
    TotalSplit(sg[..i], sg[i..]);
    ConcatSplit(mem, pages, sg[..i], sg[i..]);
    if i == |sg| { assert sg[i..] == []; }
  }

  /** lcompat_usb_prepare_urb_buffer (usb.c:180-221).  Without a scatterlist the URB's own buffer is used.  With one, the bounce
      buffer is large enough, and for OUT transfers it holds the first bytes the entries name.  `grown` says whether
      krealloc succeeds. */
  method PrepareUrbBuffer(mem: seq<Byte>, pages: map<PageId, Page>, sg: seq<Frag>, transferLength: int, dirIn: bool,
                          own: array<Byte>, bounce: array<Byte>, grown: bool) returns (r: Length, out: array<Byte>)
    requires PagesOk(mem, pages) && EntriesFit(pages, sg)
    modifies bounce
    ensures sg == [] ==> out == own && bounce[..] == old(bounce[..])
                         && r == if transferLength < 0 then BadLength(transferLength) else Size(transferLength)
    ensures sg != [] ==> out == bounce || fresh(out)
    ensures sg != [] && r.Size? ==>
              && AllOk(pages, sg) && r.count <= out.Length && r.count <= FragTotal(sg)
              && r.count == (if transferLength <= 0 then FragTotal(sg) else transferLength)
              && (!dirIn ==> out[..r.count] == Concat(mem, pages, sg)[..r.count])
    ensures sg != [] ==>
              (r.Size? <==> && (forall e <- sg :: e.page.Some?) && FragTotal(sg) <= INT_MAX && transferLength <= FragTotal(sg)
                             && (grown || (if transferLength <= 0 then FragTotal(sg) else transferLength) <= bounce.Length))
  {
    hide PagesOk, FragTotal, Concat, FragBytes, FragOk, FragFits;
    r := UrbDataLen(sg, transferLength);
    out := if sg == [] then own else bounce;
    if !r.Size? || sg == [] { return; }
    PresentIs(pages, sg);
    PresentAll(sg);
    if r.count > bounce.Length {
      if !grown { return ENoMem, out; }
      out := new Byte[r.count](i => 0);
    }
    if !dirIn {
      var ok := SgCopyFromUrb(mem, pages, sg, out, r.count);
      if !ok { assert false; }
    }
  }

  lemma EntriesOk(pages: map<PageId, Page>, sg: seq<Frag>)
    requires AllOk(pages, sg)
    ensures EntriesFit(pages, sg) && forall e <- sg :: e.page.Some?
  {
  }

  /** From the packet to the wire: the scatterlist of a request, put into the buffer of an OUT URB, is that stretch of the packet. */
  method PacketToUrb(heap: PacketHeap, k: SkbId, offset: int, len: int, own: array<Byte>, bounce: array<Byte>)
    returns (n: nat, r: Length, out: array<Byte>)
    requires heap.Valid() && k in heap.skbs && SkbOk(heap.pages, heap.skbs[k]) && heap.skbs[k].len <= INT_MAX
    modifies bounce
    ensures PagesOk(heap.mem, heap.pages) && (out == own || out == bounce || fresh(out))
    ensures var skb := heap.skbs[k]; var count := Clip(skb.len, offset, len);
            n > 0 ==> count > 0 && r == Size(count) && count <= out.Length
                      && out[..count] == Content(heap.mem, heap.pages, skb)[offset..offset + count]
  {
    hide PagesOk, SkbOk, Content, FragTotal, Concat, FragOk, FragFits, HeapOk;
    var sg;
    n, sg := ToSgvec(heap, k, offset, len);
    r, out := ENoMem, own;
    if n == 0 { return; }
    EntriesOk(heap.pages, sg);
    r, out := PrepareUrbBuffer(heap.mem, heap.pages, sg, 0, false, own, bounce, true);
    ghost var all := Concat(heap.mem, heap.pages, sg);
    assert all[..|all|] == all;
  }

  /** The two ways to read a packet agree: whatever stretch of it is gathered through a scatterlist before skb_linearize
      is, byte for byte, that stretch of the one piece that skb_linearize makes. */
  method GatherAgreesWithLinearize(heap: PacketHeap, k: SkbId, offset: int, len: int, dst: array<Byte>)
    returns (n: nat, copied: bool, ret: Ret)
    requires heap.Valid() && k in heap.skbs && SkbOk(heap.pages, heap.skbs[k]) && heap.skbs[k].len <= INT_MAX
    requires Clip(heap.skbs[k].len, offset, len) <= dst.Length
    modifies heap, dst
    ensures var count := Clip(old(heap.skbs[k].len), offset, len);
            && n == old(if count > 0 && PiecesOf(heap.skbs[k], offset, count) <= 8 then PiecesOf(heap.skbs[k], offset, count) else 0)
            && (copied <==> n > 0)
            && (copied && ret == Done ==>
                  && k in heap.skbs && heap.skbs[k].dataLen == 0 && heap.skbs[k].len == old(heap.skbs[k].len)
                  && heap.skbs[k].data + offset + count <= |heap.mem|
                  && dst[..count] == heap.mem[heap.skbs[k].data + offset..heap.skbs[k].data + offset + count])
    ensures ret != EINVAL
  {
    hide PagesOk, SkbOk, SkbShape, Content, FragTotal, Concat, FragOk, FragFits, HeapOk, Flattened, OthersKept, PagesKept, PiecesOf;
    ghost var mem0, pages0, skb0 := heap.mem, heap.pages, heap.skbs[k];
    ghost var count := Clip(skb0.len, offset, len);
    var sg;
    n, sg := ToSgvec(heap, k, offset, len);
    copied := n > 0;
    if n > 0 {
      EntriesOk(heap.pages, sg);
      PresentAll(sg);
      var total := SgTotalLen(sg);
      copied := SgCopyFromUrb(heap.mem, heap.pages, sg, dst, total.count);
      ghost var all := Concat(mem0, pages0, sg);
      assert all[..|all|] == all;
    }
    OkShape(heap.pages, heap.skbs[k]);
    OkIsValid(heap.pages, heap.skbs[k]);
    ret := heap.Linearize(k);
    if n > 0 && ret == Done { FlatStretch(mem0, pages0, skb0, heap.mem, heap.pages, heap.skbs[k], offset, count); }
  }

  /** A stretch of the packet is the same stretch of its one piece. */
  lemma FlatStretch(mem: seq<Byte>, pages: map<PageId, Page>, skb: Skb, mem': seq<Byte>, pages': map<PageId, Page>, skb': Skb,
                    offset: nat, count: nat)
    requires PagesOk(mem, pages) && SkbOk(pages, skb) && offset + count <= skb.len && Flattened(mem, pages, skb, mem', pages', skb')
    ensures skb'.dataLen == 0 && skb'.len == skb.len && skb'.data + offset + count <= |mem'|
    ensures Content(mem, pages, skb)[offset..offset + count] == mem'[skb'.data + offset..skb'.data + offset + count]
  {
    hide PagesOk, FragOk, FragBytes;
    SliceOfSlice(mem', skb'.data, Headlen(skb'), offset, count);
  }

  // ----- the way back

  function EntryAt(pages: map<PageId, Page>, e: Frag): nat
    requires FragOk(pages, e)
  {
    pages[e.page.value].addr + e.offset
  }

  /** No byte of memory belongs to two entries. */
  ghost predicate EntriesApart(pages: map<PageId, Page>, sg: seq<Frag>)
    requires AllOk(pages, sg)
  {
    forall i, j | 0 <= i < j < |sg| ::
      EntryAt(pages, sg[i]) + sg[i].size <= EntryAt(pages, sg[j]) || EntryAt(pages, sg[j]) + sg[j].size <= EntryAt(pages, sg[i])
  }

  lemma {:induction false} ConcatUnchanged(mem: seq<Byte>, mem': seq<Byte>, pages: map<PageId, Page>, fs: seq<Frag>)
    requires PagesOk(mem, pages) && PagesOk(mem', pages) && AllOk(pages, fs)
    requires forall f <- fs :: FragBytes(mem', pages, f) == FragBytes(mem, pages, f)
    ensures Concat(mem', pages, fs) == Concat(mem, pages, fs)
  {
    hide PagesOk, FragOk, FragBytes;
    if fs != [] { ConcatUnchanged(mem, mem', pages, fs[1..]); }
  }

  /** After `i` entries: the first `copied` bytes of `src` can be read back through them. */
  ghost predicate Scattered(mem: seq<Byte>, pages: map<PageId, Page>, sg: seq<Frag>, i: nat, copied: nat, len: nat, src: seq<Byte>) {
    && |src| == len && copied <= len
    && CopiedSoFar(mem, pages, sg, i, copied, len, src[..copied])
  }

  lemma PrefixGrows<T>(s: seq<T>, a: nat, n: nat)
    requires a + n <= |s|
    ensures s[..a] + s[a..a + n] == s[..a + n]
  {
  }

  lemma ScatterMore(mem: seq<Byte>, pages: map<PageId, Page>, sg: seq<Frag>, i: nat, copied: nat, len: nat, src: seq<Byte>, n: nat)
    requires Scattered(mem, pages, sg, i, copied, len, src) && i < |sg| && copied < len && AllOk(pages, sg) && EntriesApart(pages, sg)
    requires FragOk(pages, sg[i]) && n == Least(sg[i].size, len - copied)
    ensures EntryAt(pages, sg[i]) + n <= |mem|
    ensures var mem' := Blit(mem, EntryAt(pages, sg[i]), src[copied..copied + n]);
            PagesOk(mem', pages) && Scattered(mem', pages, sg, i + 1, copied + n, len, src)
  {
    hide Concat, FragTotal;
    var at := EntryAt(pages, sg[i]);
    var more := src[copied..copied + n];
    var mem' := Blit(mem, at, more);
    forall f <- sg[..i]
      ensures FragOk(pages, f) && FragBytes(mem', pages, f) == FragBytes(mem, pages, f)
    {
      var j :| 0 <= j < i && sg[j] == f;
      assert f in sg;
      BlitElsewhere(mem, at, more, EntryAt(pages, f), EntryAt(pages, f) + f.size);
    }
    ConcatUnchanged(mem, mem', pages, sg[..i]);
    SliceOfSlice(mem', at, sg[i].size, 0, n);
    assert FragBytes(mem', pages, sg[i])[..n] == more;
    CopiedMore(mem', pages, sg, i, copied, len, src[..copied], n, more);
    PrefixGrows(src, copied, n);
  }

  /** `src` written through the entries one after the other, as far as both reach. */
  ghost function Spread(mem: seq<Byte>, pages: map<PageId, Page>, sg: seq<Frag>, src: seq<Byte>): (r: seq<Byte>)
    requires PagesOk(mem, pages) && AllOk(pages, sg)
    ensures |r| == |mem| && PagesOk(r, pages)
    decreases |sg|
  {
    if sg == [] || src == [] then mem
    else
      var n := Least(sg[0].size, |src|);
      EntryInside(mem, pages, sg[0]);
      Spread(Blit(mem, EntryAt(pages, sg[0]), src[..n]), pages, sg[1..], src[n..])
  }

  lemma EntryInside(mem: seq<Byte>, pages: map<PageId, Page>, e: Frag)
    requires PagesOk(mem, pages) && FragOk(pages, e)
    ensures EntryAt(pages, e) + e.size <= |mem|
    ensures forall mem': seq<Byte> | |mem'| == |mem| :: PagesOk(mem', pages)
  {
  }

  lemma SpreadOne(mem: seq<Byte>, pages: map<PageId, Page>, sg: seq<Frag>, src: seq<Byte>, i: nat, copied: nat)
    requires PagesOk(mem, pages) && AllOk(pages, sg) && i < |sg| && copied < |src|
    ensures var n := Least(sg[i].size, |src| - copied);
            && EntryAt(pages, sg[i]) + n <= |mem|
            && var mem' := Blit(mem, EntryAt(pages, sg[i]), src[copied..copied + n]);
               PagesOk(mem', pages) && Spread(mem, pages, sg[i..], src[copied..]) == Spread(mem', pages, sg[i + 1..], src[copied + n..])
  {
    hide PagesOk;
    var n := Least(sg[i].size, |src| - copied);
    EntryInside(mem, pages, sg[i]);
    assert sg[i..][0] == sg[i] && sg[i..][1..] == sg[i + 1..];
    assert src[copied..][..n] == src[copied..copied + n] && src[copied..][n..] == src[copied + n..];
  }

  /** lcompat_usb_sg_copy_to_urb (usb.c:160-178): the bytes are written through the entries in order; no other byte changes, and
      entries that do not overlap read back what was copied. */
  method SgCopyToUrb(mem: seq<Byte>, pages: map<PageId, Page>, sg: seq<Frag>, src: seq<Byte>) returns (ok: bool, mem': seq<Byte>)
    requires PagesOk(mem, pages) && EntriesFit(pages, sg) && FragTotal(sg) <= INT_MAX
    ensures AllOk(pages, Present(sg)) && |mem'| == |mem| && PagesOk(mem', pages)
    ensures ok <==> |src| <= FragTotal(Present(sg))
    ensures mem' == Spread(mem, pages, Present(sg), src)
    ensures ok && EntriesApart(pages, Present(sg)) ==> Concat(mem', pages, Present(sg))[..|src|] == src
    ensures forall a | 0 <= a < |mem| && (forall e <- Present(sg) :: !(EntryAt(pages, e) <= a < EntryAt(pages, e) + e.size)) :: mem'[a] == mem[a]
  {
    hide PagesOk, FragTotal, Concat, FragBytes, FragOk, FragFits, Present, EntriesApart, CopiedSoFar, Spread;
    PresentIs(pages, sg);
    ghost var there := Present(sg);
    ghost var apart := EntriesApart(pages, there);
    mem' := mem;
    var len := |src|;
    var copied: nat := 0;
    var i := 0;
    CopiedStart(mem, pages, there);
    assert src[..0] == [] && src[0..] == src && there[0..] == there;
    TotalNone(there);
    while i < |sg| && copied < len
      invariant 0 <= i <= |there| && copied <= len && |mem'| == |mem| && PagesOk(mem', pages)
      invariant copied == Least(len, FragTotal(there[..i]))
      invariant apart ==> Scattered(mem', pages, there, i, copied, len, src)
      invariant Spread(mem', pages, there[i..], src[copied..]) == Spread(mem, pages, there, src)
      invariant forall a | 0 <= a < |mem| && (forall e <- there :: !(EntryAt(pages, e) <= a < EntryAt(pages, e) + e.size)) :: mem'[a] == mem[a]
      decreases |sg| - i
    {
      var n := Least(sg[i].size, len - copied);
      if sg[i].page.None? {
        PageThere(pages, there, i);
        SpreadEnds(mem', pages, there, i, copied, src);
        return false, mem';
      }
      EntryBytes(mem', pages, there, i);
      if apart { ScatterMore(mem', pages, there, i, copied, len, src, n); }
      SpreadOne(mem', pages, there, src, i, copied);
      TotalMore(there, i);
      mem' := Blit(mem', EntryAt(pages, sg[i]), src[copied..copied + n]);
      copied := copied + n;
      i := i + 1;
    }
    SpreadEnds(mem', pages, there, i, copied, src);
    if apart { CopiedEnd(mem', pages, there, i, copied, len, src[..copied]); }
    ok := copied == len;
    assert copied == len ==> src[..copied] == src;
  }

  lemma TotalNone(sg: seq<Frag>)
    ensures FragTotal(sg[..0]) == 0
  {
  }

  lemma TotalMore(sg: seq<Frag>, i: nat)
    requires i < |sg|
    ensures FragTotal(sg[..i + 1]) == FragTotal(sg[..i]) + sg[i].size
  {
    assert sg[..i + 1] == sg[..i] + [sg[i]];
    TotalSplit(sg[..i], [sg[i]]);
    assert FragTotal([sg[i]]) == sg[i].size;
  }

  lemma SpreadEnds(mem: seq<Byte>, pages: map<PageId, Page>, sg: seq<Frag>, i: nat, copied: nat, src: seq<Byte>)
    requires PagesOk(mem, pages) && AllOk(pages, sg) && i <= |sg| && copied == Least(|src|, FragTotal(sg[..i]))
    requires i == |sg| || copied == |src|
    ensures Spread(mem, pages, sg[i..], src[copied..]) == mem
    ensures copied == |src| <==> |src| <= FragTotal(sg)
  {
    hide PagesOk, FragOk;
    TotalPrefix(sg, i);
    if i == |sg| { assert sg[..i] == sg && sg[i..] == []; }
  }
}
