/** Sizes of page allocations (page_pool.c:91-115). */
module PageOrder {
  import opened Basics

  const PAGE_SIZE: nat := 4096
  const LONG_BITS: nat := 64
  const LONG_SPAN: nat := 0x1_0000_0000_0000_0000

  /** The least order whose block holds `size` bytes. */
  ghost predicate IsOrder(order: nat, size: nat) {
    && size <= PAGE_SIZE * Pow2(order)
    && (forall o: nat | o < order :: PAGE_SIZE * Pow2(o) < size)
  }

  /** Only the next smaller order has to be too small. */
  lemma OrderFrom(order: nat, size: nat)
    requires size <= PAGE_SIZE * Pow2(order)
    requires order > 0 ==> PAGE_SIZE * Pow2(order - 1) < size
    ensures IsOrder(order, size)
  {
    forall o: nat | o < order
      ensures PAGE_SIZE * Pow2(o) < size
    {
      Pow2Grows(o, order - 1);
    }
  }

  /** `pages` is `all` shifted right `order` times, and was not zero before the last shift. */
  ghost predicate Shifted(pages: nat, all: nat, order: nat) {
    && pages * Pow2(order) <= all < (pages + 1) * Pow2(order)
    && (order > 0 ==> Pow2(order - 1) <= all)
  }

  lemma ShiftOnce(pages: nat, all: nat, order: nat)
    requires pages != 0 && Shifted(pages, all, order)
    ensures Shifted(pages / 2, all, order + 1)
  {
    Halving(pages, all, Pow2(order));
  }

  /** get_order: count the shifts until nothing is left. */
  method GetOrder(size: nat) returns (order: nat)
    requires size < LONG_SPAN
    ensures IsOrder(order, size)
  {
    hide Shifted, IsOrder;
    order := 0;
    if size <= PAGE_SIZE {
      OrderFrom(0, size);
      return;
    }
    ghost var all: nat := (size - 1) / PAGE_SIZE;
    var pages: nat := (size - 1) / PAGE_SIZE;
    NotShifted(all);
    while pages != 0
      invariant Shifted(pages, all, order)
      decreases pages
    {
      ShiftOnce(pages, all, order);
      pages := pages / 2;
      order := order + 1;
    }
    FromShifts(size, all, order);
  }

  lemma NotShifted(all: nat)
    ensures Shifted(all, all, 0)
  {
  }

  lemma Halving(pages: nat, all: nat, unit: nat)
    requires pages != 0 && pages * unit <= all < (pages + 1) * unit
    ensures pages / 2 * (2 * unit) <= all < (pages / 2 + 1) * (2 * unit) && unit <= all
  {
    var half, rest := pages / 2, pages % 2;
    assert pages == 2 * half + rest;
    assert half * (2 * unit) == (2 * half) * unit;
    assert (half + 1) * (2 * unit) == (2 * half + 2) * unit;
    Product(2 * half, pages, unit);
    Product(pages + 1, 2 * half + 2, unit);
    Product(1, pages, unit);
  }

  lemma Product(a: nat, b: nat, unit: nat)
    requires a <= b
    ensures a * unit <= b * unit
  {
  }

  lemma FromShifts(size: nat, all: nat, order: nat)
    requires size > PAGE_SIZE && all == (size - 1) / PAGE_SIZE && Shifted(0, all, order)
    ensures IsOrder(order, size)
  {
    assert PAGE_SIZE * all < size <= PAGE_SIZE * (all + 1);
    OrderFrom(order, size);
  }

  /** Bytes lcompat_page_alloc is asked for, and takes, for a block of this order: the shift is
      64 bits wide, and a size of 0 means one page. */
  function BlockBytes(order: nat): nat {
    var shifted := PAGE_SIZE * Pow2(order) % LONG_SPAN;
    if shifted == 0 then PAGE_SIZE else shifted
  }

  lemma Pow2Facts()
    ensures PAGE_SIZE * Pow2(51) == 0x8000_0000_0000_0000 && PAGE_SIZE * Pow2(52) == LONG_SPAN && Pow2(20) == 0x10_0000
  {
    Pow2Sum(10, 10);
    Pow2Sum(20, 20);
    Pow2Sum(40, 10);
    Pow2Sum(50, 1);
    Pow2Sum(51, 1);
    assert Pow2(10) == 1024 by { Pow2Ten(); }
  }

  lemma Pow2Ten()
    ensures Pow2(10) == 1024
  {
    Pow2Sum(5, 5);
    assert Pow2(5) == 2 * Pow2(4) == 4 * Pow2(3) == 8 * Pow2(2);
  }

  lemma AtMost(order: nat, size: nat, bound: nat)
    requires IsOrder(order, size) && size <= PAGE_SIZE * Pow2(bound)
    ensures order <= bound
  {
  }

  /** Asking for the order of `size` yields a block of at least `size` bytes if and only if size <= 2^63:
      beyond, the shift wraps and a single page comes back. */
  lemma BlockHoldsSize(order: nat, size: nat)
    requires size < LONG_SPAN && IsOrder(order, size)
    ensures size <= BlockBytes(order) <==> size <= 0x8000_0000_0000_0000
    ensures size <= 0xFFFF_FFFF ==> order <= 20
  {
    hide Pow2;
    Pow2Facts();
    if size <= 0x8000_0000_0000_0000 {
      AtMost(order, size, 51);
      Pow2Grows(order, 51);
      assert PAGE_SIZE * Pow2(order) < LONG_SPAN;
    } else {
      AtMost(order, size, 52);
      if order < 52 { Pow2Grows(order, 51); }
    }
    if size <= 0xFFFF_FFFF { AtMost(order, size, 20); }
  }
}
