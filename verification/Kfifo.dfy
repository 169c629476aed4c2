/** A ring with free-running 32-bit indices (include/linux/kfifo.h). */
module Kfifo {
  import opened Basics

  /** Bitwise and. */
  function And(a: nat, b: nat): (r: nat)
    ensures r <= b
  {
    if a == 0 || b == 0 then 0 else 2 * And(a / 2, b / 2) + (a % 2) * (b % 2)
  }

  ghost predicate IsPow2(n: nat) { exists k: nat :: n == Pow2(k) }

  lemma Unfold(a: nat, b: nat)
    requires a > 0 && b > 0
    ensures And(a, b) == 2 * And(a / 2, b / 2) + (a % 2) * (b % 2)
  {
  }

  lemma Doubles(k: nat)
    ensures Pow2(k + 1) == 2 * Pow2(k)
  {
  }

  /** Masking with 2^k - 1 is the remainder. */
  lemma {:induction false} MaskIsMod(a: nat, k: nat)
    ensures And(a, Pow2(k) - 1) == a % Pow2(k)
  {
    hide And, Pow2;
    if k == 0 {
      MaskNothing(a);
    } else {
      MaskIsMod(a / 2, k - 1);
      Doubles(k - 1);
      MaskStep(a, Pow2(k - 1), Pow2(k));
    }
  }

  lemma MaskNothing(a: nat)
    ensures Pow2(0) == 1 && And(a, 0) == 0
  {
  }

  lemma MaskStep(a: nat, p: nat, q: nat)
    requires p > 0 && q == 2 * p && And(a / 2, p - 1) == a / 2 % p
    ensures And(a, q - 1) == a % q
  {
    hide And;
    UnfoldOdd(a, q - 1, p - 1);
    HalfMod(a, p, q);
  }

  lemma UnfoldOdd(a: nat, b: nat, half: nat)
    requires b == 2 * half + 1
    ensures And(a, b) == 2 * And(a / 2, half) + a % 2
  {
    assert b / 2 == half && b % 2 == 1;
    if a > 0 { Unfold(a, b); }
  }

  lemma HalfMod(a: nat, p: nat, q: nat)
    requires p > 0 && q == 2 * p
    ensures a % q == 2 * (a / 2 % p) + a % 2
  {
    var n, r := a / 2 / p, a / 2 % p;
    assert a / 2 == n * p + r;
    assert n * q == 2 * (n * p);
    Unique(a, q, n, 2 * r + a % 2);
  }

  /** A non-zero multiple of d is at least d away from 0. */
  lemma FarFromZero(x: int, d: int)
    requires d >= 0
    ensures x >= 1 ==> x * d >= d
    ensures x <= -1 ==> x * d <= -d
  {
  }

  lemma Unique(a: nat, d: nat, q: nat, r: nat)
    requires d > 0 && a == q * d + r && r < d
    ensures a % d == r
  {
    var x := q - a / d;
    assert a == a / d * d + a % d;
    assert x * d == q * d - a / d * d;
    FarFromZero(x, d);
  }

  lemma {:induction false} WordIsMultiple(k: nat)
    requires k <= 32
    ensures WORD % Pow2(k) == 0 && Pow2(k) <= WORD
    decreases 32 - k
  {
    hide Pow2;
    if k == 32 {
      Pow2Word();
    } else {
      WordIsMultiple(k + 1);
      Doubles(k);
      HalfDivides(Pow2(k));
    }
  }

  lemma HalfDivides(p: nat)
    requires p > 0 && WORD % (2 * p) == 0
    ensures WORD % p == 0
  {
    var q := WORD / (2 * p);
    assert WORD == q * (2 * p);
    assert q * (2 * p) == (2 * q) * p;
    Unique(WORD, p, 2 * q, 0);
  }

  lemma BelowWord(k: nat)
    ensures Pow2(k) < WORD ==> k < 32
  {
    if k >= 32 {
      Pow2Grows(32, k);
      Pow2Word();
    }
  }

  /** The slot of the element `i` places behind `out`. */
  function Slot(out: nat, i: nat, size: nat): nat
    requires size > 0
  {
    And((out + i) % WORD, size - 1)
  }

  lemma ModOfMod(a: nat, d: nat)
    requires d > 0 && WORD % d == 0
    ensures a % WORD % d == a % d
  {
    var q, r := a / WORD, a % WORD;
    var m := WORD / d;
    assert a == q * WORD + r && WORD == m * d;
    assert a == (q * m) * d + r by { assert q * (m * d) == (q * m) * d; }
    var s := r / d;
    assert r == s * d + r % d;
    assert a == (q * m + s) * d + r % d by { assert (q * m) * d + s * d == (q * m + s) * d; }
    Unique(a, d, q * m + s, r % d);
  }

  /** With a power of two, no two of `size` consecutive positions share a slot, also across the wrap at 2^32. */
  lemma SlotsDiffer(out: nat, i: nat, j: nat, size: nat)
    requires 0 < size < WORD && IsPow2(size) && i < j < i + size
    ensures Slot(out, i, size) != Slot(out, j, size)
  {
    hide And, Pow2;
    var k: nat :| size == Pow2(k);
    BelowWord(k);
    WordIsMultiple(k);
    MaskIsMod((out + i) % WORD, k);
    MaskIsMod((out + j) % WORD, k);
    ModOfMod(out + i, size);
    ModOfMod(out + j, size);
    ApartMod(out + i, out + j, size);
  }

  lemma ApartMod(a: nat, b: nat, d: nat)
    requires d > 0 && a < b < a + d
    ensures a % d != b % d
  {
    var x := b / d - a / d;
    assert x * d == b / d * d - a / d * d;
    FarFromZero(x, d);
  }

  /** A zero bit of `n` below its top bit. */
  lemma {:induction false} Gap(n: nat) returns (z: nat)
    requires n > 0 && !IsPow2(n + 1)
    ensures And(Pow2(z), n) == 0 && Pow2(z) < n
    decreases n
  {
    if n % 2 == 0 {
      z := 0;
      assert And(1, n) == 2 * And(0, n / 2) + 1 * (n % 2);
    } else {
      HalfNotPow2(n);
      var y := Gap(n / 2);
      z := y + 1;
      assert Pow2(z) / 2 == Pow2(y) && Pow2(z) % 2 == 0;
    }
  }

  lemma HalfNotPow2(n: nat)
    requires n % 2 == 1 && !IsPow2(n + 1)
    ensures n / 2 > 0 && !IsPow2(n / 2 + 1)
  {
    assert Pow2(0) == 1 && Pow2(1) == 2;
    forall k: nat
      ensures n / 2 + 1 != Pow2(k)
    {
      Doubles(k);
      assert n + 1 != Pow2(k + 1);
    }
  }

  /** Masked indices of live elements never collide if and only if the size is a power of two. */
  lemma DistinctIffPow2(size: nat)
    requires 0 < size < WORD
    ensures (forall out: nat, i: nat, j: nat | i < j < size :: Slot(out, i, size) != Slot(out, j, size)) <==> IsPow2(size)
  {
    if IsPow2(size) {
      forall out: nat, i: nat, j: nat | i < j < size
        ensures Slot(out, i, size) != Slot(out, j, size)
      {
        SlotsDiffer(out, i, j, size);
      }
    } else {
      assert size != 1 by { assert Pow2(0) == 1; }
      var z := Gap(size - 1);
      assert Slot(0, 0, size) == 0 == Slot(0, Pow2(z), size);
    }
  }

  class Fifo<T> {
    const buffer: array<T>
    const size: nat           // elements, 32 bits
    var inIdx: nat            // 32 bits, free running
    var outIdx: nat

    /** kfifo_init; the caller's buffer has room for `size` elements. */
    constructor (buffer: array<T>, size: nat)
      requires size <= buffer.Length && size < WORD
      ensures Valid() && Len() == 0 && this.buffer == buffer && this.size == size
    {
      this.buffer, this.size := buffer, size;
      inIdx, outIdx := 0, 0;
    }

    /** kfifo_len: the unsigned difference. */
    function Len(): nat
      reads this
    {
      (inIdx - outIdx) % WORD
    }

    ghost predicate Valid()
      reads this
    {
      size <= buffer.Length && size < WORD && inIdx < WORD && outIdx < WORD && Len() <= size
    }

    ghost function Contents(): (s: seq<T>)
      requires Valid()
      reads this, buffer
      ensures |s| == Len()
    {
      seq(Len(), i requires 0 <= i < Len() && Valid() reads this, buffer => buffer[Slot(outIdx, i, size)])
    }

    predicate IsFull()
      reads this
    {
      size == 0 || Len() >= size
    }

    /** kfifo_put. */
    method Put(val: T) returns (ok: bool)
      requires Valid()
      modifies this`inIdx, buffer
      ensures Valid()
      ensures ok <==> old(Len()) < size
      ensures ok ==> Len() == old(Len()) + 1
      ensures ok && IsPow2(size) ==> Contents() == old(Contents()) + [val]
      ensures !ok ==> inIdx == old(inIdx) && buffer[..] == old(buffer[..])
    {
      ok := !IsFull();
      if ok {
        hide And, Slot, IsPow2;
        ghost var n, was, start := Len(), Contents(), inIdx;
        LastSlot(inIdx, outIdx, size);
        var slot := And(inIdx, size - 1);
        buffer[slot] := val;
        inIdx := (inIdx + 1) % WORD;
        LenGrows(start, outIdx, n);
        if IsPow2(size) {
          forall i | 0 <= i < n
            ensures Slot(outIdx, i, size) != slot
          {
            SlotsDiffer(outIdx, i, n, size);
          }
          assert Contents() == was + [val];
        }
      }
    }

    /** kfifo_get. */
    method Get() returns (r: Option<T>)
      requires Valid()
      modifies this`outIdx
      ensures Valid()
      ensures r.Some? <==> old(Len()) > 0
      ensures r.Some? ==> Len() == old(Len()) - 1 && r.value == old(Contents())[0] && Contents() == old(Contents())[1..]
      ensures r.None? ==> outIdx == old(outIdx)
    {
      r := None;
      if Len() != 0 {
        hide And, Slot;
        ghost var n, was, first := Len(), Contents(), outIdx;
        FirstSlot(outIdx, size);
        r := Some(buffer[And(outIdx, size - 1)]);
        outIdx := (outIdx + 1) % WORD;
        LenShrinks(inIdx, first, n);
        forall i | 0 <= i < n - 1
          ensures Slot(outIdx, i, size) == Slot(first, i + 1, size)
        {
          NextSlot(first, i, size);
        }
        assert Contents() == was[1..];
      }
    }
  }

  lemma LastSlot(inIdx: nat, outIdx: nat, size: nat)
    requires inIdx < WORD && outIdx < WORD && size > 0
    ensures Slot(outIdx, (inIdx - outIdx) % WORD, size) == And(inIdx, size - 1)
  {
    assert (outIdx + (inIdx - outIdx) % WORD) % WORD == inIdx;
  }

  lemma LenGrows(inIdx: nat, outIdx: nat, n: nat)
    requires inIdx < WORD && outIdx < WORD && n < WORD - 1 && n == (inIdx - outIdx) % WORD
    ensures ((inIdx + 1) % WORD - outIdx) % WORD == n + 1
  {
  }

  lemma LenShrinks(inIdx: nat, outIdx: nat, n: nat)
    requires inIdx < WORD && outIdx < WORD && n == (inIdx - outIdx) % WORD && n > 0
    ensures (inIdx - (outIdx + 1) % WORD) % WORD == n - 1
  {
  }

  lemma FirstSlot(outIdx: nat, size: nat)
    requires outIdx < WORD && size > 0
    ensures Slot(outIdx, 0, size) == And(outIdx, size - 1)
  {
  }

  lemma NextSlot(outIdx: nat, i: nat, size: nat)
    requires size > 0
    ensures Slot((outIdx + 1) % WORD, i, size) == Slot(outIdx, i + 1, size)
  {
    assert ((outIdx + 1) % WORD + i) % WORD == (outIdx + (i + 1)) % WORD;
  }
}
