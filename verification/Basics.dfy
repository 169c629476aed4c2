/** Vocabulary shared by all parts of the model. */
module Basics {
  /** One more than the largest unsigned 32-bit number. */
  const WORD: nat := 0x1_0000_0000

  datatype Option<+T> = None | Some(value: T)

  /** A transfer length, or why there is none. */
  datatype Length = Size(count: nat) | EInval | EOverflow | ENoMem | BadLength(length: int)

  /** lcompat_usb_urb_data_len (usb.c:123-139).  `total` is the length of the scatterlist, if there is one: then a
      transfer length that is not positive means all of it, and a larger one is refused. */
  function TransferLength(total: Option<Length>, length: int): Length {
    match total
    case None => if length < 0 then BadLength(length) else Size(length)
    case Some(Size(n)) => if length <= 0 then Size(n) else if length > n then EInval else Size(length)
    case Some(error) => error
  }

  // ----- chains of objects

  ghost predicate Distinct<T>(s: seq<T>) {
    forall i, j | 0 <= i < j < |s| :: s[i] != s[j]
  }

  /** Element `i` of `s`, or `none` beyond its ends. */
  ghost function At<T>(s: seq<T>, i: int, none: T): T {
    if 0 <= i < |s| then s[i] else none
  }

  /** Taking one element out moves the later ones up. */
  lemma WithoutFacts<T>(s: seq<T>, i: nat)
    requires Distinct(s) && i < |s|
    ensures var t := s[..i] + s[i + 1..];
            && Distinct(t) && |t| == |s| - 1
            && (forall j | 0 <= j < i :: t[j] == s[j] && s[j] != s[i])
            && (forall j | i <= j < |s| - 1 :: t[j] == s[j + 1] && s[j + 1] != s[i])
    ensures i > 0 ==> forall j | 0 <= j < |s| && j != i - 1 :: s[j] != s[i - 1]
  {
  }

  // ----- arithmetic

  function Least(a: nat, b: nat): nat { if a <= b then a else b }

  function Pow2(n: nat): (r: nat)
    ensures 0 < r
  {
    if n == 0 then 1 else 2 * Pow2(n - 1)
  }

  lemma {:induction false} Pow2Grows(a: nat, b: nat)
    requires a <= b
    ensures Pow2(a) <= Pow2(b)
  {
    if a < b { Pow2Grows(a, b - 1); }
  }

  lemma {:induction false} Pow2Sum(a: nat, b: nat)
    ensures Pow2(a + b) == Pow2(a) * Pow2(b)
  {
    if a > 0 { Pow2Sum(a - 1, b); }
  }

  lemma Pow2Word()
    ensures Pow2(32) == WORD
  {
    Pow2Sum(16, 16);
    Pow2Sum(8, 8);
    Pow2Sum(4, 4);
    assert Pow2(4) == 4 * Pow2(2);
  }
}
