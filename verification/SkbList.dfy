/** sk_buff_head: a singly linked queue of socket buffers with its length (include/linux/skbuff.h:180-294, 331-335). */
module SkbList {
  import opened Basics
  import opened PacketMemory

  class SkBuff {
    var next: SkBuff?
    var data: seq<Byte>

    constructor (data: seq<Byte>)
      ensures next == null && this.data == data
    {
      next, this.data := null, data;
    }
  }

  ghost function Bytes(s: seq<SkBuff>): (r: seq<seq<Byte>>)
    reads s
    ensures |r| == |s| && forall i | 0 <= i < |s| :: r[i] == s[i].data
  {
    if s == [] then [] else [s[0].data] + Bytes(s[1..])
  }

  class SkbQueue {
    var head: SkBuff?
    var tail: SkBuff?
    var qlen: nat
    ghost var items: seq<SkBuff>

    constructor ()
      ensures Valid() && items == []
    {
      head, tail, qlen, items := null, null, 0, [];
    }

    /** head, the next chain, tail and qlen describe exactly `items`, which has no repetition. */
    ghost predicate Valid()
      reads this, items
    {
      && Distinct(items) && qlen == |items|
      && head == At(items, 0, null) && tail == At(items, |items| - 1, null)
      && forall i | 0 <= i < |items| :: items[i].next == At(items, i + 1, null)
    }

    /** skb_queue_tail (skbuff.h:203-221). */
    method QueueTail(skb: SkBuff)
      requires Valid() && skb !in items
      modifies this, items, skb
      ensures Valid() && items == old(items) + [skb] && skb.data == old(skb.data)
      ensures forall s <- old(items) :: s.data == old(s.data)
      ensures Bytes(items) == old(Bytes(items)) + [skb.data]
    {
      skb.next := null;
      if tail != null {
        tail.next := skb;
      } else {
        head := skb;
      }
      tail := skb;
      qlen := qlen + 1;
      items := items + [skb];
    }

    /** skb_queue_head (skbuff.h:223-234). */
    method QueueHead(skb: SkBuff)
      requires Valid() && skb !in items
      modifies this, items, skb
      ensures Valid() && items == [skb] + old(items) && skb.data == old(skb.data)
      ensures forall s <- old(items) :: s.data == old(s.data)
    {
      skb.next := head;
      head := skb;
      if tail == null {
        tail := skb;
      }
      qlen := qlen + 1;
      items := [skb] + items;
      assert forall i | 1 <= i < |items| :: items[i].next == At(items, i + 1, null);
    }

    /** skb_dequeue (skbuff.h:236-251). */
    method Dequeue() returns (skb: SkBuff?)
      requires Valid()
      modifies this, items
      ensures Valid()
      ensures old(items) == [] ==> skb == null && items == []
      ensures old(items) != [] ==> skb == old(items)[0] && skb.next == null && items == old(items)[1..]
      ensures forall s <- old(items) :: s.data == old(s.data)
      ensures old(items) != [] ==> Bytes(items) == old(Bytes(items))[1..] && skb !in items
    {
      skb := head;
      if skb != null {
        head := skb.next;
        if head == null {
          tail := null;
        }
        qlen := qlen - 1;
        skb.next := null;
        items := items[1..];
      }
    }

    /** __skb_unlink (skbuff.h:269-294): takes the buffer out wherever it is, and leaves the queue alone otherwise. */
    method Unlink(skb: SkBuff) returns (ghost at: int)
      requires Valid()
      modifies this, items
      ensures Valid()
      ensures skb in old(items) <==> 0 <= at < |old(items)|
      ensures skb in old(items) ==> old(items)[at] == skb && items == old(items)[..at] + old(items)[at + 1..] && skb.next == null
      ensures skb !in old(items) ==> items == old(items)
    {
      var prev: SkBuff? := null;
      var cur := head;
      ghost var i := 0;
      at := -1;
      while cur != null
        invariant 0 <= i <= |items| && cur == At(items, i, null) && prev == At(items, i - 1, null) && skb !in items[..i]
        invariant Valid() && items == old(items) && unchanged(this) && unchanged(items)
        decreases |items| - i
      {
        if cur != skb {
          prev := cur;
          cur := cur.next;
          i := i + 1;
        } else {
          at := i;
          Relink(cur, prev, i);
          return;
        }
      }
    }

    method Relink(cur: SkBuff, prev: SkBuff?, ghost i: nat)
      requires Valid() && i < |items| && cur == items[i] && prev == At(items, i - 1, null)
      modifies this, items
      ensures Valid() && items == old(items)[..i] + old(items)[i + 1..] && cur.next == null
    {
      hide Distinct;
      ghost var was := items;
      WithoutFacts(was, i);
      if prev != null {
        prev.next := cur.next;
      } else {
        head := cur.next;
      }
      if tail == cur {
        tail := prev;
      }
      if qlen > 0 {
        qlen := qlen - 1;
      }
      cur.next := null;
      items := was[..i] + was[i + 1..];
      forall j | 0 <= j < |items|
        ensures items[j].next == At(items, j + 1, null)
      {
        if j < i { assert items[j] == was[j]; } else { assert items[j] == was[j + 1]; }
      }
    }

    /** skb_queue_purge (skbuff.h:331-335): every buffer is handed to kfree_skb once, oldest first. */
    method Purge() returns (ghost freed: seq<SkBuff>)
      requires Valid()
      modifies this, items
      ensures Valid() && items == [] && freed == old(items)
    {
      hide SkbQueue.Valid, Distinct, Bytes;
      freed := [];
      ghost var all, n := items, 0;
      var skb := Dequeue();
      while skb != null
        invariant Valid() && 0 <= n <= |all| && items == all[if n < |all| then n + 1 else n..]
        invariant freed == all[..n] && (skb == null <==> n == |all|) && (skb != null ==> skb == all[n])
        decreases |all| - n
      {
        freed := freed + [skb];
        n := n + 1;
        assert forall s <- items :: s in all;
        skb := Dequeue();
      }
    }
  }
}
