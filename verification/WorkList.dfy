/** The intrusive list inside a work queue, as the code keeps it: head, tail and next pointers relinked in place. */
module WorkList {
  import opened Basics

  class WorkStruct {
    var next: WorkStruct?
    var queue: WorkqueueStruct?   // work->wq

    constructor ()
      ensures next == null && queue == null
    {
      next, queue := null, null;
    }
  }

  class WorkqueueStruct {
    var head: WorkStruct?
    var tail: WorkStruct?
    ghost var items: seq<WorkStruct>

    constructor ()
      ensures Valid() && items == []
    {
      head, tail, items := null, null, [];
    }

    /** head, the next chain and tail describe exactly `items`, which has no repetition. */
    ghost predicate Valid()
      reads this, items
    {
      && Distinct(items)
      && head == At(items, 0, null) && tail == At(items, |items| - 1, null)
      && forall i | 0 <= i < |items| :: items[i].next == At(items, i + 1, null)
    }

    /** lcompat_workqueue_pop_locked (workqueue.c:34-47). */
    method PopLocked() returns (work: WorkStruct?)
      requires Valid()
      modifies this, items
      ensures Valid()
      ensures old(items) == [] ==> work == null && items == []
      ensures old(items) != [] ==> work == old(items)[0] && work.next == null && items == old(items)[1..]
      ensures forall w <- old(items) :: w.queue == old(w.queue)
    {
      work := head;
      if work == null {
        return;
      }
      head := work.next;
      if head == null {
        tail := null;
      }
      work.next := null;
      items := items[1..];
    }

    /** lcompat_workqueue_remove_locked (workqueue.c:49-74). */
    method RemoveLocked(work: WorkStruct) returns (removed: bool)
      requires Valid()
      modifies this, items, work
      ensures Valid()
      ensures removed <==> work in old(items)
      ensures removed ==> work.next == null && work.queue == null
      ensures removed ==> exists i | 0 <= i < |old(items)| :: old(items)[i] == work && items == old(items)[..i] + old(items)[i + 1..]
      ensures !removed ==> items == old(items) && unchanged(work)
      ensures forall w <- old(items) | w != work :: w.queue == old(w.queue)
    {
      var prev: WorkStruct? := null;
      var pos := head;
      ghost var i := 0;
      while pos != null
        invariant 0 <= i <= |items| && pos == At(items, i, null) && prev == At(items, i - 1, null)
        invariant work !in items[..i]
        invariant Valid() && items == old(items) && unchanged(this) && unchanged(items) && unchanged(work)
        decreases |items| - i
      {
        if pos != work {
          prev := pos;
          pos := pos.next;
          i := i + 1;
        } else {
          RemoveAt(pos, prev, i);
          return true;
        }
      }
      return false;
    }

    /** The relinking once the item is found. */
    method RemoveAt(pos: WorkStruct, prev: WorkStruct?, ghost i: nat)
      requires Valid() && i < |items| && pos == items[i] && prev == At(items, i - 1, null)
      modifies this, items
      ensures Valid() && items == old(items)[..i] + old(items)[i + 1..]
      ensures pos.next == null && pos.queue == null
      ensures forall w <- old(items) | w != pos :: w.queue == old(w.queue)
    {
      hide Distinct;
      ghost var was := items;
      WithoutFacts(was, i);
      if prev != null {
        prev.next := pos.next;
      } else {
        head := pos.next;
      }
      if tail == pos {
        tail := prev;
      }
      pos.next := null;
      pos.queue := null;
      items := was[..i] + was[i + 1..];
      forall j | 0 <= j < |items|
        ensures items[j].next == At(items, j + 1, null)
      {
        if j < i { assert items[j] == was[j]; } else { assert items[j] == was[j + 1]; }
      }
    }

    /** The locked block of lcompat_queue_work (workqueue.c:275-283).  The caller holds QUEUED of `work`, so it is
        in no list (WorkqueueTheorems.NeverLinkedTwice). */
    method AppendLocked(work: WorkStruct)
      requires Valid() && work !in items
      modifies this, items, work
      ensures Valid() && items == old(items) + [work] && work.queue == this
      ensures forall w <- old(items) :: w.queue == old(w.queue)
    {
      work.next := null;
      work.queue := this;
      if tail != null {
        tail.next := work;
      } else {
        head := work;
      }
      tail := work;
      items := items + [work];
    }
  }
}
