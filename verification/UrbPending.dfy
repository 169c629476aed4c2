/** The pending list of one endpoint, as the code keeps it: head, tail, pending_next and the queued flag (usb.c:223-257). */
module UrbPending {
  import opened Basics

  class UrbState {
    var pendingNext: UrbState?
    var queued: bool

    constructor ()
      ensures pendingNext == null && !queued
    {
      pendingNext, queued := null, false;
    }
  }

  class PendingList {
    var head: UrbState?
    var tail: UrbState?
    ghost var items: seq<UrbState>

    constructor ()
      ensures Valid() && items == []
    {
      head, tail, items := null, null, [];
    }

    /** head, the chain and tail describe exactly `items`; each of them is flagged as queued, and occurs once. */
    ghost predicate Valid()
      reads this, items
    {
      && Distinct(items)
      && head == At(items, 0, null) && tail == At(items, |items| - 1, null)
      && forall i | 0 <= i < |items| :: items[i].pendingNext == At(items, i + 1, null) && items[i].queued
    }

    /** lcompat_usb_queue_append.  A state is appended for its outstanding submission only, so it is in no list
        (UrbTheorems.QueueIsFifo). */
    method Append(state: UrbState)
      requires Valid() && state !in items
      modifies this, items, state
      ensures Valid() && items == old(items) + [state] && state.queued
    {
      state.pendingNext := null;
      state.queued := true;
      if tail != null {
        tail.pendingNext := state;
      } else {
        head := state;
      }
      tail := state;
      items := items + [state];
    }

    /** lcompat_usb_queue_pop. */
    method Pop() returns (state: UrbState?)
      requires Valid()
      modifies this, items
      ensures Valid()
      ensures old(items) == [] ==> state == null && items == []
      ensures old(items) != [] ==>
                state == old(items)[0] && items == old(items)[1..] && state.pendingNext == null && !state.queued
    {
      state := head;
      if state == null { return; }
      head := state.pendingNext;
      if head == null {
        tail := null;
      }
      state.pendingNext := null;
      state.queued := false;
      items := items[1..];
    }
  }
}
