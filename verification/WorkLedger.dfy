/** The bookkeeping that the work queue protocol maintains.

    An actor is reduced to the role it plays for the queue, and the protocol to
    the moves that change a QUEUED bit, the list, the counter or the log. */
module WorkLedger {
  import opened Basics
  import opened WorkqueueProtocol

  datatype Role =
    | Free
    | Claims(w: WorkId)              // set QUEUED, has not linked yet
    | Wakes(w: WorkId)               // linked, has not finished waking the worker
    | Arms(w: WorkId)                // holds QUEUED for a delay timer
    | Looks | Sleeps                 // a worker about to pop, or about to block
    | Pops(w: WorkId, ticket: nat)   // a worker that popped and has not cleared QUEUED
    | Runs(w: WorkId, ticket: nat)   // a worker bound to call the function, until it returns
    | Finishes(w: WorkId)
    | Unlinks(w: WorkId)             // a canceller that removed the item and has not cleared QUEUED
    | Confirms(w: WorkId)            // a canceller that will return true

  datatype Slot = Slot(state: WorkState, hasQueue: bool)

  datatype Ledger = Ledger(slots: map<WorkId, Slot>, delayed: set<WorkId>, roles: map<ActorId, Role>, q: Queue)

  datatype Move =
    | Stay | Refuse(w: WorkId) | Accept(w: WorkId) | Append | WakeDone(unblock: bool)
    | Arm(w: WorkId) | Name | Handover(to: ActorId) | Drop | Expire
    | PopNone | Pop | Wakeup | Invoke | Return | Settle | Finish
    | Unlink(i: nat) | Clear | Confirm | Miss(w: WorkId)

  predicate InSection(r: Role) {
    r.Pops? || r.Runs? || r.Finishes?
  }

  predicate IsCrew(r: Role) {
    InSection(r) || r.Looks? || r.Sleeps?
  }

  function Section(roles: map<ActorId, Role>): set<ActorId> {
    set a | a in roles && InSection(roles[a])
  }

  function Crew(roles: map<ActorId, Role>): set<ActorId> {
    set a | a in roles && IsCrew(roles[a])
  }

  function Holds(r: Role): Option<WorkId> {
    if r.Claims? || r.Arms? || r.Pops? || r.Unlinks? then Some(r.w) else None
  }

  ghost predicate Can(l: Ledger, a: ActorId, m: Move) {
    a in l.roles &&
    var r := l.roles[a];
    (Holds(r).Some? || r.Wakes? || r.Finishes? || r.Confirms? ==> r.w in l.slots) &&
    match m
    case Stay => true
    case Refuse(w) => r.Free? && w in l.slots && l.slots[w].state.queued
    case Accept(w) => r.Free? && w in l.slots && !l.slots[w].state.queued
    case Append => r.Claims?
    case WakeDone(unblock) => r.Wakes? && (l.q.waiting ==> unblock)
    case Arm(w) => r.Free? && w in l.slots && w in l.delayed && l.slots[w].state == CLEAR
    case Name => r.Arms?
    case Handover(to) => r.Arms? && to in l.roles && to != a && l.roles[to].Free?
    case Drop => r.Arms?
    case Expire => r.Arms? && l.slots[r.w].state == QUEUED
    case PopNone => r.Looks? && l.q.list == []
    case Pop => r.Looks? && l.q.list != [] && l.q.list[0].work in l.slots
    case Wakeup => r.Sleeps? && a in l.q.permits
    case Invoke => r.Pops? && l.slots[r.w].state.queued
    case Return => r.Runs?
    case Settle => r.Finishes?
    case Finish => r.Finishes?
    case Unlink(i) => r.Free? && i < |l.q.list| && l.q.list[i].work in l.slots
    case Clear => r.Unlinks?
    case Confirm => r.Confirms?
    case Miss(w) => r.Free? && w in l.slots
  }

  function Become(l: Ledger, a: ActorId, r: Role): Ledger {
    l.(roles := l.roles[a := r])
  }

  function SetSlot(l: Ledger, w: WorkId, st: WorkState, hasQueue: bool): Ledger {
    l.(slots := l.slots[w := Slot(st, hasQueue)])
  }

  function Log(l: Ledger, e: Event): Ledger {
    l.(q := Noted(l.q, e))
  }

  /** Moves of a caller. */
  ghost function ApplyCaller(l: Ledger, a: ActorId, m: Move): Ledger
    requires Can(l, a, m)
  {
    var r := l.roles[a];
    match m
    case Refuse(w) => Log(l, QueueReturned(w, false))
    case Accept(w) =>
      Become(Log(SetSlot(l, w, l.slots[w].state.(queued := true), l.slots[w].hasQueue), Accepted(w)), a, Claims(w))
    case Append => Become(SetSlot(l, r.w, l.slots[r.w].state, true).(q := Linked(l.q, r.w)), a, Wakes(r.w))
    case WakeDone(unblock) =>
      Become(l.(q := Noted(if unblock then Unblocked(l.q) else l.q, QueueReturned(r.w, true))), a, Free)
    case Unlink(i) =>
      var w := l.q.list[i].work;
      Become(SetSlot(l, w, l.slots[w].state, false).(q := Unlinked(l.q, i)), a, Unlinks(w))
    case Clear =>
      Become(Log(SetSlot(l, r.w, l.slots[r.w].state.(queued := false), l.slots[r.w].hasQueue), Cancelled(r.w)), a, Confirms(r.w))
    case Confirm => Become(Log(l, CancelReturned(r.w, true)), a, Free)
    case Miss(w) => Log(l, CancelReturned(w, false))
    case _ => l
  }

  /** Moves of an arming call or of a delay timer. */
  ghost function ApplyTimer(l: Ledger, a: ActorId, m: Move): Ledger
    requires Can(l, a, m)
  {
    var r := l.roles[a];
    match m
    case Arm(w) => Become(Log(SetSlot(l, w, QUEUED, l.slots[w].hasQueue), Armed(w)), a, Arms(w))
    case Name => SetSlot(l, r.w, l.slots[r.w].state, true)
    case Handover(to) => Become(Become(l, a, Free), to, r)
    case Drop => Become(Log(SetSlot(l, r.w, CLEAR, l.slots[r.w].hasQueue), Dropped(r.w)), a, Free)
    case Expire => Become(Log(SetSlot(l, r.w, CLEAR, l.slots[r.w].hasQueue), Expired(r.w)), a, Free)
    case _ => l
  }

  /** Moves of a worker. */
  ghost function ApplyWorker(l: Ledger, a: ActorId, m: Move): Ledger
    requires Can(l, a, m)
  {
    var r := l.roles[a];
    match m
    case PopNone => Become(l.(q := l.q.(waiting := true)), a, Sleeps)
    case Pop => Become(l.(q := Popped(l.q)), a, Pops(l.q.list[0].work, l.q.list[0].ticket))
    case Wakeup => Become(l.(q := l.q.(permits := l.q.permits - {a})), a, Looks)
    case Invoke =>
      Become(SetSlot(l, r.w, RUNNING, l.slots[r.w].hasQueue).(q := Decided(l.q, r.w, r.ticket)), a, Runs(r.w, r.ticket))
    case Return => Become(l.(q := l.q.(outcomes := l.q.outcomes[r.ticket := Returned])), a, Finishes(r.w))
    case Settle => SetSlot(l, r.w, l.slots[r.w].state.(running := false), l.slots[r.w].hasQueue)
    case Finish =>
      Become(SetSlot(l, r.w, l.slots[r.w].state, l.slots[r.w].hasQueue && l.slots[r.w].state.queued).(q := Left(l.q)), a, Looks)
    case _ => l
  }

  predicate IsTimerMove(m: Move) {
    m.Arm? || m.Name? || m.Handover? || m.Drop? || m.Expire?
  }

  predicate IsWorkerMove(m: Move) {
    m.PopNone? || m.Pop? || m.Wakeup? || m.Invoke? || m.Return? || m.Settle? || m.Finish?
  }

  ghost function Apply(l: Ledger, a: ActorId, m: Move): Ledger
    requires Can(l, a, m)
  {
    if IsWorkerMove(m) then ApplyWorker(l, a, m)
    else if IsTimerMove(m) then ApplyTimer(l, a, m)
    else ApplyCaller(l, a, m)
  }

  // ----- one token per item

  datatype Owner = Nobody | InList | Held(a: ActorId)

  ghost predicate ItemsOwned(list: seq<Link>, own: map<WorkId, Owner>) {
    && (forall i | 0 <= i < |list| :: list[i].work in own && own[list[i].work] == InList)
    && (forall i, j | 0 <= i < j < |list| :: list[i].work != list[j].work)
    && (forall w <- own | own[w] == InList :: exists i :: 0 <= i < |list| && list[i].work == w)
  }

  ghost predicate RolesOwn(roles: map<ActorId, Role>, own: map<WorkId, Owner>) {
    && (forall a <- roles | Holds(roles[a]).Some? :: roles[a].w in own && own[roles[a].w] == Held(a))
    && (forall w <- own | own[w].Held? :: own[w].a in roles && Holds(roles[own[w].a]) == Some(w))
  }

  ghost predicate SlotsOwned(slots: map<WorkId, Slot>, own: map<WorkId, Owner>) {
    own.Keys == slots.Keys && forall w <- slots :: slots[w].state.queued <==> own[w] != Nobody
  }

  /** While a timer or an arming call holds an item its word is exactly QUEUED, and the item is a delayed one. */
  ghost predicate ArmsExact(l: Ledger) {
    forall a <- l.roles | l.roles[a].Arms? :: l.roles[a].w in l.slots && l.slots[l.roles[a].w].state == QUEUED && l.roles[a].w in l.delayed
  }

  /** A listed item always names its queue. */
  ghost predicate ListNamed(list: seq<Link>, slots: map<WorkId, Slot>) {
    forall i | 0 <= i < |list| :: list[i].work in slots && slots[list[i].work].hasQueue
  }

  ghost predicate TokenInv(l: Ledger, own: map<WorkId, Owner>) {
    SlotsOwned(l.slots, own) && ItemsOwned(l.q.list, own) && RolesOwn(l.roles, own) && ArmsExact(l) && ListNamed(l.q.list, l.slots)
  }
}
