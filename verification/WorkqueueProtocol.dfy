/** The work queue as a step system.

    Every atomic access and every block under the queue lock is one step of one
    actor.  Actors run in an arbitrary interleaving: callers, delay timers and
    any positive number of workers share one queue.  A call that a work function makes is the step
    of some other actor, taken while the worker is inside the function. */
module WorkqueueProtocol {
  import opened Basics

  type WorkId = nat
  type ActorId = nat

  /** The two bits of work->state. */
  datatype WorkState = WorkState(queued: bool, running: bool)

  const CLEAR := WorkState(false, false)
  const QUEUED := WorkState(true, false)
  const RUNNING := WorkState(false, true)

  /** `hasQueue` is work->wq != NULL; `generation` (32 bits) and `timerActive` are used by delayed work only. */
  datatype Work = Work(state: WorkState, hasQueue: bool, delayed: bool, generation: nat, timerActive: bool)

  /** One entry of the intrusive list.  Tickets number the links of a run; the code has no such number. */
  datatype Link = Link(work: WorkId, ticket: nat)

  datatype Outcome = Returned | Removed

  datatype Event =
    | Accepted(w: WorkId)        // a lcompat_queue_work call set QUEUED
    | Armed(w: WorkId)           // a lcompat_queue_delayed_work call set QUEUED
    | Invoked(w: WorkId)         // a worker cleared QUEUED and is bound to call the function
    | Cancelled(w: WorkId)       // a canceller cleared QUEUED of an item it unlinked
    | Dropped(w: WorkId)         // a timer, or an arm that found no thread, stored 0
    | Expired(w: WorkId)         // a timer gave QUEUED back in order to queue the item
    | QueueReturned(w: WorkId, ok: bool)
    | CancelReturned(w: WorkId, ok: bool)

  /** Where an actor stands.  The name says which access comes next. */
  datatype Pc =
    | Idle
    // lcompat_queue_work
    | QLoad(w: WorkId) | QCas(w: WorkId, seen: WorkState) | QLink(w: WorkId) | QWake(w: WorkId) | QUnblock(w: WorkId)
    // lcompat_queue_delayed_work
    | DCas(w: WorkId) | DSetQueue(w: WorkId) | DActivate(w: WorkId) | DBump(w: WorkId) | DSpawn(w: WorkId)
    | DUndoActive(w: WorkId) | DUndoState(w: WorkId) | DUndoBump(w: WorkId)
    // lcompat_delayed_work_worker
    | TStart(w: WorkId) | TWait(w: WorkId, gen: nat) | TCheckActive(w: WorkId, gen: nat) | TCheckGen(w: WorkId, gen: nat)
    | TDrop(w: WorkId) | TDisarm(w: WorkId) | TRelease(w: WorkId)
    // lcompat_workqueue_worker
    | WPop | WBlock | WLoad(w: WorkId, ticket: nat) | WCas(w: WorkId, ticket: nat, seen: WorkState)
    | WFunc(w: WorkId, ticket: nat) | WClear(w: WorkId) | WFinal(w: WorkId)
    // lcompat_flush_workqueue
    | FCheck
    // lcompat_cancel_work_sync, and the two stores lcompat_cancel_delayed_work_sync makes before it
    | CLoad(w: WorkId) | CRemove(w: WorkId) | CClear(w: WorkId) | CWait(w: WorkId, result: bool)
    | XDisarm(w: WorkId) | XBump(w: WorkId)

  /** The queue proper, the scheduler's permits, and the history of the run. */
  datatype Queue = Queue(
    list: seq<Link>,            // wq->head, the next chain, wq->tail
    active: nat,                // wq->active, 32 bits
    waiting: bool,              // wq->worker_waiting
    task: ActorId,              // wq->worker_task
    permits: set<ActorId>,      // tasks with an unblock not yet consumed by a block
    nextTicket: nat,
    outcomes: map<nat, Outcome>,
    invoked: set<nat>,          // tickets whose function call is decided
    log: seq<Event>)

  function Noted(q: Queue, e: Event): Queue {
    q.(log := q.log + [e])
  }

  function Linked(q: Queue, w: WorkId): Queue {
    q.(list := q.list + [Link(w, q.nextTicket)], nextTicket := q.nextTicket + 1)
  }

  function Unblocked(q: Queue): Queue {
    q.(permits := q.permits + {q.task})
  }

  function Popped(q: Queue): Queue
    requires q.list != []
  {
    q.(list := q.list[1..], waiting := false, active := (q.active + 1) % WORD)
  }

  function Decided(q: Queue, w: WorkId, ticket: nat): Queue {
    Noted(q, Invoked(w)).(invoked := q.invoked + {ticket})
  }

  function Left(q: Queue): Queue {
    q.(active := if q.active > 0 then q.active - 1 else 0)
  }

  function Unlinked(q: Queue, i: nat): Queue
    requires i < |q.list|
  {
    q.(list := q.list[..i] + q.list[i + 1..], outcomes := q.outcomes[q.list[i].ticket := Removed])
  }

  datatype State = State(works: map<WorkId, Work>, actors: map<ActorId, Pc>, q: Queue)

  /** What the scheduler and the unseen kernel calls decide. */
  datatype Action =
    | CallQueue(work: WorkId) | CallQueueDelayed(work: WorkId)
    | CallCancel(work: WorkId) | CallCancelDelayed(work: WorkId) | CallFlush
    | Go
    | Spawn(timer: ActorId)     // task_create succeeded
    | SpawnFails
    | TimeUp                    // the deadline has passed

  predicate InWorker(pc: Pc) {
    pc.WPop? || pc.WBlock? || pc.WLoad? || pc.WCas? || pc.WFunc? || pc.WClear? || pc.WFinal?
  }

  predicate InQueueWork(pc: Pc) {
    pc.QLoad? || pc.QCas? || pc.QLink? || pc.QWake? || pc.QUnblock?
  }

  predicate InArm(pc: Pc) {
    pc.DCas? || pc.DSetQueue? || pc.DActivate? || pc.DBump? || pc.DSpawn? || pc.DUndoActive? || pc.DUndoState? || pc.DUndoBump?
  }

  predicate InTimer(pc: Pc) {
    pc.TStart? || pc.TWait? || pc.TCheckActive? || pc.TCheckGen? || pc.TDrop? || pc.TDisarm? || pc.TRelease?
  }

  predicate InCancel(pc: Pc) {
    pc.CLoad? || pc.CRemove? || pc.CClear? || pc.CWait? || pc.XDisarm? || pc.XBump?
  }

  predicate MentionsItem(pc: Pc) {
    !(pc.Idle? || pc.WPop? || pc.WBlock? || pc.FCheck?)
  }

  predicate PcKnown(pc: Pc, works: map<WorkId, Work>) {
    && (MentionsItem(pc) ==> pc.w in works)
    && (InArm(pc) || InTimer(pc) ==> works[pc.w].delayed)
    && (pc.QCas? ==> !pc.seen.queued)
    && (pc.WCas? ==> pc.seen.queued)
  }

  predicate WellFormed(s: State) {
    && s.q.task in s.actors
    && (forall a <- s.actors :: PcKnown(s.actors[a], s.works))
    && (forall i | 0 <= i < |s.q.list| :: s.q.list[i].work in s.works)
  }

  function Workers(s: State): set<ActorId> {
    set a | a in s.actors && InWorker(s.actors[a])
  }

  /** lcompat_init_work and lcompat_init_delayed_work have run, workers are installed, nothing is queued. */
  predicate Init(s: State) {
    && WellFormed(s)
    && (forall a <- s.actors :: s.actors[a] == Idle || s.actors[a] == WPop)
    && s.actors[s.q.task] == WPop
    && |Workers(s)| < WORD
    && (forall w <- s.works :: s.works[w].state == CLEAR && !s.works[w].hasQueue && !s.works[w].timerActive
                            && s.works[w].generation == 0)
    && s.q == Queue([], 0, false, s.q.task, {}, 0, map[], {}, [])
  }

  predicate Enabled(s: State, a: ActorId, act: Action) {
    a in s.actors &&
    match act
    case CallQueue(w) => s.actors[a].Idle? && w in s.works
    case CallQueueDelayed(w) => s.actors[a].Idle? && w in s.works && s.works[w].delayed
    case CallCancel(w) => s.actors[a].Idle? && w in s.works
    case CallCancelDelayed(w) => s.actors[a].Idle? && w in s.works && s.works[w].delayed
    case CallFlush => s.actors[a].Idle?
    case Spawn(t) => s.actors[a].DSpawn? && t in s.actors && t != a && s.actors[t].Idle?
    case SpawnFails => s.actors[a].DSpawn?
    case TimeUp => s.actors[a].TWait?
    case Go => !s.actors[a].Idle? && !s.actors[a].DSpawn? && (s.actors[a].WBlock? ==> a in s.q.permits)
  }

  function Goto(s: State, a: ActorId, pc: Pc): State {
    s.(actors := s.actors[a := pc])
  }

  function SetWork(s: State, w: WorkId, work: Work): State {
    s.(works := s.works[w := work])
  }

  function SetState(s: State, w: WorkId, st: WorkState): State
    requires w in s.works
  {
    SetWork(s, w, s.works[w].(state := st))
  }

  function Note(s: State, e: Event): State {
    s.(q := Noted(s.q, e))
  }

  function Bumped(work: Work): Work {
    work.(generation := (work.generation + 1) % WORD)
  }

  /** Position of `w` in the list, or its length. */
  function Find(list: seq<Link>, w: WorkId): (i: nat)
    ensures i <= |list|
    ensures i < |list| ==> list[i].work == w
    ensures forall j | 0 <= j < i :: list[j].work != w
  {
    if list == [] || list[0].work == w then 0 else 1 + Find(list[1..], w)
  }

  /** lcompat_queue_work (workqueue.c:264-286). */
  function QueueStep(s: State, a: ActorId): State
    requires WellFormed(s) && a in s.actors && InQueueWork(s.actors[a])
  {
    match s.actors[a]
    case QLoad(w) =>
      var seen := s.works[w].state;
      if seen.queued then Goto(Note(s, QueueReturned(w, false)), a, Idle) else Goto(s, a, QCas(w, seen))
    case QCas(w, seen) =>
      if s.works[w].state == seen
      then Goto(Note(SetState(s, w, seen.(queued := true)), Accepted(w)), a, QLink(w))
      else Goto(s, a, QLoad(w))
    case QLink(w) =>
      Goto(SetWork(s, w, s.works[w].(hasQueue := true)).(q := Linked(s.q, w)), a, QWake(w))
    case QWake(w) =>
      if s.q.waiting then Goto(s, a, QUnblock(w)) else Goto(Note(s, QueueReturned(w, true)), a, Idle)
    case QUnblock(w) =>
      Goto(s.(q := Noted(Unblocked(s.q), QueueReturned(w, true))), a, Idle)
  }

  /** lcompat_queue_delayed_work with a non-zero delay (workqueue.c:300-316). */
  function ArmStep(s: State, a: ActorId, act: Action): State
    requires WellFormed(s) && Enabled(s, a, act) && InArm(s.actors[a])
  {
    match s.actors[a]
    case DCas(w) =>
      if s.works[w].state == CLEAR
      then Goto(Note(SetState(s, w, QUEUED), Armed(w)), a, DSetQueue(w))
      else Goto(s, a, Idle)
    case DSetQueue(w) => Goto(SetWork(s, w, s.works[w].(hasQueue := true)), a, DActivate(w))
    case DActivate(w) => Goto(SetWork(s, w, s.works[w].(timerActive := true)), a, DBump(w))
    case DBump(w) => Goto(SetWork(s, w, Bumped(s.works[w])), a, DSpawn(w))
    case DSpawn(w) =>
      if act.Spawn? then Goto(Goto(s, a, Idle), act.timer, TStart(w)) else Goto(s, a, DUndoActive(w))
    case DUndoActive(w) => Goto(SetWork(s, w, s.works[w].(timerActive := false)), a, DUndoState(w))
    case DUndoState(w) => Goto(Note(SetState(s, w, CLEAR), Dropped(w)), a, DUndoBump(w))
    case DUndoBump(w) => Goto(SetWork(s, w, Bumped(s.works[w])), a, Idle)
  }

  /** lcompat_delayed_work_worker (workqueue.c:192-215); its last step enters lcompat_queue_work. */
  function TimerStep(s: State, a: ActorId, act: Action): State
    requires WellFormed(s) && a in s.actors && InTimer(s.actors[a])
  {
    match s.actors[a]
    case TStart(w) => Goto(s, a, TWait(w, s.works[w].generation))
    case TWait(w, g) =>
      if act.TimeUp? || !s.works[w].timerActive || s.works[w].generation != g then Goto(s, a, TCheckActive(w, g)) else s
    case TCheckActive(w, g) => Goto(s, a, if s.works[w].timerActive then TCheckGen(w, g) else TDrop(w))
    case TCheckGen(w, g) => Goto(s, a, if s.works[w].generation == g then TDisarm(w) else TDrop(w))
    case TDrop(w) => Goto(Note(SetState(s, w, CLEAR), Dropped(w)), a, Idle)
    case TDisarm(w) => Goto(SetWork(s, w, s.works[w].(timerActive := false)), a, TRelease(w))
    case TRelease(w) =>
      if s.works[w].state == QUEUED
      then Goto(Note(SetState(s, w, CLEAR), Expired(w)), a, QLoad(w))
      else Goto(s, a, Idle)
  }

  /** lcompat_workqueue_worker (workqueue.c:82-136). */
  function WorkerStep(s: State, a: ActorId): State
    requires WellFormed(s) && a in s.actors && InWorker(s.actors[a])
  {
    match s.actors[a]
    case WPop =>
      if s.q.list == [] then Goto(s.(q := s.q.(waiting := true)), a, WBlock)
      else Goto(s.(q := Popped(s.q)), a, WLoad(s.q.list[0].work, s.q.list[0].ticket))
    case WBlock => Goto(s.(q := s.q.(permits := s.q.permits - {a})), a, WPop)
    case WLoad(w, k) =>
      var seen := s.works[w].state;
      Goto(s, a, if seen.queued then WCas(w, k, seen) else WFinal(w))
    case WCas(w, k, seen) =>
      if s.works[w].state == seen
      then Goto(SetState(s, w, RUNNING).(q := Decided(s.q, w, k)), a, WFunc(w, k))
      else Goto(s, a, WLoad(w, k))
    case WFunc(w, k) => Goto(s.(q := s.q.(outcomes := s.q.outcomes[k := Returned])), a, WClear(w))
    case WClear(w) => Goto(SetState(s, w, s.works[w].state.(running := false)), a, WFinal(w))
    case WFinal(w) =>
      var work := s.works[w];
      Goto(SetWork(s, w, work.(hasQueue := work.hasQueue && work.state.queued)).(q := Left(s.q)), a, WPop)
  }

  predicate IsIdleQueue(s: State) {
    s.q.list == [] && s.q.active == 0
  }

  /** lcompat_cancel_work_sync (workqueue.c:344-358), entered at XDisarm by lcompat_cancel_delayed_work_sync (:371-373). */
  function CancelStep(s: State, a: ActorId): State
    requires WellFormed(s) && a in s.actors && InCancel(s.actors[a])
  {
    match s.actors[a]
    case CLoad(w) => Goto(s, a, if s.works[w].hasQueue then CRemove(w) else CWait(w, false))
    case CRemove(w) =>
      var i := Find(s.q.list, w);
      if i < |s.q.list|
      then Goto(SetWork(s, w, s.works[w].(hasQueue := false)).(q := Unlinked(s.q, i)), a, CClear(w))
      else Goto(s, a, CWait(w, false))
    case CClear(w) =>
      Goto(Note(SetState(s, w, s.works[w].state.(queued := false)), Cancelled(w)), a, CWait(w, true))
    case CWait(w, result) =>
      if s.works[w].state == RUNNING then s else Goto(Note(s, CancelReturned(w, result)), a, Idle)
    case XDisarm(w) => Goto(SetWork(s, w, s.works[w].(timerActive := false)), a, XBump(w))
    case XBump(w) => Goto(SetWork(s, w, Bumped(s.works[w])), a, CLoad(w))
  }

  function Perform(s: State, a: ActorId, act: Action): State
    requires WellFormed(s) && Enabled(s, a, act)
  {
    match act
    case CallQueue(w) => Goto(s, a, QLoad(w))
    case CallQueueDelayed(w) => Goto(s, a, DCas(w))
    case CallCancel(w) => Goto(s, a, CLoad(w))
    case CallCancelDelayed(w) => Goto(s, a, XDisarm(w))
    case CallFlush => Goto(s, a, FCheck)
    case _ =>
      var pc := s.actors[a];
      if InWorker(pc) then WorkerStep(s, a)
      else if InQueueWork(pc) then QueueStep(s, a)
      else if InCancel(pc) then CancelStep(s, a)
      else if InTimer(pc) then TimerStep(s, a, act)
      else if InArm(pc) then ArmStep(s, a, act)
      else if IsIdleQueue(s) then Goto(s, a, Idle) else s
  }

  ghost predicate Next(s: State, s': State) {
    WellFormed(s) && exists a, act :: Enabled(s, a, act) && s' == Perform(s, a, act)
  }

  ghost predicate IsRun(r: seq<State>) {
    && 0 < |r| && Init(r[0])
    && forall i | 0 <= i < |r| - 1 :: Next(r[i], r[i + 1])
  }
}
