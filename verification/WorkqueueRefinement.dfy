/** Every step of the work queue code is one move of the ledger. */
module WorkqueueRefinement {
  import opened Basics
  import opened WorkqueueProtocol
  import opened WorkLedger

  function RoleOf(pc: Pc): Role {
    match pc
    case QLink(w) => Claims(w)
    case QWake(w) => Wakes(w)
    case QUnblock(w) => Wakes(w)
    case WPop => Looks
    case WBlock => Sleeps
    case WLoad(w, k) => Pops(w, k)
    case WCas(w, k, _) => Pops(w, k)
    case WFunc(w, k) => Runs(w, k)
    case WClear(w) => Finishes(w)
    case WFinal(w) => Finishes(w)
    case CClear(w) => Unlinks(w)
    case CWait(w, result) => if result then Confirms(w) else Free
    case _ => if InTimer(pc) || (InArm(pc) && !pc.DCas? && !pc.DUndoBump?) then Arms(pc.w) else Free
  }

  function Slots(works: map<WorkId, Work>): map<WorkId, Slot> {
    map w | w in works :: Slot(works[w].state, works[w].hasQueue)
  }

  function Delayed(works: map<WorkId, Work>): set<WorkId> {
    set w | w in works && works[w].delayed
  }

  function Roles(actors: map<ActorId, Pc>): map<ActorId, Role> {
    map a | a in actors :: RoleOf(actors[a])
  }

  function LedgerOf(s: State): Ledger {
    Ledger(Slots(s.works), Delayed(s.works), Roles(s.actors), s.q)
  }

  /** What the token invariant gives one actor. */
  ghost predicate Safe(s: State, a: ActorId) {
    && WellFormed(s) && a in s.actors
    && var r := RoleOf(s.actors[a]);
       (Holds(r).Some? ==> r.w in s.works && s.works[r.w].state.queued && (r.Arms? ==> s.works[r.w].state == QUEUED))
  }

  /** The step from `s` to `s'` by `a` is the move `m`. */
  ghost predicate Refines(s: State, s': State, a: ActorId, m: Move) {
    Can(LedgerOf(s), a, m) && LedgerOf(s') == Apply(LedgerOf(s), a, m)
  }

  /** The ledger entries of one actor and of its item. */
  lemma LedgerAt(s: State, a: ActorId)
    requires WellFormed(s) && a in s.actors
    ensures a in LedgerOf(s).roles && LedgerOf(s).roles[a] == RoleOf(s.actors[a]) && PcKnown(s.actors[a], s.works)
    ensures MentionsItem(s.actors[a]) ==>
              var w := s.actors[a].w;
              && w in LedgerOf(s).slots && LedgerOf(s).slots[w] == Slot(s.works[w].state, s.works[w].hasQueue)
              && (w in LedgerOf(s).delayed <==> s.works[w].delayed)
  {
    hide RoleOf;
  }

  /** The ledger after a step that rewrites item `w`, the queue and the pc of `a`. */
  lemma StepLedger(s: State, s1: State, a: ActorId, pc: Pc, w: WorkId, st: WorkState, hasQueue: bool, r: Role)
    requires a in s.actors && w in s.works && s1.actors == s.actors && r == RoleOf(pc)
    requires s1.works == s.works[w := s.works[w].(state := st, hasQueue := hasQueue)]
    ensures LedgerOf(Goto(s1, a, pc)) == Become(SetSlot(LedgerOf(s), w, st, hasQueue).(q := s1.q), a, r)
  {
    hide RoleOf;
  }

  /** The same when no item changes. */
  lemma GotoLedger(s: State, s1: State, a: ActorId, pc: Pc)
    requires a in s.actors && s1.works == s.works && s1.actors == s.actors
    ensures LedgerOf(Goto(s1, a, pc)) == Become(LedgerOf(s), a, RoleOf(pc)).(q := s1.q)
  {
    hide RoleOf;
  }

  /** A step that keeps the actor in its role, the words and the queue. */
  lemma MoveOnRefines(s: State, s1: State, a: ActorId, pc: Pc)
    requires WellFormed(s) && a in s.actors && RoleOf(pc) == RoleOf(s.actors[a])
    requires s1.actors == s.actors && s1.q == s.q && Slots(s1.works) == Slots(s.works) && Delayed(s1.works) == Delayed(s.works)
    ensures Refines(s, Goto(s1, a, pc), a, Stay)
  {
    GotoLedger(s1, s1, a, pc);
    LedgerAt(s, a);
    RoleKnown(s, a);
    hide Slots, Roles, Delayed, WellFormed, ApplyWorker, ApplyTimer, RoleOf;
    assert LedgerOf(s).roles[a := RoleOf(pc)] == LedgerOf(s).roles;
  }

  lemma RoleKnown(s: State, a: ActorId)
    requires WellFormed(s) && a in s.actors
    ensures var r := RoleOf(s.actors[a]); Holds(r).Some? || r.Wakes? || r.Finishes? || r.Confirms? ==> r.w in LedgerOf(s).slots
  {
  }

  // ----- lcompat_queue_work

  lemma RefuseRefines(s: State, a: ActorId)
    requires Safe(s, a) && s.actors[a].QLoad? && s.works[s.actors[a].w].state.queued
    ensures Refines(s, QueueStep(s, a), a, Refuse(s.actors[a].w))
  {
    hide WellFormed, Slots, Roles, Delayed, ApplyWorker, ApplyTimer;
    LedgerAt(s, a);
    GotoLedger(s, Note(s, QueueReturned(s.actors[a].w, false)), a, Idle);
  }

  lemma AcceptRefines(s: State, a: ActorId)
    requires Safe(s, a) && s.actors[a].QCas? && s.works[s.actors[a].w].state == s.actors[a].seen
    ensures Refines(s, QueueStep(s, a), a, Accept(s.actors[a].w))
  {
    hide WellFormed, Slots, Roles, Delayed, ApplyWorker, ApplyTimer;
    var w := s.actors[a].w;
    LedgerAt(s, a);
    StepLedger(s, Note(SetState(s, w, s.actors[a].seen.(queued := true)), Accepted(w)), a, QLink(w), w, s.actors[a].seen.(queued := true), s.works[w].hasQueue, Claims(w));
  }

  lemma LinkRefines(s: State, a: ActorId)
    requires Safe(s, a) && s.actors[a].QLink?
    ensures Refines(s, QueueStep(s, a), a, Append)
  {
    hide WellFormed, Slots, Roles, Delayed, ApplyWorker, ApplyTimer;
    var w := s.actors[a].w;
    LedgerAt(s, a);
    StepLedger(s, SetWork(s, w, s.works[w].(hasQueue := true)).(q := Linked(s.q, w)), a, QWake(w), w, s.works[w].state, true, Wakes(w));
  }

  lemma WakeSkipRefines(s: State, a: ActorId)
    requires Safe(s, a) && s.actors[a].QWake? && !s.q.waiting
    ensures Refines(s, QueueStep(s, a), a, WakeDone(false))
  {
    hide WellFormed, Slots, Roles, Delayed, ApplyWorker, ApplyTimer;
    LedgerAt(s, a);
    GotoLedger(s, Note(s, QueueReturned(s.actors[a].w, true)), a, Idle);
  }

  lemma UnblockRefines(s: State, a: ActorId)
    requires Safe(s, a) && s.actors[a].QUnblock?
    ensures Refines(s, QueueStep(s, a), a, WakeDone(true))
  {
    hide WellFormed, Slots, Roles, Delayed, ApplyWorker, ApplyTimer;
    LedgerAt(s, a);
    GotoLedger(s, s.(q := Noted(Unblocked(s.q), QueueReturned(s.actors[a].w, true))), a, Idle);
  }

  lemma QueueRefines(s: State, a: ActorId) returns (m: Move)
    requires Safe(s, a) && InQueueWork(s.actors[a])
    ensures Refines(s, QueueStep(s, a), a, m) && !m.Unlink?
  {
    hide Refines;
    var pc := s.actors[a];
    var work := s.works[pc.w];
    if pc.QLoad? && work.state.queued {
      m := Refuse(pc.w);
      RefuseRefines(s, a);
    } else if pc.QCas? && work.state == pc.seen {
      m := Accept(pc.w);
      AcceptRefines(s, a);
    } else if pc.QLink? {
      m := Append;
      LinkRefines(s, a);
    } else if pc.QUnblock? {
      m := WakeDone(true);
      UnblockRefines(s, a);
    } else if pc.QWake? && !s.q.waiting {
      m := WakeDone(false);
      WakeSkipRefines(s, a);
    } else {
      m := Stay;
      MoveOnRefines(s, s, a, QueueStep(s, a).actors[a]);
    }
  }

  // ----- lcompat_workqueue_worker

  lemma PopNoneRefines(s: State, a: ActorId)
    requires Safe(s, a) && s.actors[a].WPop? && s.q.list == []
    ensures Refines(s, WorkerStep(s, a), a, PopNone)
  {
    hide WellFormed, Slots, Roles, Delayed, ApplyCaller, ApplyTimer;
    LedgerAt(s, a);
    GotoLedger(s, s.(q := s.q.(waiting := true)), a, WBlock);
  }

  lemma HeadKnown(s: State)
    requires WellFormed(s) && s.q.list != []
    ensures s.q.list[0].work in LedgerOf(s).slots
  {
  }

  lemma PopRefines(s: State, a: ActorId)
    requires Safe(s, a) && s.actors[a].WPop? && s.q.list != []
    ensures Refines(s, WorkerStep(s, a), a, Pop)
  {
    hide WellFormed, Slots, Roles, Delayed, ApplyCaller, ApplyTimer;
    HeadKnown(s);
    LedgerAt(s, a);
    GotoLedger(s, s.(q := Popped(s.q)), a, WLoad(s.q.list[0].work, s.q.list[0].ticket));
  }

  lemma WakeupRefines(s: State, a: ActorId)
    requires Safe(s, a) && s.actors[a].WBlock? && a in s.q.permits
    ensures Refines(s, WorkerStep(s, a), a, Wakeup)
  {
    hide WellFormed, Slots, Roles, Delayed, ApplyCaller, ApplyTimer;
    LedgerAt(s, a);
    GotoLedger(s, s.(q := s.q.(permits := s.q.permits - {a})), a, WPop);
  }

  lemma InvokeRefines(s: State, a: ActorId)
    requires Safe(s, a) && s.actors[a].WCas? && s.works[s.actors[a].w].state == s.actors[a].seen
    ensures Refines(s, WorkerStep(s, a), a, Invoke)
  {
    hide WellFormed, Slots, Roles, Delayed, ApplyCaller, ApplyTimer;
    LedgerAt(s, a);
    var w, k := s.actors[a].w, s.actors[a].ticket;
    StepLedger(s, SetState(s, w, RUNNING).(q := Decided(s.q, w, k)), a, WFunc(w, k), w, RUNNING, s.works[w].hasQueue, Runs(w, k));
  }

  lemma ReturnRefines(s: State, a: ActorId)
    requires Safe(s, a) && s.actors[a].WFunc?
    ensures Refines(s, WorkerStep(s, a), a, Return)
  {
    hide WellFormed, Slots, Roles, Delayed, ApplyCaller, ApplyTimer;
    LedgerAt(s, a);
    GotoLedger(s, s.(q := s.q.(outcomes := s.q.outcomes[s.actors[a].ticket := Returned])), a, WClear(s.actors[a].w));
  }

  lemma SettleRefines(s: State, a: ActorId)
    requires Safe(s, a) && s.actors[a].WClear?
    ensures Refines(s, WorkerStep(s, a), a, Settle)
  {
    hide WellFormed, Slots, Roles, Delayed, ApplyCaller, ApplyTimer;
    LedgerAt(s, a);
    var w := s.actors[a].w;
    StepLedger(s, SetState(s, w, s.works[w].state.(running := false)), a, WFinal(w), w, s.works[w].state.(running := false), s.works[w].hasQueue, Finishes(w));
    assert LedgerOf(s).roles[a := Finishes(w)] == LedgerOf(s).roles;
  }

  lemma FinishRefines(s: State, a: ActorId)
    requires Safe(s, a) && s.actors[a].WFinal?
    ensures Refines(s, WorkerStep(s, a), a, Finish)
  {
    hide WellFormed, Slots, Roles, Delayed, ApplyCaller, ApplyTimer;
    LedgerAt(s, a);
    FinishLedger(s, a);
    hide WorkerStep;
  }

  lemma FinishLedger(s: State, a: ActorId)
    requires WellFormed(s) && a in s.actors && s.actors[a].WFinal?
    ensures var w := s.actors[a].w;
            && w in s.works
            && var work := s.works[w];
               LedgerOf(WorkerStep(s, a)) ==
               Become(SetSlot(LedgerOf(s), w, work.state, work.hasQueue && work.state.queued).(q := Left(s.q)), a, Looks)
  {
    hide WellFormed, Slots, Roles, Delayed;
    LedgerAt(s, a);
    var w := s.actors[a].w;
    var work := s.works[w];
    StepLedger(s, SetWork(s, w, work.(hasQueue := work.hasQueue && work.state.queued)).(q := Left(s.q)), a, WPop, w, work.state, work.hasQueue && work.state.queued, Looks);
  }

  lemma WorkerRefines(s: State, a: ActorId) returns (m: Move)
    requires Safe(s, a) && InWorker(s.actors[a]) && (s.actors[a].WBlock? ==> a in s.q.permits)
    ensures Refines(s, WorkerStep(s, a), a, m) && !m.Unlink?
  {
    hide Refines;
    var pc := s.actors[a];
    if pc.WPop? && s.q.list == [] {
      m := PopNone;
      PopNoneRefines(s, a);
    } else if pc.WPop? {
      m := Pop;
      PopRefines(s, a);
    } else if pc.WBlock? {
      m := Wakeup;
      WakeupRefines(s, a);
    } else if pc.WCas? && s.works[pc.w].state == pc.seen {
      m := Invoke;
      InvokeRefines(s, a);
    } else if pc.WFunc? {
      m := Return;
      ReturnRefines(s, a);
    } else if pc.WClear? {
      m := Settle;
      SettleRefines(s, a);
    } else if pc.WFinal? {
      m := Finish;
      FinishRefines(s, a);
    } else {
      // A worker that popped an item finds QUEUED set, so it never gives up here.
      m := Stay;
      MoveOnRefines(s, s, a, WorkerStep(s, a).actors[a]);
    }
  }

  // ----- lcompat_queue_delayed_work and its timer

  lemma ArmRefines(s: State, a: ActorId, act: Action)
    requires Safe(s, a) && s.actors[a].DCas? && Enabled(s, a, act) && s.works[s.actors[a].w].state == CLEAR
    ensures Refines(s, ArmStep(s, a, act), a, Arm(s.actors[a].w))
  {
    hide WellFormed, Slots, Roles, Delayed, ApplyCaller, ApplyWorker;
    LedgerAt(s, a);
    var w := s.actors[a].w;
    StepLedger(s, Note(SetState(s, w, QUEUED), Armed(w)), a, DSetQueue(w), w, QUEUED, s.works[w].hasQueue, Arms(w));
  }

  lemma NameRefines(s: State, a: ActorId, act: Action)
    requires Safe(s, a) && s.actors[a].DSetQueue? && Enabled(s, a, act)
    ensures Refines(s, ArmStep(s, a, act), a, Name)
  {
    hide WellFormed, Slots, Roles, Delayed, ApplyCaller, ApplyWorker;
    LedgerAt(s, a);
    var w := s.actors[a].w;
    StepLedger(s, SetWork(s, w, s.works[w].(hasQueue := true)), a, DActivate(w), w, s.works[w].state, true, Arms(w));
    assert LedgerOf(s).roles[a := Arms(w)] == LedgerOf(s).roles;
  }

  lemma HandoverRefines(s: State, a: ActorId, act: Action)
    requires Safe(s, a) && s.actors[a].DSpawn? && Enabled(s, a, act) && act.Spawn?
    ensures Refines(s, ArmStep(s, a, act), a, Handover(act.timer))
  {
    hide WellFormed, Slots, Roles, Delayed, ApplyCaller, ApplyWorker;
    LedgerAt(s, act.timer);
    LedgerAt(s, a);
    var w := s.actors[a].w;
    GotoLedger(s, s, a, Idle);
    GotoLedger(Goto(s, a, Idle), Goto(s, a, Idle), act.timer, TStart(w));
  }

  lemma UndoRefines(s: State, a: ActorId, act: Action)
    requires Safe(s, a) && s.actors[a].DUndoState? && Enabled(s, a, act)
    ensures Refines(s, ArmStep(s, a, act), a, Drop)
  {
    hide WellFormed, Slots, Roles, Delayed, ApplyCaller, ApplyWorker;
    LedgerAt(s, a);
    var w := s.actors[a].w;
    StepLedger(s, Note(SetState(s, w, CLEAR), Dropped(w)), a, DUndoBump(w), w, CLEAR, s.works[w].hasQueue, Free);
  }

  lemma DropRefines(s: State, a: ActorId, act: Action)
    requires Safe(s, a) && s.actors[a].TDrop?
    ensures Refines(s, TimerStep(s, a, act), a, Drop)
  {
    hide WellFormed, Slots, Roles, Delayed, ApplyCaller, ApplyWorker;
    LedgerAt(s, a);
    var w := s.actors[a].w;
    StepLedger(s, Note(SetState(s, w, CLEAR), Dropped(w)), a, Idle, w, CLEAR, s.works[w].hasQueue, Free);
  }

  lemma ExpireRefines(s: State, a: ActorId, act: Action)
    requires Safe(s, a) && s.actors[a].TRelease?
    ensures Refines(s, TimerStep(s, a, act), a, Expire)
  {
    hide WellFormed, Slots, Roles, Delayed, ApplyCaller, ApplyWorker;
    LedgerAt(s, a);
    var w := s.actors[a].w;
    StepLedger(s, Note(SetState(s, w, CLEAR), Expired(w)), a, QLoad(w), w, CLEAR, s.works[w].hasQueue, Free);
  }

  /** Fields of delayed work that only its timer reads. */
  lemma UnseenWork(s: State, w: WorkId, work: Work)
    requires w in s.works && work.delayed == s.works[w].delayed
    requires work.state == s.works[w].state && work.hasQueue == s.works[w].hasQueue
    ensures Slots(SetWork(s, w, work).works) == Slots(s.works) && Delayed(SetWork(s, w, work).works) == Delayed(s.works)
  {
  }

  lemma ArmStepRefines(s: State, a: ActorId, act: Action) returns (m: Move)
    requires Safe(s, a) && InArm(s.actors[a]) && Enabled(s, a, act)
    ensures Refines(s, ArmStep(s, a, act), a, m) && !m.Unlink?
  {
    hide Refines;
    var w := s.actors[a].w;
    if s.actors[a].DCas? && s.works[w].state == CLEAR {
      m := Arm(w);
      ArmRefines(s, a, act);
    } else if s.actors[a].DSetQueue? {
      m := Name;
      NameRefines(s, a, act);
    } else if s.actors[a].DSpawn? && act.Spawn? {
      m := Handover(act.timer);
      HandoverRefines(s, a, act);
    } else if s.actors[a].DUndoState? {
      m := Drop;
      UndoRefines(s, a, act);
    } else {
      m := Stay;
      ArmQuietRefines(s, a, act);
    }
  }

  lemma ArmFlagRefines(s: State, a: ActorId, act: Action)
    requires Safe(s, a) && (s.actors[a].DActivate? || s.actors[a].DUndoActive?) && Enabled(s, a, act)
    ensures Refines(s, ArmStep(s, a, act), a, Stay)
  {
    hide Refines, Slots, Delayed, Roles, WellFormed;
    LedgerAt(s, a);
    var w := s.actors[a].w;
    if s.actors[a].DActivate? {
      UnseenWork(s, w, s.works[w].(timerActive := true));
      MoveOnRefines(s, SetWork(s, w, s.works[w].(timerActive := true)), a, DBump(w));
    } else {
      UnseenWork(s, w, s.works[w].(timerActive := false));
      MoveOnRefines(s, SetWork(s, w, s.works[w].(timerActive := false)), a, DUndoState(w));
    }
  }

  lemma ArmQuietRefines(s: State, a: ActorId, act: Action)
    requires Safe(s, a) && InArm(s.actors[a]) && Enabled(s, a, act)
    requires s.actors[a].DCas? ==> s.works[s.actors[a].w].state != CLEAR
    requires !s.actors[a].DSetQueue? && !s.actors[a].DUndoState? && (s.actors[a].DSpawn? ==> !act.Spawn?)
    ensures Refines(s, ArmStep(s, a, act), a, Stay)
  {
    hide Refines, Slots, Delayed, Roles, WellFormed;
    LedgerAt(s, a);
    var w := s.actors[a].w;
    var s' := ArmStep(s, a, act);
    if s.actors[a].DActivate? || s.actors[a].DUndoActive? {
      ArmFlagRefines(s, a, act);
      return;
    }
    UnseenWork(s, w, Bumped(s.works[w]));
    if s.actors[a].DBump? {
      MoveOnRefines(s, SetWork(s, w, Bumped(s.works[w])), a, DSpawn(w));
    } else if s.actors[a].DUndoBump? {
      MoveOnRefines(s, SetWork(s, w, Bumped(s.works[w])), a, Idle);
    } else {
      MoveOnRefines(s, s, a, s'.actors[a]);
    }
  }

  lemma TimerStepRefines(s: State, a: ActorId, act: Action) returns (m: Move)
    requires Safe(s, a) && InTimer(s.actors[a])
    ensures Refines(s, TimerStep(s, a, act), a, m) && !m.Unlink?
  {
    hide Refines, Slots, Delayed;
    var w := s.actors[a].w;
    if s.actors[a].TDrop? {
      m := Drop;
      DropRefines(s, a, act);
    } else if s.actors[a].TRelease? {
      // The timer's compare-and-swap finds exactly QUEUED.
      m := Expire;
      ExpireRefines(s, a, act);
    } else if s.actors[a].TDisarm? {
      m := Stay;
      UnseenWork(s, w, s.works[w].(timerActive := false));
      MoveOnRefines(s, SetWork(s, w, s.works[w].(timerActive := false)), a, TRelease(w));
    } else {
      m := Stay;
      TimerWaitRefines(s, a, act);
    }
  }

  lemma TimerWaitRefines(s: State, a: ActorId, act: Action)
    requires Safe(s, a) && InTimer(s.actors[a]) && !s.actors[a].TDrop? && !s.actors[a].TRelease? && !s.actors[a].TDisarm?
    ensures Refines(s, TimerStep(s, a, act), a, Stay)
  {
    hide Refines;
    var pc := TimerStep(s, a, act).actors[a];
    assert TimerStep(s, a, act) == Goto(s, a, pc);
    MoveOnRefines(s, s, a, pc);
  }

  // ----- lcompat_cancel_work_sync

  lemma UnlinkRefines(s: State, a: ActorId)
    requires Safe(s, a) && s.actors[a].CRemove? && Find(s.q.list, s.actors[a].w) < |s.q.list|
    ensures Refines(s, CancelStep(s, a), a, Unlink(Find(s.q.list, s.actors[a].w)))
  {
    hide WellFormed, Slots, Roles, Delayed, ApplyWorker, ApplyTimer;
    LedgerAt(s, a);
    var w := s.actors[a].w;
    var i := Find(s.q.list, w);
    StepLedger(s, SetWork(s, w, s.works[w].(hasQueue := false)).(q := Unlinked(s.q, i)), a, CClear(w), w, s.works[w].state, false, Unlinks(w));
  }

  lemma ClearRefines(s: State, a: ActorId)
    requires Safe(s, a) && s.actors[a].CClear?
    ensures Refines(s, CancelStep(s, a), a, Clear)
  {
    hide WellFormed, Slots, Roles, Delayed, ApplyWorker, ApplyTimer;
    LedgerAt(s, a);
    var w := s.actors[a].w;
    StepLedger(s, Note(SetState(s, w, s.works[w].state.(queued := false)), Cancelled(w)), a, CWait(w, true), w, s.works[w].state.(queued := false), s.works[w].hasQueue, Confirms(w));
  }

  lemma ConfirmRefines(s: State, a: ActorId)
    requires Safe(s, a) && s.actors[a].CWait? && s.actors[a].result && s.works[s.actors[a].w].state != RUNNING
    ensures Refines(s, CancelStep(s, a), a, Confirm)
  {
    hide WellFormed, Slots, Roles, Delayed, ApplyWorker, ApplyTimer;
    LedgerAt(s, a);
    GotoLedger(s, Note(s, CancelReturned(s.actors[a].w, true)), a, Idle);
  }

  lemma MissRefines(s: State, a: ActorId)
    requires Safe(s, a) && s.actors[a].CWait? && !s.actors[a].result && s.works[s.actors[a].w].state != RUNNING
    ensures Refines(s, CancelStep(s, a), a, Miss(s.actors[a].w))
  {
    hide WellFormed, Slots, Roles, Delayed, ApplyWorker, ApplyTimer;
    LedgerAt(s, a);
    GotoLedger(s, Note(s, CancelReturned(s.actors[a].w, false)), a, Idle);
    assert LedgerOf(s).roles[a := Free] == LedgerOf(s).roles;
  }

  lemma CancelRefines(s: State, a: ActorId) returns (m: Move)
    requires Safe(s, a) && InCancel(s.actors[a])
    ensures Refines(s, CancelStep(s, a), a, m)
    ensures m.Unlink? ==> s.actors[a].CRemove? && m.i == Find(s.q.list, s.actors[a].w) < |s.q.list|
  {
    hide Refines, Slots, Delayed, Roles, WellFormed;
    LedgerAt(s, a);
    var w := s.actors[a].w;
    if s.actors[a].CRemove? && Find(s.q.list, w) < |s.q.list| {
      m := Unlink(Find(s.q.list, w));
      UnlinkRefines(s, a);
    } else if s.actors[a].CClear? {
      m := Clear;
      ClearRefines(s, a);
    } else if s.actors[a].CWait? && s.works[w].state != RUNNING {
      m := if s.actors[a].result then Confirm else Miss(w);
      if s.actors[a].result { ConfirmRefines(s, a); } else { MissRefines(s, a); }
    } else if s.actors[a].XDisarm? {
      m := Stay;
      UnseenWork(s, w, s.works[w].(timerActive := false));
      MoveOnRefines(s, SetWork(s, w, s.works[w].(timerActive := false)), a, XBump(w));
    } else if s.actors[a].XBump? {
      m := Stay;
      UnseenWork(s, w, Bumped(s.works[w]));
      MoveOnRefines(s, SetWork(s, w, Bumped(s.works[w])), a, CLoad(w));
    } else {
      m := Stay;
      CancelWaitRefines(s, a);
    }
  }

  lemma CancelWaitRefines(s: State, a: ActorId)
    requires Safe(s, a) && InCancel(s.actors[a]) && !s.actors[a].CClear? && !s.actors[a].XDisarm? && !s.actors[a].XBump?
    requires s.actors[a].CRemove? ==> Find(s.q.list, s.actors[a].w) == |s.q.list|
    requires s.actors[a].CWait? ==> s.works[s.actors[a].w].state == RUNNING
    ensures Refines(s, CancelStep(s, a), a, Stay)
  {
    hide Refines, WellFormed, Slots, Delayed, Roles;
    LedgerAt(s, a);
    var pc := CancelStep(s, a).actors[a];
    assert CancelStep(s, a) == Goto(s, a, pc);
    MoveOnRefines(s, s, a, pc);
  }

  /** Whatever an actor does is one move of the ledger; a link is removed only by a canceller at its search of the list. */
  lemma PerformRefines(s: State, a: ActorId, act: Action) returns (m: Move)
    requires Safe(s, a) && Enabled(s, a, act)
    ensures Refines(s, Perform(s, a, act), a, m)
    ensures m.Unlink? ==> s.actors[a].CRemove? && m.i == Find(s.q.list, s.actors[a].w) < |s.q.list|
  {
    hide Refines, WorkerStep, QueueStep, CancelStep, TimerStep, ArmStep;
    var pc := s.actors[a];
    if pc.Idle? || pc.FCheck? {
      m := Stay;
      EnterRefines(s, a, act);
    } else if InWorker(pc) {
      m := WorkerRefines(s, a);
    } else if InQueueWork(pc) {
      m := QueueRefines(s, a);
    } else if InCancel(pc) {
      m := CancelRefines(s, a);
    } else if InTimer(pc) {
      m := TimerStepRefines(s, a, act);
    } else {
      m := ArmStepRefines(s, a, act);
    }
  }

  lemma EnterRefines(s: State, a: ActorId, act: Action)
    requires Safe(s, a) && Enabled(s, a, act) && (s.actors[a].Idle? || s.actors[a].FCheck?)
    ensures Refines(s, Perform(s, a, act), a, Stay)
  {
    hide Refines, WorkerStep, QueueStep, CancelStep, TimerStep, ArmStep, WellFormed;
    var pc := Perform(s, a, act).actors[a];
    assert Perform(s, a, act) == Goto(s, a, pc);
    MoveOnRefines(s, s, a, pc);
  }
}
