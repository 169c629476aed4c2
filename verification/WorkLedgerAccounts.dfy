/** Accounting of accepted requests, and the wake-up guarantee. */
module WorkLedgerAccounts {
  import opened Basics
  import opened WorkqueueProtocol
  import opened WorkLedger

  function Times(log: seq<Event>, e: Event): nat {
    multiset(log)[e]
  }

  /** Set bits of `w` = cleared bits of `w`, plus the one still set. */
  ghost predicate Balanced(l: Ledger, w: WorkId)
    requires w in l.slots
  {
    Times(l.q.log, Accepted(w)) + Times(l.q.log, Armed(w)) ==
    Times(l.q.log, Invoked(w)) + Times(l.q.log, Cancelled(w)) + Times(l.q.log, Dropped(w)) + Times(l.q.log, Expired(w))
    + if l.slots[w].state.queued then 1 else 0
  }

  /** Items that are not delayed work never meet a timer. */
  ghost predicate Undelayed(l: Ledger, w: WorkId) {
    Times(l.q.log, Armed(w)) == 0 && Times(l.q.log, Dropped(w)) == 0 && Times(l.q.log, Expired(w)) == 0
  }

  function Queuing(roles: map<ActorId, Role>, w: WorkId): set<ActorId> {
    set a | a in roles && (roles[a] == Claims(w) || roles[a] == Wakes(w))
  }

  function Confirming(roles: map<ActorId, Role>, w: WorkId): set<ActorId> {
    set a | a in roles && roles[a] == Confirms(w)
  }

  function Arming(roles: map<ActorId, Role>, w: WorkId): set<ActorId> {
    set a | a in roles && roles[a] == Arms(w)
  }

  /** An accepted call returns true, later if not yet; so does a call that cleared the bit.  An arm expires or is dropped,
      or is still under way. */
  ghost predicate Answered(l: Ledger, w: WorkId) {
    && Times(l.q.log, Armed(w)) == Times(l.q.log, Expired(w)) + Times(l.q.log, Dropped(w)) + |Arming(l.roles, w)|
    && Times(l.q.log, Accepted(w)) == Times(l.q.log, QueueReturned(w, true)) + |Queuing(l.roles, w)|
    && Times(l.q.log, Cancelled(w)) == Times(l.q.log, CancelReturned(w, true)) + |Confirming(l.roles, w)|
  }

  ghost predicate AccountInv(l: Ledger) {
    forall w <- l.slots :: Balanced(l, w) && (w !in l.delayed ==> Undelayed(l, w)) && Answered(l, w)
  }

  lemma QueuingUpdate(roles: map<ActorId, Role>, a: ActorId, r: Role, w: WorkId)
    requires a in roles
    ensures Queuing(roles[a := r], w) == if r == Claims(w) || r == Wakes(w) then Queuing(roles, w) + {a} else Queuing(roles, w) - {a}
    ensures Confirming(roles[a := r], w) == if r == Confirms(w) then Confirming(roles, w) + {a} else Confirming(roles, w) - {a}
    ensures a in Queuing(roles, w) <==> roles[a] == Claims(w) || roles[a] == Wakes(w)
    ensures a in Confirming(roles, w) <==> roles[a] == Confirms(w)
    ensures Arming(roles[a := r], w) == if r == Arms(w) then Arming(roles, w) + {a} else Arming(roles, w) - {a}
    ensures a in Arming(roles, w) <==> roles[a] == Arms(w)
  {
  }

  /** What a move adds to the log. */
  function Logged(l: Ledger, r: Role, m: Move): Option<Event> {
    match m
    case Refuse(w) => Some(QueueReturned(w, false))
    case Accept(w) => Some(Accepted(w))
    case WakeDone(_) => if r.Wakes? then Some(QueueReturned(r.w, true)) else None
    case Arm(w) => Some(Armed(w))
    case Drop => if r.Arms? then Some(Dropped(r.w)) else None
    case Expire => if r.Arms? then Some(Expired(r.w)) else None
    case Invoke => if r.Pops? then Some(Invoked(r.w)) else None
    case Clear => if r.Unlinks? then Some(Cancelled(r.w)) else None
    case Confirm => if r.Confirms? then Some(CancelReturned(r.w, true)) else None
    case Miss(w) => Some(CancelReturned(w, false))
    case _ => None
  }

  function LogAfter(log: seq<Event>, e: Option<Event>): seq<Event> {
    if e.Some? then log + [e.value] else log
  }

  predicate Raises(e: Option<Event>, w: WorkId) {
    e == Some(Accepted(w)) || e == Some(Armed(w))
  }

  predicate Lowers(e: Option<Event>, w: WorkId) {
    e == Some(Invoked(w)) || e == Some(Cancelled(w)) || e == Some(Dropped(w)) || e == Some(Expired(w))
  }

  predicate IsTimed(e: Option<Event>) {
    e.Some? && (e.value.Armed? || e.value.Dropped? || e.value.Expired?)
  }

  /** The log and the QUEUED bits after a move agree with `Logged`. */
  ghost predicate Books(l: Ledger, l': Ledger, e: Option<Event>) {
    && l'.slots.Keys == l.slots.Keys && l'.delayed == l.delayed && l'.q.log == LogAfter(l.q.log, e)
    && (IsTimed(e) ==> e.value.w in l.delayed)
    && forall w <- l.slots ::
         && (Raises(e, w) ==> !l.slots[w].state.queued && l'.slots[w].state.queued)
         && (Lowers(e, w) ==> l.slots[w].state.queued && !l'.slots[w].state.queued)
         && (!Raises(e, w) && !Lowers(e, w) ==> l'.slots[w].state.queued == l.slots[w].state.queued)
  }

  lemma BooksBalance(l: Ledger, l': Ledger, e: Option<Event>, w: WorkId)
    requires Books(l, l', e) && w in l.slots && Balanced(l, w) && (w !in l.delayed ==> Undelayed(l, w))
    ensures Balanced(l', w) && (w !in l'.delayed ==> Undelayed(l', w))
  {
  }

  lemma CallerBooks(l: Ledger, a: ActorId, m: Move)
    requires Can(l, a, m) && !IsWorkerMove(m) && !IsTimerMove(m)
    requires l.roles[a].Unlinks? ==> l.slots[l.roles[a].w].state.queued
    ensures Books(l, ApplyCaller(l, a, m), Logged(l, l.roles[a], m))
  {
  }

  lemma TimerBooks(l: Ledger, a: ActorId, m: Move)
    requires Can(l, a, m) && IsTimerMove(m)
    requires l.roles[a].Arms? ==> l.slots[l.roles[a].w].state == QUEUED && l.roles[a].w in l.delayed
    ensures Books(l, ApplyTimer(l, a, m), Logged(l, l.roles[a], m))
  {
  }

  lemma WorkerBooks(l: Ledger, a: ActorId, m: Move)
    requires Can(l, a, m) && IsWorkerMove(m)
    ensures Books(l, ApplyWorker(l, a, m), Logged(l, l.roles[a], m))
  {
  }

  predicate Queues(r: Role, w: WorkId) {
    r == Claims(w) || r == Wakes(w)
  }

  /** Accepting or answering a call is exactly entering or leaving the actors in such a call. */
  ghost predicate Answers(r: Role, r': Role, e: Option<Event>, w: WorkId) {
    && (e == Some(Accepted(w)) <==> !Queues(r, w) && Queues(r', w))
    && (e == Some(QueueReturned(w, true)) <==> Queues(r, w) && !Queues(r', w))
    && (e == Some(Cancelled(w)) <==> r != Confirms(w) && r' == Confirms(w))
    && (e == Some(CancelReturned(w, true)) <==> r == Confirms(w) && r' != Confirms(w))
    && (e == Some(Armed(w)) <==> r != Arms(w) && r' == Arms(w))
    && (e == Some(Expired(w)) || e == Some(Dropped(w)) <==> r == Arms(w) && r' != Arms(w))
  }

  lemma AnswersCount(l: Ledger, l': Ledger, a: ActorId, r: Role, e: Option<Event>, w: WorkId)
    requires Answered(l, w) && a in l.roles && l'.roles == l.roles[a := r] && l'.q.log == LogAfter(l.q.log, e)
    requires Answers(l.roles[a], r, e, w)
    ensures Answered(l', w)
  {
    hide Queuing, Confirming, Arming;
    QueuingUpdate(l.roles, a, r, w);
  }

  lemma CallerAnswers(l: Ledger, a: ActorId, m: Move, w: WorkId)
    requires Can(l, a, m) && !IsWorkerMove(m) && !IsTimerMove(m)
    ensures Answers(l.roles[a], ApplyCaller(l, a, m).roles[a], Logged(l, l.roles[a], m), w)
    ensures ApplyCaller(l, a, m).roles == l.roles[a := ApplyCaller(l, a, m).roles[a]]
  {
  }

  lemma IdleWorkerAnswers(l: Ledger, a: ActorId, m: Move, w: WorkId)
    requires Can(l, a, m) && (m.PopNone? || m.Pop? || m.Wakeup?)
    ensures Answers(l.roles[a], ApplyWorker(l, a, m).roles[a], Logged(l, l.roles[a], m), w)
    ensures ApplyWorker(l, a, m).roles == l.roles[a := ApplyWorker(l, a, m).roles[a]]
  {
  }

  lemma BusyWorkerAnswers(l: Ledger, a: ActorId, m: Move, w: WorkId)
    requires Can(l, a, m) && (m.Invoke? || m.Return? || m.Settle? || m.Finish?)
    ensures Answers(l.roles[a], ApplyWorker(l, a, m).roles[a], Logged(l, l.roles[a], m), w)
    ensures ApplyWorker(l, a, m).roles == l.roles[a := ApplyWorker(l, a, m).roles[a]]
  {
  }

  lemma WorkerAnswers(l: Ledger, a: ActorId, m: Move, w: WorkId)
    requires Can(l, a, m) && IsWorkerMove(m)
    ensures Answers(l.roles[a], ApplyWorker(l, a, m).roles[a], Logged(l, l.roles[a], m), w)
    ensures ApplyWorker(l, a, m).roles == l.roles[a := ApplyWorker(l, a, m).roles[a]]
  {
    hide Can, ApplyWorker, Logged, Answers;
    if m.PopNone? || m.Pop? || m.Wakeup? { IdleWorkerAnswers(l, a, m, w); } else { BusyWorkerAnswers(l, a, m, w); }
  }

  lemma HandoverSets(roles: map<ActorId, Role>, a: ActorId, to: ActorId, w: WorkId)
    requires a in roles && to in roles && a != to && roles[a].Arms? && roles[to].Free?
    ensures var roles' := roles[a := Free][to := roles[a]];
            && Queuing(roles', w) == Queuing(roles, w) && Confirming(roles', w) == Confirming(roles, w)
            && |Arming(roles', w)| == |Arming(roles, w)|
  {
    var r := roles[a];
    QueuingUpdate(roles, a, Free, w);
    QueuingUpdate(roles[a := Free], to, r, w);
    hide Queuing, Confirming, Arming;
    assert Queuing(roles[a := Free][to := r], w) == Queuing(roles, w);
    assert Confirming(roles[a := Free][to := r], w) == Confirming(roles, w);
  }

  lemma SameAnswers(l: Ledger, l': Ledger, w: WorkId)
    requires Answered(l, w) && l'.q.log == l.q.log
    requires Queuing(l'.roles, w) == Queuing(l.roles, w) && Confirming(l'.roles, w) == Confirming(l.roles, w)
    requires |Arming(l'.roles, w)| == |Arming(l.roles, w)|
    ensures Answered(l', w)
  {
    hide Queuing, Confirming, Arming;
  }

  lemma TimerAnswers(l: Ledger, a: ActorId, m: Move, w: WorkId)
    requires Can(l, a, m) && IsTimerMove(m) && Answered(l, w) && ApplyTimer(l, a, m).q.log == LogAfter(l.q.log, Logged(l, l.roles[a], m))
    ensures Answered(ApplyTimer(l, a, m), w)
  {
    hide Answered;
    if m.Handover? {
      HandoverSets(l.roles, a, m.to, w);
      SameAnswers(l, ApplyTimer(l, a, m), w);
    } else {
      var r := ApplyTimer(l, a, m).roles[a];
      assert ApplyTimer(l, a, m).roles == l.roles[a := r];
      AnswersCount(l, ApplyTimer(l, a, m), a, r, Logged(l, l.roles[a], m), w);
    }
  }

  /** The holder of an item finds its bit set; an armed item is a delayed one. */
  lemma HolderFacts(l: Ledger, a: ActorId, own: map<WorkId, Owner>)
    requires TokenInv(l, own) && a in l.roles && Holds(l.roles[a]).Some?
    ensures l.roles[a].w in l.slots && l.slots[l.roles[a].w].state.queued
    ensures l.roles[a].Arms? ==> l.slots[l.roles[a].w].state == QUEUED && l.roles[a].w in l.delayed
  {
  }

  lemma ApplyBooks(l: Ledger, a: ActorId, m: Move, own: map<WorkId, Owner>)
    requires TokenInv(l, own) && Can(l, a, m)
    ensures Books(l, Apply(l, a, m), Logged(l, l.roles[a], m))
  {
    if Holds(l.roles[a]).Some? { HolderFacts(l, a, own); }
    hide TokenInv, Books, ApplyWorker, ApplyCaller, ApplyTimer, Logged;
    if IsWorkerMove(m) {
      WorkerBooks(l, a, m);
    } else if IsTimerMove(m) {
      TimerBooks(l, a, m);
    } else {
      CallerBooks(l, a, m);
    }
  }

  lemma ApplyAnswers(l: Ledger, a: ActorId, m: Move, w: WorkId, own: map<WorkId, Owner>)
    requires TokenInv(l, own) && Can(l, a, m) && w in l.slots && Answered(l, w)
    ensures Answered(Apply(l, a, m), w)
  {
    ApplyBooks(l, a, m, own);
    hide TokenInv, ApplyWorker, ApplyCaller, ApplyTimer, Logged, Answered, Answers, Can;
    var e := Logged(l, l.roles[a], m);
    var l' := Apply(l, a, m);
    if IsWorkerMove(m) {
      WorkerAnswers(l, a, m, w);
      AnswersCount(l, l', a, l'.roles[a], e, w);
    } else if IsTimerMove(m) {
      TimerAnswers(l, a, m, w);
    } else {
      CallerAnswers(l, a, m, w);
      AnswersCount(l, l', a, l'.roles[a], e, w);
    }
  }

  lemma ApplyKeepsAccounts(l: Ledger, a: ActorId, m: Move, own: map<WorkId, Owner>)
    requires TokenInv(l, own) && AccountInv(l) && Can(l, a, m)
    ensures AccountInv(Apply(l, a, m))
  {
    ApplyBooks(l, a, m, own);
    var l' := Apply(l, a, m);
    assert l'.slots.Keys == l.slots.Keys;
    hide TokenInv, Books, Apply, Can, Balanced, Undelayed, Answered;
    forall w <- l'.slots
      ensures Balanced(l', w) && (w !in l'.delayed ==> Undelayed(l', w)) && Answered(l', w)
    {
      BooksBalance(l, l', Logged(l, l.roles[a], m), w);
      ApplyAnswers(l, a, m, w, own);
    }
  }

  // ----- wake-ups

  ghost predicate AllAsleep(roles: map<ActorId, Role>) {
    forall a <- roles | IsCrew(roles[a]) :: roles[a].Sleeps?
  }

  ghost predicate SomeoneWakes(roles: map<ActorId, Role>) {
    exists a :: a in roles && roles[a].Wakes?
  }

  /** When every worker sleeps over a non-empty list, the installed one is about to be woken. */
  ghost predicate WakeInv(l: Ledger) {
    && l.q.task in l.roles && IsCrew(l.roles[l.q.task])
    && (AllAsleep(l.roles) ==> l.q.waiting)
    && (AllAsleep(l.roles) && l.q.list != [] ==> l.q.task in l.q.permits || SomeoneWakes(l.roles))
  }

  lemma CallerKeepsWake(l: Ledger, a: ActorId, m: Move)
    requires WakeInv(l) && Can(l, a, m) && !IsWorkerMove(m) && !IsTimerMove(m)
    ensures WakeInv(ApplyCaller(l, a, m))
  {
    var l' := ApplyCaller(l, a, m);
    if !m.Stay? { CrewSame(l.roles, a, l'.roles[a]); }
    if m.Append? {
      assert l'.roles[a].Wakes?;
    } else if SomeoneWakes(l.roles) && !m.WakeDone? {
      var b :| b in l.roles && l.roles[b].Wakes?;
      assert l'.roles[b].Wakes?;
    }
  }

  lemma CrewSame(roles: map<ActorId, Role>, a: ActorId, r: Role)
    requires a in roles && !IsCrew(roles[a]) && !IsCrew(r)
    ensures AllAsleep(roles[a := r]) <==> AllAsleep(roles)
  {
    if AllAsleep(roles[a := r]) {
      forall b <- roles | IsCrew(roles[b]) ensures roles[b].Sleeps? {
        assert roles[a := r][b] == roles[b];
      }
    }
  }

  lemma TimerKeepsWake(l: Ledger, a: ActorId, m: Move)
    requires WakeInv(l) && Can(l, a, m) && IsTimerMove(m)
    ensures WakeInv(ApplyTimer(l, a, m))
  {
    var l' := ApplyTimer(l, a, m);
    assert forall b <- l.roles :: (IsCrew(l.roles[b]) || IsCrew(l'.roles[b]) || l.roles[b].Wakes? ==> l'.roles[b] == l.roles[b]);
    if AllAsleep(l'.roles) && l.q.list != [] && SomeoneWakes(l.roles) {
      var b :| b in l.roles && l.roles[b].Wakes?;
      assert l'.roles[b].Wakes?;
    }
  }

  lemma WorkerKeepsWake(l: Ledger, a: ActorId, m: Move)
    requires WakeInv(l) && Can(l, a, m) && IsWorkerMove(m)
    ensures WakeInv(ApplyWorker(l, a, m))
  {
    var l' := ApplyWorker(l, a, m);
    assert IsCrew(l'.roles[a]);
  }

  lemma ApplyKeepsWake(l: Ledger, a: ActorId, m: Move)
    requires WakeInv(l) && Can(l, a, m)
    ensures WakeInv(Apply(l, a, m))
  {
    hide WakeInv, ApplyWorker, ApplyTimer, ApplyCaller;
    if IsWorkerMove(m) {
      WorkerKeepsWake(l, a, m);
    } else if IsTimerMove(m) {
      TimerKeepsWake(l, a, m);
    } else {
      CallerKeepsWake(l, a, m);
    }
  }
}
