/** What every run of the work queue guarantees. */
module WorkqueueTheorems {
  import opened Basics
  import opened WorkqueueProtocol
  import opened WorkLedger
  import WorkLedgerToken
  import opened WorkLedgerTickets
  import opened WorkLedgerAccounts
  import opened WorkqueueRefinement

  // ----- pcs stay meaningful

  /** Only the pc of `a` changes, and the new one names a known item. */
  ghost predicate PcStep(s: State, s': State, a: ActorId) {
    a in s.actors && a in s'.actors && s'.actors == s.actors[a := s'.actors[a]] && PcKnown(s'.actors[a], s.works)
  }

  lemma QueuePc(s: State, a: ActorId)
    requires WellFormed(s) && a in s.actors && InQueueWork(s.actors[a])
    ensures PcStep(s, QueueStep(s, a), a)
  {
    hide WellFormed, LedgerOf;
    LedgerAt(s, a);
  }

  lemma CancelLookPc(s: State, a: ActorId)
    requires WellFormed(s) && a in s.actors && (s.actors[a].CLoad? || s.actors[a].CRemove?)
    ensures PcStep(s, CancelStep(s, a), a)
  {
    hide WellFormed, LedgerOf;
    LedgerAt(s, a);
  }

  lemma CancelEndPc(s: State, a: ActorId)
    requires WellFormed(s) && a in s.actors && InCancel(s.actors[a]) && !s.actors[a].CLoad? && !s.actors[a].CRemove?
    ensures PcStep(s, CancelStep(s, a), a)
  {
    hide WellFormed, LedgerOf;
    LedgerAt(s, a);
  }

  lemma TimerPc(s: State, a: ActorId, act: Action)
    requires WellFormed(s) && a in s.actors && InTimer(s.actors[a])
    ensures PcStep(s, TimerStep(s, a, act), a)
  {
    hide WellFormed, LedgerOf;
    LedgerAt(s, a);
  }

  lemma PopPc(s: State, a: ActorId)
    requires WellFormed(s) && a in s.actors && s.actors[a].WPop?
    ensures PcStep(s, WorkerStep(s, a), a)
  {
    hide WellFormed;
    if s.q.list != [] { HeadKnown(s); }
  }

  lemma WorkerClaimPc(s: State, a: ActorId)
    requires WellFormed(s) && a in s.actors && (s.actors[a].WLoad? || s.actors[a].WCas?)
    ensures PcStep(s, WorkerStep(s, a), a)
  {
    hide WellFormed, LedgerOf;
    LedgerAt(s, a);
  }

  lemma WorkerEndPc(s: State, a: ActorId)
    requires WellFormed(s) && a in s.actors && (s.actors[a].WBlock? || s.actors[a].WFunc? || s.actors[a].WClear? || s.actors[a].WFinal?)
    ensures PcStep(s, WorkerStep(s, a), a)
  {
    hide WellFormed, LedgerOf;
    LedgerAt(s, a);
  }

  lemma ArmPc(s: State, a: ActorId, act: Action)
    requires WellFormed(s) && Enabled(s, a, act) && InArm(s.actors[a]) && !act.Spawn?
    ensures PcStep(s, ArmStep(s, a, act), a)
  {
    hide WellFormed, LedgerOf;
    LedgerAt(s, a);
  }

  lemma EnterPc(s: State, a: ActorId, act: Action)
    requires WellFormed(s) && Enabled(s, a, act) && (s.actors[a].Idle? || s.actors[a].FCheck?)
    ensures PcStep(s, Perform(s, a, act), a)
  {
    hide WellFormed, WorkerStep, QueueStep, CancelStep, TimerStep, ArmStep;
  }

  lemma PerformPc(s: State, a: ActorId, act: Action)
    requires WellFormed(s) && Enabled(s, a, act) && !act.Spawn?
    ensures PcStep(s, Perform(s, a, act), a)
  {
    hide PcStep, WellFormed, WorkerStep, QueueStep, CancelStep, TimerStep, ArmStep, PcKnown;
    var pc := s.actors[a];
    if pc.Idle? || pc.FCheck? {
      EnterPc(s, a, act);
    } else if pc.WPop? {
      PopPc(s, a);
    } else if InWorker(pc) {
      if pc.WLoad? || pc.WCas? { WorkerClaimPc(s, a); } else { WorkerEndPc(s, a); }
    } else if InQueueWork(pc) {
      QueuePc(s, a);
    } else if InCancel(pc) {
      if pc.CLoad? || pc.CRemove? { CancelLookPc(s, a); } else { CancelEndPc(s, a); }
    } else if InTimer(pc) {
      TimerPc(s, a, act);
    } else {
      ArmPc(s, a, act);
    }
  }

  lemma SpawnPcs(s: State, a: ActorId, act: Action)
    requires WellFormed(s) && Enabled(s, a, act) && act.Spawn?
    ensures Perform(s, a, act).actors == s.actors[a := Idle][act.timer := TStart(s.actors[a].w)]
    ensures PcKnown(TStart(s.actors[a].w), s.works)
  {
    hide WellFormed, LedgerOf;
    LedgerAt(s, a);
  }

  lemma AllPcsKnown(s: State, a: ActorId, act: Action)
    requires WellFormed(s) && Enabled(s, a, act)
    ensures Perform(s, a, act).actors.Keys == s.actors.Keys
    ensures forall b <- s.actors :: PcKnown(Perform(s, a, act).actors[b], s.works)
  {
    hide Perform, MentionsItem, InArm, InTimer;
    if act.Spawn? { SpawnPcs(s, a, act); } else { PerformPc(s, a, act); }
  }

  // ----- the invariant of every reachable state

  ghost predicate Inv(s: State, own: map<WorkId, Owner>, place: map<nat, Place>) {
    && WellFormed(s)
    && var l := LedgerOf(s);
       TokenInv(l, own) && TicketInv(l, place) && CountInv(l) && AccountInv(l) && WakeInv(l)
  }

  lemma TokenIsSafe(s: State, a: ActorId, own: map<WorkId, Owner>)
    requires WellFormed(s) && a in s.actors && TokenInv(LedgerOf(s), own)
    ensures Safe(s, a)
  {
    LedgerAt(s, a);
    if Holds(RoleOf(s.actors[a])).Some? { HolderFacts(LedgerOf(s), a, own); }
    hide TokenInv, RoleOf;
  }

  lemma LedgerKept(l: Ledger, a: ActorId, m: Move)
    requires Can(l, a, m)
    ensures var l' := Apply(l, a, m);
            l'.slots.Keys == l.slots.Keys && l'.delayed == l.delayed && l'.q.task == l.q.task && l'.q.nextTicket >= l.q.nextTicket
  {
  }

  lemma SlotKeys(works: map<WorkId, Work>)
    ensures Slots(works).Keys == works.Keys
  {
    assert forall w :: w in Slots(works) <==> w in works;
  }

  lemma SameDelayed(works: map<WorkId, Work>, works': map<WorkId, Work>)
    requires works'.Keys == works.Keys && Delayed(works') == Delayed(works)
    ensures forall w <- works :: works'[w].delayed == works[w].delayed
  {
    forall w <- works
      ensures works'[w].delayed == works[w].delayed
    {
      assert w in Delayed(works') <==> w in Delayed(works);
    }
  }

  lemma ListKnown(l: Ledger, own: map<WorkId, Owner>)
    requires TokenInv(l, own)
    ensures forall i | 0 <= i < |l.q.list| :: l.q.list[i].work in l.slots
  {
  }

  /** Items, delayed items and actors of the next state are those of the ledger. */
  lemma StaysWellFormed(s: State, s': State, own: map<WorkId, Owner>)
    requires WellFormed(s) && TokenInv(LedgerOf(s'), own)
    requires LedgerOf(s').slots.Keys == LedgerOf(s).slots.Keys && LedgerOf(s').delayed == LedgerOf(s).delayed
    requires s'.q.task == s.q.task && s'.actors.Keys == s.actors.Keys
    requires forall b <- s.actors :: PcKnown(s'.actors[b], s.works)
    ensures WellFormed(s')
  {
    hide TokenInv, Slots, Delayed, PcKnown;
    SlotKeys(s.works);
    SlotKeys(s'.works);
    assert s'.works.Keys == s.works.Keys;
    ListKnown(LedgerOf(s'), own);
    SameDelayed(s.works, s'.works);
    forall b <- s'.actors ensures PcKnown(s'.actors[b], s'.works) { PcStays(s'.actors[b], s.works, s'.works); }
  }

  lemma PcStays(pc: Pc, works: map<WorkId, Work>, works': map<WorkId, Work>)
    requires PcKnown(pc, works) && works'.Keys == works.Keys && forall w <- works :: works'[w].delayed == works[w].delayed
    ensures PcKnown(pc, works')
  {
  }

  lemma StepKeepsInv(s: State, a: ActorId, act: Action, own: map<WorkId, Owner>, place: map<nat, Place>)
    returns (own': map<WorkId, Owner>, place': map<nat, Place>)
    requires Inv(s, own, place) && Enabled(s, a, act)
    ensures Inv(Perform(s, a, act), own', place')
  {
    hide Perform, TokenInv, TicketInv, CountInv, AccountInv, WakeInv, WellFormed, Apply, LedgerOf, Can, Enabled;
    var l, s' := LedgerOf(s), Perform(s, a, act);
    ActorKnown(s, a, act);
    TokenIsSafe(s, a, own);
    var m := PerformRefines(s, a, act);
    own' := WorkLedgerToken.ApplyKeepsToken(l, a, m, own);
    place' := ApplyKeepsTickets(l, a, m, place);
    ApplyKeepsCount(l, a, m);
    ApplyKeepsAccounts(l, a, m, own);
    ApplyKeepsWake(l, a, m);
    LedgerKept(l, a, m);
    AllPcsKnown(s, a, act);
    SameQueue(s);
    SameQueue(s');
    StaysWellFormed(s, s', own');
  }

  lemma ActorKnown(s: State, a: ActorId, act: Action)
    requires Enabled(s, a, act)
    ensures a in s.actors
  {
  }

  lemma SameQueue(s: State)
    ensures LedgerOf(s).q == s.q
  {
  }

  /** A ledger in which nothing has happened yet. */
  ghost predicate Fresh(l: Ledger) {
    && (forall a <- l.roles :: l.roles[a] == Free || l.roles[a] == Looks)
    && (forall w <- l.slots :: l.slots[w].state == CLEAR)
    && l.q.task in l.roles && l.roles[l.q.task] == Looks && |Crew(l.roles)| < WORD
    && l.q == Queue([], 0, false, l.q.task, {}, 0, map[], {}, [])
  }

  lemma InitFresh(s: State)
    requires Init(s)
    ensures Fresh(LedgerOf(s))
  {
    StartRoles();
    hide RoleOf, InWorker, PcKnown;
    var roles := LedgerOf(s).roles;
    assert Crew(roles) == Workers(s) by {
      forall a <- s.actors ensures IsCrew(roles[a]) <==> InWorker(s.actors[a]) {
      }
    }
  }

  lemma StartRoles()
    ensures RoleOf(Idle) == Free && RoleOf(WPop) == Looks && InWorker(WPop) && !InWorker(Idle)
  {
  }

  lemma FreshToken(l: Ledger) returns (own: map<WorkId, Owner>)
    requires Fresh(l)
    ensures TokenInv(l, own)
  {
    own := map w | w in l.slots :: Nobody;
  }

  lemma FreshAccounts(l: Ledger)
    requires Fresh(l)
    ensures AccountInv(l)
  {
    forall w <- l.slots ensures Balanced(l, w) && Undelayed(l, w) && Answered(l, w) {
      assert Queuing(l.roles, w) == {} && Confirming(l.roles, w) == {} && Arming(l.roles, w) == {};
    }
  }

  lemma FreshRest(l: Ledger)
    requires Fresh(l)
    ensures TicketInv(l, map[]) && CountInv(l) && WakeInv(l)
  {
    assert Section(l.roles) == {};
    assert IsCrew(l.roles[l.q.task]) && !AllAsleep(l.roles);
  }

  lemma InitInv(s: State) returns (own: map<WorkId, Owner>, place: map<nat, Place>)
    requires Init(s)
    ensures Inv(s, own, place)
  {
    hide TokenInv, TicketInv, CountInv, AccountInv, WakeInv, Fresh;
    InitFresh(s);
    own := FreshToken(LedgerOf(s));
    place := map[];
    FreshAccounts(LedgerOf(s));
    FreshRest(LedgerOf(s));
  }

  lemma {:induction false} RunInv(r: seq<State>, n: nat) returns (own: map<WorkId, Owner>, place: map<nat, Place>)
    requires IsRun(r) && n < |r|
    ensures Inv(r[n], own, place)
  {
    hide Inv, Perform, Enabled, Init, WellFormed;
    if n == 0 {
      own, place := InitInv(r[0]);
    } else {
      var own0, place0 := RunInv(r, n - 1);
      assert Next(r[n - 1], r[n - 1 + 1]);
      var a, act :| Enabled(r[n - 1], a, act) && r[n] == Perform(r[n - 1], a, act);
      own, place := StepKeepsInv(r[n - 1], a, act, own0, place0);
    }
  }

  // ----- theorems

  predicate IsListed(s: State, w: WorkId) {
    exists i :: 0 <= i < |s.q.list| && s.q.list[i].work == w
  }

  /** The actors that hold QUEUED of `w`: a producer past its CAS, a worker past its pop, a canceller past its
      unlink, or the arming call and then the timer of a delayed item. */
  function Holders(s: State, w: WorkId): set<ActorId> {
    set a | a in s.actors && Holds(RoleOf(s.actors[a])) == Some(w)
  }

  /** QUEUED is set exactly when one party holds the item, the list counting as a party; the list has no repetition. */
  ghost predicate SingleToken(s: State, w: WorkId)
    requires w in s.works
  {
    && (!s.works[w].state.queued ==> !IsListed(s, w) && Holders(s, w) == {})
    && (s.works[w].state.queued && IsListed(s, w) ==> Holders(s, w) == {})
    && (s.works[w].state.queued && !IsListed(s, w) ==> exists a :: Holders(s, w) == {a})
    && (forall i, j | 0 <= i < j < |s.q.list| :: s.q.list[i].work != s.q.list[j].work)
  }

  lemma SingleTokenInRuns(r: seq<State>, n: nat, w: WorkId)
    requires IsRun(r) && n < |r| && w in r[n].works
    ensures SingleToken(r[n], w)
  {
    var own, place := RunInv(r, n);
    TokenIsSingle(r[n], w, own);
  }

  lemma TokenIsSingle(s: State, w: WorkId, own: map<WorkId, Owner>)
    requires WellFormed(s) && w in s.works && TokenInv(LedgerOf(s), own)
    ensures SingleToken(s, w)
  {
    hide RoleOf;
    var l := LedgerOf(s);
    assert l.slots[w].state == s.works[w].state;
    assert forall a <- s.actors :: l.roles[a] == RoleOf(s.actors[a]);
    ListedIsOwned(s, w, own);
    hide WellFormed, IsListed;
    if own[w].Held? {
      assert Holders(s, w) == {own[w].a};
    }
  }

  lemma ListedIsOwned(s: State, w: WorkId, own: map<WorkId, Owner>)
    requires TokenInv(LedgerOf(s), own) && w in own
    ensures IsListed(s, w) <==> own[w] == InList
    ensures forall i, j | 0 <= i < j < |s.q.list| :: s.q.list[i].work != s.q.list[j].work
  {
    hide RoleOf, Slots, Roles, Delayed;
  }

  /** What each holder finds: a worker never meets a popped item without QUEUED, and the timer's compare-and-swap
      and every plain store of 0 meet exactly QUEUED, so they lose no other bit. */
  lemma HoldersFindQueued(r: seq<State>, n: nat, a: ActorId)
    requires IsRun(r) && n < |r| && a in r[n].actors
    ensures var pc := r[n].actors[a];
            && (pc.WLoad? || pc.WCas? || pc.QLink? || pc.CClear? ==> pc.w in r[n].works && r[n].works[pc.w].state.queued)
            && (pc.TDrop? || pc.TRelease? || pc.DUndoState? ==> pc.w in r[n].works && r[n].works[pc.w].state == QUEUED)
  {
    hide IsRun;
    var own, place := RunInv(r, n);
    TokenIsSafe(r[n], a, own);
    SafeFinds(r[n], a);
  }

  lemma SafeFinds(s: State, a: ActorId)
    requires Safe(s, a)
    ensures var pc := s.actors[a];
            && (pc.WLoad? || pc.WCas? || pc.QLink? || pc.CClear? ==> pc.w in s.works && s.works[pc.w].state.queued)
            && (pc.TDrop? || pc.TRelease? || pc.DUndoState? ==> pc.w in s.works && s.works[pc.w].state == QUEUED)
  {
    hide WellFormed;
  }

  /** An item about to be linked is not in the list. */
  lemma NeverLinkedTwice(r: seq<State>, n: nat, a: ActorId)
    requires IsRun(r) && n < |r| && a in r[n].actors && r[n].actors[a].QLink?
    ensures !IsListed(r[n], r[n].actors[a].w)
  {
    var w := r[n].actors[a].w;
    HoldersFindQueued(r, n, a);
    SingleTokenInRuns(r, n, w);
    assert a in Holders(r[n], w);
    hide IsRun;
  }

  /** A cancel that looks while the item is listed reads a queue pointer, takes the lock, and finds it there. */
  lemma CancelSeesListed(r: seq<State>, n: nat, a: ActorId)
    requires IsRun(r) && n < |r| && a in r[n].actors && (r[n].actors[a].CLoad? || r[n].actors[a].CRemove?)
    requires IsListed(r[n], r[n].actors[a].w)
    ensures WellFormed(r[n])
    ensures r[n].actors[a].CLoad? ==> CancelStep(r[n], a).actors[a].CRemove?
    ensures r[n].actors[a].CRemove? ==> CancelStep(r[n], a).actors[a].CClear?
  {
    hide IsRun;
    var own, place := RunInv(r, n);
    CancelFinds(r[n], a, own);
  }

  lemma CancelFinds(s: State, a: ActorId, own: map<WorkId, Owner>)
    requires WellFormed(s) && TokenInv(LedgerOf(s), own) && a in s.actors && (s.actors[a].CLoad? || s.actors[a].CRemove?)
    requires IsListed(s, s.actors[a].w)
    ensures s.actors[a].CLoad? ==> CancelStep(s, a).actors[a].CRemove?
    ensures s.actors[a].CRemove? ==> CancelStep(s, a).actors[a].CClear?
  {
    hide WellFormed, TokenInv;
    var i :| 0 <= i < |s.q.list| && s.q.list[i].work == s.actors[a].w;
    ListedIsNamed(s, i, own);
    assert Find(s.q.list, s.actors[a].w) <= i;
  }

  lemma ListedIsNamed(s: State, i: nat, own: map<WorkId, Owner>)
    requires WellFormed(s) && TokenInv(LedgerOf(s), own) && i < |s.q.list|
    ensures s.q.list[i].work in s.works && s.works[s.q.list[i].work].hasQueue
  {
  }

  function Callers(s: State, w: WorkId): set<ActorId> {
    set a | a in s.actors && (RoleOf(s.actors[a]) == Claims(w) || RoleOf(s.actors[a]) == Wakes(w))
  }

  function Cancellers(s: State, w: WorkId): set<ActorId> {
    set a | a in s.actors && RoleOf(s.actors[a]) == Confirms(w)
  }

  /** Accounting over whole runs, for an item that is not delayed work: successful lcompat_queue_work calls, with
      those past their CAS, are the function invocations, the cancel_work_sync calls that returned true, with those
      past their clear, and the outstanding token. */
  lemma AccountsInRuns(r: seq<State>, n: nat, w: WorkId)
    requires IsRun(r) && n < |r| && w in r[n].works && !r[n].works[w].delayed
    ensures var log := r[n].q.log;
            Times(log, QueueReturned(w, true)) + |Callers(r[n], w)| ==
            Times(log, Invoked(w)) + Times(log, CancelReturned(w, true)) + |Cancellers(r[n], w)|
            + if r[n].works[w].state.queued then 1 else 0
  {
    var own, place := RunInv(r, n);
    AccountsOf(r[n], w);
  }

  /** The arming calls and delay timers of `w` that are under way. */
  function Timers(s: State, w: WorkId): set<ActorId> {
    set a | a in s.actors && RoleOf(s.actors[a]) == Arms(w)
  }

  lemma AccountsOf(s: State, w: WorkId)
    requires w in s.works && AccountInv(LedgerOf(s))
    ensures LedgerOf(s).slots[w].state == s.works[w].state
    ensures Times(s.q.log, Accepted(w)) == Times(s.q.log, QueueReturned(w, true)) + |Callers(s, w)|
    ensures Times(s.q.log, Cancelled(w)) == Times(s.q.log, CancelReturned(w, true)) + |Cancellers(s, w)|
    ensures Times(s.q.log, Armed(w)) == Times(s.q.log, Expired(w)) + Times(s.q.log, Dropped(w)) + |Timers(s, w)|
    ensures Balanced(LedgerOf(s), w) && (!s.works[w].delayed ==> Undelayed(LedgerOf(s), w))
  {
    hide RoleOf, Balanced, Undelayed;
    var l := LedgerOf(s);
    assert Queuing(l.roles, w) == Callers(s, w);
    assert Confirming(l.roles, w) == Cancellers(s, w);
    assert Arming(l.roles, w) == Timers(s, w);
  }

  /** The same for every item: a delayed item's QUEUED is also set by an arm, and given back by its timer. */
  lemma DelayedAccountsInRuns(r: seq<State>, n: nat, w: WorkId)
    requires IsRun(r) && n < |r| && w in r[n].works
    ensures var log := r[n].q.log;
            Times(log, QueueReturned(w, true)) + |Callers(r[n], w)| + Times(log, Armed(w)) ==
            Times(log, Invoked(w)) + Times(log, CancelReturned(w, true)) + |Cancellers(r[n], w)|
            + Times(log, Dropped(w)) + Times(log, Expired(w))
            + if r[n].works[w].state.queued then 1 else 0
  {
    var own, place := RunInv(r, n);
    AccountsOf(r[n], w);
  }

  // ----- links, invocations and removals

  lemma {:induction false} OutcomesLast(r: seq<State>, n: nat, m: nat, k: nat)
    requires IsRun(r) && n <= m < |r| && k in r[n].q.outcomes
    ensures k in r[m].q.outcomes && r[m].q.outcomes[k] == r[n].q.outcomes[k]
    decreases m
  {
    hide Inv, Perform, Enabled, Init, WellFormed;
    if n < m {
      OutcomesLast(r, n, m - 1, k);
      var own, place := RunInv(r, m - 1);
      assert Next(r[m - 1], r[m - 1 + 1]);
      var a, act :| Enabled(r[m - 1], a, act) && r[m] == Perform(r[m - 1], a, act);
      StepKeepsOutcomes(r[m - 1], a, act, own, place, k);
    }
  }

  lemma StepKeepsOutcomes(s: State, a: ActorId, act: Action, own: map<WorkId, Owner>, place: map<nat, Place>, k: nat)
    requires Inv(s, own, place) && Enabled(s, a, act) && k in s.q.outcomes
    ensures var q := Perform(s, a, act).q; k in q.outcomes && q.outcomes[k] == s.q.outcomes[k]
  {
    ActorKnown(s, a, act);
    hide Perform, TokenInv, TicketInv, CountInv, AccountInv, WakeInv, WellFormed, Apply, Can, Enabled;
    TokenIsSafe(s, a, own);
    var m := PerformRefines(s, a, act);
    OutcomesKept(LedgerOf(s), a, m, place, k);
    SameQueue(s);
    SameQueue(Perform(s, a, act));
  }

  /** A link that a canceller removed is never followed by an invocation, at any later time of the run. */
  lemma RemovedNeverRuns(r: seq<State>, n: nat, m: nat, k: nat)
    requires IsRun(r) && n <= m < |r| && k in r[n].q.outcomes && r[n].q.outcomes[k] == Removed
    ensures k !in r[m].q.invoked
  {
    OutcomesLast(r, n, m, k);
    var own, place := RunInv(r, m);
    hide IsRun, WellFormed, LedgerOf;
    SameQueue(r[m]);
  }

  /** Who holds an item he unlinked, or has cleared its bit after that, made the move that removed its link. */
  lemma RemovalMove(l: Ledger, a: ActorId, m: Move, b: ActorId, w: WorkId)
    requires Can(l, a, m) && b in l.roles && b in Apply(l, a, m).roles
    requires var r := Apply(l, a, m).roles[b]; r == Unlinks(w) || r == Confirms(w)
    requires l.roles[b] != Unlinks(w) && l.roles[b] != Confirms(w)
    ensures a == b && m.Unlink? && m.i < |l.q.list| && l.q.list[m.i].work == w
    ensures var k := l.q.list[m.i].ticket; k in Apply(l, a, m).q.outcomes && Apply(l, a, m).q.outcomes[k] == Removed
  {
  }

  predicate Removes(pc: Pc, w: WorkId) { pc == CClear(w) || pc == CWait(w, true) }

  lemma RemovesRole(s: State, b: ActorId, w: WorkId)
    requires b in s.actors
    ensures b in LedgerOf(s).roles
    ensures Removes(s.actors[b], w) <==> LedgerOf(s).roles[b] == Unlinks(w) || LedgerOf(s).roles[b] == Confirms(w)
  {
  }

  /** The link with ticket `k` is an entry of the list for `w` at `i`, and removed in the next state. */
  ghost predicate RemovedAt(r: seq<State>, i: nat, w: WorkId, k: nat) {
    && i + 1 < |r| && Link(w, k) in r[i].q.list && k in r[i + 1].q.outcomes && r[i + 1].q.outcomes[k] == Removed
  }

  /** `a` searches the list for `w` at `i`, and up to `n` it has not returned from that call. */
  ghost predicate SameCall(r: seq<State>, i: nat, n: nat, a: ActorId, w: WorkId) {
    && i < n < |r| && a in r[i].actors && r[i].actors[a] == CRemove(w)
    && forall m | i < m <= n :: a in r[m].actors && Removes(r[m].actors[a], w)
  }

  lemma RemovalStep(s: State, a: ActorId, act: Action, own: map<WorkId, Owner>, b: ActorId, w: WorkId) returns (k: nat)
    requires WellFormed(s) && TokenInv(LedgerOf(s), own) && Enabled(s, a, act) && a in s.actors && b in s.actors
    requires b in Perform(s, a, act).actors && Removes(Perform(s, a, act).actors[b], w) && !Removes(s.actors[b], w)
    ensures s.actors[b] == CRemove(w)
    ensures Link(w, k) in s.q.list && k in Perform(s, a, act).q.outcomes && Perform(s, a, act).q.outcomes[k] == Removed
  {
    hide Perform, TokenInv, WellFormed, Apply, Can, Enabled, RoleOf, LedgerOf;
    TokenIsSafe(s, a, own);
    var m := PerformRefines(s, a, act);
    RemovesRole(s, b, w);
    RemovesRole(Perform(s, a, act), b, w);
    SameQueue(s);
    SameQueue(Perform(s, a, act));
    RemovalMove(LedgerOf(s), a, m, b, w);
    k := s.q.list[m.i].ticket;
    assert s.q.list[m.i] == Link(w, k);
  }

  lemma NobodyRemoves(s: State, b: ActorId, w: WorkId)
    requires Init(s) && b in s.actors
    ensures !Removes(s.actors[b], w)
  {
    hide WellFormed;
  }

  lemma CallGoesOn(r: seq<State>, i: nat, n: nat, b: ActorId, w: WorkId)
    requires 0 < n < |r| && SameCall(r, i, n - 1, b, w) && b in r[n].actors && Removes(r[n].actors[b], w)
    ensures SameCall(r, i, n, b, w)
  {
    hide Removes;
  }

  lemma CallStarts(r: seq<State>, i: nat, b: ActorId, w: WorkId)
    requires i + 1 < |r| && b in r[i].actors && r[i].actors[b] == CRemove(w) && b in r[i + 1].actors && Removes(r[i + 1].actors[b], w)
    ensures SameCall(r, i, i + 1, b, w)
  {
    hide Removes;
  }

  lemma {:induction false} FindRemoval(r: seq<State>, n: nat, b: ActorId, w: WorkId) returns (i: nat, k: nat)
    requires IsRun(r) && n < |r| && b in r[n].actors && Removes(r[n].actors[b], w)
    ensures i < n && RemovedAt(r, i, w, k) && SameCall(r, i, n, b, w)
  {
    hide Perform, Enabled, WellFormed, TokenInv, LedgerOf, TicketInv, CountInv, AccountInv, WakeInv, Init, Removes, SameCall;
    i, k := 0, 0;
    if n == 0 { NobodyRemoves(r[0], b, w); }
    if n > 0 {
      var own, place := RunInv(r, n - 1);
      assert Next(r[n - 1], r[n - 1 + 1]);
      var a, act :| Enabled(r[n - 1], a, act) && r[n] == Perform(r[n - 1], a, act);
      ActorKnown(r[n - 1], a, act);
      AllPcsKnown(r[n - 1], a, act);
      if Removes(r[n - 1].actors[b], w) {
        i, k := FindRemoval(r, n - 1, b, w);
        CallGoesOn(r, i, n, b, w);
      } else {
        i := n - 1;
        k := RemovalStep(r[n - 1], a, act, own, b, w);
        CallStarts(r, i, b, w);
      }
    }
  }

  /** A cancel that is going to return true removed, in this same call, a link of its item, and that link is never
      invoked: that queuing of the item never runs. */
  lemma TrueCancelNeverRuns(r: seq<State>, n: nat, a: ActorId, w: WorkId) returns (i: nat, k: nat)
    requires IsRun(r) && n < |r| && a in r[n].actors && r[n].actors[a] == CWait(w, true)
    ensures i < n && RemovedAt(r, i, w, k) && SameCall(r, i, n, a, w)
    ensures forall m | i < m < |r| :: k !in r[m].q.invoked
  {
    hide IsRun, RemovedAt, SameCall;
    i, k := FindRemoval(r, n, a, w);
    forall m | i < m < |r|
      ensures k !in r[m].q.invoked
    {
      RemovedLater(r, i, m, w, k);
    }
  }

  lemma RemovedLater(r: seq<State>, i: nat, m: nat, w: WorkId, k: nat)
    requires IsRun(r) && RemovedAt(r, i, w, k) && i < m < |r|
    ensures k !in r[m].q.invoked
  {
    hide IsRun;
    RemovedNeverRuns(r, i + 1, m, k);
  }

  /** A link is invoked at most once: the worker that clears QUEUED finds its link not yet invoked. */
  lemma InvokedOnce(r: seq<State>, n: nat, a: ActorId)
    requires IsRun(r) && n < |r| && a in r[n].actors && r[n].actors[a].WCas?
    ensures r[n].actors[a].ticket !in r[n].q.invoked
  {
    hide IsRun;
    var own, place := RunInv(r, n);
    PoppedNotInvoked(r[n], a, place);
  }

  lemma PoppedNotInvoked(s: State, a: ActorId, place: map<nat, Place>)
    requires WellFormed(s) && TicketInv(LedgerOf(s), place) && a in s.actors && s.actors[a].WCas?
    ensures s.actors[a].ticket !in s.q.invoked
  {
    LedgerAt(s, a);
    TicketFacts(LedgerOf(s), place);
    SameQueue(s);
    hide WellFormed, LedgerOf, TicketInv;
    assert Carries(LedgerOf(s).roles[a]).Some?;
  }

  lemma {:induction false} TicketsGrow(r: seq<State>, n: nat, m: nat)
    requires IsRun(r) && n <= m < |r|
    ensures r[n].q.nextTicket <= r[m].q.nextTicket
    decreases m
  {
    hide Inv, Perform, Enabled, Init, WellFormed;
    if n < m {
      TicketsGrow(r, n, m - 1);
      var own, place := RunInv(r, m - 1);
      assert Next(r[m - 1], r[m - 1 + 1]);
      var a, act :| Enabled(r[m - 1], a, act) && r[m] == Perform(r[m - 1], a, act);
      StepTickets(r[m - 1], a, act, own, place);
    }
  }

  lemma StepTickets(s: State, a: ActorId, act: Action, own: map<WorkId, Owner>, place: map<nat, Place>)
    requires Inv(s, own, place) && Enabled(s, a, act)
    ensures s.q.nextTicket <= Perform(s, a, act).q.nextTicket
  {
    ActorKnown(s, a, act);
    hide Perform, TokenInv, TicketInv, CountInv, AccountInv, WakeInv, WellFormed, Apply, Can, Enabled;
    TokenIsSafe(s, a, own);
    var m := PerformRefines(s, a, act);
    LedgerKept(LedgerOf(s), a, m);
    SameQueue(s);
    SameQueue(Perform(s, a, act));
  }

  /** The flush barrier: a flush that was called at `n` and sees an idle queue at `m` returns only after every link
      made before the call has returned from its function or been removed. */
  lemma FlushIsBarrier(r: seq<State>, n: nat, m: nat, k: nat)
    requires IsRun(r) && n <= m < |r| && IsIdleQueue(r[m]) && k < r[n].q.nextTicket
    ensures k in r[m].q.outcomes
  {
    TicketsGrow(r, n, m);
    var own, place := RunInv(r, m);
    IdleMeansDone(LedgerOf(r[m]), place, k);
    SameQueue(r[m]);
  }

  lemma IdleMeansDone(l: Ledger, place: map<nat, Place>, k: nat)
    requires TicketInv(l, place) && CountInv(l) && l.q.list == [] && l.q.active == 0 && k < l.q.nextTicket
    ensures k in l.q.outcomes
  {
    assert Section(l.roles) == {};
    assert forall a <- l.roles :: a !in Section(l.roles);
  }

  function InFlight(s: State): set<ActorId> {
    set a | a in s.actors && InWorker(s.actors[a]) && !s.actors[a].WPop? && !s.actors[a].WBlock?
  }

  /** `active` counts the workers between their pop and their final critical section. */
  lemma ActiveCountsWorkers(r: seq<State>, n: nat)
    requires IsRun(r) && n < |r|
    ensures r[n].q.active == |InFlight(r[n])|
  {
    var own, place := RunInv(r, n);
    SectionIsInFlight(r[n]);
    SameQueue(r[n]);
  }

  lemma SectionIsInFlight(s: State)
    ensures Section(LedgerOf(s).roles) == InFlight(s)
  {
    forall pc: Pc ensures InSection(RoleOf(pc)) <==> InWorker(pc) && !pc.WPop? && !pc.WBlock? {
    }
    hide RoleOf, InWorker;
  }

  /** No lost wake-up, for any number of workers: over a non-empty list some worker can run, or the installed worker
      has an unblock pending, or some producer is still to decide about the wake. */
  lemma NoLostWakeup(r: seq<State>, n: nat)
    requires IsRun(r) && n < |r| && r[n].q.list != []
    ensures var s := r[n];
            || (exists a :: a in s.actors && InWorker(s.actors[a]) && !s.actors[a].WBlock?)
            || (s.q.task in s.q.permits && s.q.task in s.actors && InWorker(s.actors[s.q.task]))
            || (exists a :: a in s.actors && (s.actors[a].QWake? || s.actors[a].QUnblock?))
  {
    var own, place := RunInv(r, n);
    WakeInState(r[n]);
  }

  lemma WakeInState(s: State)
    requires WellFormed(s) && WakeInv(LedgerOf(s)) && s.q.list != []
    ensures
      || (exists a :: a in s.actors && InWorker(s.actors[a]) && !s.actors[a].WBlock?)
      || (s.q.task in s.q.permits && s.q.task in s.actors && InWorker(s.actors[s.q.task]))
      || (exists a :: a in s.actors && (s.actors[a].QWake? || s.actors[a].QUnblock?))
  {
    var l := LedgerOf(s);
    WakeRoles();
    hide RoleOf, InWorker, WellFormed;
    if !AllAsleep(l.roles) {
      var a :| a in l.roles && IsCrew(l.roles[a]) && !l.roles[a].Sleeps?;
      assert a in s.actors && InWorker(s.actors[a]) && !s.actors[a].WBlock?;
    } else if SomeoneWakes(l.roles) {
      var a :| a in l.roles && l.roles[a].Wakes?;
      assert a in s.actors && (s.actors[a].QWake? || s.actors[a].QUnblock?);
    }
  }

  lemma WakeRoles()
    ensures forall pc: Pc :: IsCrew(RoleOf(pc)) <==> InWorker(pc)
    ensures forall pc: Pc :: RoleOf(pc).Sleeps? <==> pc.WBlock?
    ensures forall pc: Pc :: RoleOf(pc).Wakes? ==> pc.QWake? || pc.QUnblock?
  {
  }

  /** Hence the queue never stops over a non-empty list: some worker or some waking producer has a step to take. */
  lemma WorkGoesOn(r: seq<State>, n: nat)
    requires IsRun(r) && n < |r| && r[n].q.list != []
    ensures exists a :: a in r[n].actors && Enabled(r[n], a, Go)
                        && (InWorker(r[n].actors[a]) || r[n].actors[a].QWake? || r[n].actors[a].QUnblock?)
  {
    NoLostWakeup(r, n);
    var s := r[n];
    hide IsRun;
    if a :| a in s.actors && InWorker(s.actors[a]) && !s.actors[a].WBlock? {
      assert Enabled(s, a, Go);
    } else if a :| a in s.actors && (s.actors[a].QWake? || s.actors[a].QUnblock?) {
      assert Enabled(s, a, Go);
    } else {
      assert Enabled(s, s.q.task, Go);
    }
  }
}
