/** Delay timers: exactly when an arm is dropped instead of queued.

    A timer decides by two tests (workqueue.c:203-207).  It reads `active`, which an arm sets and which only
    lcompat_cancel_delayed_work_sync clears in between, and it compares the generation with the one it read at its
    start, which every later bump of the same item changes. */
module WorkqueueTimers {
  import opened Basics
  import opened WorkqueueProtocol
  import opened WorkLedger
  import opened WorkLedgerTickets
  import opened WorkLedgerAccounts
  import opened WorkqueueRefinement
  import opened WorkqueueTheorems

  // ----- one step

  function ActiveAfter(pc: Pc, w: WorkId, active: bool): bool {
    if pc == DActivate(w) then true
    else if pc == DUndoActive(w) || pc == TDisarm(w) || pc == XDisarm(w) then false
    else active
  }

  function GenerationAfter(pc: Pc, w: WorkId, g: nat): nat {
    if pc == DBump(w) || pc == DUndoBump(w) || pc == XBump(w) then (g + 1) % WORD else g
  }

  /** Which steps write the two words of an item that the timer tests, and what they write. */
  ghost predicate ClockStep(s: State, s': State, a: ActorId, w: WorkId)
    requires a in s.actors && w in s.works
  {
    && w in s'.works
    && s'.works[w].timerActive == ActiveAfter(s.actors[a], w, s.works[w].timerActive)
    && s'.works[w].generation == GenerationAfter(s.actors[a], w, s.works[w].generation)
  }

  lemma QueueClock(s: State, a: ActorId, w: WorkId)
    requires WellFormed(s) && a in s.actors && InQueueWork(s.actors[a]) && w in s.works
    ensures ClockStep(s, QueueStep(s, a), a, w)
  {
    hide LedgerOf;
    LedgerAt(s, a);
    hide WellFormed;
  }

  lemma WorkerClock(s: State, a: ActorId, w: WorkId)
    requires WellFormed(s) && a in s.actors && InWorker(s.actors[a]) && w in s.works
    ensures ClockStep(s, WorkerStep(s, a), a, w)
  {
    hide LedgerOf;
    LedgerAt(s, a);
    hide WellFormed;
  }

  lemma CancelClock(s: State, a: ActorId, w: WorkId)
    requires WellFormed(s) && a in s.actors && InCancel(s.actors[a]) && w in s.works
    ensures ClockStep(s, CancelStep(s, a), a, w)
  {
    hide LedgerOf;
    LedgerAt(s, a);
    hide WellFormed;
  }

  lemma TimerClock(s: State, a: ActorId, act: Action, w: WorkId)
    requires WellFormed(s) && a in s.actors && InTimer(s.actors[a]) && w in s.works
    ensures ClockStep(s, TimerStep(s, a, act), a, w)
  {
    hide LedgerOf;
    LedgerAt(s, a);
    hide WellFormed;
  }

  lemma ArmClock(s: State, a: ActorId, act: Action, w: WorkId)
    requires WellFormed(s) && Enabled(s, a, act) && InArm(s.actors[a]) && w in s.works
    ensures ClockStep(s, ArmStep(s, a, act), a, w)
  {
    hide LedgerOf;
    LedgerAt(s, a);
    hide WellFormed;
  }

  lemma EnterClock(s: State, a: ActorId, act: Action, w: WorkId)
    requires WellFormed(s) && Enabled(s, a, act) && (s.actors[a].Idle? || s.actors[a].FCheck?) && w in s.works
    ensures ClockStep(s, Perform(s, a, act), a, w)
  {
    hide WellFormed, WorkerStep, QueueStep, CancelStep, TimerStep, ArmStep;
  }

  lemma PerformClock(s: State, a: ActorId, act: Action, w: WorkId)
    requires WellFormed(s) && Enabled(s, a, act) && w in s.works
    ensures ClockStep(s, Perform(s, a, act), a, w)
  {
    hide ClockStep, WellFormed, WorkerStep, QueueStep, CancelStep, TimerStep, ArmStep;
    var pc := s.actors[a];
    if pc.Idle? || pc.FCheck? { EnterClock(s, a, act, w); }
    else if InWorker(pc) { WorkerClock(s, a, w); }
    else if InQueueWork(pc) { QueueClock(s, a, w); }
    else if InCancel(pc) { CancelClock(s, a, w); }
    else if InTimer(pc) { TimerClock(s, a, act, w); }
    else { ArmClock(s, a, act, w); }
  }

  /** How the actor of a step gets to a place of an arm or of its timer; `true` for all other places. */
  ghost predicate Reaches(s: State, pc: Pc, pc': Pc) {
    match pc'
    case DBump(w) => pc == DActivate(w)
    case DSpawn(w) => pc == DBump(w)
    case DUndoState(w) => pc == DUndoActive(w)
    case DUndoBump(w) => pc == DUndoState(w)
    case TStart(_) => false
    case TWait(w, g) => pc == TWait(w, g) || (pc == TStart(w) && w in s.works && g == s.works[w].generation)
    case TCheckActive(w, g) => pc == TWait(w, g)
    case TCheckGen(w, g) => pc == TCheckActive(w, g) && w in s.works && s.works[w].timerActive
    case TDrop(w) => w in s.works && ((pc.TCheckActive? && pc.w == w && !s.works[w].timerActive)
                                      || (pc.TCheckGen? && pc.w == w && s.works[w].generation != pc.gen))
    case TDisarm(w) => pc.TCheckGen? && pc.w == w
    case TRelease(w) => pc == TDisarm(w)
    case _ => true
  }

  predicate LogsDrop(pc: Pc, w: WorkId) { pc == TDrop(w) || pc == DUndoState(w) }

  ghost predicate PlaceStep(s: State, s': State, a: ActorId) {
    && a in s.actors && a in s'.actors && Reaches(s, s.actors[a], s'.actors[a])
    && forall w :: Dropped(w) in s'.q.log ==> Dropped(w) in s.q.log || LogsDrop(s.actors[a], w)
  }

  lemma QueuePlace(s: State, a: ActorId)
    requires WellFormed(s) && a in s.actors && InQueueWork(s.actors[a])
    ensures PlaceStep(s, QueueStep(s, a), a)
  {
    hide LedgerOf;
    LedgerAt(s, a);
    hide WellFormed;
  }

  lemma WorkerClaimPlace(s: State, a: ActorId)
    requires WellFormed(s) && a in s.actors && (s.actors[a].WPop? || s.actors[a].WLoad? || s.actors[a].WCas?)
    ensures PlaceStep(s, WorkerStep(s, a), a)
  {
    hide LedgerOf;
    LedgerAt(s, a);
    hide WellFormed;
  }

  lemma WorkerEndPlace(s: State, a: ActorId)
    requires WellFormed(s) && a in s.actors && (s.actors[a].WBlock? || s.actors[a].WFunc? || s.actors[a].WClear? || s.actors[a].WFinal?)
    ensures PlaceStep(s, WorkerStep(s, a), a)
  {
    hide LedgerOf;
    LedgerAt(s, a);
    hide WellFormed;
  }

  lemma CancelLookPlace(s: State, a: ActorId)
    requires WellFormed(s) && a in s.actors && (s.actors[a].CLoad? || s.actors[a].CRemove?)
    ensures PlaceStep(s, CancelStep(s, a), a)
  {
    hide LedgerOf;
    LedgerAt(s, a);
    hide WellFormed;
  }

  lemma CancelEndPlace(s: State, a: ActorId)
    requires WellFormed(s) && a in s.actors && InCancel(s.actors[a]) && !s.actors[a].CLoad? && !s.actors[a].CRemove?
    ensures PlaceStep(s, CancelStep(s, a), a)
  {
    hide LedgerOf;
    LedgerAt(s, a);
    hide WellFormed;
  }

  lemma TimerPlace(s: State, a: ActorId, act: Action)
    requires WellFormed(s) && a in s.actors && InTimer(s.actors[a])
    ensures PlaceStep(s, TimerStep(s, a, act), a)
  {
    hide LedgerOf;
    LedgerAt(s, a);
    hide WellFormed;
  }

  lemma ArmPlace(s: State, a: ActorId, act: Action)
    requires WellFormed(s) && Enabled(s, a, act) && InArm(s.actors[a])
    ensures PlaceStep(s, ArmStep(s, a, act), a)
  {
    hide LedgerOf;
    LedgerAt(s, a);
    hide WellFormed;
  }

  lemma EnterPlace(s: State, a: ActorId, act: Action)
    requires WellFormed(s) && Enabled(s, a, act) && (s.actors[a].Idle? || s.actors[a].FCheck?)
    ensures PlaceStep(s, Perform(s, a, act), a)
  {
    hide WellFormed, WorkerStep, QueueStep, CancelStep, TimerStep, ArmStep;
  }

  lemma PerformPlace(s: State, a: ActorId, act: Action)
    requires WellFormed(s) && Enabled(s, a, act)
    ensures PlaceStep(s, Perform(s, a, act), a)
  {
    hide PlaceStep, WellFormed, WorkerStep, QueueStep, CancelStep, TimerStep, ArmStep;
    var pc := s.actors[a];
    if pc.Idle? || pc.FCheck? { EnterPlace(s, a, act); }
    else if pc.WPop? || pc.WLoad? || pc.WCas? { WorkerClaimPlace(s, a); }
    else if InWorker(pc) { WorkerEndPlace(s, a); }
    else if InQueueWork(pc) { QueuePlace(s, a); }
    else if pc.CLoad? || pc.CRemove? { CancelLookPlace(s, a); }
    else if InCancel(pc) { CancelEndPlace(s, a); }
    else if InTimer(pc) { TimerPlace(s, a, act); }
    else { ArmPlace(s, a, act); }
  }

  /** Where the others are after a step: where they were, unless a timer was started on one. */
  lemma OthersStay(s: State, a: ActorId, act: Action, b: ActorId)
    requires WellFormed(s) && Enabled(s, a, act) && a != b
    ensures b in s.actors <==> b in Perform(s, a, act).actors
    ensures b in s.actors && Perform(s, a, act).actors[b] != s.actors[b] ==>
              s.actors[a].DSpawn? && s.actors[b].Idle? && Perform(s, a, act).actors[b] == TStart(s.actors[a].w)
  {
    hide Perform, PcKnown, MentionsItem, InArm, InTimer, WellFormed;
    ActorKnown(s, a, act);
    if act.Spawn? {
      SpawnPcs(s, a, act);
      SpawnFrom(s, a, act);
    } else {
      PerformPc(s, a, act);
    }
  }

  lemma SpawnFrom(s: State, a: ActorId, act: Action)
    requires Enabled(s, a, act) && act.Spawn?
    ensures s.actors[a].DSpawn? && act.timer in s.actors && s.actors[act.timer].Idle? && act.timer != a
  {
  }

  // ----- what happens to an item along a run

  /** An arm of `w` sets `timerActive` in this step. */
  ghost predicate Activates(s: State, s': State, w: WorkId) {
    exists a <- s.actors :: s.actors[a] == DActivate(w) && a in s'.actors && s'.actors[a] == DBump(w)
  }

  /** A canceller clears it. */
  ghost predicate Disarms(s: State, s': State, w: WorkId) {
    exists a <- s.actors :: s.actors[a] == XDisarm(w) && a in s'.actors && s'.actors[a] == XBump(w)
  }

  predicate AtBump(pc: Pc, w: WorkId) { pc == XBump(w) || pc == DUndoBump(w) }

  /** A canceller, or the tail of an arm that found no thread, changes the generation. */
  ghost predicate Bumps(s: State, s': State, w: WorkId) {
    exists a <- s.actors :: AtBump(s.actors[a], w) && a in s'.actors && s'.actors[a] != s.actors[a]
  }

  /** Past the store of `timerActive`, up to the timer's decision. */
  predicate UnderWay(pc: Pc, w: WorkId) {
    || pc == DBump(w) || pc == DSpawn(w) || pc == TStart(w)
    || ((pc.TWait? || pc.TCheckActive? || pc.TCheckGen?) && pc.w == w)
  }

  ghost predicate SomeUnderWay(s: State, w: WorkId) { exists b <- s.actors :: UnderWay(s.actors[b], w) }

  /** The arm under way at `m` stored `timerActive` in the step from `i`. */
  ghost predicate ArmedSince(r: seq<State>, i: nat, m: nat, w: WorkId) {
    i < m < |r| && Activates(r[i], r[i + 1], w) && forall k | i < k <= m :: SomeUnderWay(r[k], w)
  }

  ghost predicate DisarmedIn(r: seq<State>, i: nat, m: nat, w: WorkId) {
    exists k | i < k < m && m <= |r| - 1 :: Disarms(r[k], r[k + 1], w)
  }

  predicate Watches(pc: Pc, w: WorkId, g: nat) { pc == TWait(w, g) || pc == TCheckActive(w, g) || pc == TCheckGen(w, g) }

  /** The timer at `n` read the generation `g` in the step from `j`. */
  ghost predicate WatchedSince(r: seq<State>, j: nat, n: nat, t: ActorId, w: WorkId, g: nat) {
    && j < n < |r| && t in r[j].actors && r[j].actors[t] == TStart(w) && w in r[j].works && r[j].works[w].generation == g
    && forall k | j < k <= n :: t in r[k].actors && Watches(r[k].actors[t], w, g)
  }

  ghost function BumpsIn(r: seq<State>, j: nat, n: nat, w: WorkId): nat
    requires n < |r|
    decreases n
  {
    if n <= j then 0 else BumpsIn(r, j, n - 1, w) + if Bumps(r[n - 1], r[n], w) then 1 else 0
  }

  lemma StepAt(r: seq<State>, i: nat) returns (a: ActorId, act: Action)
    requires IsRun(r) && i + 1 < |r|
    ensures WellFormed(r[i]) && Enabled(r[i], a, act) && r[i + 1] == Perform(r[i], a, act) && a in r[i].actors
  {
    hide Init, WellFormed, Perform, Enabled;
    assert Next(r[i], r[i + 1]);
    a, act :| Enabled(r[i], a, act) && r[i + 1] == Perform(r[i], a, act);
    ActorKnown(r[i], a, act);
  }

  /** Only the actor of a step can disarm or bump, and it does whenever it stands there. */
  lemma StepDisturbs(s: State, a: ActorId, act: Action, w: WorkId)
    requires WellFormed(s) && Enabled(s, a, act) && a in s.actors
    ensures Disarms(s, Perform(s, a, act), w) <==> s.actors[a] == XDisarm(w)
    ensures Bumps(s, Perform(s, a, act), w) <==> AtBump(s.actors[a], w)
  {
    hide Perform, WellFormed, Enabled;
    OwnDisturbs(s, a, act, w);
    forall b | b in s.actors && b != a && (s.actors[b] == XDisarm(w) || AtBump(s.actors[b], w))
      ensures b in Perform(s, a, act).actors && Perform(s, a, act).actors[b] == s.actors[b]
    {
      OthersStay(s, a, act, b);
    }
  }

  lemma OwnDisturbs(s: State, a: ActorId, act: Action, w: WorkId)
    requires WellFormed(s) && Enabled(s, a, act) && a in s.actors
    ensures var s' := Perform(s, a, act);
            && (s.actors[a] == XDisarm(w) ==> a in s'.actors && s'.actors[a] == XBump(w))
            && (AtBump(s.actors[a], w) ==> a in s'.actors && s'.actors[a] != s.actors[a])
  {
    hide WorkerStep, QueueStep, TimerStep, WellFormed;
  }

  /** Two actors never hold one item. */
  lemma OneHolder(s: State, own: map<WorkId, Owner>, a: ActorId, b: ActorId, w: WorkId)
    requires WellFormed(s) && TokenInv(LedgerOf(s), own) && a in s.actors && b in s.actors
    requires RoleOf(s.actors[a]) == Arms(w) && RoleOf(s.actors[b]) == Arms(w)
    ensures a == b
  {
    LedgerAt(s, a);
    LedgerAt(s, b);
    hide RoleOf, WellFormed;
  }

  lemma ArmPlaces(pc: Pc, w: WorkId)
    ensures UnderWay(pc, w) || pc == DActivate(w) || pc == DUndoActive(w) || pc == TDisarm(w) || pc == TDrop(w) ==> RoleOf(pc) == Arms(w)
    ensures UnderWay(pc, w) || pc.TDrop? ==> MentionsItem(pc)
  {
  }

  /** While an arm is under way nobody but a canceller writes `timerActive`. */
  lemma ActiveStep(s: State, a: ActorId, act: Action, own: map<WorkId, Owner>, w: WorkId)
    requires WellFormed(s) && TokenInv(LedgerOf(s), own) && Enabled(s, a, act) && a in s.actors && w in s.works && SomeUnderWay(s, w)
    ensures w in Perform(s, a, act).works
    ensures Perform(s, a, act).works[w].timerActive <==> s.works[w].timerActive && !Disarms(s, Perform(s, a, act), w)
  {
    hide WellFormed, TokenInv, Perform, LedgerOf, Enabled, RoleOf, Disarms, Bumps;
    var b :| b in s.actors && UnderWay(s.actors[b], w);
    ArmPlaces(s.actors[a], w);
    ArmPlaces(s.actors[b], w);
    if RoleOf(s.actors[a]) == Arms(w) { OneHolder(s, own, a, b, w); }
    PerformClock(s, a, act, w);
    StepDisturbs(s, a, act, w);
  }

  /** While its timer watches, nobody but a canceller or a failed arm changes the generation. */
  lemma GenerationStep(s: State, a: ActorId, act: Action, own: map<WorkId, Owner>, t: ActorId, w: WorkId, g: nat)
    requires WellFormed(s) && TokenInv(LedgerOf(s), own) && Enabled(s, a, act) && a in s.actors && w in s.works
    requires t in s.actors && Watches(s.actors[t], w, g)
    ensures w in Perform(s, a, act).works
    ensures Perform(s, a, act).works[w].generation == GenerationAfter(XBump(w), w, s.works[w].generation) || !Bumps(s, Perform(s, a, act), w)
    ensures Perform(s, a, act).works[w].generation == s.works[w].generation || Bumps(s, Perform(s, a, act), w)
  {
    hide WellFormed, TokenInv, Perform, LedgerOf, Enabled, RoleOf, Disarms, Bumps;
    ArmPlaces(s.actors[a], w);
    ArmPlaces(s.actors[t], w);
    if RoleOf(s.actors[a]) == Arms(w) { OneHolder(s, own, a, t, w); }
    PerformClock(s, a, act, w);
    StepDisturbs(s, a, act, w);
  }

  /** The item of an actor that is underway with it exists. */
  lemma ItemKnown(s: State, b: ActorId)
    requires WellFormed(s) && b in s.actors && MentionsItem(s.actors[b])
    ensures s.actors[b].w in s.works
  {
    LedgerAt(s, b);
    hide WellFormed;
  }

  /** Whoever is under way with an arm came from its arming store, or was under way before. */
  lemma ArmedBack(s: State, a: ActorId, act: Action, b: ActorId, w: WorkId)
    requires WellFormed(s) && Enabled(s, a, act) && a in s.actors
    requires b in Perform(s, a, act).actors && UnderWay(Perform(s, a, act).actors[b], w)
    ensures Activates(s, Perform(s, a, act), w) || SomeUnderWay(s, w)
  {
    hide WellFormed, Perform, Enabled;
    PerformPlace(s, a, act);
    if b != a { OthersStay(s, a, act, b); }
  }

  lemma {:induction false} FindArm(r: seq<State>, m: nat, w: WorkId) returns (i: nat)
    requires IsRun(r) && m < |r| && SomeUnderWay(r[m], w)
    ensures ArmedSince(r, i, m, w)
  {
    hide WellFormed, Perform, Enabled, UnderWay;
    i := 0;
    if m == 0 {
      InitNobody(r[0], w);
    } else {
      var a, act := StepAt(r, m - 1);
      var b :| b in r[m].actors && UnderWay(r[m].actors[b], w);
      ArmedBack(r[m - 1], a, act, b, w);
      if Activates(r[m - 1], r[m], w) {
        i := m - 1;
      } else {
        i := FindArm(r, m - 1, w);
      }
    }
  }

  lemma InitNobody(s: State, w: WorkId)
    requires Init(s)
    ensures !SomeUnderWay(s, w)
  {
    hide WellFormed;
  }

  /** Along an arm, `timerActive` is set as long as no canceller disarmed. */
  lemma {:induction false} ActiveSince(r: seq<State>, i: nat, m: nat, w: WorkId)
    requires IsRun(r) && ArmedSince(r, i, m, w)
    ensures w in r[m].works && (r[m].works[w].timerActive <==> !DisarmedIn(r, i, m, w))
    decreases m
  {
    hide WellFormed, Perform, Enabled, Init, UnderWay, Disarms, TokenInv, LedgerOf, TicketInv, CountInv, AccountInv, WakeInv, Activates, SomeUnderWay;
    var a, act := StepAt(r, m - 1);
    if m == i + 1 {
      ActivatesNow(r[i], a, act, w);
    } else {
      ArmedShorter(r, i, m, w);
      ActiveSince(r, i, m - 1, w);
      var own, place := RunInv(r, m - 1);
      ActiveStep(r[m - 1], a, act, own, w);
    }
  }

  lemma ArmedShorter(r: seq<State>, i: nat, m: nat, w: WorkId)
    requires ArmedSince(r, i, m, w) && i + 1 < m
    ensures ArmedSince(r, i, m - 1, w) && SomeUnderWay(r[m - 1], w)
    ensures DisarmedIn(r, i, m, w) <==> DisarmedIn(r, i, m - 1, w) || Disarms(r[m - 1], r[m], w)
  {
    hide SomeUnderWay, Activates, Disarms;
    if k :| i < k < m && Disarms(r[k], r[k + 1], w) { assert k < m - 1 || k == m - 1; }
  }

  lemma ActivatesNow(s: State, a: ActorId, act: Action, w: WorkId)
    requires WellFormed(s) && Enabled(s, a, act) && a in s.actors && Activates(s, Perform(s, a, act), w)
    ensures w in Perform(s, a, act).works && Perform(s, a, act).works[w].timerActive
  {
    hide WellFormed, Perform, Enabled;
    var b :| b in s.actors && s.actors[b] == DActivate(w) && b in Perform(s, a, act).actors && Perform(s, a, act).actors[b] == DBump(w);
    if b != a { OthersStay(s, a, act, b); }
    ItemKnown(s, a);
    PerformClock(s, a, act, w);
  }

  /** The timer started its watch with a read of the generation. */
  lemma {:induction false} FindStart(r: seq<State>, n: nat, t: ActorId, w: WorkId, g: nat) returns (j: nat)
    requires IsRun(r) && n < |r| && t in r[n].actors && Watches(r[n].actors[t], w, g)
    ensures WatchedSince(r, j, n, t, w, g)
  {
    hide WellFormed, Perform, Enabled;
    j := 0;
    if n == 0 {
      InitIdle(r[0], t);
    } else {
      var a, act := StepAt(r, n - 1);
      WatchBack(r[n - 1], a, act, t, w, g);
      if Watches(r[n - 1].actors[t], w, g) {
        j := FindStart(r, n - 1, t, w, g);
      } else {
        j := n - 1;
      }
    }
  }

  lemma InitIdle(s: State, t: ActorId)
    requires Init(s) && t in s.actors
    ensures s.actors[t].Idle? || s.actors[t].WPop?
  {
    hide WellFormed;
  }

  lemma WatchBack(s: State, a: ActorId, act: Action, t: ActorId, w: WorkId, g: nat)
    requires WellFormed(s) && Enabled(s, a, act) && a in s.actors
    requires t in Perform(s, a, act).actors && Watches(Perform(s, a, act).actors[t], w, g)
    ensures t in s.actors
    ensures Watches(s.actors[t], w, g) || (s.actors[t] == TStart(w) && w in s.works && s.works[w].generation == g)
  {
    hide WellFormed, Perform, Enabled;
    PerformPlace(s, a, act);
    if t != a { OthersStay(s, a, act, t); }
  }

  lemma {:induction false} SmallGeneration(r: seq<State>, n: nat, w: WorkId)
    requires IsRun(r) && n < |r| && w in r[n].works
    ensures r[n].works[w].generation < WORD
  {
    hide WellFormed, Perform, Enabled, TokenInv, LedgerOf, TicketInv, CountInv, AccountInv, WakeInv;
    if n > 0 {
      var a, act := StepAt(r, n - 1);
      var own, place := RunInv(r, n - 1);
      SameItems(r[n - 1], a, act, own);
      SmallGeneration(r, n - 1, w);
      PerformClock(r[n - 1], a, act, w);
    }
  }

  lemma SameItems(s: State, a: ActorId, act: Action, own: map<WorkId, Owner>)
    requires WellFormed(s) && TokenInv(LedgerOf(s), own) && Enabled(s, a, act) && a in s.actors
    ensures Perform(s, a, act).works.Keys == s.works.Keys
  {
    hide Perform, TokenInv, WellFormed, Apply, Can, Enabled, Slots;
    TokenIsSafe(s, a, own);
    var m := PerformRefines(s, a, act);
    LedgerKept(LedgerOf(s), a, m);
    SlotKeys(s.works);
    SlotKeys(Perform(s, a, act).works);
  }

  /** While it watches, the generation is the one it read plus the bumps since, modulo 2^32. */
  lemma {:induction false} GenerationSince(r: seq<State>, j: nat, n: nat, t: ActorId, w: WorkId, g: nat)
    requires IsRun(r) && WatchedSince(r, j, n, t, w, g)
    ensures w in r[n].works && r[n].works[w].generation == (g + BumpsIn(r, j + 1, n, w)) % WORD
    decreases n
  {
    hide IsRun, Watches, Bumps;
    if n == j + 1 {
      SinceStart(r, j, t, w, g);
    } else {
      GenerationSince(r, j, n - 1, t, w, g);
      SinceStep(r, j, n, t, w, g);
    }
  }

  lemma SinceStart(r: seq<State>, j: nat, t: ActorId, w: WorkId, g: nat)
    requires IsRun(r) && WatchedSince(r, j, j + 1, t, w, g)
    ensures w in r[j + 1].works && r[j + 1].works[w].generation == g % WORD
  {
    hide IsRun, WellFormed, Perform, Enabled, Watches;
    var a, act := StepAt(r, j);
    StartKeeps(r[j], a, act, t, w, g);
    SmallGeneration(r, j, w);
  }

  lemma SinceStep(r: seq<State>, j: nat, n: nat, t: ActorId, w: WorkId, g: nat)
    requires IsRun(r) && j + 1 < n && WatchedSince(r, j, n, t, w, g)
    requires w in r[n - 1].works && r[n - 1].works[w].generation == (g + BumpsIn(r, j + 1, n - 1, w)) % WORD
    ensures w in r[n].works && r[n].works[w].generation == (g + BumpsIn(r, j + 1, n, w)) % WORD
  {
    hide IsRun, WellFormed, Perform, Enabled, Watches, Bumps, TokenInv, LedgerOf, TicketInv, CountInv, AccountInv, WakeInv;
    var a, act := StepAt(r, n - 1);
    var own, place := RunInv(r, n - 1);
    GenerationStep(r[n - 1], a, act, own, t, w, g);
  }

  lemma StartKeeps(s: State, a: ActorId, act: Action, t: ActorId, w: WorkId, g: nat)
    requires WellFormed(s) && Enabled(s, a, act) && a in s.actors && t in s.actors && s.actors[t] == TStart(w) && w in s.works
    requires t in Perform(s, a, act).actors && Watches(Perform(s, a, act).actors[t], w, g)
    ensures w in Perform(s, a, act).works && Perform(s, a, act).works[w].generation == s.works[w].generation
  {
    hide WellFormed, Perform, Enabled;
    if t != a { OthersStay(s, a, act, t); }
    PerformClock(s, a, act, w);
  }

  // ----- the decision

  lemma TimerDecides(s: State, t: ActorId, act: Action)
    requires WellFormed(s) && Enabled(s, t, act) && t in s.actors && (s.actors[t].TCheckActive? || s.actors[t].TCheckGen?)
    ensures var pc := s.actors[t];
            && pc.w in s.works && t in Perform(s, t, act).actors
            && Perform(s, t, act).actors[t] ==
                 if pc.TCheckActive? then (if s.works[pc.w].timerActive then TCheckGen(pc.w, pc.gen) else TDrop(pc.w))
                 else if s.works[pc.w].generation == pc.gen then TDisarm(pc.w) else TDrop(pc.w)
  {
    ItemKnown(s, t);
    hide WellFormed, WorkerStep, QueueStep, CancelStep;
  }

  /** Exactly when a timer drops its arm.  Its first test fails if and only if a canceller disarmed since the arm stored
      `timerActive`; its second if and only if the bumps of the item since the timer read the generation, by
      cancellers or by arms that found no thread, are not a multiple of 2^32. */
  lemma TimerDropsIff(r: seq<State>, n: nat, t: ActorId) returns (i: nat, j: nat)
    requires IsRun(r) && n + 1 < |r| && t in r[n].actors && (r[n].actors[t].TCheckActive? || r[n].actors[t].TCheckGen?)
    requires t in r[n + 1].actors && r[n + 1].actors[t] != r[n].actors[t]
    ensures var pc := r[n].actors[t];
            && ArmedSince(r, i, n, pc.w) && WatchedSince(r, j, n, t, pc.w, pc.gen)
            && (pc.TCheckActive? ==> (r[n + 1].actors[t] == TDrop(pc.w) <==> DisarmedIn(r, i, n, pc.w)))
            && (pc.TCheckGen? ==> (r[n + 1].actors[t] == TDrop(pc.w) <==> BumpsIn(r, j + 1, n, pc.w) % WORD != 0))
  {
    hide WellFormed, Perform, Enabled, Init, BumpsIn, ArmedSince, WatchedSince, DisarmedIn;
    var w, g := r[n].actors[t].w, r[n].actors[t].gen;
    assert SomeUnderWay(r[n], w);
    i := FindArm(r, n, w);
    j := FindStart(r, n, t, w, g);
    ActiveSince(r, i, n, w);
    GenerationSince(r, j, n, t, w, g);
    StartIsSmall(r, j, n, t, w, g);
    SameModulo(g, BumpsIn(r, j + 1, n, w));
    var a, act := StepAt(r, n);
    if a != t { OthersStay(r[n], a, act, t); }
    TimerDecides(r[n], t, act);
  }

  lemma StartIsSmall(r: seq<State>, j: nat, n: nat, t: ActorId, w: WorkId, g: nat)
    requires IsRun(r) && WatchedSince(r, j, n, t, w, g)
    ensures g < WORD
  {
    SmallGeneration(r, j, w);
  }

  lemma SameModulo(g: nat, k: nat)
    requires g < WORD
    ensures (g + k) % WORD == g <==> k % WORD == 0
  {
    var q, d := k / WORD, k % WORD;
    assert g + k == q * WORD + (g + d);
    if g + d < WORD { assert (g + k) % WORD == g + d; } else { assert g + k == (q + 1) * WORD + (g + d - WORD); }
  }

  // ----- without interference

  /** Nobody calls lcompat_cancel_delayed_work_sync for `w`, and no task_create of an arm of `w` fails. */
  ghost predicate Undisturbed(s: State, w: WorkId) {
    forall a <- s.actors :: s.actors[a] != XDisarm(w) && s.actors[a] != XBump(w) && s.actors[a] != DUndoActive(w)
  }

  /** Nobody drops `w`. */
  ghost predicate NoDrop(s: State, w: WorkId) {
    && Dropped(w) !in s.q.log
    && forall a <- s.actors :: !LogsDrop(s.actors[a], w) && s.actors[a] != DUndoBump(w)
  }

  lemma NothingIn(r: seq<State>, i: nat, n: nat, w: WorkId)
    requires n < |r| && forall k | 0 <= k <= n :: Undisturbed(r[k], w)
    requires forall k | 0 <= k < n :: NoDrop(r[k], w)
    ensures !DisarmedIn(r, i, n, w) && BumpsIn(r, i, n, w) == 0
    decreases n
  {
    if n > i {
      NothingIn(r, i, n - 1, w);
      assert Undisturbed(r[n - 1], w) && NoDrop(r[n - 1], w);
    }
  }

  lemma DropBack(s: State, a: ActorId, act: Action, b: ActorId, w: WorkId)
    requires WellFormed(s) && Enabled(s, a, act) && a in s.actors && Undisturbed(s, w) && NoDrop(s, w)
    requires b in Perform(s, a, act).actors
    requires LogsDrop(Perform(s, a, act).actors[b], w) || Perform(s, a, act).actors[b] == DUndoBump(w)
    ensures a == b && Perform(s, a, act).actors[b] == TDrop(w)
    ensures (s.actors[a].TCheckActive? || s.actors[a].TCheckGen?) && s.actors[a].w == w
  {
    hide WellFormed, Perform, Enabled;
    PerformPlace(s, a, act);
    if b != a { OthersStay(s, a, act, b); }
  }

  lemma {:induction false} UndisturbedNeverDrops(r: seq<State>, n: nat, w: WorkId)
    requires IsRun(r) && n < |r| && forall k | 0 <= k <= n :: Undisturbed(r[k], w)
    ensures NoDrop(r[n], w)
    decreases n
  {
    hide WellFormed, Perform, Enabled, Init, Undisturbed, BumpsIn, DisarmedIn, ArmedSince, WatchedSince;
    if n == 0 {
      InitNoDrop(r[0], w);
    } else {
      forall k | 0 <= k < n ensures NoDrop(r[k], w) { UndisturbedNeverDrops(r, k, w); }
      var a, act := StepAt(r, n - 1);
      PerformPlace(r[n - 1], a, act);
      forall b | b in r[n].actors && (LogsDrop(r[n].actors[b], w) || r[n].actors[b] == DUndoBump(w))
        ensures false
      {
        DropBack(r[n - 1], a, act, b, w);
        var i, j := TimerDropsIff(r, n - 1, b);
        NothingIn(r, i, n - 1, w);
        NothingIn(r, j + 1, n - 1, w);
      }
    }
  }

  lemma InitNoDrop(s: State, w: WorkId)
    requires Init(s)
    ensures NoDrop(s, w)
  {
    hide WellFormed;
  }

  /** Then every arm expires: nothing is ever dropped, and each arm either has released the item to the queue, or is the
      one still under way. */
  lemma UndisturbedExpires(r: seq<State>, n: nat, w: WorkId)
    requires IsRun(r) && n < |r| && w in r[n].works && forall k | 0 <= k <= n :: Undisturbed(r[k], w)
    ensures Dropped(w) !in r[n].q.log
    ensures Times(r[n].q.log, Armed(w)) == Times(r[n].q.log, Expired(w)) + |Timers(r[n], w)|
    ensures |Timers(r[n], w)| <= 1
  {
    UndisturbedNeverDrops(r, n, w);
    var own, place := RunInv(r, n);
    AccountsOf(r[n], w);
    OneTimer(r[n], own, w);
    hide IsRun, Inv, WellFormed, Timers, Undisturbed, TokenInv;
  }

  lemma OneTimer(s: State, own: map<WorkId, Owner>, w: WorkId)
    requires WellFormed(s) && TokenInv(LedgerOf(s), own)
    ensures |Timers(s, w)| <= 1
  {
    hide WellFormed, TokenInv, RoleOf, LedgerOf;
    var timers := Timers(s, w);
    if a :| a in timers {
      forall b | b in timers ensures b == a { OneHolder(s, own, a, b, w); }
      assert timers == {a};
    }
  }

  // ----- lcompat_cancel_delayed_work_sync against a timer that runs

  /** The timer has passed both tests: it will release the item to the queue. */
  predicate Committed(pc: Pc, w: WorkId) { pc == TDisarm(w) || pc == TRelease(w) }

  predicate TimerOf(pc: Pc, w: WorkId) { InTimer(pc) && pc.w == w }

  /** `t` is one timer of `w` from `i` to `n`. */
  ghost predicate TimerRuns(r: seq<State>, i: nat, n: nat, t: ActorId, w: WorkId) {
    i <= n < |r| && forall k | i <= k <= n :: t in r[k].actors && TimerOf(r[k].actors[t], w)
  }

  /** A canceller makes its two stores in the steps from `i` and from `j`. */
  ghost predicate CancelStores(r: seq<State>, i: nat, j: nat, w: WorkId) {
    i < j && j + 1 < |r| && Disarms(r[i], r[i + 1], w) && Bumps(r[j], r[j + 1], w)
  }

  lemma TimerPlaces(pc: Pc, w: WorkId)
    requires TimerOf(pc, w)
    ensures UnderWay(pc, w) || Committed(pc, w) || pc == TDrop(w)
    ensures UnderWay(pc, w) ==> !Committed(pc, w) && pc != TDrop(w)
    ensures Committed(pc, w) ==> pc != TDrop(w)
  {
  }

  /** One step of a timer that stays one: forward only, and not out of a decision. */
  ghost predicate Forward(s: State, pc: Pc, pc': Pc, w: WorkId) {
    && (Committed(pc, w) ==> Committed(pc', w))
    && (Committed(pc', w) && !Committed(pc, w) ==> pc.TCheckGen? && pc != pc')
    && (pc'.TCheckGen? && pc != pc' ==> pc == TCheckActive(w, pc'.gen) && w in s.works && s.works[w].timerActive)
    && (pc == TDrop(w) ==> pc' == TDrop(w))
  }

  lemma TimerForward(s: State, a: ActorId, act: Action, t: ActorId, w: WorkId)
    requires WellFormed(s) && Enabled(s, a, act) && a in s.actors && t in s.actors && TimerOf(s.actors[t], w)
    requires t in Perform(s, a, act).actors && TimerOf(Perform(s, a, act).actors[t], w)
    ensures Forward(s, s.actors[t], Perform(s, a, act).actors[t], w)
  {
    hide WellFormed, Perform, Enabled;
    if t != a { OthersStay(s, a, act, t); } else {
      PerformPlace(s, a, act);
      CommittedStep(s, a, act, w);
    }
  }

  lemma TimerMoves(r: seq<State>, i: nat, n: nat, t: ActorId, w: WorkId)
    requires IsRun(r) && i < n && TimerRuns(r, i, n, t, w)
    ensures n < |r| && t in r[n - 1].actors && t in r[n].actors && TimerOf(r[n - 1].actors[t], w) && TimerOf(r[n].actors[t], w)
    ensures Forward(r[n - 1], r[n - 1].actors[t], r[n].actors[t], w) && TimerRuns(r, i, n - 1, t, w)
  {
    hide WellFormed, Perform, Enabled, Init, Forward, TimerOf;
    var a, act := StepAt(r, n - 1);
    TimerForward(r[n - 1], a, act, t, w);
  }

  lemma CommittedStep(s: State, a: ActorId, act: Action, w: WorkId)
    requires WellFormed(s) && Enabled(s, a, act) && a in s.actors && TimerOf(s.actors[a], w)
    requires a in Perform(s, a, act).actors && TimerOf(Perform(s, a, act).actors[a], w)
    ensures Committed(s.actors[a], w) ==> Committed(Perform(s, a, act).actors[a], w)
    ensures s.actors[a] != TDrop(w)
  {
    ItemKnown(s, a);
    hide WellFormed, WorkerStep, QueueStep, CancelStep, ArmStep;
  }

  lemma ForwardFacts(s: State, pc: Pc, pc': Pc, w: WorkId)
    requires Forward(s, pc, pc', w)
    ensures Committed(pc, w) ==> Committed(pc', w)
    ensures Committed(pc', w) && !Committed(pc, w) ==> pc.TCheckGen? && pc != pc'
  {
  }

  lemma {:induction false} StaysCommitted(r: seq<State>, m: nat, n: nat, t: ActorId, w: WorkId)
    requires IsRun(r) && TimerRuns(r, m, n, t, w) && Committed(r[m].actors[t], w)
    ensures n < |r| && t in r[n].actors && Committed(r[n].actors[t], w)
    decreases n
  {
    hide *;
    RunsInside(r, m, n, t, w);
    if m < n {
      TimerMoves(r, m, n, t, w);
      StaysCommitted(r, m, n - 1, t, w);
      ForwardFacts(r[n - 1], r[n - 1].actors[t], r[n].actors[t], w);
    }
  }

  lemma {:induction false} StaysUndecided(r: seq<State>, m: nat, n: nat, t: ActorId, w: WorkId)
    requires IsRun(r) && TimerRuns(r, m, n, t, w) && UnderWay(r[n].actors[t], w)
    ensures t in r[m].actors && UnderWay(r[m].actors[t], w)
    decreases n
  {
    if m < n {
      hide IsRun, TimerRuns, Committed, TimerOf, UnderWay;
      TimerMoves(r, m, n, t, w);
      TimerPlaces(r[n - 1].actors[t], w);
      TimerPlaces(r[n].actors[t], w);
      StaysUndecided(r, m, n - 1, t, w);
    }
  }

  lemma UndecidedAt(r: seq<State>, i: nat, k: nat, n: nat, t: ActorId, w: WorkId)
    requires IsRun(r) && i <= k <= n && TimerRuns(r, i, n, t, w) && UnderWay(r[n].actors[t], w)
    ensures t in r[k].actors && UnderWay(r[k].actors[t], w) && SomeUnderWay(r[k], w)
  {
    hide IsRun, TimerOf, UnderWay;
    StaysUndecided(r, k, n, t, w);
  }

  /** The arm of a timer that is undecided at `n` was under way at `i` already, and a disarm at `i` is seen at `n`. */
  lemma DisarmSeen(r: seq<State>, i: nat, n: nat, t: ActorId, w: WorkId)
    requires IsRun(r) && i < n && TimerRuns(r, i, n, t, w) && UnderWay(r[n].actors[t], w) && Disarms(r[i], r[i + 1], w)
    ensures w in r[n].works && !r[n].works[w].timerActive
  {
    hide IsRun, TimerRuns, UnderWay, Disarms, Activates, SomeUnderWay;
    RunsInside(r, i, n, t, w);
    UndecidedAt(r, i, i, n, t, w);
    var a := FindArm(r, i, w);
    forall k | a < k <= n
      ensures SomeUnderWay(r[k], w)
    {
      if k > i { UndecidedAt(r, i, k, n, t, w); }
    }
    assert ArmedSince(r, a, n, w);
    ActiveSince(r, a, n, w);
    assert DisarmedIn(r, a, n, w);
  }

  lemma RunsInside(r: seq<State>, i: nat, n: nat, t: ActorId, w: WorkId)
    requires TimerRuns(r, i, n, t, w)
    ensures i <= n < |r| && t in r[n].actors && TimerOf(r[n].actors[t], w)
  {
  }

  lemma TestUndecided(pc: Pc, w: WorkId)
    requires TimerOf(pc, w) && (pc.TCheckGen? || pc.TCheckActive?)
    ensures UnderWay(pc, w)
  {
  }

  /** After the disarm no timer gets to its second test. */
  lemma {:induction false} NoNewTest(r: seq<State>, i: nat, n: nat, t: ActorId, w: WorkId)
    requires IsRun(r) && i + 1 < n && TimerRuns(r, i, n, t, w) && Disarms(r[i], r[i + 1], w) && r[n].actors[t].TCheckGen?
    ensures t in r[n - 1].actors && r[n - 1].actors[t] == r[n].actors[t]
  {
    hide IsRun, TimerRuns, Disarms, TimerOf;
    TimerMoves(r, i, n, t, w);
    if r[n - 1].actors[t] != r[n].actors[t] {
      TestUndecided(r[n - 1].actors[t], w);
      DisarmSeen(r, i, n - 1, t, w);
    }
  }

  /** The timer was at its second test before `j` already, and when it made the test the bumps since it had read the generation
      were a multiple of 2^32. */
  ghost predicate WrappedAt(r: seq<State>, j: nat, k: nat, d: nat, t: ActorId, w: WorkId, g: nat) {
    && k < j < d && d + 1 < |r| && WatchedSince(r, k, d, t, w, g) && r[d].actors[t] == TCheckGen(w, g)
    && t in r[d + 1].actors && r[d + 1].actors[t] != r[d].actors[t]
    && BumpsIn(r, k + 1, d, w) % WORD == 0
  }

  ghost predicate Wrapped(r: seq<State>, j: nat, n: nat, t: ActorId, w: WorkId) {
    exists k: nat, d: nat, g: nat :: d < n && WrappedAt(r, j, k, d, t, w, g)
  }

  /** A timer that has not passed both tests when the cancel has made its second store never will, but for a wrap. */
  lemma {:induction false} NotCommitted(r: seq<State>, i: nat, j: nat, n: nat, t: ActorId, w: WorkId)
    requires IsRun(r) && CancelStores(r, i, j, w) && j < n && TimerRuns(r, i, n, t, w)
    requires t in r[j + 1].actors && !Committed(r[j + 1].actors[t], w) && Committed(r[n].actors[t], w)
    ensures Wrapped(r, j, n, t, w)
    decreases n
  {
    hide *;
    CancelOrder(r, i, j, w);
    if n > j + 1 {
      TimerMoves(r, i, n, t, w);
      ForwardFacts(r[n - 1], r[n - 1].actors[t], r[n].actors[t], w);
      if Committed(r[n - 1].actors[t], w) {
        NotCommitted(r, i, j, n - 1, t, w);
        WrappedMore(r, j, n, t, w);
      } else {
        PassedTest(r, i, j, n - 1, t, w);
      }
    }
  }

  lemma WrappedMore(r: seq<State>, j: nat, n: nat, t: ActorId, w: WorkId)
    requires n > 0 && Wrapped(r, j, n - 1, t, w)
    ensures Wrapped(r, j, n, t, w)
  {
    hide WrappedAt;
  }

  /** The timer passes its second test at `d`, after the cancel's stores. */
  lemma PassedTest(r: seq<State>, i: nat, j: nat, d: nat, t: ActorId, w: WorkId)
    requires IsRun(r) && CancelStores(r, i, j, w) && j < d && d + 1 < |r| && TimerRuns(r, i, d, t, w)
    requires r[d].actors[t].TCheckGen? && t in r[d + 1].actors && Committed(r[d + 1].actors[t], w)
    ensures Wrapped(r, j, d + 1, t, w)
  {
    hide IsRun, TimerRuns, Disarms, Bumps, ArmedSince, DisarmedIn, BumpsIn;
    RunsInside(r, i, d, t, w);
    var a, k := TimerDropsIff(r, d, t);
    var g := r[d].actors[t].gen;
    StartedBefore(r, i, d, t, w, k, g);
    assert WrappedAt(r, j, k, d, t, w, g);
  }

  /** A timer at its second test read the generation before the disarm. */
  lemma {:induction false} StartedBefore(r: seq<State>, i: nat, d: nat, t: ActorId, w: WorkId, k: nat, g: nat)
    requires IsRun(r) && i < d && TimerRuns(r, i, d, t, w) && Disarms(r[i], r[i + 1], w)
    requires WatchedSince(r, k, d, t, w, g) && r[d].actors[t] == TCheckGen(w, g)
    ensures k < i
    decreases d
  {
    hide IsRun, TimerRuns, Disarms;
    if i + 1 < d {
      NoNewTest(r, i, d, t, w);
      TimerMoves(r, i, d, t, w);
      WatchShorter(r, k, d, t, w, g);
      StartedBefore(r, i, d - 1, t, w, k, g);
    } else {
      DisarmIsOther(r, i, t, w);
      WatchShorter(r, k, d, t, w, g);
    }
  }

  lemma WatchShorter(r: seq<State>, k: nat, d: nat, t: ActorId, w: WorkId, g: nat)
    requires WatchedSince(r, k, d, t, w, g) && d > 0 && t in r[d - 1].actors && r[d - 1].actors[t] == TCheckGen(w, g)
    ensures k < d - 1 && WatchedSince(r, k, d - 1, t, w, g)
  {
  }

  /** The step of a canceller moves no timer. */
  lemma DisarmIsOther(r: seq<State>, i: nat, t: ActorId, w: WorkId)
    requires IsRun(r) && i + 1 < |r| && Disarms(r[i], r[i + 1], w) && t in r[i + 1].actors && r[i + 1].actors[t].TCheckGen?
    ensures t in r[i].actors && r[i].actors[t] == r[i + 1].actors[t]
  {
    hide WellFormed, Perform, Enabled, Init;
    var a, act := StepAt(r, i);
    StepDisturbs(r[i], a, act, w);
    OwnDisturbs(r[i], a, act, w);
    if t != a { OthersStay(r[i], a, act, t); }
  }

  lemma {:induction false} WrapCommits(r: seq<State>, i: nat, j: nat, n: nat, t: ActorId, w: WorkId)
    requires IsRun(r) && i < j < n && TimerRuns(r, i, n, t, w) && Wrapped(r, j, n, t, w)
    ensures t in r[n].actors && Committed(r[n].actors[t], w)
  {
    hide IsRun, TimerRuns, BumpsIn, Committed, ArmedSince, DisarmedIn;
    var k: nat, d: nat, g: nat :| d < n && WrappedAt(r, j, k, d, t, w, g);
    var a, k' := TimerDropsIff(r, d, t);
    SameWatch(r, k, k', d, t, w, g);
    DecidedPlace(r, i, d, n, t, w);
    StaysCommitted(r, d + 1, n, t, w);
  }

  lemma SameWatch(r: seq<State>, k: nat, k': nat, d: nat, t: ActorId, w: WorkId, g: nat)
    requires WatchedSince(r, k, d, t, w, g) && WatchedSince(r, k', d, t, w, g)
    ensures k == k'
  {
  }

  lemma DecidedPlace(r: seq<State>, i: nat, d: nat, n: nat, t: ActorId, w: WorkId)
    requires IsRun(r) && i <= d < n && TimerRuns(r, i, n, t, w) && r[d].actors[t].TCheckGen? && t in r[d + 1].actors
    requires r[d + 1].actors[t] != r[d].actors[t] && r[d + 1].actors[t] != TDrop(w)
    ensures TimerRuns(r, d + 1, n, t, w) && Committed(r[d + 1].actors[t], w)
  {
    hide WellFormed, Perform, Enabled, Init;
    var a, act := StepAt(r, d);
    if a != t { OthersStay(r[d], a, act, t); }
    TimerDecides(r[d], t, act);
  }

  /** Exactly when lcompat_cancel_delayed_work_sync misses a timer that runs: the timer, still the same one at `n`, has passed both
      tests and will release the item if and only if it had passed them when the cancel made its second store, or the
      bumps since it read the generation came round to a multiple of 2^32. */
  lemma CancelMissesIff(r: seq<State>, i: nat, j: nat, n: nat, t: ActorId, w: WorkId)
    requires IsRun(r) && CancelStores(r, i, j, w) && j < n && TimerRuns(r, i, n, t, w)
    ensures j + 1 < |r| && n < |r| && t in r[j + 1].actors && t in r[n].actors
    ensures Committed(r[n].actors[t], w) <==> Committed(r[j + 1].actors[t], w) || Wrapped(r, j, n, t, w)
  {
    hide *;
    CancelOrder(r, i, j, w);
    RunsAt(r, i, j + 1, n, t, w);
    if Committed(r[j + 1].actors[t], w) { StaysCommitted(r, j + 1, n, t, w); }
    else if Committed(r[n].actors[t], w) { NotCommitted(r, i, j, n, t, w); }
    else if Wrapped(r, j, n, t, w) { WrapCommits(r, i, j, n, t, w); }
  }

  lemma RunsAt(r: seq<State>, i: nat, m: nat, n: nat, t: ActorId, w: WorkId)
    requires TimerRuns(r, i, n, t, w) && i <= m <= n
    ensures m <= n < |r| && TimerRuns(r, m, n, t, w) && t in r[m].actors && t in r[n].actors
  {
  }

  lemma CancelOrder(r: seq<State>, i: nat, j: nat, w: WorkId)
    requires CancelStores(r, i, j, w)
    ensures i < j && j + 1 < |r|
  {
    hide Disarms, Bumps;
  }

  /** Such a timer does release it: its compare-and-swap finds QUEUED, and it goes on to lcompat_queue_work. */
  lemma CommittedReleases(r: seq<State>, n: nat, t: ActorId, w: WorkId)
    requires IsRun(r) && n < |r| && t in r[n].actors && r[n].actors[t] == TRelease(w)
    ensures WellFormed(r[n]) && Enabled(r[n], t, Go)
    ensures var s' := Perform(r[n], t, Go); s'.actors[t] == QLoad(w) && s'.q.log == r[n].q.log + [Expired(w)]
  {
    hide *;
    RunWellFormed(r, n);
    HoldersFindQueued(r, n, t);
    ReleaseStep(r[n], t, w);
  }

  lemma RunWellFormed(r: seq<State>, n: nat)
    requires IsRun(r) && n < |r|
    ensures WellFormed(r[n])
  {
    hide IsRun, WellFormed;
    var own, place := RunInv(r, n);
  }

  lemma ReleaseStep(s: State, t: ActorId, w: WorkId)
    requires WellFormed(s) && t in s.actors && s.actors[t] == TRelease(w) && w in s.works && s.works[w].state == QUEUED
    ensures Enabled(s, t, Go)
    ensures var s' := Perform(s, t, Go); s'.actors[t] == QLoad(w) && s'.q.log == s.q.log + [Expired(w)]
  {
    hide WellFormed, WorkerStep, QueueStep, CancelStep, ArmStep;
  }

  // ----- a run that drops an undisturbed caller's arm

  /** Nobody is inside a cancel call. */
  ghost predicate Uncancelled(r: seq<State>) {
    forall k | 0 <= k < |r| :: NobodyCancels(r[k])
  }

  predicate NobodyCancels(s: State) { forall a <- s.actors :: !InCancel(s.actors[a]) }

  /** One more step of a run. */
  lemma Play(r: seq<State>, a: ActorId, act: Action) returns (r': seq<State>)
    requires IsRun(r) && Enabled(r[|r| - 1], a, act)
    ensures WellFormed(r[|r| - 1]) && IsRun(r')
    ensures r' == r + [Perform(r[|r| - 1], a, act)]
    ensures Uncancelled(r) && NobodyCancels(Perform(r[|r| - 1], a, act)) ==> Uncancelled(r')
  {
    hide WellFormed, Perform, Enabled, Init, NobodyCancels;
    var own, place := RunInv(r, |r| - 1);
    r' := r + [Perform(r[|r| - 1], a, act)];
    assert Next(r[|r| - 1], r'[|r|]);
    forall i | 0 <= i < |r'| - 1
      ensures Next(r'[i], r'[i + 1])
    {
      if i < |r| - 1 { assert Next(r[i], r[i + 1]); }
    }
  }

  /** One delayed item 0, the worker 0 that has not moved, two callers, and one more task. */
  function Scene(st: WorkState, named: bool, gen: nat, active: bool, one: Pc, two: Pc, three: Pc, log: seq<Event>): State {
    State(map[0 := Work(st, named, true, gen, active)], map[0 := WPop, 1 := one, 2 := two, 3 := three],
          Queue([], 0, false, 0, {}, 0, map[], {}, log))
  }

  function Opening(): State { Scene(CLEAR, false, 0, false, Idle, Idle, Idle, []) }

  lemma OpeningKnown()
    ensures WellFormed(Opening())
  {
    var s := Opening();
    forall a <- s.actors ensures PcKnown(s.actors[a], s.works) {
      assert s.actors[a] == Idle || s.actors[a] == WPop;
    }
  }

  lemma OpeningScene()
    ensures IsRun([Opening()]) && Uncancelled([Opening()])
  {
    OpeningKnown();
    hide WellFormed;
    assert Workers(Opening()) == {0};
  }

  /** Actor 1 arms item 0. */
  lemma FirstArms() returns (r: seq<State>)
    ensures IsRun(r) && Uncancelled(r) && |r| == 3
    ensures r[2] == Scene(QUEUED, false, 0, false, DSetQueue(0), Idle, Idle, [Armed(0)])
  {
    hide WorkerStep, QueueStep, CancelStep, TimerStep, Init, IsRun, Uncancelled, WellFormed, PcKnown;
    OpeningScene();
    r := [Opening()];
    r := Play(r, 1, CallQueueDelayed(0));
    r := Play(r, 1, Go);
  }

  lemma FirstActivates() returns (r: seq<State>)
    ensures IsRun(r) && Uncancelled(r) && |r| == 5
    ensures r[4] == Scene(QUEUED, true, 0, true, DBump(0), Idle, Idle, [Armed(0)])
  {
    hide WorkerStep, QueueStep, CancelStep, TimerStep, Init, IsRun, Uncancelled, WellFormed, PcKnown;
    r := FirstArms();
    r := Play(r, 1, Go);
    r := Play(r, 1, Go);
  }

  /** No thread is created for it. */
  lemma FirstFails() returns (r: seq<State>)
    ensures IsRun(r) && Uncancelled(r) && |r| == 7
    ensures r[6] == Scene(QUEUED, true, 1, true, DUndoActive(0), Idle, Idle, [Armed(0)])
  {
    hide WorkerStep, QueueStep, CancelStep, TimerStep, Init, IsRun, Uncancelled, WellFormed, PcKnown;
    r := FirstActivates();
    r := Play(r, 1, Go);
    r := Play(r, 1, SpawnFails);
  }

  /** It gives QUEUED back and stops before its second bump. */
  lemma FirstUndoes() returns (r: seq<State>)
    ensures IsRun(r) && Uncancelled(r) && |r| == 9
    ensures r[8] == Scene(CLEAR, true, 1, false, DUndoBump(0), Idle, Idle, [Armed(0), Dropped(0)])
  {
    hide WorkerStep, QueueStep, CancelStep, TimerStep, Init, IsRun, Uncancelled, WellFormed, PcKnown;
    r := FirstFails();
    r := Play(r, 1, Go);
    r := Play(r, 1, Go);
  }

  /** Actor 2 arms the item again. */
  lemma SecondArms() returns (r: seq<State>)
    ensures IsRun(r) && Uncancelled(r) && |r| == 11
    ensures r[10] == Scene(QUEUED, true, 1, false, DUndoBump(0), DSetQueue(0), Idle, [Armed(0), Dropped(0), Armed(0)])
  {
    hide WorkerStep, QueueStep, CancelStep, TimerStep, Init, IsRun, Uncancelled, WellFormed, PcKnown;
    r := FirstUndoes();
    r := Play(r, 2, CallQueueDelayed(0));
    r := Play(r, 2, Go);
  }

  lemma SecondActivates() returns (r: seq<State>)
    ensures IsRun(r) && Uncancelled(r) && |r| == 13
    ensures r[12] == Scene(QUEUED, true, 1, true, DUndoBump(0), DBump(0), Idle, [Armed(0), Dropped(0), Armed(0)])
  {
    hide WorkerStep, QueueStep, CancelStep, TimerStep, Init, IsRun, Uncancelled, WellFormed, PcKnown;
    r := SecondArms();
    r := Play(r, 2, Go);
    r := Play(r, 2, Go);
  }

  /** Its thread is created: actor 3 is the timer. */
  lemma SecondSpawns() returns (r: seq<State>)
    ensures IsRun(r) && Uncancelled(r) && |r| == 15
    ensures r[14] == Scene(QUEUED, true, 2, true, DUndoBump(0), Idle, TStart(0), [Armed(0), Dropped(0), Armed(0)])
  {
    hide WorkerStep, QueueStep, CancelStep, TimerStep, Init, IsRun, Uncancelled, WellFormed, PcKnown;
    r := SecondActivates();
    r := Play(r, 2, Go);
    r := Play(r, 2, Spawn(3));
  }

  /** The timer reads the generation, and actor 1 changes it. */
  lemma FirstBumps() returns (r: seq<State>)
    ensures IsRun(r) && Uncancelled(r) && |r| == 17
    ensures r[16] == Scene(QUEUED, true, 3, true, Idle, Idle, TWait(0, 2), [Armed(0), Dropped(0), Armed(0)])
    ensures r[14] == Scene(QUEUED, true, 2, true, DUndoBump(0), Idle, TStart(0), [Armed(0), Dropped(0), Armed(0)])
  {
    hide WorkerStep, QueueStep, CancelStep, Init, IsRun, Uncancelled, WellFormed, PcKnown;
    r := SecondSpawns();
    r := Play(r, 3, Go);
    r := Play(r, 1, Go);
  }

  lemma TimerLooks() returns (r: seq<State>)
    ensures IsRun(r) && Uncancelled(r) && |r| == 19
    ensures r[18] == Scene(QUEUED, true, 3, true, Idle, Idle, TCheckGen(0, 2), [Armed(0), Dropped(0), Armed(0)])
    ensures r[14] == Scene(QUEUED, true, 2, true, DUndoBump(0), Idle, TStart(0), [Armed(0), Dropped(0), Armed(0)])
  {
    hide WorkerStep, QueueStep, CancelStep, Init, IsRun, Uncancelled, WellFormed, PcKnown;
    r := FirstBumps();
    r := Play(r, 3, TimeUp);
    r := Play(r, 3, Go);
  }

  lemma TimerGivesUp() returns (r: seq<State>)
    ensures IsRun(r) && Uncancelled(r) && |r| == 21
    ensures r[20] == Scene(CLEAR, true, 3, true, Idle, Idle, Idle, [Armed(0), Dropped(0), Armed(0), Dropped(0)])
    ensures r[14] == Scene(QUEUED, true, 2, true, DUndoBump(0), Idle, TStart(0), [Armed(0), Dropped(0), Armed(0)])
  {
    hide WorkerStep, QueueStep, CancelStep, Init, IsRun, Uncancelled, WellFormed, PcKnown;
    r := TimerLooks();
    r := Play(r, 3, Go);
    r := Play(r, 3, Go);
  }

  /** The arm whose timer starts at `n` is dropped, although nobody cancels, its own task_create succeeded, and the item is
      not queued by anybody. */
  ghost predicate DropsArm(r: seq<State>, n: nat, t: ActorId, w: WorkId) {
    && IsRun(r) && Uncancelled(r) && n < |r| && t in r[n].actors && r[n].actors[t] == TStart(w)
    && var before, after := r[n].q.log, r[|r| - 1].q.log;
       && after == before + [Dropped(w)] && Expired(w) !in after && Accepted(w) !in after
  }

  /** So the second bump of an arm that found no thread (workqueue.c:313) can drop the arm of another caller. */
  lemma ArmLost()
    ensures exists r: seq<State>, n: nat, t: ActorId, w: WorkId :: DropsArm(r, n, t, w)
  {
    hide IsRun, Uncancelled;
    var r := TimerGivesUp();
    assert DropsArm(r, 14, 3, 0);
  }

  /** The arm of actor 1 gets its thread, actor 3. */
  lemma ThirdStarts() returns (r: seq<State>)
    ensures IsRun(r) && |r| == 7
    ensures r[6] == Scene(QUEUED, true, 1, true, Idle, Idle, TStart(0), [Armed(0)])
  {
    hide WorkerStep, QueueStep, CancelStep, TimerStep, Init, IsRun, Uncancelled, WellFormed, PcKnown;
    r := FirstActivates();
    r := Play(r, 1, Go);
    r := Play(r, 1, Spawn(3));
  }

  lemma TimeIsUp() returns (r: seq<State>)
    ensures IsRun(r) && |r| == 9
    ensures r[8] == Scene(QUEUED, true, 1, true, Idle, Idle, TCheckActive(0, 1), [Armed(0)])
  {
    hide WorkerStep, QueueStep, CancelStep, ArmStep, Init, IsRun, Uncancelled, WellFormed, PcKnown;
    r := ThirdStarts();
    r := Play(r, 3, Go);
    r := Play(r, 3, TimeUp);
  }

  /** The timer passes both tests. */
  lemma TestsPassed() returns (r: seq<State>)
    ensures IsRun(r) && |r| == 11
    ensures r[10] == Scene(QUEUED, true, 1, true, Idle, Idle, TDisarm(0), [Armed(0)])
  {
    hide WorkerStep, QueueStep, CancelStep, ArmStep, Init, IsRun, Uncancelled, WellFormed, PcKnown;
    r := TimeIsUp();
    r := Play(r, 3, Go);
    r := Play(r, 3, Go);
  }

  /** Actor 2 cancels. */
  lemma CancelDisarms() returns (r: seq<State>)
    ensures IsRun(r) && |r| == 13
    ensures r[12] == Scene(QUEUED, true, 1, false, Idle, XBump(0), TDisarm(0), [Armed(0)])
  {
    hide WorkerStep, QueueStep, TimerStep, ArmStep, Init, IsRun, Uncancelled, WellFormed, PcKnown;
    r := TestsPassed();
    r := Play(r, 2, CallCancelDelayed(0));
    r := Play(r, 2, Go);
  }

  lemma CancelLooks() returns (r: seq<State>)
    ensures IsRun(r) && |r| == 15
    ensures r[14] == Scene(QUEUED, true, 2, false, Idle, CRemove(0), TDisarm(0), [Armed(0)])
  {
    hide WorkerStep, QueueStep, TimerStep, ArmStep, Init, IsRun, Uncancelled, WellFormed, PcKnown;
    r := CancelDisarms();
    r := Play(r, 2, Go);
    r := Play(r, 2, Go);
  }

  /** It finds nothing in the list and returns. */
  lemma CancelReturns() returns (r: seq<State>)
    ensures IsRun(r) && |r| == 17
    ensures r[16] == Scene(QUEUED, true, 2, false, Idle, Idle, TDisarm(0), [Armed(0), CancelReturned(0, false)])
  {
    hide WorkerStep, QueueStep, TimerStep, ArmStep, Init, IsRun, Uncancelled, WellFormed, PcKnown;
    r := CancelLooks();
    r := Play(r, 2, Go);
    r := Play(r, 2, Go);
  }

  /** The timer goes on. */
  lemma TimerReleases() returns (r: seq<State>)
    ensures IsRun(r) && |r| == 19
    ensures r[18] == Scene(CLEAR, true, 2, false, Idle, Idle, QLoad(0), [Armed(0), CancelReturned(0, false), Expired(0)])
    ensures r[16] == Scene(QUEUED, true, 2, false, Idle, Idle, TDisarm(0), [Armed(0), CancelReturned(0, false)])
  {
    hide WorkerStep, QueueStep, CancelStep, ArmStep, Init, IsRun, Uncancelled, WellFormed, PcKnown;
    r := CancelReturns();
    r := Play(r, 3, Go);
    r := Play(r, 3, Go);
  }

  lemma TimerQueues() returns (r: seq<State>)
    ensures IsRun(r) && |r| == 21
    ensures r[20] == Scene(QUEUED, true, 2, false, Idle, Idle, QLink(0), [Armed(0), CancelReturned(0, false), Expired(0), Accepted(0)])
    ensures r[16] == Scene(QUEUED, true, 2, false, Idle, Idle, TDisarm(0), [Armed(0), CancelReturned(0, false)])
  {
    hide WorkerStep, CancelStep, TimerStep, ArmStep, Init, IsRun, Uncancelled, WellFormed, PcKnown;
    r := TimerReleases();
    r := Play(r, 3, Go);
    r := Play(r, 3, Go);
  }

  /** At `n` a cancel of `w` has just returned, with no other call made than the one arm before it; nobody calls anything after it,
      and yet at the end `w` is in the list. */
  ghost predicate QueuedAfterCancel(r: seq<State>, n: nat, w: WorkId) {
    && IsRun(r) && n < |r| && r[n].q.log == [Armed(w), CancelReturned(w, false)] && !IsListed(r[n], w)
    && r[|r| - 1].q.log == [Armed(w), CancelReturned(w, false), Expired(w), Accepted(w)] && IsListed(r[|r| - 1], w)
  }

  /** So the item can be queued after lcompat_cancel_delayed_work_sync has returned. */
  lemma CancelMisses()
    ensures exists r: seq<State>, n: nat, w: WorkId :: QueuedAfterCancel(r, n, w)
  {
    hide WorkerStep, CancelStep, TimerStep, ArmStep, Init, IsRun, Uncancelled, WellFormed, PcKnown;
    var r := TimerQueues();
    r := Play(r, 3, Go);
    var last := r[|r| - 1];
    assert last.q.list == [Link(0, 0)];
    assert last.q.list[0].work == 0;
    assert QueuedAfterCancel(r, 16, 0);
  }
}
