/** Tasklets as a step system (include/linux/interrupt.h): the SCHED and RUN bits and the disable count, changed atomically
    by any number of schedulers, workers, disablers and killers in any interleaving. */
module Tasklet {
  import opened Basics

  type ActorId = nat

  datatype Pc =
    | Idle
    // lcompat_tasklet_worker
    | WCount | WParked | WTake | WClear | WQuit | WInvoke | WUnlock | WAgain
    // tasklet_schedule
    | SSet | SSpawn | SUndo
    // tasklet_disable and tasklet_kill
    | DSpin | KClear | KSpin | KDec
    // a successful tasklet_trylock
    | Holding

  /** `run.Some?` is TASKLET_STATE_RUN and `sched.Some?` is TASKLET_STATE_SCHED; each names the actor that set it.  The
      counters are history: schedules that set SCHED, calls of the callback decided, SCHED bits cleared by tasklet_kill,
      by the schedule that set them after its own task_create failed, and by a failed schedule that had not set them;
      and failures of task_create.  No step depends on the names or on the counters. */
  datatype State = State(sched: Option<ActorId>, run: Option<ActorId>, count: int, actors: map<ActorId, Pc>,
                         accepted: nat, invoked: nat, killed: nat, undone: nat, stolen: nat, failures: nat)

  datatype Action =
    | Schedule | Disable | DisableNosync | Enable | Kill | TryLock     // calls of an idle actor
    | Unlock                                                           // tasklet_unlock
    | Spawn(worker: ActorId) | SpawnFails                              // task_create
    | Go

  predicate IsCall(act: Action) {
    act.Schedule? || act.Disable? || act.DisableNosync? || act.Enable? || act.Kill? || act.TryLock?
  }

  predicate Enabled(s: State, a: ActorId, act: Action) {
    && a in s.actors
    && var pc := s.actors[a];
       if pc.Idle? then IsCall(act)
       else if pc.Holding? then act.Unlock?
       else if pc.SSpawn? then act.SpawnFails? || (act.Spawn? && act.worker in s.actors && act.worker != a && s.actors[act.worker].Idle?)
       else act.Go?
  }

  function Goto(s: State, a: ActorId, pc: Pc): State {
    s.(actors := s.actors[a := pc])
  }

  function Call(s: State, a: ActorId, act: Action): State {
    match act
    case Schedule => Goto(s, a, SSet)
    case Disable => Goto(s.(count := s.count + 1), a, DSpin)
    case DisableNosync => s.(count := s.count + 1)
    case Enable => s.(count := s.count - 1)
    case Kill => Goto(s.(count := s.count + 1), a, KClear)
    case TryLock => if s.run.Some? then s else Goto(s.(run := Some(a)), a, Holding)
    case _ => s
  }

  function Step(s: State, a: ActorId, act: Action): State
    requires Enabled(s, a, act)
  {
    match s.actors[a]
    case Idle => Call(s, a, act)
    case Holding => Goto(s.(run := None), a, Idle)
    // the worker (interrupt.h:43-72)
    case WCount => Goto(s, a, if s.count > 0 then WParked else WTake)
    case WParked => Goto(s, a, if s.sched.Some? then WCount else Idle)
    case WTake => if s.run.Some? then Goto(s, a, WCount) else Goto(s.(run := Some(a)), a, WClear)
    case WClear =>
      if s.sched.Some? then Goto(s.(sched := None, invoked := s.invoked + 1), a, WInvoke) else Goto(s, a, WQuit)
    case WQuit => Goto(s.(run := None), a, Idle)
    case WInvoke => Goto(s, a, WUnlock)
    case WUnlock => Goto(s.(run := None), a, WAgain)
    case WAgain => Goto(s, a, if s.sched.Some? then WCount else Idle)
    // tasklet_schedule (interrupt.h:116-129)
    case SSet =>
      if s.sched.Some? then Goto(s, a, Idle) else Goto(s.(sched := Some(a), accepted := s.accepted + 1), a, SSpawn)
    case SSpawn =>
      if act.Spawn? then Goto(Goto(s, a, Idle), act.worker, WCount) else Goto(s.(failures := s.failures + 1), a, SUndo)
    case SUndo =>
      Goto(s.(sched := None, undone := s.undone + if s.sched == Some(a) then 1 else 0,
              stolen := s.stolen + if s.sched.Some? && s.sched != Some(a) then 1 else 0), a, Idle)
    // tasklet_disable, tasklet_kill (interrupt.h:131-156)
    case DSpin => if s.run.Some? then s else Goto(s, a, Idle)
    case KClear => Goto(s.(sched := None, killed := s.killed + if s.sched.Some? then 1 else 0), a, KSpin)
    case KSpin => if s.run.Some? then s else Goto(s, a, KDec)
    case KDec => Goto(s.(count := s.count - 1), a, Idle)
  }

  predicate Init(s: State) {
    s == State(None, None, 0, s.actors, 0, 0, 0, 0, 0, 0) && forall a <- s.actors :: s.actors[a] == Idle
  }

  ghost predicate Next(s: State, s': State) {
    exists a, act :: Enabled(s, a, act) && s' == Step(s, a, act)
  }

  ghost predicate IsPath(r: seq<State>) {
    0 < |r| && forall i | 0 <= i < |r| - 1 :: Next(r[i], r[i + 1])
  }

  ghost predicate IsRun(r: seq<State>) { IsPath(r) && Init(r[0]) }

  // ----- the invariant

  predicate HoldsRun(pc: Pc) { pc.WClear? || pc.WQuit? || pc.WInvoke? || pc.WUnlock? || pc.Holding? }

  /** An actor that will still look at SCHED, or undo it. */
  predicate Serves(pc: Pc) {
    pc.SSpawn? || pc.SUndo? || pc.WCount? || pc.WParked? || pc.WTake? || pc.WClear? || pc.WInvoke? || pc.WUnlock? || pc.WAgain?
  }

  /** RUN is a lock. */
  ghost predicate RunInv(s: State) {
    && (forall a <- s.actors :: HoldsRun(s.actors[a]) <==> s.run == Some(a))
    && (s.run.Some? ==> s.run.value in s.actors)
  }

  /** SCHED is set only while somebody still serves it. */
  ghost predicate ServedInv(s: State) { s.sched.Some? ==> exists a <- s.actors :: Serves(s.actors[a]) }

  /** Every accepted schedule is one call of the callback, or lost its SCHED bit in one of three ways, or is outstanding. */
  predicate BooksInv(s: State) {
    s.accepted == s.invoked + s.killed + s.undone + s.stolen + if s.sched.Some? then 1 else 0
  }

  /** A SCHED bit is only taken back, and only by somebody, after a failed task_create. */
  predicate FailInv(s: State) {
    s.failures == 0 ==> s.undone == 0 && s.stolen == 0 && forall a <- s.actors :: !s.actors[a].SUndo?
  }

  lemma StepRun(s: State, a: ActorId, act: Action)
    requires RunInv(s) && Enabled(s, a, act)
    ensures RunInv(Step(s, a, act))
  {
  }

  lemma StepServed(s: State, a: ActorId, act: Action)
    requires ServedInv(s) && Enabled(s, a, act)
    ensures ServedInv(Step(s, a, act))
  {
    var s' := Step(s, a, act);
    if s'.sched.Some? {
      assert a in s'.actors;
      if act.Spawn? && !s.actors[a].Idle? { assert Serves(s'.actors[act.worker]); }
      else if Serves(s.actors[a]) { assert Serves(s'.actors[a]); }
      else if s.sched.Some? {
        var b :| b in s.actors && Serves(s.actors[b]);
        assert Serves(s'.actors[b]);
      } else {
        assert Serves(s'.actors[a]);
      }
    }
  }

  lemma StepBooks(s: State, a: ActorId, act: Action)
    requires BooksInv(s) && FailInv(s) && Enabled(s, a, act)
    ensures BooksInv(Step(s, a, act)) && FailInv(Step(s, a, act))
  {
  }

  lemma {:induction false} RunKeeps(r: seq<State>, i: nat)
    requires IsRun(r) && i < |r|
    ensures RunInv(r[i]) && ServedInv(r[i]) && BooksInv(r[i]) && FailInv(r[i])
  {
    hide RunInv, ServedInv, BooksInv, FailInv, Step, Enabled;
    if i == 0 {
      InitOk(r[0]);
    } else {
      RunKeeps(r, i - 1);
      assert Next(r[i - 1], r[i]);
      var a, act :| Enabled(r[i - 1], a, act) && r[i] == Step(r[i - 1], a, act);
      StepRun(r[i - 1], a, act);
      StepServed(r[i - 1], a, act);
      StepBooks(r[i - 1], a, act);
    }
  }

  lemma InitOk(s: State)
    requires Init(s)
    ensures RunInv(s) && ServedInv(s) && BooksInv(s) && FailInv(s)
  {
  }

  // ----- what every run guarantees

  /** The callback never runs twice at once, nor beside a tasklet_trylock owner. */
  lemma CallbackExclusive(r: seq<State>, i: nat, a: ActorId, b: ActorId)
    requires IsRun(r) && i < |r| && a in r[i].actors && b in r[i].actors
    requires r[i].actors[a].WInvoke? && (r[i].actors[b].WInvoke? || r[i].actors[b].Holding?)
    ensures a == b
  {
    hide IsRun, ServedInv, BooksInv, FailInv;
    RunKeeps(r, i);
  }

  /** If no task_create failed, no schedule is forgotten: when nobody serves any more, each one that set SCHED was
      one call of the callback, or was killed.  Otherwise the failed ones can be missing, and those they took away. */
  lemma NoScheduleForgotten(r: seq<State>, i: nat)
    requires IsRun(r) && i < |r| && forall a <- r[i].actors :: !Serves(r[i].actors[a])
    ensures r[i].sched.None? && r[i].accepted == r[i].invoked + r[i].killed + r[i].undone + r[i].stolen
    ensures r[i].failures == 0 ==> r[i].accepted == r[i].invoked + r[i].killed
  {
    hide IsRun, RunInv;
    RunKeeps(r, i);
  }

  // ----- a failed tasklet_schedule

  predicate InSchedule(pc: Pc) { pc.SSpawn? || pc.SUndo? }

  /** `a` sets SCHED in the step from `i` and is still in the same call at `j`. */
  ghost predicate InCall(r: seq<State>, i: nat, j: nat, a: ActorId) {
    && i < j < |r| && a in r[i].actors && r[i].actors[a].SSet? && r[i].sched.None? && r[i + 1] == Step(r[i], a, Go)
    && (forall k | i < k <= j :: a in r[k].actors && InSchedule(r[k].actors[a]))
  }

  ghost predicate ClearIn(r: seq<State>, i: nat, j: nat) {
    exists k | i < k <= j && k < |r| :: r[k].sched.None?
  }

  /** A set bit keeps its name until it is cleared; while `a` is inside its call nobody sets the bit under that name. */
  lemma NameStep(s: State, b: ActorId, act: Action, a: ActorId)
    requires Enabled(s, b, act) && a in s.actors && InSchedule(s.actors[a]) && InSchedule(Step(s, b, act).actors[a])
    ensures Step(s, b, act).sched.Some? && s.sched.Some? ==> Step(s, b, act).sched == s.sched
    ensures Step(s, b, act).sched.Some? && s.sched.None? ==> Step(s, b, act).sched != Some(a)
  {
  }

  lemma NameStarts(r: seq<State>, i: nat, a: ActorId)
    requires InCall(r, i, i + 1, a)
    ensures r[i + 1].sched == Some(a) && !ClearIn(r, i, i + 1)
  {
  }

  lemma CallShorter(r: seq<State>, i: nat, j: nat, a: ActorId)
    requires InCall(r, i, j, a) && i < j - 1
    ensures InCall(r, i, j - 1, a) && a in r[j - 1].actors && InSchedule(r[j - 1].actors[a]) && a in r[j].actors && InSchedule(r[j].actors[a])
    ensures ClearIn(r, i, j) <==> ClearIn(r, i, j - 1) || r[j].sched.None?
  {
    hide Step, InSchedule;
  }

  lemma {:induction false} NameSince(r: seq<State>, i: nat, j: nat, a: ActorId)
    requires IsRun(r) && i < j < |r| && InCall(r, i, j, a)
    ensures r[j].sched == Some(a) <==> !ClearIn(r, i, j)
    decreases j
  {
    hide Step, Enabled, Init, InSchedule, ClearIn, InCall;
    if j == i + 1 {
      NameStarts(r, i, a);
    } else {
      CallShorter(r, i, j, a);
      NameSince(r, i, j - 1, a);
      assert Next(r[j - 1], r[j - 1 + 1]);
      var b, act :| Enabled(r[j - 1], b, act) && r[j] == Step(r[j - 1], b, act);
      NameStep(r[j - 1], b, act, a);
    }
  }

  /** The last store of a failed tasklet_schedule takes away a schedule that another call made if and only if, since it set
      SCHED itself, the bit was cleared and is set again. */
  lemma UndoTakesOther(r: seq<State>, i: nat, j: nat, a: ActorId)
    requires IsRun(r) && InCall(r, i, j, a) && r[j].actors[a].SUndo?
    ensures Step(r[j], a, Go).stolen > r[j].stolen <==> ClearIn(r, i, j) && r[j].sched.Some?
    ensures Step(r[j], a, Go).sched.None?
  {
    NameSince(r, i, j, a);
    hide IsRun, ClearIn;
  }

  /** No other step takes a schedule away. */
  lemma OnlyUndoTakes(s: State, a: ActorId, act: Action)
    requires Enabled(s, a, act)
    ensures Step(s, a, act).stolen > s.stolen ==> s.actors[a].SUndo? && s.sched.Some? && s.sched != Some(a)
    ensures s.stolen <= Step(s, a, act).stolen
  {
  }

  /** One more step of a run. */
  lemma Play(r: seq<State>, a: ActorId, act: Action) returns (r': seq<State>)
    requires IsRun(r) && Enabled(r[|r| - 1], a, act)
    ensures r' == r + [Step(r[|r| - 1], a, act)] && IsRun(r')
  {
    hide Step, Enabled, Init;
    r' := r + [Step(r[|r| - 1], a, act)];
    forall i | 0 <= i < |r'| - 1
      ensures Next(r'[i], r'[i + 1])
    {
      if i < |r| - 1 { assert Next(r[i], r[i + 1]); }
    }
  }

  function Four(a: Pc, b: Pc, c: Pc, d: Pc): map<ActorId, Pc> {
    map[0 := a, 1 := b, 2 := c, 3 := d]
  }

  /** Actor 0 schedules the tasklet, and its worker has passed the count check. */
  lemma WorkerStarts() returns (r: seq<State>)
    ensures IsRun(r) && |r| == 5
    ensures r[4] == State(Some(0), None, 0, Four(Idle, Idle, WTake, Idle), 1, 0, 0, 0, 0, 0)
  {
    r := [State(None, None, 0, Four(Idle, Idle, Idle, Idle), 0, 0, 0, 0, 0, 0)];
    r := Play(r, 0, Schedule);
    r := Play(r, 0, Go);
    r := Play(r, 0, Spawn(2));
    r := Play(r, 2, Go);
  }

  /** A worker of an earlier schedule is inside the callback when actor 0 schedules again and task_create fails. */
  lemma LostBegins() returns (r: seq<State>)
    ensures IsRun(r) && |r| == 10
    ensures r[9] == State(Some(0), Some(2), 0, Four(SUndo, Idle, WInvoke, Idle), 2, 1, 0, 0, 0, 1)
  {
    r := WorkerStarts();
    r := Play(r, 2, Go);
    r := Play(r, 2, Go);
    r := Play(r, 0, Schedule);
    r := Play(r, 0, Go);
    r := Play(r, 0, SpawnFails);
  }

  /** That worker goes round once more and serves it. */
  lemma LostServed() returns (r: seq<State>)
    ensures IsRun(r) && |r| == 16
    ensures r[15] == State(None, Some(2), 0, Four(SUndo, Idle, WInvoke, Idle), 2, 2, 0, 0, 0, 1)
  {
    r := LostBegins();
    r := Play(r, 2, Go);
    r := Play(r, 2, Go);
    r := Play(r, 2, Go);
    r := Play(r, 2, Go);
    r := Play(r, 2, Go);
    r := Play(r, 2, Go);
  }

  /** Actor 1 schedules, with a worker of its own, and actor 0 clears the bit. */
  lemma LostTaken() returns (r: seq<State>)
    ensures IsRun(r) && |r| == 20
    ensures r[18] == State(Some(1), Some(2), 0, Four(SUndo, Idle, WInvoke, WCount), 3, 2, 0, 0, 0, 1)
    ensures r[19] == State(None, Some(2), 0, Four(Idle, Idle, WInvoke, WCount), 3, 2, 0, 0, 1, 1)
  {
    r := LostServed();
    r := Play(r, 1, Schedule);
    r := Play(r, 1, Go);
    r := Play(r, 1, Spawn(3));
    r := Play(r, 0, Go);
  }

  predicate AllIdle(s: State) { forall a <- s.actors :: s.actors[a].Idle? }

  /** A schedule whose own task_create succeeded: its call has returned at `i` and its bit is set; at the end nobody serves
      any more, nobody killed the tasklet, and the callback was not called after `i`. */
  ghost predicate ForgetsSchedule(r: seq<State>, i: nat, b: ActorId) {
    && IsRun(r) && i < |r|
    && b in r[i].actors && r[i].actors[b].Idle? && r[i].sched == Some(b)
    && AllIdle(r[|r| - 1])
    && r[|r| - 1].killed == 0 && r[|r| - 1].invoked == r[i].invoked && r[|r| - 1].accepted == r[i].accepted
  }

  /** The older worker finds nothing left and quits. */
  lemma LostQuits() returns (r: seq<State>)
    ensures IsRun(r) && |r| == 23
    ensures r[18] == State(Some(1), Some(2), 0, Four(SUndo, Idle, WInvoke, WCount), 3, 2, 0, 0, 0, 1)
    ensures r[22] == State(None, None, 0, Four(Idle, Idle, Idle, WCount), 3, 2, 0, 0, 1, 1)
  {
    r := LostTaken();
    r := Play(r, 2, Go);
    r := Play(r, 2, Go);
    r := Play(r, 2, Go);
  }

  /** So a schedule can be forgotten: its own task_create succeeded, and still its callback never comes. */
  lemma ScheduleForgotten()
    ensures exists r: seq<State>, i: nat, b: ActorId :: ForgetsSchedule(r, i, b)
  {
    var r := LostQuits();
    r := Play(r, 3, Go);
    r := Play(r, 3, Go);
    r := Play(r, 3, Go);
    r := Play(r, 3, Go);
    assert ForgetsSchedule(r, 18, 1);
  }

  // ----- tasklet_disable

  /** No worker has passed the count check: the callback neither runs nor is about to. */
  ghost predicate Quiet(s: State) {
    forall a <- s.actors :: !s.actors[a].WTake? && !s.actors[a].WClear? && !s.actors[a].WInvoke?
  }

  lemma QuietStays(s: State, a: ActorId, act: Action)
    requires Quiet(s) && s.count > 0 && Enabled(s, a, act)
    ensures Quiet(Step(s, a, act)) && Step(s, a, act).invoked == s.invoked
  {
  }

  ghost predicate Disabled(r: seq<State>) { forall i | 0 <= i < |r| :: r[i].count > 0 }

  lemma {:induction false} QuietPath(r: seq<State>)
    requires IsPath(r) && Disabled(r) && Quiet(r[0])
    ensures Quiet(r[|r| - 1]) && r[|r| - 1].invoked == r[0].invoked
  {
    if |r| > 1 {
      hide Quiet, Step, Enabled;
      var n := |r| - 1;
      assert Next(r[n - 1], r[n]);
      QuietPath(r[..n]);
      var a, act :| Enabled(r[n - 1], a, act) && r[n] == Step(r[n - 1], a, act);
      QuietStays(r[n - 1], a, act);
    }
  }

  /** A call of the callback is decided on the path although the tasklet is disabled all along. */
  ghost predicate RunsDisabled(s: State, r: seq<State>) {
    IsPath(r) && r[0] == s && Disabled(r) && r[|r| - 1].invoked > s.invoked
  }

  /** Can `b` come to set SCHED while the tasklet stays disabled?  Everybody can, but for a tasklet_kill that holds the
      only disable there is: it must give that back first. */
  predicate MaySchedule(s: State, b: ActorId)
    requires b in s.actors
  {
    s.count > 1 || !(s.actors[b].KClear? || s.actors[b].KSpin? || s.actors[b].KDec?)
  }

  /** tasklet_disable returns when it sees RUN clear.  The callback can still be called while the tasklet stays disabled
      if and only if some worker stands between its count check (interrupt.h:50) and its test_and_set_bit (interrupt.h:56),
      and a schedule is pending or some other actor can still make one. */
  lemma DisableLeaksIffWindow(s: State)
    requires RunInv(s) && s.run.None? && s.count > 0
    ensures (exists r: seq<State> :: RunsDisabled(s, r)) <==>
            exists a <- s.actors :: s.actors[a].WTake? && (s.sched.Some? || exists b <- s.actors :: b != a && MaySchedule(s, b))
  {
    if a :| a in s.actors && s.actors[a].WTake? && (s.sched.Some? || exists b <- s.actors :: b != a && MaySchedule(s, b)) {
      var r := LeakFrom(s, a);
      assert RunsDisabled(s, r);
    } else if a :| a in s.actors && s.actors[a].WTake? {
      forall r: seq<State> | IsPath(r) && r[0] == s && Disabled(r)
        ensures r[|r| - 1].invoked == s.invoked
      {
        assert Cornered(s, a);
        CorneredPath(r, a);
      }
    } else {
      NobodyInside(s);
      forall r: seq<State> | IsPath(r) && r[0] == s && Disabled(r)
        ensures r[|r| - 1].invoked == s.invoked
      {
        QuietPath(r);
      }
    }
  }

  lemma NobodyInside(s: State)
    requires RunInv(s) && s.run.None? && !exists a <- s.actors :: s.actors[a].WTake?
    ensures Quiet(s)
  {
  }

  lemma LeakFrom(s: State, a: ActorId) returns (r: seq<State>)
    requires RunInv(s) && s.run.None? && s.count > 0 && a in s.actors && s.actors[a].WTake?
    requires s.sched.Some? || exists b <- s.actors :: b != a && MaySchedule(s, b)
    ensures RunsDisabled(s, r)
  {
    if s.sched.Some? {
      r := TakeNow(s, a);
    } else {
      var b :| b in s.actors && b != a && MaySchedule(s, b);
      r := ScheduleThenTake(s, a, b);
    }
  }

  /** With SCHED set the worker in the window calls the callback. */
  lemma TakeNow(s: State, a: ActorId) returns (r: seq<State>)
    requires a in s.actors && s.actors[a].WTake? && s.run.None? && s.count > 0 && s.sched.Some?
    ensures RunsDisabled(s, r)
  {
    var s1 := Step(s, a, Go);
    var s2 := Step(s1, a, Go);
    assert Next(s, s1) && Next(s1, s2);
    r := [s, s1, s2];
  }

  /** What actor `b` does next on its way to setting SCHED. */
  function Toward(pc: Pc): Action {
    if pc.Idle? then Schedule else if pc.SSpawn? then SpawnFails else if pc.Holding? then Unlock else Go
  }

  /** How far it is from there. */
  function Distance(pc: Pc): nat {
    match pc
    case SSet => 0
    case Idle => 1
    case WParked | WAgain | WQuit | SUndo | DSpin | KDec | Holding => 2
    case WCount | WClear | WUnlock | SSpawn | KSpin => 3
    case WTake | WInvoke | KClear => 4
  }

  /** `b` can take that step without waiting, unless it has set SCHED with it. */
  lemma TowardStep(s: State, a: ActorId, b: ActorId)
    requires RunInv(s) && a in s.actors && b in s.actors && a != b && s.actors[a].WTake? && s.count > 0 && s.sched.None?
    requires (s.run.None? || s.run == Some(b)) && MaySchedule(s, b)
    ensures Enabled(s, b, Toward(s.actors[b]))
    ensures var s' := Step(s, b, Toward(s.actors[b]));
            && RunInv(s') && s'.actors.Keys == s.actors.Keys && s'.actors[a] == WTake && s'.count > 0 && s'.invoked == s.invoked
            && (if s.actors[b].SSet? then s'.sched.Some? && s'.run.None?
                else && s'.sched.None? && (s'.run.None? || s'.run == Some(b)) && MaySchedule(s', b)
                     && Distance(s'.actors[b]) < Distance(s.actors[b]))
  {
    StepRun(s, b, Toward(s.actors[b]));
    assert HoldsRun(s.actors[b]) <==> s.run == Some(b);
    hide RunInv;
  }

  lemma {:induction false} ScheduleThenTake(s: State, a: ActorId, b: ActorId) returns (r: seq<State>)
    requires RunInv(s) && a in s.actors && b in s.actors && a != b && s.actors[a].WTake? && s.count > 0 && s.sched.None?
    requires (s.run.None? || s.run == Some(b)) && MaySchedule(s, b)
    ensures RunsDisabled(s, r)
    decreases Distance(s.actors[b])
  {
    TowardStep(s, a, b);
    var s' := Step(s, b, Toward(s.actors[b]));
    assert Next(s, s');
    hide RunInv, Step, Enabled, Distance;
    var rest: seq<State>;
    if s.actors[b].SSet? { rest := TakeNow(s', a); } else { rest := ScheduleThenTake(s', a, b); }
    r := [s] + rest;
    forall i | 0 <= i < |r| - 1
      ensures Next(r[i], r[i + 1])
    {
      if i > 0 { assert Next(rest[i - 1], rest[i - 1 + 1]); }
    }
  }

  /** Everybody but the worker `a` waits in a tasklet_kill that holds the only disable, and nothing is scheduled. */
  ghost predicate Cornered(s: State, a: ActorId) {
    && a in s.actors && s.count > 0 && s.sched.None?
    && (s.actors[a].WTake? || s.actors[a].WClear? || s.actors[a].WQuit?)
    && (forall b <- s.actors | b != a :: !MaySchedule(s, b))
  }

  lemma CorneredStep(s: State, a: ActorId, b: ActorId, act: Action)
    requires Cornered(s, a) && Enabled(s, b, act) && Step(s, b, act).count > 0
    ensures Cornered(Step(s, b, act), a) || Quiet(Step(s, b, act))
    ensures Step(s, b, act).invoked == s.invoked
  {
  }

  lemma {:induction false} CorneredPath(r: seq<State>, a: ActorId)
    requires IsPath(r) && Disabled(r) && Cornered(r[0], a)
    ensures Cornered(r[|r| - 1], a) || Quiet(r[|r| - 1])
    ensures r[|r| - 1].invoked == r[0].invoked
  {
    if |r| > 1 {
      hide Quiet, Cornered, Step, Enabled;
      var n := |r| - 1;
      assert Next(r[n - 1], r[n]);
      CorneredPath(r[..n], a);
      var b, act :| Enabled(r[n - 1], b, act) && r[n] == Step(r[n - 1], b, act);
      if Quiet(r[n - 1]) { QuietStays(r[n - 1], b, act); } else { CorneredStep(r[n - 1], a, b, act); }
    } else {
      hide Step, Enabled;
    }
  }

  /** At step `i` a call of tasklet_disable by actor 0 returns, and the callback is called later on, still disabled. */
  ghost predicate BreaksDisable(r: seq<State>, i: nat) {
    && IsRun(r) && i + 1 < |r| && 0 in r[i].actors && r[i].actors[0].DSpin? && r[i].run.None?
    && r[i + 1] == Step(r[i], 0, Go) && RunsDisabled(r[i + 1], r[i + 1..])
  }

  /** A worker has read count 0 when actor 0 disables the tasklet and sees RUN clear. */
  lemma DisableReturns() returns (r: seq<State>)
    ensures IsRun(r) && |r| == 7
    ensures r[5] == State(Some(0), None, 1, Four(DSpin, Idle, WTake, Idle), 1, 0, 0, 0, 0, 0)
    ensures r[6] == State(Some(0), None, 1, Four(Idle, Idle, WTake, Idle), 1, 0, 0, 0, 0, 0)
  {
    r := WorkerStarts();
    r := Play(r, 0, Disable);
    r := Play(r, 0, Go);
  }

  /** So the promise of tasklet_disable is broken by a run: a worker reads count 0, tasklet_disable returns, and then the
      worker calls the callback. */
  lemma DisableBroken()
    ensures exists r: seq<State>, i: nat :: BreaksDisable(r, i)
  {
    var r := DisableReturns();
    var s := r[6];
    var tail := TakeNow(s, 2);
    var whole := r[..6] + tail;
    forall i | 0 <= i < |whole| - 1
      ensures Next(whole[i], whole[i + 1])
    {
      if i < 6 { assert whole[i + 1] == r[i + 1] && Next(r[i], r[i + 1]); }
      else { assert Next(tail[i - 6], tail[i - 6 + 1]); }
    }
    assert whole[6..] == tail;
    assert BreaksDisable(whole, 5);
  }

  // ----- tasklet_kill

  /** Not scheduled, and the callback is not running. */
  ghost predicate Stopped(s: State) { s.sched.None? && forall a <- s.actors :: !s.actors[a].WInvoke? }

  lemma StepAccepted(s: State, a: ActorId, act: Action)
    requires Enabled(s, a, act)
    ensures s.accepted <= Step(s, a, act).accepted
  {
  }

  lemma {:induction false} AcceptedGrows(r: seq<State>)
    requires IsPath(r)
    ensures r[0].accepted <= r[|r| - 1].accepted
  {
    if |r| > 1 {
      hide Step, Enabled;
      var n := |r| - 1;
      assert Next(r[n - 1], r[n]);
      var a, act :| Enabled(r[n - 1], a, act) && r[n] == Step(r[n - 1], a, act);
      AcceptedGrows(r[..n]);
      StepAccepted(r[n - 1], a, act);
    }
  }

  /** With no new schedule, SCHED stays clear. */
  lemma ClearStep(s: State, a: ActorId, act: Action)
    requires s.sched.None? && Enabled(s, a, act) && Step(s, a, act).accepted == s.accepted
    ensures Step(s, a, act).sched.None?
  {
  }

  lemma {:induction false} ClearStays(r: seq<State>)
    requires IsPath(r) && RunInv(r[0]) && r[0].sched.None? && r[|r| - 1].accepted == r[0].accepted
    ensures RunInv(r[|r| - 1]) && r[|r| - 1].sched.None?
  {
    if |r| > 1 {
      hide RunInv, Step, Enabled;
      var n := |r| - 1;
      assert Next(r[n - 1], r[n]);
      var a, act :| Enabled(r[n - 1], a, act) && r[n] == Step(r[n - 1], a, act);
      AcceptedGrows(r[..n]);
      StepAccepted(r[n - 1], a, act);
      ClearStays(r[..n]);
      StepRun(r[n - 1], a, act);
      ClearStep(r[n - 1], a, act);
    }
  }

  /** A tasklet_kill clears SCHED in the first step of the path and sees RUN clear at its end.  If no schedule set SCHED in
      between, the tasklet is stopped: not scheduled, and not inside its callback. */
  lemma KillStops(r: seq<State>, k: ActorId)
    requires IsPath(r) && RunInv(r[0]) && |r| > 1 && k in r[0].actors && r[0].actors[k].KClear? && r[1] == Step(r[0], k, Go)
    requires r[|r| - 1].accepted == r[0].accepted
    requires k in r[|r| - 1].actors && r[|r| - 1].actors[k].KSpin? && r[|r| - 1].run.None?
    ensures Stopped(r[|r| - 1])
  {
    StepRun(r[0], k, Go);
    hide IsPath;
    PathTail(r);
    ClearStays(r[1..]);
  }

  lemma PathTail(r: seq<State>)
    requires IsPath(r) && |r| > 1
    ensures IsPath(r[1..])
  {
    hide Step, Enabled;
    forall i | 0 <= i < |r[1..]| - 1
      ensures Next(r[1..][i], r[1..][i + 1])
    {
      assert Next(r[i + 1], r[i + 1 + 1]);
    }
  }

  /** That lasts until the next schedule that sets SCHED, whatever else happens. */
  lemma {:induction false} StoppedStays(r: seq<State>)
    requires IsPath(r) && Stopped(r[0]) && r[|r| - 1].accepted == r[0].accepted
    ensures Stopped(r[|r| - 1]) && r[|r| - 1].invoked == r[0].invoked
  {
    if |r| > 1 {
      hide Stopped, Step, Enabled;
      var n := |r| - 1;
      assert Next(r[n - 1], r[n]);
      var a, act :| Enabled(r[n - 1], a, act) && r[n] == Step(r[n - 1], a, act);
      AcceptedGrows(r[..n]);
      StepAccepted(r[n - 1], a, act);
      StoppedStays(r[..n]);
      StoppedStep(r[n - 1], a, act);
    }
  }

  lemma StoppedStep(s: State, a: ActorId, act: Action)
    requires Stopped(s) && Enabled(s, a, act) && Step(s, a, act).accepted == s.accepted
    ensures Stopped(Step(s, a, act)) && Step(s, a, act).invoked == s.invoked
  {
  }
}
