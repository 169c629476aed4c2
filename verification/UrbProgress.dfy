/** When every accepted submission ends: work is bounded, and only a queue behind an idle pipe is left over. */
module UrbProgress {
  import opened Basics
  import opened UrbEngine
  import opened UrbInvariant
  import opened UrbSteps
  import opened UrbTheorems

  // ----- stranded queues

  /** Whoever is queued can count on the holder of the pipe to pass it on. */
  predicate Attended(s: State) {
    forall e <- s.eps :: s.eps[e].pending != [] ==> s.eps[e].pipe.Some?
  }

  predicate FoundBusy(s: State, ep: Option<EpId>) {
    ep.Some? && ep.value in s.eps ==> s.eps[ep.value].pipe.Some?
  }

  predicate FoundEmpty(s: State, ep: Option<EpId>) {
    ep.Some? && ep.value in s.eps ==> s.eps[ep.value].pending == []
  }

  /** The append of usb.c:1074 still finds the pipe busy that usb.c:1066 saw busy, and a failed launch
      that clears pipe_busy (usb.c:1091, 466) leaves nobody queued. */
  predicate Careful(s: State, m: Move) {
    m.Go? && m.sub < |s.subs| && s.subs[m.sub].urb < |s.urbs| ==>
      var x := s.subs[m.sub];
      var ep := s.urbs[x.urb].ep;
      && (x.pc.Appending? ==> FoundBusy(s, ep))
      && (x.pc.Unclaiming? || x.pc.NUnclaiming? ==> FoundEmpty(s, ep))
  }

  lemma OneEndpoint(s: State, s': State, e: EpId)
    requires Attended(s) && e in s.eps && e in s'.eps && s'.eps == s.eps[e := s'.eps[e]]
    ensures Attended(s') <==> (s'.eps[e].pending != [] ==> s'.eps[e].pipe.Some?)
  {
  }

  lemma SubmitterAttended(s: State, k: SubId)
    requires Attended(s) && WellFormed(s) && Known(s, k)
    requires var pc := s.subs[k].pc; pc.Claiming? || pc.Appending? || pc.Unclaiming? || pc.Refusing? || pc.RefusedDrop?
    ensures Attended(SubmitterStep(s, k)) <==> Careful(s, Go(k))
  {
    hide WellFormed, SubOk, FlightOk, Attended;
    var s' := SubmitterStep(s, k);
    var ep := s.urbs[s.subs[k].urb].ep;
    if ep.Some? {
      assert s'.eps == s.eps[ep.value := s'.eps[ep.value]];
      OneEndpoint(s, s', ep.value);
      AttendedAt(s, ep.value);
    } else {
      SameEps(s, s');
    }
  }

  lemma AttendedAt(s: State, e: EpId)
    requires Attended(s) && e in s.eps
    ensures s.eps[e].pending != [] ==> s.eps[e].pipe.Some?
  {
  }

  lemma SameEps(s: State, s': State)
    requires Attended(s) && s'.eps == s.eps
    ensures Attended(s')
  {
  }

  lemma HandlerAttended(s: State, k: SubId)
    requires Attended(s) && WellFormed(s) && Known(s, k)
    requires var pc := s.subs[k].pc; pc.Ending? || pc.Reporting? || pc.Calling? || pc.Handing? || pc.Dropping?
    ensures Attended(HandlerStep(s, k)) && Careful(s, Go(k))
  {
    hide WellFormed, SubOk, FlightOk, Attended;
    var s' := HandlerStep(s, k);
    var ep := s.urbs[s.subs[k].urb].ep;
    if s.subs[k].pc.Handing? {
      assert s'.eps == s.eps[ep.value := s'.eps[ep.value]];
      OneEndpoint(s, s', ep.value);
      AttendedAt(s, ep.value);
    } else {
      SameEps(s, s');
    }
  }

  lemma NextAttended(s: State, k: SubId)
    requires Attended(s) && WellFormed(s) && Known(s, k) && Adopted(s.subs[k].pc) && !s.subs[k].pc.NLaunching?
    ensures Attended(NextStep(s, k)) <==> Careful(s, Go(k))
  {
    hide WellFormed, SubOk, FlightOk, Attended;
    var s' := NextStep(s, k);
    var ep := s.urbs[s.subs[k].urb].ep;
    if s.subs[k].pc.NUnclaiming? {
      assert s'.eps == s.eps[ep.value := s'.eps[ep.value]];
      OneEndpoint(s, s', ep.value);
      AttendedAt(s, ep.value);
    } else {
      SameEps(s, s');
    }
  }

  lemma OtherEps(s: State, m: Move)
    requires WellFormed(s) && Enabled(s, m) && !m.Go?
    ensures Perform(s, m).eps == s.eps
  {
    hide WellFormed;
  }

  lemma PerformAttended(s: State, m: Move)
    requires Inv(s) && WellFormed(s) && Enabled(s, m) && Attended(s)
    ensures Attended(Perform(s, m)) <==> Careful(s, m)
  {
    hide Inv, WellFormed, Attended, Known, SubmitterStep, HandlerStep, NextStep, LaunchStep, CompleteStep, Careful;
    if m.Go? {
      KnownIn(s, m.sub);
      var pc := s.subs[m.sub].pc;
      if pc.Claiming? || pc.Appending? || pc.Unclaiming? || pc.Refusing? || pc.RefusedDrop? { SubmitterAttended(s, m.sub); }
      else if Adopted(pc) { NextAttended(s, m.sub); }
      else { HandlerAttended(s, m.sub); }
    } else {
      OtherEps(s, m);
      SameEps(s, Perform(s, m));
      NotGoCareful(s, m);
    }
  }

  lemma NotGoCareful(s: State, m: Move)
    requires !m.Go?
    ensures Careful(s, m)
  {
  }

  /** A non-empty queue always has a busy pipe if and only if every move of the run is careful. */
  lemma {:induction false} AttendedIffCareful(r: seq<State>, moves: seq<Move>, n: nat)
    requires IsRun(r, moves) && n <= |moves|
    ensures (forall i | 0 <= i <= n :: Attended(r[i])) <==> (forall i | 0 <= i < n :: Careful(r[i], moves[i]))
    decreases n
  {
    hide Inv, WellFormed, Enabled, Perform, Attended, Careful;
    if n == 0 {
      InitAttended(r[0]);
    } else {
      AttendedIffCareful(r, moves, n - 1);
      RunInv(r, moves, n - 1);
      assert r[n] == Perform(r[n - 1], moves[n - 1]);
      if Attended(r[n - 1]) { PerformAttended(r[n - 1], moves[n - 1]); }
    }
  }

  lemma InitAttended(s: State)
    requires Init(s)
    ensures Attended(s)
  {
  }

  /** On the way out of a launch that was refused. */
  predicate Failing(pc: Pc) {
    pc.Unclaiming? || pc.NFailing? || pc.NUnclaiming?
  }

  predicate NoneFailing(s: State) {
    forall k | 0 <= k < |s.subs| :: !Failing(s.subs[k].pc)
  }

  /** The native stack refuses the data transfer; a refused zero-length packet only ends the submission. */
  predicate Refuses(s: State, m: Move) {
    m.Launch? && !m.accepted && m.sub < |s.subs| && !s.subs[m.sub].pc.ZlpLaunching?
  }

  lemma SubmitterNotFailing(s: State, k: SubId)
    requires WellFormed(s) && Known(s, k) && NoneFailing(s)
    requires var pc := s.subs[k].pc; pc.Claiming? || pc.Appending? || pc.Refusing? || pc.RefusedDrop?
    ensures NoneFailing(SubmitterStep(s, k))
  {
    hide WellFormed, SubOk, FlightOk;
  }

  lemma LaunchNotFailing(s: State, k: SubId, ok: bool, refusal: Event)
    requires Inv(s) && WellFormed(s) && Known(s, k) && CanLaunch(s.subs[k].pc) && NoneFailing(s)
    requires ok || s.subs[k].pc.ZlpLaunching?
    ensures NoneFailing(LaunchStep(s, k, ok, refusal))
  {
    hide WellFormed, Core, SubOk, FlightOk;
  }

  lemma CompleteNotFailing(s: State, k: SubId, e: Event, actual: int, copied: bool)
    requires WellFormed(s) && Known(s, k) && s.subs[k].pc.InFlight? && NoneFailing(s)
    ensures NoneFailing(CompleteStep(s, k, e, actual, copied))
  {
    hide WellFormed, MappedStatus, NeedsZlp, SubOk, FlightOk;
  }

  lemma HandlerNotFailing(s: State, k: SubId)
    requires Inv(s) && WellFormed(s) && Known(s, k) && NoneFailing(s)
    requires var pc := s.subs[k].pc; pc.Ending? || pc.Reporting? || pc.Calling? || pc.Handing? || pc.Dropping?
    ensures NoneFailing(HandlerStep(s, k))
  {
    hide WellFormed, Core, ServeInv, SubOk, FlightOk;
    var ep := s.urbs[s.subs[k].urb].ep;
    if s.subs[k].pc.Handing? && s.eps[ep.value].pending != [] { HeadFacts(s, ep.value); }
  }

  lemma NextNotFailing(s: State, k: SubId)
    requires Inv(s) && WellFormed(s) && Known(s, k) && Adopted(s.subs[k].pc) && !s.subs[k].pc.NLaunching? && NoneFailing(s)
    ensures NoneFailing(NextStep(s, k))
  {
    hide WellFormed, Core, ServeInv, SubOk, FlightOk;
    ServedBy(s, k);
  }

  lemma PerformNotFailing(s: State, m: Move)
    requires Inv(s) && WellFormed(s) && Enabled(s, m) && NoneFailing(s) && !Refuses(s, m)
    ensures NoneFailing(Perform(s, m))
  {
    hide Core, ServeInv, WellFormed, LaunchStep, CompleteStep, HandlerStep, NextStep, SubmitterStep, Known, Released;
    if m.Go? {
      KnownIn(s, m.sub);
      var pc := s.subs[m.sub].pc;
      assert !Failing(pc);
      if pc.Claiming? || pc.Appending? || pc.Refusing? || pc.RefusedDrop? { SubmitterNotFailing(s, m.sub); }
      else if Adopted(pc) { NextNotFailing(s, m.sub); }
      else { HandlerNotFailing(s, m.sub); }
    } else if m.Launch? {
      KnownIn(s, m.sub);
      LaunchNotFailing(s, m.sub, m.accepted, m.refusal);
    } else if m.Complete? {
      KnownIn(s, m.sub);
      CompleteNotFailing(s, m.sub, m.event, m.actual, m.copied);
    }
  }

  predicate Appends(s: State, m: Move) {
    m.Go? && m.sub < |s.subs| && s.subs[m.sub].pc.Appending?
  }

  predicate Claims(s: State, m: Move) {
    m.Go? && m.sub < |s.subs| && s.subs[m.sub].pc.Claiming?
  }

  /** A submitter that finds the pipe busy leaves it busy. */
  lemma ClaimSawBusy(s: State, m: Move)
    requires WellFormed(s) && Enabled(s, m) && Claims(s, m) && Known(s, m.sub) && Appends(Perform(s, m), m)
    ensures Careful(Perform(s, m), m)
  {
    hide WellFormed, SubOk, FlightOk, NextStep, HandlerStep, LaunchStep, CompleteStep;
  }

  /** The check of usb.c:1066 and the append of usb.c:1074 are one step: every append comes right after its own check. */
  ghost predicate Together(r: seq<State>, moves: seq<Move>)
    requires |r| == |moves| + 1
  {
    forall i | 0 <= i < |moves| :: Appends(r[i], moves[i]) ==> i > 0 && Claims(r[i - 1], moves[i - 1]) && moves[i - 1] == moves[i]
  }

  /** The native stack never refuses a data transfer. */
  ghost predicate NeverRefused(r: seq<State>, moves: seq<Move>)
    requires |r| == |moves| + 1
  {
    forall i | 0 <= i < |moves| :: !Refuses(r[i], moves[i])
  }

  /** If the check and the append of every submitter are one step, and no data transfer is refused,
      a non-empty queue always has a busy pipe. */
  lemma {:induction false} AtomicNeverStrands(r: seq<State>, moves: seq<Move>, n: nat)
    requires IsRun(r, moves) && n <= |moves| && Together(r, moves) && NeverRefused(r, moves)
    ensures Attended(r[n]) && NoneFailing(r[n])
    decreases n
  {
    hide Inv, WellFormed, Enabled, Perform, Attended, Careful, Appends, Claims, Refuses;
    if n == 0 {
      InitAttended(r[0]);
    } else {
      AtomicNeverStrands(r, moves, n - 1);
      RunInv(r, moves, n - 1);
      assert r[n] == Perform(r[n - 1], moves[n - 1]);
      PerformNotFailing(r[n - 1], moves[n - 1]);
      if Appends(r[n - 1], moves[n - 1]) {
        RunInv(r, moves, n - 2);
        assert r[n - 1] == Perform(r[n - 2], moves[n - 2]);
        ClaimKnown(r[n - 2], moves[n - 2]);
        ClaimSawBusy(r[n - 2], moves[n - 2]);
      } else {
        IdleCareful(r[n - 1], moves[n - 1]);
      }
      PerformAttended(r[n - 1], moves[n - 1]);
    }
  }

  lemma ClaimKnown(s: State, m: Move)
    requires Inv(s) && Claims(s, m)
    ensures Known(s, m.sub)
  {
    hide Inv, Known;
    KnownIn(s, m.sub);
  }

  lemma IdleCareful(s: State, m: Move)
    requires NoneFailing(s) && !Appends(s, m)
    ensures Careful(s, m)
  {
  }

  // ----- work is bounded

  /** How many steps a submission can still take. */
  function Rank(x: Sub): nat {
    match x.pc
    case Claiming => 16
    case Appending => 15
    case Queued => 14
    case NLaunching(_) => 13
    case NFailing(_) => 12
    case NUnclaiming(_) => 11
    case NReporting(_) => 10
    case NCalling(_) => 9
    case NDropping(_) => 8
    case Launching => 12
    case InFlight => if x.zlpTried then 8 else 10
    case ZlpLaunching(_) => 9
    case Ending(_) => 7
    case Reporting => 6
    case Calling => 5
    case Handing => 4
    case Unclaiming => 3
    case Refusing => 2
    case RefusedDrop => 1
    case Serving(_) => 3
    case Dropping => 1
    case Gone => 0
    case Stray => 0
  }

  function TotalRank(subs: seq<Sub>): nat {
    if subs == [] then 0 else TotalRank(subs[..|subs| - 1]) + Rank(subs[|subs| - 1])
  }

  lemma {:induction false} RankUpdate(subs: seq<Sub>, k: nat, x: Sub)
    requires k < |subs|
    ensures TotalRank(subs[k := x]) == TotalRank(subs) - Rank(subs[k]) + Rank(x)
  {
    hide Rank;
    var n := |subs| - 1;
    if k == n {
      assert subs[k := x][..n] == subs[..n];
    } else {
      RankUpdate(subs[..n], k, x);
      assert subs[k := x][..n] == subs[..n][k := x];
    }
  }

  predicate IsWork(m: Move) {
    m.Go? || m.Launch? || m.Complete?
  }

  /** One submission moved closer to its end. */
  lemma OneDown(s: State, s': State, k: SubId)
    requires k < |s.subs| && |s'.subs| == |s.subs| && s'.subs == s.subs[k := s'.subs[k]] && Rank(s'.subs[k]) < Rank(s.subs[k])
    ensures TotalRank(s'.subs) < TotalRank(s.subs)
  {
    RankUpdate(s.subs, k, s'.subs[k]);
  }

  /** Two submissions did. */
  lemma TwoDown(s: State, s': State, j: SubId, k: SubId)
    requires k < |s.subs| && j < |s.subs| && j != k && |s'.subs| == |s.subs|
    requires s'.subs == s.subs[k := s'.subs[k]][j := s'.subs[j]]
    requires Rank(s'.subs[k]) < Rank(s.subs[k]) && Rank(s'.subs[j]) < Rank(s.subs[j])
    ensures TotalRank(s'.subs) < TotalRank(s.subs)
  {
    RankUpdate(s.subs, k, s'.subs[k]);
    RankUpdate(s.subs[k := s'.subs[k]], j, s'.subs[j]);
  }

  lemma SubmitterDown(s: State, k: SubId)
    requires WellFormed(s) && Known(s, k)
    requires var pc := s.subs[k].pc; pc.Claiming? || pc.Appending? || pc.Unclaiming? || pc.Refusing? || pc.RefusedDrop?
    ensures TotalRank(SubmitterStep(s, k).subs) < TotalRank(s.subs)
  {
    hide WellFormed, SubOk, FlightOk, TotalRank;
    OneDown(s, SubmitterStep(s, k), k);
  }

  lemma LaunchDown(s: State, k: SubId, ok: bool, refusal: Event)
    requires WellFormed(s) && Known(s, k) && CanLaunch(s.subs[k].pc) && !(s.subs[k].pc.NLaunching? && ok)
    ensures TotalRank(LaunchStep(s, k, ok, refusal).subs) < TotalRank(s.subs)
  {
    hide WellFormed, FlightOk, TotalRank, MappedStatus;
    OneDown(s, LaunchStep(s, k, ok, refusal), k);
  }

  lemma NLaunchedDown(s: State, j: SubId, refusal: Event)
    requires Inv(s) && WellFormed(s) && Known(s, j) && s.subs[j].pc.NLaunching?
    ensures TotalRank(LaunchStep(s, j, true, refusal).subs) < TotalRank(s.subs)
  {
    hide WellFormed, FlightOk, TotalRank, Core, ServeInv;
    ServedBy(s, j);
    TwoDown(s, LaunchStep(s, j, true, refusal), s.subs[j].pc.host, j);
  }

  lemma CompleteDown(s: State, k: SubId, e: Event, actual: int, copied: bool)
    requires WellFormed(s) && Known(s, k) && s.subs[k].pc.InFlight?
    ensures TotalRank(CompleteStep(s, k, e, actual, copied).subs) < TotalRank(s.subs)
  {
    hide WellFormed, TotalRank, MappedStatus, NeedsZlp, Scattered;
    OneDown(s, CompleteStep(s, k, e, actual, copied), k);
  }

  lemma HandlerDown(s: State, k: SubId)
    requires Inv(s) && WellFormed(s) && Known(s, k)
    requires var pc := s.subs[k].pc; pc.Ending? || pc.Reporting? || pc.Calling? || pc.Handing? || pc.Dropping?
    ensures TotalRank(HandlerStep(s, k).subs) < TotalRank(s.subs)
  {
    hide WellFormed, TotalRank, Core, ServeInv, SubOk, FlightOk;
    var ep := s.urbs[s.subs[k].urb].ep;
    if s.subs[k].pc.Handing? && s.eps[ep.value].pending != [] {
      HeadFacts(s, ep.value);
      TwoDown(s, HandlerStep(s, k), s.eps[ep.value].pending[0], k);
    } else {
      OneDown(s, HandlerStep(s, k), k);
    }
  }

  lemma NextDown(s: State, k: SubId)
    requires Inv(s) && WellFormed(s) && Known(s, k) && Adopted(s.subs[k].pc) && !s.subs[k].pc.NLaunching?
    ensures TotalRank(NextStep(s, k).subs) < TotalRank(s.subs)
  {
    hide WellFormed, TotalRank, Core, ServeInv, SubOk, FlightOk;
    if s.subs[k].pc.NDropping? {
      NDroppedDown(s, k);
    } else {
      OneDown(s, NextStep(s, k), k);
    }
  }

  lemma NDroppedDown(s: State, k: SubId)
    requires Inv(s) && WellFormed(s) && Known(s, k) && s.subs[k].pc.NDropping?
    ensures TotalRank(NextStep(s, k).subs) < TotalRank(s.subs)
  {
    hide WellFormed, TotalRank, Core, ServeInv, SubOk, FlightOk;
    ServedBy(s, k);
    TwoDown(s, NextStep(s, k), s.subs[k].pc.host, k);
  }

  /** Every step of a thread or of the native stack brings the run closer to its end. */
  lemma WorkGoesDown(s: State, m: Move)
    requires Inv(s) && WellFormed(s) && Enabled(s, m) && IsWork(m)
    ensures TotalRank(Perform(s, m).subs) < TotalRank(s.subs)
  {
    hide Inv, WellFormed, TotalRank, Known, SubmitterStep, HandlerStep, NextStep, LaunchStep, CompleteStep;
    KnownIn(s, m.sub);
    var pc := s.subs[m.sub].pc;
    if m.Complete? { CompleteDown(s, m.sub, m.event, m.actual, m.copied); }
    else if m.Launch? {
      if pc.NLaunching? && m.accepted { NLaunchedDown(s, m.sub, m.refusal); } else { LaunchDown(s, m.sub, m.accepted, m.refusal); }
    }
    else if pc.Claiming? || pc.Appending? || pc.Unclaiming? || pc.Refusing? || pc.RefusedDrop? { SubmitterDown(s, m.sub); }
    else if Adopted(pc) { NextDown(s, m.sub); }
    else { HandlerDown(s, m.sub); }
  }

  function WorkIn(moves: seq<Move>): nat {
    if moves == [] then 0 else WorkIn(moves[..|moves| - 1]) + if IsWork(moves[|moves| - 1]) then 1 else 0
  }

  function SubmitsIn(moves: seq<Move>): nat {
    if moves == [] then 0 else SubmitsIn(moves[..|moves| - 1]) + if moves[|moves| - 1].Submit? then 1 else 0
  }

  lemma DriverRank(s: State, m: Move)
    requires WellFormed(s) && Enabled(s, m) && !IsWork(m)
    ensures TotalRank(Perform(s, m).subs) == TotalRank(s.subs) + if m.Submit? then 16 else 0
  {
    hide WellFormed;
    if m.Submit? {
      var subs' := Perform(s, m).subs;
      assert subs'[..|subs'| - 1] == s.subs;
    }
  }

  /** A run in which n submissions were made has at most 16n steps of work: nobody loops. */
  lemma {:induction false} WorkIsBounded(r: seq<State>, moves: seq<Move>, i: nat)
    requires IsRun(r, moves) && i <= |moves|
    ensures TotalRank(r[i].subs) + WorkIn(moves[..i]) <= 16 * SubmitsIn(moves[..i])
    decreases i
  {
    hide Inv, WellFormed, Enabled, Perform, TotalRank;
    if i == 0 {
      RankOfNone(r[0]);
    } else {
      WorkIsBounded(r, moves, i - 1);
      RunInv(r, moves, i - 1);
      assert r[i] == Perform(r[i - 1], moves[i - 1]);
      assert moves[..i][..i - 1] == moves[..i - 1];
      if IsWork(moves[i - 1]) { WorkGoesDown(r[i - 1], moves[i - 1]); } else { DriverRank(r[i - 1], moves[i - 1]); }
    }
  }

  lemma RankOfNone(s: State)
    requires Init(s)
    ensures TotalRank(s.subs) == 0
  {
  }

  // ----- and at its end only stranded submissions remain

  ghost predicate AtRest(s: State) {
    forall m: Move | IsWork(m) :: !Enabled(s, m)
  }

  lemma RestPc(s: State, k: SubId)
    requires Inv(s) && AtRest(s) && k < |s.subs|
    ensures s.subs[k].pc.Gone? || s.subs[k].pc.Queued?
  {
    hide Core, ServeInv, AtRest;
    KnownIn(s, k);
    var pc := s.subs[k].pc;
    var j := k;
    if pc.Serving? {
      ServingNext(s, k);
      j := pc.next;
    }
    RestAt(s, j);
  }

  lemma ServingNext(s: State, k: SubId)
    requires ServeInv(s) && k < |s.subs| && s.subs[k].pc.Serving?
    ensures s.subs[k].pc.next < |s.subs| && Adopted(s.subs[s.subs[k].pc.next].pc)
  {
  }

  lemma RestAt(s: State, k: SubId)
    requires AtRest(s) && k < |s.subs|
    ensures !CanGo(s.subs[k].pc) && !CanLaunch(s.subs[k].pc) && !s.subs[k].pc.InFlight?
  {
    assert !Enabled(s, Go(k)) && !Enabled(s, Launch(k, false, Stall)) && !Enabled(s, Complete(k, Success, 0, true));
  }

  /** When a run has come to rest and no queue is left behind an idle pipe, every submission has ended and its reference
      is gone. */
  lemma AllEnd(r: seq<State>, moves: seq<Move>)
    requires IsRun(r, moves) && AtRest(r[|moves|]) && Attended(r[|moves|])
    ensures forall k | 0 <= k < |r[|moves|].subs| :: r[|moves|].subs[k].pc.Gone? && r[|moves|].subs[k].end.Some?
    ensures forall u | 0 <= u < |r[|moves|].urbs| :: r[|moves|].urbs[u].refs == if r[|moves|].urbs[u].owned then 1 else 0
  {
    hide Init, Enabled, Perform, Inv, WellFormed, Attended, AtRest;
    var n := |moves|;
    RunInv(r, moves, n);
    forall k | 0 <= k < |r[n].subs|
      ensures r[n].subs[k].pc.Gone? && r[n].subs[k].end.Some?
    {
      RestAttended(r[n], k);
    }
    forall u | 0 <= u < |r[n].urbs|
      ensures r[n].urbs[u].refs == if r[n].urbs[u].owned then 1 else 0
    {
      RefcountInRuns(r, moves, n, u);
      assert LiveSubs(r[n], u) == {};
    }
  }

  /** So it is if check and append are one step and no data transfer was refused. */
  lemma AtomicAllEnd(r: seq<State>, moves: seq<Move>)
    requires IsRun(r, moves) && AtRest(r[|moves|]) && Together(r, moves) && NeverRefused(r, moves)
    ensures forall k | 0 <= k < |r[|moves|].subs| :: r[|moves|].subs[k].pc.Gone? && r[|moves|].subs[k].end.Some?
    ensures forall u | 0 <= u < |r[|moves|].urbs| :: r[|moves|].urbs[u].refs == if r[|moves|].urbs[u].owned then 1 else 0
  {
    hide IsRun, AtRest, Attended, Together, NeverRefused;
    AtomicNeverStrands(r, moves, |moves|);
    AllEnd(r, moves);
  }

  lemma RestAttended(s: State, k: SubId)
    requires Inv(s) && AtRest(s) && Attended(s) && k < |s.subs|
    ensures s.subs[k].pc.Gone? && s.subs[k].end.Some?
  {
    hide Core, ServeInv, AtRest, Attended, Known, Holds;
    RestPc(s, k);
    if s.subs[k].pc.Queued? {
      var e := QueuedAt(s, k);
      AttendedAt(s, e);
      var j := s.eps[e].pipe.value;
      PipeFree(s, e, j);
      HostKnown(s, j);
      RestPc(s, j);
      HoldsMeans(s.subs[j].pc);
    }
    KnownIn(s, k);
    GoneEnded(s, k);
  }

  lemma HoldsMeans(pc: Pc)
    requires Holds(pc)
    ensures !pc.Gone? && !pc.Queued?
  {
  }

  lemma GoneEnded(s: State, k: SubId)
    requires Known(s, k) && s.subs[k].pc.Gone?
    ensures s.subs[k].end.Some?
  {
  }

  lemma QueuedAt(s: State, k: SubId) returns (e: EpId)
    requires Core(s) && k < |s.subs| && s.subs[k].pc.Queued?
    ensures e in s.eps && s.eps[e].pending != []
  {
    hide OutInv, PipeInv, SubInv, RefInv;
    e := EpOf(s, k).value;
    assert k in s.eps[e].pending;
  }

  // ----- runs that strand a submission

  /** A submission was accepted, and is left in the queue of an endpoint whose pipe is idle. */
  predicate Stranded(s: State, k: SubId) {
    && k < |s.subs| && s.subs[k].accepted && s.subs[k].pc.Queued? && s.subs[k].urb < |s.urbs|
    && var ep := EpOf(s, k); ep.Some? && ep.value in s.eps && k in s.eps[ep.value].pending && s.eps[ep.value].pipe.None?
  }

  /** One more move, keeping track of the two rules. */
  lemma PlayOn(r: seq<State>, moves: seq<Move>, m: Move) returns (r': seq<State>, moves': seq<Move>)
    requires IsRun(r, moves) && Enabled(r[|moves|], m)
    ensures IsRun(r', moves') && moves' == moves + [m]
    ensures WellFormed(r[|moves|]) && r' == r + [Perform(r[|moves|], m)]
    ensures NeverRefused(r, moves) && !Refuses(r[|moves|], m) ==> NeverRefused(r', moves')
    ensures Together(r, moves)
            && (Appends(r[|moves|], m) ==> |moves| > 0 && Claims(r[|moves| - 1], moves[|moves| - 1]) && moves[|moves| - 1] == m)
            ==> Together(r', moves')
  {
    hide IsRun, Enabled, Perform, Refuses, Appends, Claims;
    r', moves' := Play(r, moves, m);
    RunLengths(r, moves);
    RunLengths(r', moves');
  }

  lemma RunLengths(r: seq<State>, moves: seq<Move>)
    requires IsRun(r, moves)
    ensures |r| == |moves| + 1
  {
  }

  const SILENT := Setup(false, false, 0, None, 0, false)

  function Fresh(u: UrbId, pc: Pc): Sub {
    Sub(u, SILENT, pc, false, 0, 0, false, false, None, None)
  }

  function Waiting(o: Option<SubId>): Urb {
    Urb(Some(0), o, false, if o.Some? then 2 else 1, true, false, 0, 0, false)
  }

  const EMPTY_EP := Endpoint(None, [], [], [])

  lemma TwoUrbs() returns (r: seq<State>, moves: seq<Move>)
    ensures IsRun(r, moves) && |moves| == 2 && NeverRefused(r, moves) && Together(r, moves)
    ensures r[2] == State([Waiting(None), Waiting(None)], [], map[0 := EMPTY_EP])
  {
    hide WellFormed, SubmitterStep, LaunchStep, CompleteStep, HandlerStep, NextStep;
    r, moves := [State([], [], map[0 := EMPTY_EP])], [];
    r, moves := PlayOn(r, moves, Alloc(Some(0)));
    r, moves := PlayOn(r, moves, Alloc(Some(0)));
    assert r[2].urbs == [Waiting(None), Waiting(None)];
  }

  /** Two URBs of one endpoint; the first submitter has claimed the pipe. */
  lemma FirstClaims() returns (r: seq<State>, moves: seq<Move>)
    ensures IsRun(r, moves) && |moves| == 4 && NeverRefused(r, moves) && Together(r, moves)
    ensures r[4] == State([Waiting(Some(0)), Waiting(None)], [Fresh(0, Launching)], map[0 := EMPTY_EP.(pipe := Some(0))])
  {
    hide WellFormed, LaunchStep, CompleteStep, HandlerStep, NextStep;
    r, moves := TwoUrbs();
    r, moves := PlayOn(r, moves, Submit(0, SILENT));
    r, moves := PlayOn(r, moves, Go(0));
    assert r[4].urbs == [Waiting(Some(0)), Waiting(None)] && r[4].subs == [Fresh(0, Launching)];
  }

  /** The second sees the pipe busy. */
  lemma SecondSeesBusy() returns (r: seq<State>, moves: seq<Move>)
    ensures IsRun(r, moves) && |moves| == 6 && NeverRefused(r, moves) && Together(r, moves)
    ensures Claims(r[5], moves[5]) && moves[5] == Go(1)
    ensures r[6] == State([Waiting(Some(0)), Waiting(Some(1))], [Fresh(0, Launching), Fresh(1, Appending)],
                          map[0 := EMPTY_EP.(pipe := Some(0))])
  {
    hide WellFormed, LaunchStep, CompleteStep, HandlerStep, NextStep;
    r, moves := FirstClaims();
    r, moves := PlayOn(r, moves, Submit(1, SILENT));
    r, moves := PlayOn(r, moves, Go(1));
    assert r[6].urbs == [Waiting(Some(0)), Waiting(Some(1))] && r[6].subs == [Fresh(0, Launching), Fresh(1, Appending)];
  }

  /** The transfer of the first completes. */
  lemma FirstCompletes() returns (r: seq<State>, moves: seq<Move>)
    ensures IsRun(r, moves) && |moves| == 9 && NeverRefused(r, moves)
    ensures r[9].eps == map[0 := EMPTY_EP.(pipe := Some(0))] && |r[9].urbs| == 2 && r[9].urbs[0].ep == Some(0)
    ensures r[9].urbs[1] == Waiting(Some(1))
    ensures |r[9].subs| == 2 && r[9].subs[0].urb == 0 && r[9].subs[0].pc.Reporting? && r[9].subs[0].setup == SILENT
    ensures r[9].subs[1] == Fresh(1, Appending)
  {
    hide WellFormed, SubmitterStep, NextStep, Together;
    r, moves := SecondSeesBusy();
    r, moves := PlayOn(r, moves, Launch(0, true, Success));
    r, moves := PlayOn(r, moves, Complete(0, Success, 0, true));
    r, moves := PlayOn(r, moves, Go(0));
  }

  /** Its handler comes to the queue. */
  lemma FirstHands() returns (r: seq<State>, moves: seq<Move>)
    ensures IsRun(r, moves) && |moves| == 10 && NeverRefused(r, moves)
    ensures r[10].eps == map[0 := EMPTY_EP.(pipe := Some(0))] && |r[10].urbs| == 2 && r[10].urbs[0].ep == Some(0)
    ensures r[10].urbs[1] == Waiting(Some(1))
    ensures |r[10].subs| == 2 && r[10].subs[0].urb == 0 && r[10].subs[0].pc.Handing? && r[10].subs[1] == Fresh(1, Appending)
  {
    hide WellFormed, LaunchStep, CompleteStep, NextStep, SubmitterStep, Together;
    r, moves := FirstCompletes();
    r, moves := PlayOn(r, moves, Go(0));
  }

  /** It finds nobody queued and clears pipe_busy. */
  lemma PipeCleared() returns (r: seq<State>, moves: seq<Move>)
    ensures IsRun(r, moves) && |moves| == 11 && NeverRefused(r, moves)
    ensures r[11].eps == map[0 := EMPTY_EP] && |r[11].urbs| == 2 && r[11].urbs[1] == Waiting(Some(1))
    ensures |r[11].subs| == 2 && r[11].subs[1] == Fresh(1, Appending)
  {
    hide WellFormed, LaunchStep, CompleteStep, NextStep, SubmitterStep, Together;
    r, moves := FirstHands();
    r, moves := PlayOn(r, moves, Go(0));
  }

  /** Only then does the second append itself. */
  lemma LateAppend() returns (r: seq<State>, moves: seq<Move>)
    ensures IsRun(r, moves) && |moves| == 12 && NeverRefused(r, moves) && Stranded(r[12], 1)
  {
    hide WellFormed, LaunchStep, CompleteStep, HandlerStep, NextStep, Together;
    r, moves := PipeCleared();
    r, moves := PlayOn(r, moves, Go(1));
  }

  /** The second appends itself at once. */
  lemma PromptAppend() returns (r: seq<State>, moves: seq<Move>)
    ensures IsRun(r, moves) && |moves| == 7 && Together(r, moves)
    ensures r[7].eps == map[0 := EMPTY_EP.(pipe := Some(0), pending := [1], appended := [1])]
    ensures r[7].urbs == [Waiting(Some(0)), Waiting(Some(1))]
    ensures r[7].subs == [Fresh(0, Launching), Fresh(1, Queued).(accepted := true)]
  {
    hide WellFormed, HandlerStep, CompleteStep, NextStep, LaunchStep, NeverRefused;
    r, moves := SecondSeesBusy();
    r, moves := PlayOn(r, moves, Go(1));
    assert r[7].eps[0].pending == [1] && r[7].eps[0].appended == [1];
  }

  /** Then the launch of the first is refused, which clears pipe_busy. */
  lemma RefusedLaunch() returns (r: seq<State>, moves: seq<Move>)
    ensures IsRun(r, moves) && |moves| == 9 && Together(r, moves) && Stranded(r[9], 1)
  {
    hide WellFormed, HandlerStep, CompleteStep, NextStep, NeverRefused;
    r, moves := PromptAppend();
    r, moves := PlayOn(r, moves, Launch(0, false, Stall));
    r, moves := PlayOn(r, moves, Go(0));
  }

  /** Neither rule can be dropped: an accepted submission is left behind an idle pipe in a run without any refusal, and in a run
      in which every append comes right after its check. */
  lemma SubmissionStranded()
    ensures exists r: seq<State>, moves: seq<Move>, k: SubId ::
              IsRun(r, moves) && NeverRefused(r, moves) && Stranded(r[|moves|], k)
    ensures exists r: seq<State>, moves: seq<Move>, k: SubId ::
              IsRun(r, moves) && Together(r, moves) && Stranded(r[|moves|], k)
  {
    hide IsRun, NeverRefused, Together, Stranded;
    var r0, moves0 := LateAppend();
    var r1, moves1 := RefusedLaunch();
  }
}
