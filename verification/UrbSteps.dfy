/** Every step of the URB engine keeps the invariant. */
module UrbSteps {
  import opened Basics
  import opened UrbEngine
  import opened UrbInvariant

  /** What the invariant says about one submission and what it touches. */
  ghost predicate Known(s: State, k: SubId) {
    && k < |s.subs| && s.subs[k].urb < |s.urbs|
    && var sub := s.subs[k]; var y := s.urbs[sub.urb];
    && SubOk(sub) && (Open(sub.pc) ==> FlightOk(sub, y))
    && (Open(sub.pc) <==> y.outstanding == Some(k))
    && (NeedsEndpoint(sub.pc) ==> y.ep.Some?)
    && (y.ep.Some? ==> y.ep.value in s.eps && (Holds(sub.pc) <==> s.eps[y.ep.value].pipe == Some(k)))
    && (!sub.pc.Gone? ==> y.refs >= 1 && !y.freed)
  }

  lemma Facts(s: State, k: SubId)
    requires Core(s) && k < |s.subs|
    ensures Known(s, k)
  {
    hide QueueInv, SubOk, FlightOk, Open, Holds, NeedsEndpoint;
    var u := s.subs[k].urb;
    assert RefOk(s, u);
    if !s.subs[k].pc.Gone? { assert k in LiveSubs(s, u); }
  }

  lemma PipeFree(s: State, e: EpId, k: SubId)
    requires Core(s) && e in s.eps && s.eps[e].pipe == Some(k)
    ensures Known(s, k) && Holds(s.subs[k].pc) && s.urbs[s.subs[k].urb].ep == Some(e)
  {
    hide QueueInv, OutInv, SubInv, RefInv, Known, Holds;
    assert k < |s.subs|;
    Facts(s, k);
  }

  /** A step on `k` alone that the invariant, apart from ServeInv, survives. */
  ghost predicate Sound(s: State, s': State, k: SubId) {
    && |s'.subs| == |s.subs| && |s'.urbs| == |s.urbs| && k < |s.subs| && s.subs[k].urb < |s.urbs|
    && Local(s, s', k, s'.subs[k], s'.urbs[s.subs[k].urb])
    && Fits(s, s', k, s'.subs[k], s'.urbs[s.subs[k].urb])
  }

  ghost predicate SameServe(p: Pc, q: Pc) {
    !p.Serving? && !q.Serving? && Adopted(p) == Adopted(q) && (Adopted(p) ==> p.host == q.host)
  }

  ghost predicate Fine(s: State, s': State, k: SubId) {
    Sound(s, s', k) && SameServe(s.subs[k].pc, s'.subs[k].pc)
  }

  lemma SoundKeeps(s: State, s': State, k: SubId)
    requires Core(s) && Sound(s, s', k)
    ensures Core(s')
  {
    hide Core, Fits;
    LocalCore(s, s', k, s'.subs[k], s'.urbs[s.subs[k].urb]);
  }

  lemma FineKeeps(s: State, s': State, k: SubId)
    requires Inv(s) && Fine(s, s', k)
    ensures Inv(s')
  {
    hide Core, Fits, ServeInv;
    LocalCore(s, s', k, s'.subs[k], s'.urbs[s.subs[k].urb]);
    ServeSame(s, s', k, s'.subs[k]);
  }

  lemma ClaimingFine(s: State, k: SubId)
    requires WellFormed(s) && Known(s, k) && s.subs[k].pc.Claiming?
    ensures Fine(s, SubmitterStep(s, k), k)
  {
    hide WellFormed;
  }

  lemma AppendingFine(s: State, k: SubId)
    requires WellFormed(s) && Known(s, k) && s.subs[k].pc.Appending?
    ensures Fine(s, SubmitterStep(s, k), k)
  {
    hide WellFormed;
  }

  lemma UnclaimingFine(s: State, k: SubId)
    requires WellFormed(s) && Known(s, k) && s.subs[k].pc.Unclaiming?
    ensures Fine(s, SubmitterStep(s, k), k)
  {
    hide WellFormed;
  }

  lemma RefusingFine(s: State, k: SubId)
    requires WellFormed(s) && Known(s, k) && s.subs[k].pc.Refusing?
    ensures Fine(s, SubmitterStep(s, k), k)
  {
    hide WellFormed;
  }

  lemma RefusedDropFine(s: State, k: SubId)
    requires WellFormed(s) && Known(s, k) && s.subs[k].pc.RefusedDrop?
    ensures Fine(s, SubmitterStep(s, k), k)
  {
    hide WellFormed;
  }

  lemma LaunchingFine(s: State, k: SubId, ok: bool, refusal: Event)
    requires WellFormed(s) && Known(s, k) && s.subs[k].pc.Launching? && (ok ==> DataLen(s.subs[k].setup).Size?)
    ensures Fine(s, LaunchStep(s, k, ok, refusal), k)
  {
    hide WellFormed;
  }

  lemma ZlpLaunchingFine(s: State, k: SubId, ok: bool, refusal: Event)
    requires WellFormed(s) && Known(s, k) && s.subs[k].pc.ZlpLaunching?
    ensures Fine(s, LaunchStep(s, k, ok, refusal), k)
  {
    hide WellFormed;
  }

  lemma NLaunchingFine(s: State, k: SubId, refusal: Event)
    requires WellFormed(s) && Known(s, k) && s.subs[k].pc.NLaunching?
    ensures Fine(s, LaunchStep(s, k, false, refusal), k)
  {
    hide WellFormed;
  }

  lemma CompleteFine(s: State, k: SubId, e: Event, actual: int, copied: bool)
    requires WellFormed(s) && Known(s, k) && s.subs[k].pc.InFlight?
    ensures Fine(s, CompleteStep(s, k, e, actual, copied), k)
  {
    hide WellFormed, MappedStatus;
  }

  lemma EndingFine(s: State, k: SubId)
    requires WellFormed(s) && Known(s, k) && s.subs[k].pc.Ending?
    ensures Fine(s, HandlerStep(s, k), k)
  {
    hide WellFormed;
  }

  lemma ReportingFine(s: State, k: SubId)
    requires WellFormed(s) && Known(s, k) && s.subs[k].pc.Reporting?
    ensures Fine(s, HandlerStep(s, k), k)
  {
    hide WellFormed;
  }

  lemma CallingFine(s: State, k: SubId)
    requires WellFormed(s) && Known(s, k) && s.subs[k].pc.Calling?
    ensures Fine(s, HandlerStep(s, k), k)
  {
    hide WellFormed;
  }

  lemma DroppingFine(s: State, k: SubId)
    requires WellFormed(s) && Known(s, k) && s.subs[k].pc.Dropping?
    ensures Fine(s, HandlerStep(s, k), k)
  {
    hide WellFormed;
  }

  lemma HandingIdleFine(s: State, k: SubId)
    requires WellFormed(s) && Known(s, k) && s.subs[k].pc.Handing? && s.eps[s.urbs[s.subs[k].urb].ep.value].pending == []
    ensures Fine(s, HandlerStep(s, k), k)
  {
    hide WellFormed;
  }

  lemma NFailingFine(s: State, k: SubId)
    requires WellFormed(s) && Known(s, k) && s.subs[k].pc.NFailing?
    ensures Fine(s, NextStep(s, k), k)
  {
    hide WellFormed;
  }

  lemma NUnclaimingFine(s: State, k: SubId)
    requires WellFormed(s) && Known(s, k) && s.subs[k].pc.NUnclaiming?
    ensures Fine(s, NextStep(s, k), k)
  {
    hide WellFormed;
  }

  lemma NReportingFine(s: State, k: SubId)
    requires WellFormed(s) && Known(s, k) && s.subs[k].pc.NReporting?
    ensures Fine(s, NextStep(s, k), k)
  {
    hide WellFormed;
  }

  lemma NCallingFine(s: State, k: SubId)
    requires WellFormed(s) && Known(s, k) && s.subs[k].pc.NCalling?
    ensures Fine(s, NextStep(s, k), k)
  {
    hide WellFormed;
  }

  // ----- steps that change a handler and the submission it serves

  lemma ServedBy(s: State, j: SubId)
    requires ServeInv(s) && j < |s.subs| && Adopted(s.subs[j].pc)
    ensures s.subs[j].pc.host < |s.subs| && s.subs[s.subs[j].pc.host].pc == Serving(j)
  {
  }

  lemma AdoptedLaunched(s: State, j: SubId)
    requires WellFormed(s) && Known(s, j) && s.subs[j].pc.NLaunching? && DataLen(s.subs[j].setup).Size?
    ensures var x := s.subs[j];
            Sound(s, Put(s, j, x.(pc := InFlight, transfers := x.transfers + 1), s.urbs[x.urb].(submittedLen := Sent(x.setup))), j)
  {
    hide WellFormed;
  }

  lemma AdoptedDropped(s: State, j: SubId)
    requires WellFormed(s) && Known(s, j) && s.subs[j].pc.NDropping?
    ensures var x := s.subs[j]; Sound(s, Put(s, j, x.(pc := Gone), Released(s.urbs[x.urb])), j)
  {
    hide WellFormed;
  }

  lemma ServingDone(s: State, k: SubId)
    requires Known(s, k) && s.subs[k].pc.Serving?
    ensures Sound(s, Move1(s, k, s.subs[k].(pc := Dropping)), k)
  {
  }

  /** After `s1` finished `j`, its handler moves on. */
  lemma UnlinkKeeps(s: State, s1: State, j: SubId, w: Sub)
    requires Inv(s) && Core(s1) && j < |s.subs| && Adopted(s.subs[j].pc) && s1.subs == s.subs[j := w]
    requires w.pc.InFlight? || w.pc.Gone?
    ensures var k := s.subs[j].pc.host; k < |s1.subs| && s1.subs[k].urb < |s1.urbs| && Inv(Move1(s1, k, s1.subs[k].(pc := Dropping)))
  {
    hide Core, ServeInv, Known, Sound, Move1;
    ServedBy(s, j);
    var k := s.subs[j].pc.host;
    assert k != j && s1.subs[k] == s.subs[k];
    Facts(s1, k);
    HostKnown(s1, k);
    var s2 := Move1(s1, k, s1.subs[k].(pc := Dropping));
    ServingDone(s1, k);
    SoundKeeps(s1, s2, k);
    assert s2.subs == s1.subs[k := s1.subs[k].(pc := Dropping)] by { MoveSubs(s1, k, s1.subs[k].(pc := Dropping)); }
    ServeUnlink(s, s2, j, w, k, s1.subs[k].(pc := Dropping));
  }

  lemma HostKnown(s: State, k: SubId)
    requires Known(s, k)
    ensures k < |s.subs| && s.subs[k].urb < |s.urbs|
  {
  }

  lemma MoveSubs(s: State, k: SubId, x: Sub)
    requires k < |s.subs| && x.urb < |s.urbs|
    ensures Move1(s, k, x).subs == s.subs[k := x]
  {
  }

  lemma NLaunchedKeeps(s: State, j: SubId, refusal: Event)
    requires Inv(s) && WellFormed(s) && j < |s.subs| && s.subs[j].pc.NLaunching? && DataLen(s.subs[j].setup).Size?
    ensures Inv(LaunchStep(s, j, true, refusal))
  {
    hide Core, ServeInv, WellFormed, Known, Sound;
    Facts(s, j);
    HostKnown(s, j);
    var x := s.subs[j];
    var s1 := Put(s, j, x.(pc := InFlight, transfers := x.transfers + 1), s.urbs[x.urb].(submittedLen := Sent(x.setup)));
    AdoptedLaunched(s, j);
    SoundKeeps(s, s1, j);
    UnlinkKeeps(s, s1, j, x.(pc := InFlight, transfers := x.transfers + 1));
  }

  lemma NDroppingKeeps(s: State, j: SubId)
    requires Inv(s) && WellFormed(s) && j < |s.subs| && s.subs[j].pc.NDropping?
    ensures Inv(NextStep(s, j))
  {
    hide Core, ServeInv, WellFormed, Known, Sound;
    Facts(s, j);
    HostKnown(s, j);
    var x := s.subs[j];
    var s1 := Put(s, j, x.(pc := Gone), Released(s.urbs[x.urb]));
    AdoptedDropped(s, j);
    SoundKeeps(s, s1, j);
    UnlinkKeeps(s, s1, j, x.(pc := Gone));
  }

  /** The handler lets go of the pipe, and the head of the queue takes it. */
  function LetGo(s: State, k: SubId, e: EpId, j: SubId): State
    requires k < |s.subs| && s.subs[k].urb < |s.urbs| && e in s.eps
  {
    SetEp(Move1(s, k, s.subs[k].(pc := Serving(j))), e, s.eps[e].(pipe := None))
  }

  function TakeOver(s: State, k: SubId, e: EpId, j: SubId): State
    requires j < |s.subs| && s.subs[j].urb < |s.urbs| && e in s.eps && s.eps[e].pending != []
  {
    var z := s.eps[e];
    SetEp(Move1(s, j, s.subs[j].(pc := NLaunching(k))), e,
          z.(pipe := Some(j), pending := z.pending[1..], popped := z.popped + [j]))
  }

  lemma LetGoSound(s: State, k: SubId, e: EpId, j: SubId)
    requires Known(s, k) && s.subs[k].pc.Handing? && s.urbs[s.subs[k].urb].ep == Some(e)
    ensures Sound(s, LetGo(s, k, e, j), k)
  {
  }

  lemma TakeOverSound(s: State, k: SubId, e: EpId, j: SubId)
    requires Known(s, j) && s.subs[j].pc.Queued? && s.urbs[s.subs[j].urb].ep == Some(e)
    requires s.eps[e].pipe.None? && s.eps[e].pending != [] && s.eps[e].pending[0] == j
    ensures Sound(s, TakeOver(s, k, e, j), j)
  {
  }

  lemma HeadFacts(s: State, e: EpId)
    requires Core(s) && e in s.eps && s.eps[e].pending != []
    ensures var j := s.eps[e].pending[0]; j < |s.subs| && s.subs[j].pc.Queued? && s.subs[j].urb < |s.urbs| && EpOf(s, j) == Some(e)
  {
    hide OutInv, PipeInv, SubInv, RefInv;
    assert QueueOk(s, e);
    assert s.eps[e].pending[0] == s.eps[e].appended[|s.eps[e].popped|];
  }

  lemma HandingPopIs(s: State, k: SubId, e: EpId)
    requires WellFormed(s) && Known(s, k) && s.subs[k].pc.Handing? && s.urbs[s.subs[k].urb].ep == Some(e)
    requires e in s.eps && s.eps[e].pending != []
    requires s.eps[e].pending[0] < |s.subs| && s.subs[s.eps[e].pending[0]].urb < |s.urbs|
    requires s.eps[e].pending[0] != k
    ensures var j := s.eps[e].pending[0]; var s1 := LetGo(s, k, e, j);
            s1.subs[j] == s.subs[j] && HandlerStep(s, k) == TakeOver(s1, k, e, j)
  {
    hide WellFormed, SubOk, FlightOk, Open;
    var j := s.eps[e].pending[0];
    assert TakeOver(LetGo(s, k, e, j), k, e, j).eps == HandlerStep(s, k).eps;
  }

  lemma PopSubs(s: State, k: SubId, e: EpId, j: SubId)
    requires k < |s.subs| && j < |s.subs| && j != k && s.subs[k].urb < |s.urbs| && s.subs[j].urb < |s.urbs|
    requires e in s.eps && s.eps[e].pending != []
    ensures var s1 := LetGo(s, k, e, j);
            TakeOver(s1, k, e, j).subs == s.subs[k := s.subs[k].(pc := Serving(j))][j := s.subs[j].(pc := NLaunching(k))]
    ensures e in LetGo(s, k, e, j).eps && LetGo(s, k, e, j).eps[e] == s.eps[e].(pipe := None)
  {
  }

  lemma HandingPopKeeps(s: State, k: SubId)
    requires Inv(s) && WellFormed(s) && k < |s.subs| && s.subs[k].pc.Handing? && Known(s, k)
    requires s.eps[s.urbs[s.subs[k].urb].ep.value].pending != []
    ensures Inv(HandlerStep(s, k))
  {
    hide Core, ServeInv, WellFormed, Sound, LetGo, TakeOver, SubOk, FlightOk, Open, Holds, HandlerStep;
    var e := s.urbs[s.subs[k].urb].ep.value;
    HeadFacts(s, e);
    var j := s.eps[e].pending[0];
    PopSubs(s, k, e, j);
    HandingPopIs(s, k, e);
    var s1 := LetGo(s, k, e, j);
    LetGoSound(s, k, e, j);
    SoundKeeps(s, s1, k);
    Facts(s1, j);
    HeadFacts(s1, e);
    TakeOverSound(s1, k, e, j);
    var s2 := TakeOver(s1, k, e, j);
    SoundKeeps(s1, s2, j);
    ServeLink(s, s2, k, s.subs[k].(pc := Serving(j)), j, s.subs[j].(pc := NLaunching(k)));
  }

  // ----- moves of the driver

  lemma AllocRefs(s: State, ep: Option<EpId>)
    requires RefInv(s) && WellFormed(s) && Enabled(s, Alloc(ep))
    requires forall k | 0 <= k < |s.subs| :: s.subs[k].urb < |s.urbs|
    ensures RefInv(Perform(s, Alloc(ep)))
  {
    hide WellFormed;
    var s' := Perform(s, Alloc(ep));
    forall u | 0 <= u < |s'.urbs|
      ensures RefOk(s', u)
    {
      if u < |s.urbs| { assert RefOk(s, u); }
      assert LiveSubs(s', u) == if u < |s.urbs| then LiveSubs(s, u) else {};
    }
  }

  lemma AllocKeeps(s: State, ep: Option<EpId>)
    requires Inv(s) && WellFormed(s) && Enabled(s, Alloc(ep))
    ensures Inv(Perform(s, Alloc(ep)))
  {
    hide WellFormed, SubOk, FlightOk, Open, Holds, NeedsEndpoint, Adopted, Early, RefInv;
    var s' := Perform(s, Alloc(ep));
    AllocRefs(s, ep);
    assert forall k | 0 <= k < |s.subs| :: EpOf(s', k) == EpOf(s, k);
    forall e <- s.eps ensures QueueOk(s', e) { assert QueueOk(s, e); }
  }

  /** A change of one URB that leaves its endpoint and its submission alone. */
  ghost predicate UrbOnly(s: State, s': State, u: UrbId) {
    && u < |s.urbs| && s'.subs == s.subs && s'.eps == s.eps
    && |s'.urbs| == |s.urbs| && s'.urbs == s.urbs[u := s'.urbs[u]]
    && var y, y' := s.urbs[u], s'.urbs[u];
       && y'.ep == y.ep && y'.outstanding == y.outstanding && y'.zlp == y.zlp && y'.completedLen == y.completedLen
       && y'.refs - (if y'.owned then 1 else 0) == y.refs - (if y.owned then 1 else 0)
       && (y'.freed <==> y'.refs == 0)
  }

  lemma UrbOnlyRefs(s: State, s': State, u: UrbId)
    requires RefInv(s) && UrbOnly(s, s', u)
    ensures RefInv(s')
  {
    forall v | 0 <= v < |s'.urbs|
      ensures RefOk(s', v)
    {
      assert RefOk(s, v);
      assert LiveSubs(s', v) == LiveSubs(s, v);
    }
  }

  lemma UrbOnlyKeeps(s: State, s': State, u: UrbId)
    requires Inv(s) && UrbOnly(s, s', u)
    ensures Inv(s')
  {
    hide SubOk, Open, Holds, NeedsEndpoint, Adopted, Early, RefInv;
    UrbOnlyRefs(s, s', u);
    assert forall k | 0 <= k < |s.subs| :: EpOf(s', k) == EpOf(s, k);
    forall e <- s.eps ensures QueueOk(s', e) { assert QueueOk(s, e); }
  }

  lemma FreeKeeps(s: State, u: UrbId)
    requires Inv(s) && WellFormed(s) && Enabled(s, Free(u))
    ensures Inv(Perform(s, Free(u)))
  {
    hide WellFormed, OutInv, PipeInv, SubInv, QueueInv, ServeInv, Shape;
    assert RefOk(s, u);
    UrbOnlyKeeps(s, Perform(s, Free(u)), u);
  }

  lemma KillKeeps(s: State, u: UrbId)
    requires Inv(s) && WellFormed(s) && Enabled(s, Kill(u))
    ensures Inv(Perform(s, Kill(u)))
  {
    hide WellFormed, OutInv, PipeInv, SubInv, QueueInv, ServeInv, Shape;
    assert RefOk(s, u);
    UrbOnlyKeeps(s, Perform(s, Kill(u)), u);
  }

  lemma SubmitShape(s: State, u: UrbId, setup: Setup)
    requires Shape(s) && u < |s.urbs|
    ensures Shape(Submitted(s, u, setup))
    ensures forall k | 0 <= k < |s.subs| :: EpOf(Submitted(s, u, setup), k) == EpOf(s, k)
  {
  }

  lemma SubmitOut(s: State, u: UrbId, setup: Setup)
    requires Shape(s) && OutInv(s) && u < |s.urbs| && s.urbs[u].outstanding.None? && Shape(Submitted(s, u, setup))
    ensures OutInv(Submitted(s, u, setup))
  {
    hide NeedsEndpoint;
  }

  lemma SubmitPipe(s: State, u: UrbId, setup: Setup)
    requires Shape(s) && PipeInv(s) && u < |s.urbs| && Shape(Submitted(s, u, setup))
    requires forall k | 0 <= k < |s.subs| :: EpOf(Submitted(s, u, setup), k) == EpOf(s, k)
    ensures PipeInv(Submitted(s, u, setup))
  {
    hide NeedsEndpoint;
  }

  lemma SubmitQueue(s: State, u: UrbId, setup: Setup)
    requires Shape(s) && QueueInv(s) && u < |s.urbs| && Shape(Submitted(s, u, setup))
    requires forall k | 0 <= k < |s.subs| :: EpOf(Submitted(s, u, setup), k) == EpOf(s, k)
    ensures QueueInv(Submitted(s, u, setup))
  {
    hide Early;
    forall e <- s.eps ensures QueueOk(Submitted(s, u, setup), e) { assert QueueOk(s, e); }
  }

  lemma SubmitSub(s: State, u: UrbId, setup: Setup)
    requires Shape(s) && OutInv(s) && SubInv(s) && u < |s.urbs| && s.urbs[u].outstanding.None? && Shape(Submitted(s, u, setup))
    ensures SubInv(Submitted(s, u, setup))
  {
    hide NeedsEndpoint, SubOk, FlightOk, Open;
    var s' := Submitted(s, u, setup);
    var n := |s.subs|;
    NewSubOk(s'.subs[n], s'.urbs[u]);
    forall k | 0 <= k < |s'.subs| && Open(s'.subs[k].pc)
      ensures FlightOk(s'.subs[k], s'.urbs[s'.subs[k].urb])
    {
      if k < n { assert s.urbs[s.subs[k].urb].outstanding == Some(k); }
    }
  }

  lemma NewSubOk(sub: Sub, urb: Urb)
    requires sub == Sub(sub.urb, sub.setup, Claiming, false, 0, 0, false, false, None, None) && !urb.zlp
    ensures SubOk(sub) && FlightOk(sub, urb)
  {
  }

  lemma LiveAfterSubmit(s: State, u: UrbId, setup: Setup, v: UrbId)
    requires u < |s.urbs|
    ensures LiveSubs(Submitted(s, u, setup), v) == if v == u then LiveSubs(s, v) + {|s.subs|} else LiveSubs(s, v)
    ensures |s.subs| !in LiveSubs(s, v)
  {
  }

  lemma SubmitRef(s: State, u: UrbId, setup: Setup)
    requires RefInv(s) && u < |s.urbs| && !s.urbs[u].freed
    ensures RefInv(Submitted(s, u, setup))
  {
    hide LiveSubs;
    var s' := Submitted(s, u, setup);
    forall v | 0 <= v < |s'.urbs|
      ensures RefOk(s', v)
    {
      assert RefOk(s, v);
      LiveAfterSubmit(s, u, setup, v);
    }
  }

  lemma SubmitServe(s: State, u: UrbId, setup: Setup)
    requires ServeInv(s) && u < |s.urbs|
    ensures ServeInv(Submitted(s, u, setup))
  {
  }

  lemma SubmitKeeps(s: State, u: UrbId, setup: Setup)
    requires Inv(s) && WellFormed(s) && Enabled(s, Submit(u, setup))
    ensures Inv(Perform(s, Submit(u, setup)))
  {
    hide WellFormed, OutInv, PipeInv, SubInv, QueueInv, ServeInv, RefInv, Shape, Submitted;
    SubmitShape(s, u, setup);
    SubmitOut(s, u, setup);
    SubmitPipe(s, u, setup);
    SubmitQueue(s, u, setup);
    SubmitSub(s, u, setup);
    SubmitRef(s, u, setup);
    SubmitServe(s, u, setup);
  }

  // ----- all moves

  lemma SubmitterKeeps(s: State, k: SubId)
    requires Inv(s) && WellFormed(s) && k < |s.subs| && Known(s, k)
    requires var pc := s.subs[k].pc; pc.Claiming? || pc.Appending? || pc.Unclaiming? || pc.Refusing? || pc.RefusedDrop?
    ensures Inv(SubmitterStep(s, k))
  {
    hide Inv, SubmitterStep, WellFormed, Known, Fine;
    var pc := s.subs[k].pc;
    if pc.Claiming? { ClaimingFine(s, k); }
    else if pc.Appending? { AppendingFine(s, k); }
    else if pc.Unclaiming? { UnclaimingFine(s, k); }
    else if pc.Refusing? { RefusingFine(s, k); }
    else { RefusedDropFine(s, k); }
    FineInv(s, SubmitterStep(s, k), k);
  }

  lemma FineInv(s: State, s': State, k: SubId)
    requires Inv(s) && Fine(s, s', k)
    ensures Inv(s')
  {
    hide Inv, Sound, SameServe;
    FineKeeps(s, s', k);
  }

  lemma LaunchKeeps(s: State, k: SubId, ok: bool, refusal: Event)
    requires Inv(s) && WellFormed(s) && Known(s, k) && Enabled(s, Launch(k, ok, refusal))
    ensures Inv(LaunchStep(s, k, ok, refusal))
  {
    hide Inv, LaunchStep, WellFormed, Known, Fine;
    var pc := s.subs[k].pc;
    if pc.NLaunching? && ok {
      NLaunchedKeeps(s, k, refusal);
    } else {
      if pc.Launching? { LaunchingFine(s, k, ok, refusal); }
      else if pc.ZlpLaunching? { ZlpLaunchingFine(s, k, ok, refusal); }
      else { NLaunchingFine(s, k, refusal); }
      FineInv(s, LaunchStep(s, k, ok, refusal), k);
    }
  }

  lemma EpKnown(s: State, k: SubId)
    requires Known(s, k) && s.subs[k].pc.Handing?
    ensures s.subs[k].urb < |s.urbs| && s.urbs[s.subs[k].urb].ep.Some? && s.urbs[s.subs[k].urb].ep.value in s.eps
  {
  }

  lemma HandlerKeeps(s: State, k: SubId)
    requires Inv(s) && WellFormed(s) && k < |s.subs| && Known(s, k)
    requires var pc := s.subs[k].pc; pc.Ending? || pc.Reporting? || pc.Calling? || pc.Handing? || pc.Dropping?
    ensures Inv(HandlerStep(s, k))
  {
    hide Inv, HandlerStep, WellFormed, Known, Fine;
    var pc := s.subs[k].pc;
    if pc.Handing? {
      EpKnown(s, k);
      if s.eps[s.urbs[s.subs[k].urb].ep.value].pending == [] {
        HandingIdleFine(s, k);
        FineInv(s, HandlerStep(s, k), k);
      } else {
        HandingPopKeeps(s, k);
      }
    } else {
      if pc.Ending? { EndingFine(s, k); }
      else if pc.Reporting? { ReportingFine(s, k); }
      else if pc.Calling? { CallingFine(s, k); }
      else { DroppingFine(s, k); }
      FineInv(s, HandlerStep(s, k), k);
    }
  }

  lemma NextKeeps(s: State, k: SubId)
    requires Inv(s) && WellFormed(s) && k < |s.subs| && Known(s, k) && Adopted(s.subs[k].pc) && !s.subs[k].pc.NLaunching?
    ensures Inv(NextStep(s, k))
  {
    hide Inv, NextStep, WellFormed, Known, Fine;
    var pc := s.subs[k].pc;
    if pc.NDropping? {
      NDroppingKeeps(s, k);
    } else {
      if pc.NFailing? { NFailingFine(s, k); }
      else if pc.NUnclaiming? { NUnclaimingFine(s, k); }
      else if pc.NReporting? { NReportingFine(s, k); }
      else { NCallingFine(s, k); }
      FineInv(s, NextStep(s, k), k);
    }
  }

  lemma GoKeeps(s: State, k: SubId)
    requires Inv(s) && WellFormed(s) && Enabled(s, Go(k))
    ensures Inv(Perform(s, Go(k)))
  {
    hide Core, ServeInv, SubmitterStep, HandlerStep, NextStep, WellFormed, Known;
    Facts(s, k);
    var pc := s.subs[k].pc;
    if pc.Claiming? || pc.Appending? || pc.Unclaiming? || pc.Refusing? || pc.RefusedDrop? {
      SubmitterKeeps(s, k);
    } else if Adopted(pc) {
      NextKeeps(s, k);
    } else {
      HandlerKeeps(s, k);
    }
  }

  /** Every move keeps the invariant. */
  lemma PerformKeeps(s: State, m: Move)
    requires Inv(s) && WellFormed(s) && Enabled(s, m)
    ensures Inv(Perform(s, m))
  {
    hide Core, ServeInv, LaunchStep, CompleteStep, Submitted, SubmitterStep, HandlerStep, NextStep, WellFormed, Known, Fine;
    match m
    case Alloc(ep) => AllocKeeps(s, ep);
    case Free(u) => FreeKeeps(s, u);
    case Kill(u) => KillKeeps(s, u);
    case Submit(u, setup) => SubmitKeeps(s, u, setup);
    case Go(k) => GoKeeps(s, k);
    case Launch(k, ok, refusal) => Facts(s, k); LaunchKeeps(s, k, ok, refusal);
    case Complete(k, e, actual, copied) =>
      Facts(s, k);
      CompleteFine(s, k, e, actual, copied);
      FineInv(s, CompleteStep(s, k, e, actual, copied), k);
  }
}
