/** The inductive invariant of the URB engine and the steps one thread takes on its own submission. */
module UrbInvariant {
  import opened Basics
  import opened UrbEngine

  // ----- what a program counter means

  /** urb->submitted is still set for this submission. */
  predicate Open(pc: Pc) {
    || pc.Claiming? || pc.Appending? || pc.Queued? || pc.Launching? || pc.Unclaiming? || pc.Refusing?
    || pc.InFlight? || pc.ZlpLaunching? || pc.Ending? || pc.NLaunching? || pc.NFailing?
  }

  /** The submission, or the thread that works for it, owns its endpoint's pipe. */
  predicate Holds(pc: Pc) {
    || pc.Launching? || pc.Unclaiming? || pc.InFlight? || pc.ZlpLaunching? || pc.Ending? || pc.Reporting?
    || pc.Calling? || pc.Handing? || pc.NLaunching? || pc.NFailing? || pc.NUnclaiming?
  }

  predicate NeedsEndpoint(pc: Pc) {
    pc.Appending? || pc.Queued? || pc.Handing? || pc.Serving? || Adopted(pc)
  }

  predicate Early(pc: Pc) {
    pc.Claiming? || pc.Appending?
  }

  /** How a completed submission's result follows from its first native completion. */
  predicate Final(sub: Sub, res: Report) {
    && sub.accepted && sub.first.Some? && (sub.zlpTried <==> NeedsZlp(sub.setup, sub.first.value))
    && 1 <= sub.transfers <= 2 && (sub.transfers == 2 ==> sub.zlpTried)
    && res.actual == sub.first.value.actual
    && (sub.zlpTried || res.status == sub.first.value.status
        || (sub.first.value.status == Good && res.status == EINVAL && sub.setup.dirIn && sub.setup.sg.Some?))
  }

  predicate Untouched(sub: Sub) {
    sub.transfers == 0 && !sub.zlpTried && sub.first.None?
  }

  /** The callback is called once, unless there is none or the URB was killed before. */
  predicate Reported(sub: Sub) {
    sub.calls == if sub.setup.hasCallback && !sub.muted then 1 else 0
  }

  /** The history fits the program counter. */
  predicate SubOk(sub: Sub) {
    !sub.pc.Stray? && (sub.transfers > 0 ==> DataLen(sub.setup).Size?) &&
    match sub.end
    case None =>
      && Open(sub.pc) && sub.calls == 0 && !sub.muted
      && (if sub.pc.InFlight? then
            sub.accepted && if sub.zlpTried then sub.transfers == 2 && sub.first.Some? && NeedsZlp(sub.setup, sub.first.value)
                            else sub.transfers == 1 && sub.first.None?
          else if sub.pc.ZlpLaunching? then
            && sub.accepted && sub.transfers == 1 && sub.zlpTried && sub.first.Some?
            && NeedsZlp(sub.setup, sub.first.value) && sub.pc.actual == sub.first.value.actual
          else if sub.pc.Ending? then Final(sub, sub.pc.result)
          else Untouched(sub) && (sub.accepted <==> sub.pc.Queued? || Adopted(sub.pc)))
    case Some(Refused) => (sub.pc.RefusedDrop? || sub.pc.Gone?) && Untouched(sub) && !sub.accepted && sub.calls == 0
    case Some(Failed) =>
      && (sub.pc.NUnclaiming? || sub.pc.NReporting? || sub.pc.NCalling? || sub.pc.NDropping? || sub.pc.Gone?)
      && Untouched(sub) && sub.accepted
      && (if sub.pc.NUnclaiming? || sub.pc.NReporting? then sub.calls == 0 && !sub.muted else Reported(sub))
    case Some(Completed(res)) =>
      && (sub.pc.Reporting? || sub.pc.Calling? || sub.pc.Handing? || sub.pc.Serving? || sub.pc.Dropping? || sub.pc.Gone?)
      && Final(sub, res) && (if sub.pc.Reporting? then sub.calls == 0 && !sub.muted else Reported(sub))
  }

  /** The URB's own fields while its submission is open. */
  predicate FlightOk(sub: Sub, urb: Urb) {
    && (urb.zlp <==> sub.zlpTried && (sub.pc.InFlight? || sub.pc.ZlpLaunching?))
    && (urb.zlp && sub.first.Some? ==> urb.completedLen == sub.first.value.actual)
  }

  // ----- the invariant, part by part

  function EpOf(s: State, k: SubId): Option<EpId>
    requires k < |s.subs| && s.subs[k].urb < |s.urbs|
  {
    s.urbs[s.subs[k].urb].ep
  }

  predicate Shape(s: State) {
    && (forall k | 0 <= k < |s.subs| :: s.subs[k].urb < |s.urbs|)
    && (forall u | 0 <= u < |s.urbs| :: s.urbs[u].ep.Some? ==> s.urbs[u].ep.value in s.eps)
    && (forall k | 0 <= k < |s.subs| :: NeedsEndpoint(s.subs[k].pc) ==> EpOf(s, k).Some?)
  }

  /** urb->submitted is set exactly for its open submission. */
  predicate OutInv(s: State)
    requires Shape(s)
  {
    && (forall k | 0 <= k < |s.subs| :: Open(s.subs[k].pc) <==> s.urbs[s.subs[k].urb].outstanding == Some(k))
    && (forall u | 0 <= u < |s.urbs| :: var o := s.urbs[u].outstanding; o.Some? ==> o.value < |s.subs| && s.subs[o.value].urb == u)
  }

  /** pipe_busy is set exactly for the one submission that holds the pipe. */
  predicate PipeInv(s: State)
    requires Shape(s)
  {
    && (forall k | 0 <= k < |s.subs| :: EpOf(s, k).Some? ==>
          (Holds(s.subs[k].pc) <==> s.eps[EpOf(s, k).value].pipe == Some(k)))
    && (forall e <- s.eps :: var p := s.eps[e].pipe; p.Some? ==> p.value < |s.subs| && EpOf(s, p.value) == Some(e))
  }

  /** One queue against the log of what was appended to it. */
  predicate QueueOk(s: State, e: EpId)
    requires Shape(s) && e in s.eps
  {
    var z := s.eps[e];
    && z.appended == z.popped + z.pending
    && (forall i | 0 <= i < |z.appended| ::
          z.appended[i] < |s.subs| && EpOf(s, z.appended[i]) == Some(e) && !Early(s.subs[z.appended[i]].pc))
    && (forall i, j | 0 <= i < j < |z.appended| :: z.appended[i] != z.appended[j])
    && (forall i | 0 <= i < |z.pending| :: z.pending[i] < |s.subs| && s.subs[z.pending[i]].pc.Queued?)
  }

  predicate QueueInv(s: State)
    requires Shape(s)
  {
    && (forall e <- s.eps :: QueueOk(s, e))
    && (forall k | 0 <= k < |s.subs| :: s.subs[k].pc.Queued? ==> k in s.eps[EpOf(s, k).value].pending)
  }

  predicate SubInv(s: State)
    requires Shape(s)
  {
    && (forall k | 0 <= k < |s.subs| :: SubOk(s.subs[k]))
    && (forall k | 0 <= k < |s.subs| :: Open(s.subs[k].pc) ==> FlightOk(s.subs[k], s.urbs[s.subs[k].urb]))
  }

  function LiveSubs(s: State, u: UrbId): set<SubId> {
    set k | 0 <= k < |s.subs| && s.subs[k].urb == u && s.subs[k].pc != Gone
  }

  /** The reference count is the driver's reference plus the submissions that have not dropped theirs. */
  predicate RefOk(s: State, u: UrbId)
    requires u < |s.urbs|
  {
    && s.urbs[u].refs == (if s.urbs[u].owned then 1 else 0) + |LiveSubs(s, u)|
    && (s.urbs[u].freed <==> s.urbs[u].refs == 0)
  }

  predicate RefInv(s: State) {
    forall u | 0 <= u < |s.urbs| :: RefOk(s, u)
  }

  /** A handler and the queued submission it launches name each other. */
  predicate ServeInv(s: State) {
    && (forall k | 0 <= k < |s.subs| :: s.subs[k].pc.Serving? ==>
          var j := s.subs[k].pc.next; j < |s.subs| && Adopted(s.subs[j].pc) && s.subs[j].pc.host == k)
    && (forall j | 0 <= j < |s.subs| :: Adopted(s.subs[j].pc) ==>
          var h := s.subs[j].pc.host; h < |s.subs| && s.subs[h].pc == Serving(j))
  }

  predicate Core(s: State) {
    Shape(s) && OutInv(s) && PipeInv(s) && QueueInv(s) && SubInv(s) && RefInv(s)
  }

  predicate Inv(s: State) {
    Core(s) && ServeInv(s)
  }

  lemma InvWellFormed(s: State)
    requires Inv(s)
    ensures WellFormed(s)
  {
    hide OutInv, PipeInv, SubInv, RefInv;
    forall e <- s.eps
      ensures forall i | 0 <= i < |s.eps[e].pending| :: s.eps[e].pending[i] < |s.subs|
    {
      assert QueueOk(s, e);
    }
  }

  // ----- a step on one submission, its URB and its endpoint

  ghost predicate Local(s: State, s': State, k: SubId, x: Sub, y: Urb) {
    && k < |s.subs| && s.subs[k].urb < |s.urbs|
    && var u := s.subs[k].urb;
    && x.urb == u && y.ep == s.urbs[u].ep
    && s'.subs == s.subs[k := x] && s'.urbs == s.urbs[u := y]
    && (y.ep.None? ==> s'.eps == s.eps)
    && (y.ep.Some? ==> y.ep.value in s.eps && y.ep.value in s'.eps && s'.eps == s.eps[y.ep.value := s'.eps[y.ep.value]])
  }

  ghost predicate OutFits(sub: Sub, x: Sub, urb: Urb, y: Urb) {
    && (Open(x.pc) ==> Open(sub.pc))
    && y.outstanding == (if Open(sub.pc) && !Open(x.pc) then None else urb.outstanding)
  }

  ghost predicate PipeFits(k: SubId, sub: Sub, x: Sub, z: Endpoint, z': Endpoint) {
    if Holds(sub.pc) == Holds(x.pc) then z'.pipe == z.pipe
    else if Holds(x.pc) then z.pipe == None && z'.pipe == Some(k)
    else z'.pipe == None
  }

  ghost predicate QueueSame(sub: Sub, x: Sub, z: Endpoint, z': Endpoint) {
    && sub.pc.Queued? == x.pc.Queued? && (Early(x.pc) ==> Early(sub.pc))
    && z'.pending == z.pending && z'.appended == z.appended && z'.popped == z.popped
  }

  ghost predicate QueueAppend(k: SubId, sub: Sub, x: Sub, z: Endpoint, z': Endpoint) {
    && sub.pc.Appending? && x.pc.Queued?
    && z'.pending == z.pending + [k] && z'.appended == z.appended + [k] && z'.popped == z.popped
  }

  ghost predicate QueuePop(k: SubId, sub: Sub, x: Sub, z: Endpoint, z': Endpoint) {
    && sub.pc.Queued? && !x.pc.Queued? && !Early(x.pc) && z.pending != [] && z.pending[0] == k
    && z'.pending == z.pending[1..] && z'.appended == z.appended && z'.popped == z.popped + [k]
  }

  ghost predicate SubFits(sub: Sub, x: Sub, urb: Urb, y: Urb) {
    && SubOk(x) && (Open(x.pc) ==> FlightOk(x, y))
    && (!Open(sub.pc) ==> y.zlp == urb.zlp && y.completedLen == urb.completedLen)
  }

  ghost predicate RefFits(sub: Sub, x: Sub, urb: Urb, y: Urb) {
    && y.owned == urb.owned && sub.pc != Gone
    && (if x.pc.Gone? then y.refs == urb.refs - 1 && (y.freed <==> urb.freed || urb.refs == 1)
        else y.refs == urb.refs && y.freed == urb.freed)
  }

  lemma LocalShape(s: State, s': State, k: SubId, x: Sub, y: Urb)
    requires Shape(s) && Local(s, s', k, x, y)
    requires NeedsEndpoint(x.pc) ==> y.ep.Some?
    ensures Shape(s')
    ensures forall i | 0 <= i < |s.subs| :: s'.subs[i].urb < |s'.urbs| && EpOf(s', i) == EpOf(s, i)
  {
  }

  lemma LocalOut(s: State, s': State, k: SubId, x: Sub, y: Urb)
    requires Shape(s) && Shape(s') && OutInv(s) && Local(s, s', k, x, y)
    requires OutFits(s.subs[k], x, s.urbs[x.urb], y)
    ensures OutInv(s')
  {
    hide NeedsEndpoint, Open;
    forall i | 0 <= i < |s'.subs|
      ensures Open(s'.subs[i].pc) <==> s'.urbs[s'.subs[i].urb].outstanding == Some(i)
    {
      assert Open(s.subs[i].pc) <==> s.urbs[s.subs[i].urb].outstanding == Some(i);
      assert Open(s.subs[k].pc) <==> s.urbs[x.urb].outstanding == Some(k);
    }
  }

  lemma LocalPipe(s: State, s': State, k: SubId, x: Sub, y: Urb)
    requires Shape(s) && Shape(s') && PipeInv(s) && Local(s, s', k, x, y)
    requires y.ep.Some? ==> PipeFits(k, s.subs[k], x, s.eps[y.ep.value], s'.eps[y.ep.value])
    ensures PipeInv(s')
  {
    hide NeedsEndpoint;
  }

  lemma LocalSub(s: State, s': State, k: SubId, x: Sub, y: Urb)
    requires Shape(s) && Shape(s') && OutInv(s) && SubInv(s) && Local(s, s', k, x, y)
    requires SubFits(s.subs[k], x, s.urbs[x.urb], y)
    ensures SubInv(s')
  {
    hide SubOk, FlightOk, NeedsEndpoint;
    forall i | 0 <= i < |s'.subs| && Open(s'.subs[i].pc)
      ensures FlightOk(s'.subs[i], s'.urbs[s'.subs[i].urb])
    {
      if i != k && s.subs[i].urb == x.urb {
        assert FlightOk(s.subs[i], s.urbs[x.urb]);
        assert !Open(s.subs[k].pc);
        FlightSame(s.subs[i], s.urbs[x.urb], y);
      }
    }
  }

  lemma FlightSame(sub: Sub, urb: Urb, y: Urb)
    requires FlightOk(sub, urb) && y.zlp == urb.zlp && y.completedLen == urb.completedLen
    ensures FlightOk(sub, y)
  {
  }

  lemma LocalRef(s: State, s': State, k: SubId, x: Sub, y: Urb)
    requires Shape(s) && RefInv(s) && Local(s, s', k, x, y)
    requires RefFits(s.subs[k], x, s.urbs[x.urb], y)
    ensures RefInv(s')
  {
    hide Shape;
    var u := x.urb;
    assert k in LiveSubs(s, u);
    forall v | 0 <= v < |s'.urbs|
      ensures RefOk(s', v)
    {
      assert RefOk(s, v);
      if v == u && x.pc.Gone? {
        assert LiveSubs(s', v) == LiveSubs(s, v) - {k};
      } else {
        assert LiveSubs(s', v) == LiveSubs(s, v);
      }
    }
  }

  lemma LocalQueueSame(s: State, s': State, k: SubId, x: Sub, y: Urb)
    requires Shape(s) && Shape(s') && QueueInv(s) && Local(s, s', k, x, y)
    requires y.ep.Some? ==> QueueSame(s.subs[k], x, s.eps[y.ep.value], s'.eps[y.ep.value])
    requires y.ep.None? ==> !Early(x.pc) && !x.pc.Queued?
    ensures QueueInv(s')
  {
    hide Holds, Open;
    forall e <- s'.eps
      ensures QueueOk(s', e)
    {
      QueueOkSame(s, s', k, x, y, e);
    }
  }

  lemma QueueOkSame(s: State, s': State, k: SubId, x: Sub, y: Urb, e: EpId)
    requires Shape(s) && Shape(s') && e in s.eps && QueueOk(s, e) && Local(s, s', k, x, y)
    requires y.ep.Some? ==> QueueSame(s.subs[k], x, s.eps[y.ep.value], s'.eps[y.ep.value])
    requires y.ep.None? ==> !Early(x.pc) && !x.pc.Queued?
    ensures e in s'.eps && QueueOk(s', e)
  {
    hide Holds, Open, Early;
    assert s'.eps[e].pending == s.eps[e].pending && s'.eps[e].appended == s.eps[e].appended && s'.eps[e].popped == s.eps[e].popped;
    forall i | 0 <= i < |s.eps[e].pending|
      ensures s'.subs[s.eps[e].pending[i]].pc.Queued?
    {
      var j := s.eps[e].pending[i];
      assert j == s.eps[e].appended[|s.eps[e].popped| + i];
      if j == k { assert y.ep == Some(e); }
    }
  }

  lemma LocalQueueAppend(s: State, s': State, k: SubId, x: Sub, y: Urb)
    requires Shape(s) && Shape(s') && QueueInv(s) && Local(s, s', k, x, y) && y.ep.Some?
    requires QueueAppend(k, s.subs[k], x, s.eps[y.ep.value], s'.eps[y.ep.value])
    ensures QueueInv(s')
  {
    hide Holds, Open;
    forall e <- s'.eps
      ensures QueueOk(s', e)
    {
      if e == y.ep.value { QueueOkAppend(s, s', k, x, y); } else { QueueOkElsewhere(s, s', k, x, y, e); }
    }
  }

  lemma QueueOkElsewhere(s: State, s': State, k: SubId, x: Sub, y: Urb, e: EpId)
    requires Shape(s) && Shape(s') && e in s.eps && QueueOk(s, e) && Local(s, s', k, x, y) && y.ep.Some? && e != y.ep.value
    ensures e in s'.eps && QueueOk(s', e)
  {
    hide Holds, Open, Early, NeedsEndpoint;
    var z := s.eps[e];
    assert s'.eps[e] == z;
    forall i | 0 <= i < |z.pending|
      ensures z.pending[i] < |s'.subs| && s'.subs[z.pending[i]].pc.Queued?
    {
      assert z.pending[i] == z.appended[|z.popped| + i];
    }
  }

  lemma QueueOkAppend(s: State, s': State, k: SubId, x: Sub, y: Urb)
    requires Shape(s) && Shape(s') && QueueInv(s) && Local(s, s', k, x, y) && y.ep.Some?
    requires QueueAppend(k, s.subs[k], x, s.eps[y.ep.value], s'.eps[y.ep.value])
    ensures QueueOk(s', y.ep.value)
  {
    hide Holds, Open, NeedsEndpoint;
    var e := y.ep.value;
    assert QueueOk(s, e);
    var z, z' := s.eps[e], s'.eps[e];
    assert z'.appended == z'.popped + z'.pending;
  }

  lemma LocalQueuePop(s: State, s': State, k: SubId, x: Sub, y: Urb)
    requires Shape(s) && Shape(s') && QueueInv(s) && Local(s, s', k, x, y) && y.ep.Some?
    requires QueuePop(k, s.subs[k], x, s.eps[y.ep.value], s'.eps[y.ep.value])
    ensures QueueInv(s')
  {
    hide Holds, Open;
    forall e <- s'.eps
      ensures QueueOk(s', e)
    {
      if e == y.ep.value { QueueOkPop(s, s', k, x, y); } else { QueueOkElsewhere(s, s', k, x, y, e); }
    }
    forall i | 0 <= i < |s'.subs| && s'.subs[i].pc.Queued?
      ensures i in s'.eps[EpOf(s', i).value].pending
    {
      assert i != k && i in s.eps[EpOf(s, i).value].pending;
    }
  }

  lemma QueueOkPop(s: State, s': State, k: SubId, x: Sub, y: Urb)
    requires Shape(s) && Shape(s') && QueueInv(s) && Local(s, s', k, x, y) && y.ep.Some?
    requires QueuePop(k, s.subs[k], x, s.eps[y.ep.value], s'.eps[y.ep.value])
    ensures QueueOk(s', y.ep.value)
  {
    hide Holds, Open, Early, NeedsEndpoint;
    var e := y.ep.value;
    assert QueueOk(s, e);
    var z, z' := s.eps[e], s'.eps[e];
    var p := |z.popped|;
    assert z.pending == [k] + z.pending[1..];
    assert z'.appended == z'.popped + z'.pending;
    forall i | 0 <= i < |z'.pending|
      ensures z'.pending[i] < |s'.subs| && s'.subs[z'.pending[i]].pc.Queued?
    {
      assert z'.pending[i] == z.pending[i + 1] == z.appended[p + i + 1];
      assert z.appended[p] == k;
    }
  }

  /** All that a step on one submission has to respect. */
  ghost predicate Fits(s: State, s': State, k: SubId, x: Sub, y: Urb)
    requires Local(s, s', k, x, y)
  {
    var sub, urb := s.subs[k], s.urbs[x.urb];
    && (NeedsEndpoint(x.pc) ==> y.ep.Some?)
    && OutFits(sub, x, urb, y) && SubFits(sub, x, urb, y) && RefFits(sub, x, urb, y)
    && (y.ep.None? ==> !Early(x.pc) && !x.pc.Queued?)
    && (y.ep.Some? ==>
          var z, z' := s.eps[y.ep.value], s'.eps[y.ep.value];
          && PipeFits(k, sub, x, z, z')
          && (QueueSame(sub, x, z, z') || QueueAppend(k, sub, x, z, z') || QueuePop(k, sub, x, z, z')))
  }

  lemma LocalCore(s: State, s': State, k: SubId, x: Sub, y: Urb)
    requires Core(s) && Local(s, s', k, x, y) && Fits(s, s', k, x, y)
    ensures Core(s')
  {
    hide Shape, OutInv, PipeInv, QueueInv, SubInv, RefInv, Local, PipeFits, QueueSame, QueueAppend, QueuePop, OutFits, SubFits, RefFits;
    LocalShape(s, s', k, x, y);
    LocalOut(s, s', k, x, y);
    LocalPipe(s, s', k, x, y);
    LocalSub(s, s', k, x, y);
    LocalRef(s, s', k, x, y);
    LocalQueue(s, s', k, x, y);
  }

  lemma LocalQueue(s: State, s': State, k: SubId, x: Sub, y: Urb)
    requires Shape(s) && Shape(s') && QueueInv(s) && Local(s, s', k, x, y) && Fits(s, s', k, x, y)
    ensures QueueInv(s')
  {
    hide QueueInv, PipeFits, QueueSame, QueueAppend, QueuePop, OutFits, SubFits, RefFits, Shape;
    if y.ep.None? || QueueSame(s.subs[k], x, s.eps[y.ep.value], s'.eps[y.ep.value]) {
      LocalQueueSame(s, s', k, x, y);
    } else if QueueAppend(k, s.subs[k], x, s.eps[y.ep.value], s'.eps[y.ep.value]) {
      LocalQueueAppend(s, s', k, x, y);
    } else {
      LocalQueuePop(s, s', k, x, y);
    }
  }

  // ----- handlers and what they serve

  lemma ServeSame(s: State, s': State, k: SubId, x: Sub)
    requires ServeInv(s) && k < |s.subs| && s'.subs == s.subs[k := x]
    requires !s.subs[k].pc.Serving? && !x.pc.Serving? && Adopted(x.pc) == Adopted(s.subs[k].pc)
    requires Adopted(x.pc) ==> x.pc.host == s.subs[k].pc.host
    ensures ServeInv(s')
  {
  }

  lemma ServeLink(s: State, s': State, k: SubId, x: Sub, j: SubId, w: Sub)
    requires ServeInv(s) && k < |s.subs| && j < |s.subs| && j != k && s'.subs == s.subs[k := x][j := w]
    requires s.subs[k].pc.Handing? && s.subs[j].pc.Queued? && x.pc == Serving(j) && w.pc == NLaunching(k)
    ensures ServeInv(s')
  {
  }

  lemma ServeUnlink(s: State, s': State, j: SubId, w: Sub, k: SubId, x: Sub)
    requires ServeInv(s) && k < |s.subs| && j < |s.subs| && s'.subs == s.subs[j := w][k := x]
    requires Adopted(s.subs[j].pc) && s.subs[j].pc.host == k
    requires !w.pc.Serving? && !Adopted(w.pc) && x.pc.Dropping?
    ensures ServeInv(s')
  {
    assert s.subs[k].pc == Serving(j);
  }
}
