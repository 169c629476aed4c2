/** What every run of the URB engine guarantees. */
module UrbTheorems {
  import opened Basics
  import opened UrbEngine
  import opened UrbInvariant
  import opened UrbSteps

  lemma InitInv(s: State)
    requires Init(s)
    ensures Inv(s)
  {
  }

  lemma {:induction false} RunInv(r: seq<State>, moves: seq<Move>, i: nat)
    requires IsRun(r, moves) && i < |r|
    ensures Inv(r[i]) && WellFormed(r[i])
  {
    hide Inv, WellFormed, Init, Enabled, Perform;
    if i == 0 {
      InitInv(r[0]);
      InvWellFormed(r[0]);
    } else {
      RunInv(r, moves, i - 1);
      assert r[i] == Perform(r[i - 1], moves[i - 1]);
      PerformKeeps(r[i - 1], moves[i - 1]);
      InvWellFormed(r[i]);
    }
  }

  /** One more move of a run. */
  lemma Play(r: seq<State>, moves: seq<Move>, m: Move) returns (r': seq<State>, moves': seq<Move>)
    requires IsRun(r, moves) && Enabled(r[|moves|], m)
    ensures IsRun(r', moves') && moves' == moves + [m]
    ensures WellFormed(r[|moves|]) && r' == r + [Perform(r[|moves|], m)]
  {
    hide WellFormed, Enabled, Perform, Init;
    RunInv(r, moves, |moves|);
    r', moves' := r + [Perform(r[|moves|], m)], moves + [m];
    forall i | 0 <= i < |moves'|
      ensures WellFormed(r'[i]) && Enabled(r'[i], moves'[i]) && r'[i + 1] == Perform(r'[i], moves'[i])
    {
      if i < |moves| { assert moves'[i] == moves[i] && r'[i] == r[i] && r'[i + 1] == r[i + 1]; }
    }
  }

  // ----- lifetime

  /** The count is the driver's reference plus the submissions under way, and the URB is freed exactly when it is zero. */
  lemma RefcountInRuns(r: seq<State>, moves: seq<Move>, i: nat, u: UrbId)
    requires IsRun(r, moves) && i < |r| && u < |r[i].urbs|
    ensures r[i].urbs[u].refs == (if r[i].urbs[u].owned then 1 else 0) + |LiveSubs(r[i], u)|
    ensures r[i].urbs[u].freed <==> !r[i].urbs[u].owned && LiveSubs(r[i], u) == {}
  {
    hide IsRun, WellFormed;
    RunInv(r, moves, i);
    assert RefOk(r[i], u);
  }

  /** While a submission is queued, in flight or inside its completion, its URB is not freed. */
  lemma NeverFreedInUse(r: seq<State>, moves: seq<Move>, i: nat, k: SubId)
    requires IsRun(r, moves) && i < |r| && k < |r[i].subs| && r[i].subs[k].pc != Gone
    ensures r[i].subs[k].urb < |r[i].urbs| && !r[i].urbs[r[i].subs[k].urb].freed
  {
    hide IsRun, WellFormed, Inv;
    RunInv(r, moves, i);
    KnownIn(r[i], k);
  }

  lemma KnownIn(s: State, k: SubId)
    requires Inv(s) && k < |s.subs|
    ensures Known(s, k)
  {
    hide Core, ServeInv, Known;
    Facts(s, k);
  }

  /** urb->submitted is set for one submission at most, and every native completion finds it set:
      the early returns at usb.c:383 and usb.c:424 are never taken. */
  lemma CompletionFindsSubmitted(r: seq<State>, moves: seq<Move>, i: nat, k: SubId)
    requires IsRun(r, moves) && i < |r| && k < |r[i].subs|
    ensures r[i].subs[k].urb < |r[i].urbs|
    ensures Open(r[i].subs[k].pc) <==> r[i].urbs[r[i].subs[k].urb].outstanding == Some(k)
    ensures r[i].subs[k].pc.InFlight? || r[i].subs[k].pc.Ending? ==> r[i].urbs[r[i].subs[k].urb].outstanding.Some?
    ensures !r[i].subs[k].pc.Stray?
  {
    hide IsRun, WellFormed, Inv;
    RunInv(r, moves, i);
    KnownIn(r[i], k);
  }

  predicate InCallback(pc: Pc) { pc.Calling? || pc.NCalling? }

  /** A killed URB stays killed; no callback of it is called, and one that runs ends with the next step of its handler. */
  ghost predicate OnlyEnds(s: State, s': State, u: UrbId, j: SubId) {
    && |s.subs| <= |s'.subs|
    && (u < |s.urbs| ==> u < |s'.urbs| && (s.urbs[u].killed ==> s'.urbs[u].killed))
    && (forall k | 0 <= k < |s'.subs| && s'.subs[k].urb == u ::
          && k < |s.subs| && s.subs[k].urb == u && s'.subs[k].calls == s.subs[k].calls
          && (InCallback(s'.subs[k].pc) <==> InCallback(s.subs[k].pc) && k != j))
  }

  lemma SubmitterEnds(s: State, u: UrbId, j: SubId)
    requires WellFormed(s) && Known(s, j)
    requires var pc := s.subs[j].pc; pc.Claiming? || pc.Appending? || pc.Unclaiming? || pc.Refusing? || pc.RefusedDrop?
    ensures OnlyEnds(s, SubmitterStep(s, j), u, j)
  {
    hide WellFormed, SubOk, FlightOk;
  }

  lemma UrbIn(s: State, k: SubId)
    requires WellFormed(s) && k < |s.subs|
    ensures s.subs[k].urb < |s.urbs|
  {
  }

  lemma LaunchEnds(s: State, u: UrbId, j: SubId, ok: bool, refusal: Event)
    requires Inv(s) && WellFormed(s) && Known(s, j) && CanLaunch(s.subs[j].pc)
    ensures OnlyEnds(s, LaunchStep(s, j, ok, refusal), u, j)
  {
    hide WellFormed, Core, ServeInv, SubOk, FlightOk;
    if s.subs[j].pc.NLaunching? {
      ServedBy(s, j);
      UrbIn(s, s.subs[j].pc.host);
    }
  }

  lemma CompleteEnds(s: State, u: UrbId, j: SubId, e: Event, actual: int, copied: bool)
    requires WellFormed(s) && Known(s, j) && s.subs[j].pc.InFlight?
    ensures OnlyEnds(s, CompleteStep(s, j, e, actual, copied), u, j)
  {
    hide WellFormed, MappedStatus, NeedsZlp, SubOk, FlightOk;
  }

  lemma HandlerEnds(s: State, u: UrbId, j: SubId)
    requires Inv(s) && WellFormed(s) && Known(s, j) && u < |s.urbs| && s.urbs[u].killed
    requires var pc := s.subs[j].pc; pc.Ending? || pc.Reporting? || pc.Calling? || pc.Handing? || pc.Dropping?
    ensures OnlyEnds(s, HandlerStep(s, j), u, j)
  {
    hide WellFormed, Core, ServeInv, SubOk, FlightOk;
    var ep := s.urbs[s.subs[j].urb].ep;
    if s.subs[j].pc.Handing? && s.eps[ep.value].pending != [] { HeadFacts(s, ep.value); }
  }

  lemma NextEnds(s: State, u: UrbId, j: SubId)
    requires Inv(s) && WellFormed(s) && Known(s, j) && Adopted(s.subs[j].pc) && !s.subs[j].pc.NLaunching?
    requires u < |s.urbs| && s.urbs[u].killed
    ensures OnlyEnds(s, NextStep(s, j), u, j)
  {
    hide WellFormed, Core, ServeInv, SubOk, FlightOk;
    ServedBy(s, j);
    UrbIn(s, s.subs[j].pc.host);
  }

  lemma KilledStep(s: State, m: Move, u: UrbId)
    requires Inv(s) && WellFormed(s) && Enabled(s, m) && u < |s.urbs| && s.urbs[u].killed && !(m.Submit? && m.urb == u)
    ensures OnlyEnds(s, Perform(s, m), u, if m.Go? then m.sub else |s.subs|)
  {
    hide Core, ServeInv, WellFormed, LaunchStep, CompleteStep, HandlerStep, NextStep, SubmitterStep, Known;
    if m.Go? {
      KnownIn(s, m.sub);
      var pc := s.subs[m.sub].pc;
      if pc.Claiming? || pc.Appending? || pc.Unclaiming? || pc.Refusing? || pc.RefusedDrop? { SubmitterEnds(s, u, m.sub); }
      else if Adopted(pc) { NextEnds(s, u, m.sub); }
      else { HandlerEnds(s, u, m.sub); }
    } else if m.Launch? {
      KnownIn(s, m.sub);
      LaunchEnds(s, u, m.sub, m.accepted, m.refusal);
    } else if m.Complete? {
      KnownIn(s, m.sub);
      CompleteEnds(s, u, m.sub, m.event, m.actual, m.copied);
    }
  }

  /** usb_kill_urb makes its store in the move `i`, and the URB is not submitted again before `j`. */
  ghost predicate KilledSince(moves: seq<Move>, i: nat, j: nat, u: UrbId) {
    i < j <= |moves| && moves[i] == Kill(u) && forall x | i < x < j :: !(moves[x].Submit? && moves[x].urb == u)
  }

  predicate SteppedIn(moves: seq<Move>, i: nat, j: nat, k: SubId) {
    exists x | i < x < j && x < |moves| :: moves[x] == Go(k)
  }

  /** What usb_kill_urb achieves, whether it still waits or not: until the URB is submitted again no callback of it starts,
      and one is running if and only if it was running when `killed` was stored and its handler has not moved since. */
  lemma {:induction false} KilledCallbacks(r: seq<State>, moves: seq<Move>, i: nat, j: nat, u: UrbId)
    requires IsRun(r, moves) && KilledSince(moves, i, j, u)
    ensures u < |r[j].urbs| && r[j].urbs[u].killed && |r[i].subs| <= |r[j].subs|
    ensures forall k | 0 <= k < |r[j].subs| && r[j].subs[k].urb == u ::
              && k < |r[i].subs| && r[j].subs[k].calls == r[i].subs[k].calls
              && (InCallback(r[j].subs[k].pc) <==> InCallback(r[i].subs[k].pc) && !SteppedIn(moves, i, j, k))
    decreases j
  {
    hide Inv, WellFormed, Init, Enabled, Perform, InCallback, SteppedIn;
    var x := j - 1;
    RunInv(r, moves, x);
    assert Enabled(r[x], moves[x]) && r[j] == Perform(r[x], moves[x]);
    if x == i {
      KillStores(r[i], u);
      forall k: SubId ensures !SteppedIn(moves, i, j, k) { NoStep(moves, i, j, k); }
    } else {
      KilledCallbacks(r, moves, i, x, u);
      KilledStep(r[x], moves[x], u);
      forall k | 0 <= k < |r[j].subs| && r[j].subs[k].urb == u
        ensures k < |r[i].subs| && r[j].subs[k].calls == r[i].subs[k].calls
        ensures InCallback(r[j].subs[k].pc) <==> InCallback(r[i].subs[k].pc) && !SteppedIn(moves, i, j, k)
      {
        StepMore(moves, i, j, k);
      }
    }
  }

  lemma KillStores(s: State, u: UrbId)
    requires WellFormed(s) && Enabled(s, Kill(u))
    ensures u < |Perform(s, Kill(u)).urbs| && Perform(s, Kill(u)).urbs[u].killed && Perform(s, Kill(u)).subs == s.subs
  {
    hide WellFormed;
  }

  lemma NoStep(moves: seq<Move>, i: nat, j: nat, k: SubId)
    requires j == i + 1
    ensures !SteppedIn(moves, i, j, k)
  {
  }

  lemma StepMore(moves: seq<Move>, i: nat, j: nat, k: SubId)
    requires i < j - 1 && j <= |moves|
    ensures SteppedIn(moves, i, j, k) <==> SteppedIn(moves, i, j - 1, k) || moves[j - 1] == Go(k)
  {
  }

  /** usb_kill_urb finds urb->submitted clear right after its store, and returns, while a callback of the URB runs. */
  ghost predicate KillReturnsInside(r: seq<State>, moves: seq<Move>, i: nat, u: UrbId, k: SubId) {
    && IsRun(r, moves) && i < |moves| && moves[i] == Kill(u) && u < |r[i + 1].urbs| && r[i + 1].urbs[u].outstanding.None?
    && k < |r[i + 1].subs| && r[i + 1].subs[k].urb == u && r[i + 1].subs[k].pc.Calling?
  }

  const PLAIN := Setup(false, false, 0, None, 0, true)

  /** A URB with no endpoint queue, whose transfer has been accepted. */
  lemma FirstFlight(setup: Setup) returns (r: seq<State>, moves: seq<Move>)
    requires DataLen(setup).Size?
    ensures IsRun(r, moves) && |moves| == 4
    ensures r[4] == State([Urb(None, Some(0), false, 2, true, false, Sent(setup), 0, false)],
                          [Sub(0, setup, InFlight, true, 1, 0, false, false, None, None)], map[])
  {
    hide WellFormed;
    r, moves := [State([], [], map[])], [];
    r, moves := Play(r, moves, Alloc(None));
    r, moves := Play(r, moves, Submit(0, setup));
    r, moves := Play(r, moves, Go(0));
    r, moves := Play(r, moves, Launch(0, true, Success));
    assert r[4].urbs == [Urb(None, Some(0), false, 2, true, false, Sent(setup), 0, false)];
    assert r[4].subs == [Sub(0, setup, InFlight, true, 1, 0, false, false, None, None)];
  }

  /** Its completion callback runs. */
  lemma FirstCallback() returns (r: seq<State>, moves: seq<Move>)
    ensures IsRun(r, moves) && |moves| == 7
    ensures |r[7].subs| == 1 && |r[7].urbs| == 1 && r[7].subs[0].urb == 0 && r[7].subs[0].pc == Calling
    ensures r[7].urbs[0].outstanding.None? && !r[7].urbs[0].freed
  {
    hide WellFormed, SubmitterStep, LaunchStep, NextStep;
    r, moves := FirstFlight(PLAIN);
    r, moves := Play(r, moves, Complete(0, Success, 0, true));
    r, moves := Play(r, moves, Go(0));
    r, moves := Play(r, moves, Go(0));
  }

  /** So usb_kill_urb can return inside the completion callback: submitted is cleared before the callback (usb.c:424, 434). */
  lemma KillInsideCallback()
    ensures exists r: seq<State>, moves: seq<Move>, i: nat, u: UrbId, k: SubId :: KillReturnsInside(r, moves, i, u, k)
  {
    hide WellFormed;
    var r, moves := FirstCallback();
    r, moves := Play(r, moves, Kill(0));
    assert KillReturnsInside(r, moves, 7, 0, 0);
  }

  /** When usb_kill_urb sees urb->submitted clear, every submission of that URB has ended. */
  lemma KillSeesEnds(r: seq<State>, moves: seq<Move>, i: nat, k: SubId)
    requires IsRun(r, moves) && i < |r| && k < |r[i].subs| && r[i].subs[k].urb < |r[i].urbs|
    requires r[i].urbs[r[i].subs[k].urb].outstanding.None?
    ensures r[i].subs[k].end.Some?
  {
    hide IsRun, WellFormed, Inv;
    RunInv(r, moves, i);
    KnownIn(r[i], k);
  }

  // ----- ends

  /** What later steps may not take back. */
  ghost predicate Later(x: Sub, x': Sub) {
    && x'.urb == x.urb && x'.setup == x.setup
    && (x.end.Some? ==> x'.end == x.end) && (x.first.Some? ==> x'.first == x.first)
    && (x.accepted ==> x'.accepted) && (x.zlpTried ==> x'.zlpTried)
    && x.calls <= x'.calls && x.transfers <= x'.transfers && (x.muted ==> x'.muted)
    && (x.pc.Gone? ==> x' == x)
  }

  ghost predicate AllLater(s: State, s': State) {
    |s.subs| <= |s'.subs| && forall k | 0 <= k < |s.subs| :: Later(s.subs[k], s'.subs[k])
  }

  lemma SubmitterLater(s: State, k: SubId)
    requires WellFormed(s) && Known(s, k)
    requires var pc := s.subs[k].pc; pc.Claiming? || pc.Appending? || pc.Unclaiming? || pc.Refusing? || pc.RefusedDrop?
    ensures AllLater(s, SubmitterStep(s, k))
  {
    hide WellFormed;
  }

  lemma LaunchLater(s: State, k: SubId, ok: bool, refusal: Event)
    requires Inv(s) && WellFormed(s) && Known(s, k) && CanLaunch(s.subs[k].pc)
    ensures AllLater(s, LaunchStep(s, k, ok, refusal))
  {
    hide WellFormed, Core;
  }

  lemma CompleteLater(s: State, k: SubId, e: Event, actual: int, copied: bool)
    requires WellFormed(s) && Known(s, k) && s.subs[k].pc.InFlight?
    ensures AllLater(s, CompleteStep(s, k, e, actual, copied))
  {
    hide WellFormed, MappedStatus, NeedsZlp;
  }

  lemma HandlerLater(s: State, k: SubId)
    requires Inv(s) && WellFormed(s) && Known(s, k)
    requires var pc := s.subs[k].pc; pc.Ending? || pc.Reporting? || pc.Calling? || pc.Dropping?
    ensures AllLater(s, HandlerStep(s, k))
  {
    hide WellFormed, Inv;
  }

  lemma HandingLater(s: State, k: SubId)
    requires Inv(s) && WellFormed(s) && Known(s, k) && s.subs[k].pc.Handing?
    ensures AllLater(s, HandlerStep(s, k))
  {
    hide WellFormed, Core, ServeInv;
    var e := s.urbs[s.subs[k].urb].ep.value;
    if s.eps[e].pending != [] { HeadFacts(s, e); }
  }

  lemma NextLater(s: State, k: SubId)
    requires Inv(s) && WellFormed(s) && Known(s, k) && Adopted(s.subs[k].pc) && !s.subs[k].pc.NLaunching?
    ensures AllLater(s, NextStep(s, k))
  {
    hide WellFormed, Core, ServeInv;
    ServedBy(s, k);
  }

  lemma PerformLater(s: State, m: Move)
    requires Inv(s) && WellFormed(s) && Enabled(s, m)
    ensures AllLater(s, Perform(s, m))
  {
    hide Core, ServeInv, WellFormed, LaunchStep, CompleteStep, HandlerStep, NextStep, SubmitterStep, Known, Released;
    if m.Go? {
      KnownIn(s, m.sub);
      var pc := s.subs[m.sub].pc;
      if pc.Claiming? || pc.Appending? || pc.Unclaiming? || pc.Refusing? || pc.RefusedDrop? { SubmitterLater(s, m.sub); }
      else if Adopted(pc) { NextLater(s, m.sub); }
      else if pc.Handing? { HandingLater(s, m.sub); }
      else { HandlerLater(s, m.sub); }
    } else if m.Launch? {
      KnownIn(s, m.sub);
      LaunchLater(s, m.sub, m.accepted, m.refusal);
    } else if m.Complete? {
      KnownIn(s, m.sub);
      CompleteLater(s, m.sub, m.event, m.actual, m.copied);
    }
  }

  /** A submission keeps its end, its counts only grow, and a finished one never changes again. */
  lemma {:induction false} EndsLast(r: seq<State>, moves: seq<Move>, i: nat, j: nat)
    requires IsRun(r, moves) && i <= j < |r|
    ensures AllLater(r[i], r[j])
    decreases j
  {
    hide Inv, WellFormed, Init, Enabled, Perform, Later;
    if i == j {
      forall k | 0 <= k < |r[i].subs| ensures Later(r[i].subs[k], r[i].subs[k]) { LaterSelf(r[i].subs[k]); }
    } else {
      EndsLast(r, moves, i, j - 1);
      RunInv(r, moves, j - 1);
      assert r[j] == Perform(r[j - 1], moves[j - 1]);
      PerformLater(r[j - 1], moves[j - 1]);
      forall k | 0 <= k < |r[i].subs|
        ensures Later(r[i].subs[k], r[j].subs[k])
      {
        LaterTrans(r[i].subs[k], r[j - 1].subs[k], r[j].subs[k]);
      }
    }
  }

  lemma LaterSelf(x: Sub)
    ensures Later(x, x)
  {
  }

  lemma LaterTrans(x: Sub, y: Sub, z: Sub)
    requires Later(x, y) && Later(y, z)
    ensures Later(x, z)
  {
  }

  /** A submission whose thread is done has exactly one end: refused to the caller, with no transfer and no callback,
      or accepted and then failed or completed, and reported by exactly one callback, unless it has none or was killed. */
  lemma DoneMeansEnded(r: seq<State>, moves: seq<Move>, i: nat, k: SubId)
    requires IsRun(r, moves) && i < |r| && k < |r[i].subs| && r[i].subs[k].pc.Gone?
    ensures var x := r[i].subs[k];
            && x.end.Some?
            && (x.accepted <==> x.end != Some(Refused))
            && (x.end == Some(Refused) ==> x.transfers == 0 && x.calls == 0)
            && (x.end == Some(Failed) ==> x.transfers == 0)
            && (x.end.value.Completed? ==> 1 <= x.transfers <= 2)
            && (x.accepted ==> x.calls == if x.setup.hasCallback && !x.muted then 1 else 0)
  {
    hide IsRun, WellFormed, Inv;
    RunInv(r, moves, i);
    KnownIn(r[i], k);
  }

  /** A complete OUT transfer that asks for a zero-length packet and ends on a packet boundary, judged by what was
      transferred (section 5.8.3 of USB 2.0). */
  predicate EndsOnBoundary(setup: Setup, r: Report) {
    && r.status == Good && !setup.dirIn && setup.zeroPacket && setup.maxpacket > 0
    && DataLen(setup).Size? && DataLen(setup).count > 0
    && r.actual == DataLen(setup).count && DataLen(setup).count % setup.maxpacket == 0
  }

  /** The driver gave a transfer length, instead of leaving it to the scatterlist. */
  predicate LengthGiven(setup: Setup) { setup.sg.None? || setup.length > 0 }

  /** Exactly those transfers get a zero-length packet tried for which the driver gave a transfer length; a second
      transfer is that packet; and the length the driver sees is the length of the data. */
  lemma ZeroLengthPacket(r: seq<State>, moves: seq<Move>, i: nat, k: SubId)
    requires IsRun(r, moves) && i < |r| && k < |r[i].subs|
    requires r[i].subs[k].end.Some? && r[i].subs[k].end.value.Completed?
    ensures var x := r[i].subs[k];
            && x.first.Some?
            && (x.zlpTried <==> EndsOnBoundary(x.setup, x.first.value) && LengthGiven(x.setup))
            && (x.transfers == 2 ==> x.zlpTried)
            && x.end.value.result.actual == x.first.value.actual
            && (x.zlpTried ==> Size(x.end.value.result.actual) == DataLen(x.setup))
            && (!x.zlpTried && !(x.setup.dirIn && x.setup.sg.Some?) ==> x.end.value.result == x.first.value)
  {
    hide IsRun, WellFormed, Inv;
    RunInv(r, moves, i);
    KnownIn(r[i], k);
  }

  /** A complete OUT transfer on a packet boundary that asked for a zero-length packet has ended without one. */
  ghost predicate ZlpMissing(r: seq<State>, moves: seq<Move>, k: SubId) {
    && IsRun(r, moves) && k < |r[|moves|].subs|
    && var x := r[|moves|].subs[k];
       && x.end.Some? && x.end.value.Completed? && x.first.Some? && EndsOnBoundary(x.setup, x.first.value)
       && !x.zlpTried && x.transfers == 1
  }

  /** So the zero-length packet is left out when the length is left to the scatterlist (usb.c:134-135, 397). */
  lemma ZlpLeftOut()
    ensures exists r: seq<State>, moves: seq<Move>, k: SubId :: ZlpMissing(r, moves, k)
  {
    hide WellFormed;
    var r, moves := FirstFlight(Setup(false, true, 0, Some(Size(512)), 512, true));
    r, moves := Play(r, moves, Complete(0, Success, 512, true));
    r, moves := Play(r, moves, Go(0));
    assert ZlpMissing(r, moves, 0);
  }

  /** Only the submission this move works for can become muted, and only while its URB is marked killed. */
  ghost predicate MutesOnly(s: State, s': State, k: SubId)
    requires k < |s.subs| && s.subs[k].urb < |s.urbs|
  {
    && |s'.subs| == |s.subs|
    && (forall j | 0 <= j < |s.subs| :: s'.subs[j].muted && !s.subs[j].muted ==> j == k)
    && (s'.subs[k].muted && !s.subs[k].muted ==> s.urbs[s.subs[k].urb].killed && s.subs[k].end.Some?)
  }

  lemma SubmitterMutes(s: State, k: SubId)
    requires WellFormed(s) && Known(s, k)
    requires var pc := s.subs[k].pc; pc.Claiming? || pc.Appending? || pc.Unclaiming? || pc.Refusing? || pc.RefusedDrop?
    ensures MutesOnly(s, SubmitterStep(s, k), k)
  {
    hide WellFormed, SubOk, FlightOk;
  }

  lemma LaunchMutes(s: State, k: SubId, ok: bool, refusal: Event)
    requires Inv(s) && WellFormed(s) && Known(s, k) && CanLaunch(s.subs[k].pc)
    ensures MutesOnly(s, LaunchStep(s, k, ok, refusal), k)
  {
    hide WellFormed, Core, SubOk, FlightOk;
  }

  lemma CompleteMutes(s: State, k: SubId, e: Event, actual: int, copied: bool)
    requires WellFormed(s) && Known(s, k) && s.subs[k].pc.InFlight?
    ensures MutesOnly(s, CompleteStep(s, k, e, actual, copied), k)
  {
    hide WellFormed, MappedStatus, NeedsZlp, SubOk, FlightOk;
  }

  lemma HandlerMutes(s: State, k: SubId)
    requires WellFormed(s) && Known(s, k)
    requires var pc := s.subs[k].pc; pc.Ending? || pc.Reporting? || pc.Calling? || pc.Dropping?
    ensures MutesOnly(s, HandlerStep(s, k), k)
  {
    hide WellFormed;
  }

  lemma HandingMutes(s: State, k: SubId)
    requires Inv(s) && WellFormed(s) && Known(s, k) && s.subs[k].pc.Handing?
    ensures MutesOnly(s, HandlerStep(s, k), k)
  {
    hide WellFormed, Core, ServeInv, SubOk, FlightOk;
    var e := s.urbs[s.subs[k].urb].ep.value;
    if s.eps[e].pending != [] { HeadFacts(s, e); }
  }

  lemma NextMutes(s: State, k: SubId)
    requires Inv(s) && WellFormed(s) && Known(s, k) && Adopted(s.subs[k].pc) && !s.subs[k].pc.NLaunching?
    ensures MutesOnly(s, NextStep(s, k), k)
  {
    hide WellFormed, Core, ServeInv;
    ServedBy(s, k);
  }

  /** Being muted means: usb_kill_urb had marked the URB when the handler came to the callback. */
  lemma MutedMeansKilled(s: State, m: Move, k: SubId)
    requires Inv(s) && WellFormed(s) && Enabled(s, m) && k < |s.subs| && !s.subs[k].muted
    requires k < |Perform(s, m).subs| && Perform(s, m).subs[k].muted
    ensures (m.Go? || m.Launch? || m.Complete?) && m.sub == k && s.subs[k].urb < |s.urbs| && s.urbs[s.subs[k].urb].killed && s.subs[k].end.Some?
  {
    hide Core, ServeInv, WellFormed, LaunchStep, CompleteStep, HandlerStep, NextStep, SubmitterStep, SubOk, FlightOk, Released;
    KnownIn(s, k);
    if m.Go? {
      KnownIn(s, m.sub);
      var pc := s.subs[m.sub].pc;
      if pc.Claiming? || pc.Appending? || pc.Unclaiming? || pc.Refusing? || pc.RefusedDrop? { SubmitterMutes(s, m.sub); }
      else if Adopted(pc) { NextMutes(s, m.sub); }
      else if pc.Handing? { HandingMutes(s, m.sub); }
      else { HandlerMutes(s, m.sub); }
    } else if m.Launch? {
      KnownIn(s, m.sub);
      LaunchMutes(s, m.sub, m.accepted, m.refusal);
    } else if m.Complete? {
      KnownIn(s, m.sub);
      CompleteMutes(s, m.sub, m.event, m.actual, m.copied);
    }
  }

  // ----- endpoints

  /** pipe_busy is set exactly while one submission of that endpoint holds the pipe. */
  lemma PipeExclusive(r: seq<State>, moves: seq<Move>, i: nat, e: EpId)
    requires IsRun(r, moves) && i < |r| && e in r[i].eps
    ensures Shape(r[i])
    ensures r[i].eps[e].pipe.Some? <==> exists k :: 0 <= k < |r[i].subs| && EpOf(r[i], k) == Some(e) && Holds(r[i].subs[k].pc)
    ensures forall j, k | 0 <= j < |r[i].subs| && 0 <= k < |r[i].subs| && EpOf(r[i], j) == Some(e) && EpOf(r[i], k) == Some(e)
                       && Holds(r[i].subs[j].pc) && Holds(r[i].subs[k].pc) :: j == k
  {
    hide IsRun, WellFormed, SubInv, QueueInv, RefInv, OutInv, ServeInv, Holds;
    RunInv(r, moves, i);
  }

  /** Queued submissions leave in the order in which they were appended, each once, and those not yet popped are the queue. */
  lemma QueueIsFifo(r: seq<State>, moves: seq<Move>, i: nat, e: EpId)
    requires IsRun(r, moves) && i < |r| && e in r[i].eps
    ensures var z := r[i].eps[e];
            && z.appended == z.popped + z.pending
            && (forall a, b | 0 <= a < b < |z.appended| :: z.appended[a] != z.appended[b])
            && (forall k | 0 <= k < |r[i].subs| :: r[i].subs[k].pc.Queued? ==>
                  (k in z.pending <==> r[i].subs[k].urb < |r[i].urbs| && r[i].urbs[r[i].subs[k].urb].ep == Some(e)))
  {
    hide IsRun, WellFormed, SubInv, PipeInv, RefInv, OutInv, ServeInv, Holds;
    RunInv(r, moves, i);
    assert QueueOk(r[i], e);
    var z := r[i].eps[e];
    forall k | 0 <= k < |r[i].subs| && r[i].subs[k].pc.Queued?
      ensures k in z.pending <==> r[i].urbs[r[i].subs[k].urb].ep == Some(e)
    {
      if k in z.pending {
        var a :| 0 <= a < |z.pending| && z.pending[a] == k;
        assert z.appended[|z.popped| + a] == k;
      }
    }
  }
}
