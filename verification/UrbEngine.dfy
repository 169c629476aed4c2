/** USB request blocks as a step system (usb.c).

    A thread inside usb_submit_urb, and a thread inside the completion handler, works for one
    submission at a time, so the program counters are kept with the submissions.  Every block under
    pending_lock, every access to urb->submitted and urb->refcount and every native call is one step;
    any number of threads interleave.  What a completion callback does (resubmit, free, submit
    other URBs) is a sequence of moves taken while the handler stands at Calling or NextCalling. */
module UrbEngine {
  import opened Basics

  type SubId = nat
  type UrbId = nat
  type EpId = nat

  /** Native event codes. */
  datatype Event = Success | ShortPacket | Stall | Babble | Timeout | TransferError | Code(value: int)

  /** Linux status codes; Negative stands for a native code passed through. */
  datatype Status = Good | EPIPE | EOVERFLOW | ETIMEDOUT | EPROTO | EIO | EINVAL | Negative(value: int)

  /** lcompat_usb_urb_status (usb.c:323-340). */
  function MappedStatus(e: Event): Status {
    match e
    case Success => Good
    case ShortPacket => Good
    case Stall => EPIPE
    case Babble => EOVERFLOW
    case Timeout => ETIMEDOUT
    case TransferError => EPROTO
    case Code(v) => if v < 0 then Negative(v) else EIO
  }

  /** What the driver put into the URB before it submitted it: transfer_buffer_length, and the length of its scatterlist if
      it has one. */
  datatype Setup = Setup(dirIn: bool, zeroPacket: bool, length: int, sg: Option<Length>, maxpacket: int, hasCallback: bool)

  /** What is transferred. */
  function DataLen(setup: Setup): Length { TransferLength(setup.sg, setup.length) }

  function Sent(setup: Setup): nat { if DataLen(setup).Size? then DataLen(setup).count else 0 }

  datatype Report = Report(status: Status, actual: int)

  datatype End =
    | Refused                  // usb_submit_urb returned an error
    | Failed                   // a queued submission that could not be launched
    | Completed(result: Report)

  /** Where the thread that works for a submission stands; N... is the handler of `host` launching it. */
  datatype Pc =
    | Claiming | Appending | Queued | Launching | Unclaiming | Refusing | RefusedDrop
    | InFlight | ZlpLaunching(actual: int) | Ending(result: Report) | Reporting | Calling | Handing
    | Serving(next: SubId) | Dropping | Gone | Stray
    | NLaunching(host: SubId) | NFailing(host: SubId) | NUnclaiming(host: SubId)
    | NReporting(host: SubId) | NCalling(host: SubId) | NDropping(host: SubId)

  /** The fields after `pc` record the history of the submission; no step depends on them. */
  datatype Sub = Sub(urb: UrbId, setup: Setup, pc: Pc,
                     accepted: bool,            // usb_submit_urb returned 0
                     transfers: nat,            // native transfers accepted
                     calls: nat,                // calls of the completion callback
                     muted: bool,               // killed was set when the handler looked
                     zlpTried: bool,
                     first: Option<Report>,     // what the first native completion amounted to
                     end: Option<End>)

  /** `outstanding.Some?` is urb->submitted and names the submission that set it; `owned` is the driver's reference. */
  datatype Urb = Urb(ep: Option<EpId>, outstanding: Option<SubId>, killed: bool, refs: int, owned: bool, freed: bool,
                     submittedLen: int, completedLen: int, zlp: bool)

  /** `pipe.Some?` is pipe_busy and names the submission it was set for. */
  datatype Endpoint = Endpoint(pipe: Option<SubId>, pending: seq<SubId>, appended: seq<SubId>, popped: seq<SubId>)

  datatype State = State(urbs: seq<Urb>, subs: seq<Sub>, eps: map<EpId, Endpoint>)

  datatype Move =
    | Alloc(ep: Option<EpId>)                 // usb_alloc_urb
    | Free(urb: UrbId)                        // usb_free_urb by the driver
    | Kill(urb: UrbId)                        // the store of usb_kill_urb
    | Submit(urb: UrbId, setup: Setup)        // usb_submit_urb up to its reference
    | Go(sub: SubId)
    | Launch(sub: SubId, accepted: bool, refusal: Event)   // the native call and its answer
    | Complete(sub: SubId, event: Event, actual: int, copied: bool)

  predicate Adopted(pc: Pc) {
    pc.NLaunching? || pc.NFailing? || pc.NUnclaiming? || pc.NReporting? || pc.NCalling? || pc.NDropping?
  }

  predicate SubKnown(s: State, sub: Sub) {
    && sub.urb < |s.urbs|
    && (Adopted(sub.pc) ==> sub.pc.host < |s.subs|)
  }

  predicate WellFormed(s: State) {
    && (forall k | 0 <= k < |s.subs| :: SubKnown(s, s.subs[k]))
    && (forall u | 0 <= u < |s.urbs| :: s.urbs[u].ep.Some? ==> s.urbs[u].ep.value in s.eps)
    && (forall e <- s.eps :: forall i | 0 <= i < |s.eps[e].pending| :: s.eps[e].pending[i] < |s.subs|)
  }

  predicate Init(s: State) {
    s.urbs == [] && s.subs == [] && forall e <- s.eps :: s.eps[e] == Endpoint(None, [], [], [])
  }

  predicate CanLaunch(pc: Pc) {
    pc.Launching? || pc.ZlpLaunching? || pc.NLaunching?
  }

  predicate CanGo(pc: Pc) {
    !CanLaunch(pc) && !(pc.Queued? || pc.InFlight? || pc.Serving? || pc.Gone? || pc.Stray?)
  }

  /** A driver only passes URBs that are not freed; usb_submit_urb answers -EBUSY while one is outstanding. */
  predicate Enabled(s: State, m: Move) {
    match m
    case Alloc(ep) => ep.Some? ==> ep.value in s.eps
    case Free(u) => u < |s.urbs| && s.urbs[u].owned
    case Kill(u) => u < |s.urbs| && !s.urbs[u].freed
    case Submit(u, setup) => u < |s.urbs| && !s.urbs[u].freed && s.urbs[u].outstanding.None?
    case Go(k) => k < |s.subs| && CanGo(s.subs[k].pc)
    case Launch(k, ok, _) =>
      && k < |s.subs| && CanLaunch(s.subs[k].pc)
      && (ok && !s.subs[k].pc.ZlpLaunching? ==> DataLen(s.subs[k].setup).Size?)
    case Complete(k, _, _, _) => k < |s.subs| && s.subs[k].pc.InFlight?
  }

  /** One thread's step: the submission, its URB. */
  function Put(s: State, k: SubId, x: Sub, y: Urb): State
    requires k < |s.subs| && x.urb < |s.urbs|
  {
    s.(subs := s.subs[k := x], urbs := s.urbs[x.urb := y])
  }

  function SetEp(s: State, e: EpId, z: Endpoint): State {
    s.(eps := s.eps[e := z])
  }

  function Move1(s: State, k: SubId, x: Sub): State
    requires k < |s.subs| && x.urb < |s.urbs|
  {
    Put(s, k, x, s.urbs[x.urb])
  }

  function Released(y: Urb): Urb {
    y.(refs := y.refs - 1, freed := y.freed || y.refs == 1)
  }

  function AfterReport(ep: Option<EpId>): Pc {
    if ep.Some? then Handing else Dropping
  }

  /** usb_submit_urb after its reference: claim or queue, and the way out of a failed launch (usb.c:1059-1099). */
  function SubmitterStep(s: State, k: SubId): State
    requires WellFormed(s) && k < |s.subs|
    requires var pc := s.subs[k].pc; pc.Claiming? || pc.Appending? || pc.Unclaiming? || pc.Refusing? || pc.RefusedDrop?
  {
    var x := s.subs[k];
    var y := s.urbs[x.urb];
    if x.pc.Claiming? then
      if y.ep.None? then Move1(s, k, x.(pc := Launching))
      else
        var z := s.eps[y.ep.value];
        if z.pipe.Some? then Move1(s, k, x.(pc := Appending))
        else SetEp(Move1(s, k, x.(pc := Launching)), y.ep.value, z.(pipe := Some(k)))
    else if x.pc.Appending? then
      if y.ep.None? then s else
      var z := s.eps[y.ep.value];
      SetEp(Move1(s, k, x.(pc := Queued, accepted := true)), y.ep.value,
            z.(pending := z.pending + [k], appended := z.appended + [k]))
    else if x.pc.Unclaiming? then
      var s' := Move1(s, k, x.(pc := Refusing));
      if y.ep.None? then s' else SetEp(s', y.ep.value, s.eps[y.ep.value].(pipe := None))
    else if x.pc.Refusing? then
      Put(s, k, x.(pc := RefusedDrop, end := Some(Refused)), y.(outstanding := None))
    else
      Put(s, k, x.(pc := Gone), Released(y))
  }

  /** The native submission of the data, of a zero-length packet, or of the next queued URB
      (usb.c:1080-1085, 405-411, 451-457). */
  function LaunchStep(s: State, k: SubId, ok: bool, refusal: Event): State
    requires WellFormed(s) && k < |s.subs| && CanLaunch(s.subs[k].pc)
  {
    var x := s.subs[k];
    var y := s.urbs[x.urb];
    if x.pc.Launching? then
      if ok then Put(s, k, x.(pc := InFlight, accepted := true, transfers := x.transfers + 1), y.(submittedLen := Sent(x.setup)))
      else Move1(s, k, x.(pc := Unclaiming))
    else if x.pc.ZlpLaunching? then
      if ok then Put(s, k, x.(pc := InFlight, transfers := x.transfers + 1), y.(submittedLen := 0))
      else Put(s, k, x.(pc := Ending(Report(MappedStatus(refusal), x.pc.actual))), y.(submittedLen := 0, zlp := false))
    else
      if ok then
        var s' := Put(s, k, x.(pc := InFlight, transfers := x.transfers + 1), y.(submittedLen := Sent(x.setup)));
        Move1(s', x.pc.host, s'.subs[x.pc.host].(pc := Dropping))
      else Move1(s, k, x.(pc := NFailing(x.pc.host)))
  }

  /** Length and status of a native completion, clipped (usb.c:386-390). */
  function Clipped(e: Event, actual: int, submittedLen: int): Report {
    if MappedStatus(e) == Good && actual > submittedLen then Report(EOVERFLOW, submittedLen)
    else Report(MappedStatus(e), actual)
  }

  /** Whether a finished data transfer needs a zero-length packet after it (usb.c:395-400). */
  predicate NeedsZlp(setup: Setup, r: Report) {
    && r.status == Good && !setup.dirIn && setup.zeroPacket && setup.length > 0 && setup.maxpacket > 0
    && r.actual == setup.length && r.actual % setup.maxpacket == 0
  }

  /** The status after the copy out of the bounce buffer (usb.c:413-422). */
  function Scattered(setup: Setup, r: Report, copied: bool): Report {
    if r.status == Good && setup.dirIn && r.actual > 0 && setup.sg.Some? && !copied then r.(status := EINVAL) else r
  }

  /** lcompat_usb_urb_complete up to its compare-and-swap (usb.c:378-422). */
  function CompleteStep(s: State, k: SubId, e: Event, actual: int, copied: bool): State
    requires WellFormed(s) && k < |s.subs| && s.subs[k].pc.InFlight?
  {
    var x := s.subs[k];
    var y := s.urbs[x.urb];
    var r := Clipped(e, actual, y.submittedLen);
    var noted := x.(first := if x.first.None? then Some(r) else x.first);
    if y.outstanding.None? then Move1(s, k, x.(pc := Stray))
    else if y.zlp then
      Put(s, k, noted.(pc := Ending(Scattered(x.setup, Report(r.status, y.completedLen), copied))), y.(zlp := false))
    else if NeedsZlp(x.setup, r) then
      Put(s, k, noted.(pc := ZlpLaunching(r.actual), zlpTried := true), y.(completedLen := r.actual, zlp := true))
    else
      Move1(s, k, noted.(pc := Ending(Scattered(x.setup, r, copied))))
  }

  /** The rest of lcompat_usb_urb_complete for the URB it was called for (usb.c:424-447, 479). */
  function HandlerStep(s: State, k: SubId): State
    requires WellFormed(s) && k < |s.subs|
    requires var pc := s.subs[k].pc; pc.Ending? || pc.Reporting? || pc.Calling? || pc.Handing? || pc.Dropping?
  {
    var x := s.subs[k];
    var y := s.urbs[x.urb];
    if x.pc.Ending? then
      if y.outstanding.None? then Move1(s, k, x.(pc := Stray))
      else Put(s, k, x.(pc := Reporting, end := Some(Completed(x.pc.result))), y.(outstanding := None))
    else if x.pc.Reporting? then
      if !y.killed && x.setup.hasCallback then Move1(s, k, x.(pc := Calling, calls := x.calls + 1))
      else Move1(s, k, x.(pc := AfterReport(y.ep), muted := y.killed))
    else if x.pc.Calling? then Move1(s, k, x.(pc := AfterReport(y.ep)))
    else if x.pc.Handing? then
      if y.ep.None? then s else
      var e := y.ep.value;
      var z := s.eps[e];
      if z.pending == [] then SetEp(Move1(s, k, x.(pc := Dropping)), e, z.(pipe := None))
      else
        var j := z.pending[0];
        var s' := Move1(s, k, x.(pc := Serving(j)));
        SetEp(Move1(s', j, s'.subs[j].(pc := NLaunching(k))), e,
              z.(pipe := if z.pipe.Some? then Some(j) else None, pending := z.pending[1..], popped := z.popped + [j]))
    else
      Put(s, k, x.(pc := Gone), Released(y))
  }

  /** The same handler after a queued URB could not be launched (usb.c:457-475). */
  function NextStep(s: State, j: SubId): State
    requires WellFormed(s) && j < |s.subs| && Adopted(s.subs[j].pc) && !s.subs[j].pc.NLaunching?
  {
    var x := s.subs[j];
    var y := s.urbs[x.urb];
    if x.pc.NFailing? then
      Put(s, j, x.(pc := NUnclaiming(x.pc.host), end := Some(Failed)), y.(outstanding := None))
    else if x.pc.NUnclaiming? then
      var s' := Move1(s, j, x.(pc := NReporting(x.pc.host)));
      if y.ep.None? then s' else SetEp(s', y.ep.value, s.eps[y.ep.value].(pipe := None))
    else if x.pc.NReporting? then
      if !y.killed && x.setup.hasCallback then Move1(s, j, x.(pc := NCalling(x.pc.host), calls := x.calls + 1))
      else Move1(s, j, x.(pc := NDropping(x.pc.host), muted := y.killed))
    else if x.pc.NCalling? then Move1(s, j, x.(pc := NDropping(x.pc.host)))
    else
      var s' := Put(s, j, x.(pc := Gone), Released(y));
      Move1(s', x.pc.host, s'.subs[x.pc.host].(pc := Dropping))
  }

  function Submitted(s: State, u: UrbId, setup: Setup): State
    requires u < |s.urbs|
  {
    State(s.urbs[u := s.urbs[u].(outstanding := Some(|s.subs|), killed := false, completedLen := 0, zlp := false,
                                 refs := s.urbs[u].refs + 1)],
          s.subs + [Sub(u, setup, Claiming, false, 0, 0, false, false, None, None)], s.eps)
  }

  function Perform(s: State, m: Move): State
    requires WellFormed(s) && Enabled(s, m)
  {
    match m
    case Alloc(ep) => s.(urbs := s.urbs + [Urb(ep, None, false, 1, true, false, 0, 0, false)])
    case Free(u) => s.(urbs := s.urbs[u := Released(s.urbs[u].(owned := false))])
    case Kill(u) => s.(urbs := s.urbs[u := s.urbs[u].(killed := true)])
    case Submit(u, setup) => Submitted(s, u, setup)
    case Launch(k, ok, refusal) => LaunchStep(s, k, ok, refusal)
    case Complete(k, e, actual, copied) => CompleteStep(s, k, e, actual, copied)
    case Go(k) =>
      var pc := s.subs[k].pc;
      if pc.Claiming? || pc.Appending? || pc.Unclaiming? || pc.Refusing? || pc.RefusedDrop? then SubmitterStep(s, k)
      else if Adopted(pc) then NextStep(s, k)
      else HandlerStep(s, k)
  }

  /** A run: states, and the move between each two neighbours. */
  ghost predicate IsRun(r: seq<State>, moves: seq<Move>) {
    && |r| == |moves| + 1 && Init(r[0])
    && forall i {:trigger moves[i]} | 0 <= i < |moves| ::
         WellFormed(r[i]) && Enabled(r[i], moves[i]) && r[i + 1] == Perform(r[i], moves[i])
  }
}
