/** The connection machine of the station layer (mac80211.c:421-477, 938-1304, 2151-2254), after section 11.3 of
    IEEE Std 802.11-2020.  Each call runs to its end before the next; results of native calls and of
    driver operations are parameters. */
module WifiConnection {
  import opened Basics
  import opened PacketMemory
  import opened WifiElements
  import opened WifiFrames

  datatype ConnState = Disconnected | Authenticating | Associating | Connected

  const NO_ADDR: Addr := [0, 0, 0, 0, 0, 0]
  const STATUS_SUCCESS: nat := 0
  const REASON_LEAVING: nat := 3
  const MAX_SSID: nat := 32

  datatype Params = Params(ssid: seq<Byte>, bssid: Addr, hasBssid: bool, frequency: nat, privacy: bool, authType: nat)

  const CLEARED := Params([], NO_ADDR, false, 0, false, 0)

  datatype ScanResult = ScanResult(valid: bool, bssid: Addr, ies: seq<Byte>, capability: nat, beaconInterval: nat, frequency: nat)

  /** What user space sees, and the point at which a connect request was taken; `up` is the link state set before. */
  datatype Notice =
    | Accepted(portid: nat)
    | ConnectResult(portid: nat, status: nat, up: bool)
    | DisconnectEvent(portid: nat, reason: nat, byAp: bool)

  // ----- the language of notifications

  datatype Phase = Idle | Handshake(portid: nat) | Session

  /** Does `trace` end in `phase`?  A connect result ends a handshake; the link state says whether a session follows, and
      the status does not: it is 0 for every session, but can be 0 for a failure as well. */
  ghost predicate EndsIn(trace: seq<Notice>, phase: Phase) {
    if trace == [] then phase == Idle
    else
      var before, last := trace[..|trace| - 1], trace[|trace| - 1];
      match last
      case Accepted(p) => phase == Handshake(p) && EndsIn(before, Idle)
      case ConnectResult(p, status, up) =>
        phase == (if up then Session else Idle) && (up ==> status == STATUS_SUCCESS) && EndsIn(before, Handshake(p))
      case DisconnectEvent(_, _, _) => phase == Idle && (EndsIn(before, Session) || exists p :: EndsIn(before, Handshake(p)))
  }

  /** Which notice may follow which. */
  predicate Follows(a: Notice, b: Notice) {
    match a
    case Accepted(p) => (b.ConnectResult? && b.portid == p) || b.DisconnectEvent?
    case ConnectResult(_, _, up) => if up then b.DisconnectEvent? else b.Accepted?
    case DisconnectEvent(_, _, _) => b.Accepted?
  }

  lemma LastOf(trace: seq<Notice>, phase: Phase)
    requires EndsIn(trace, phase)
    ensures phase.Handshake? <==> trace != [] && trace[|trace| - 1].Accepted?
    ensures phase.Handshake? ==> trace[|trace| - 1] == Accepted(phase.portid)
    ensures phase.Session? <==> trace != [] && trace[|trace| - 1].ConnectResult? && trace[|trace| - 1].up
    ensures trace != [] && trace[|trace| - 1].ConnectResult? && trace[|trace| - 1].status != STATUS_SUCCESS ==> phase.Idle?
  {
  }

  /** Every accepted connect is followed by exactly one notification that ends its handshake, a result with its own
      port id or a disconnect event.  A result with the link up has status 0 and is followed by one disconnect event; any other
      result, and a disconnect event, by the next accepted connect. */
  lemma {:induction false} NoticesAlternate(trace: seq<Notice>, phase: Phase)
    requires EndsIn(trace, phase)
    ensures trace != [] ==> trace[0].Accepted?
    ensures forall i | 0 <= i < |trace| - 1 :: Follows(trace[i], trace[i + 1])
    ensures forall n <- trace :: n.ConnectResult? && n.up ==> n.status == STATUS_SUCCESS
  {
    if trace != [] {
      var before, last := trace[..|trace| - 1], trace[|trace| - 1];
      var p :| EndsIn(before, p) && (last.Accepted? ==> p == Idle) && (last.ConnectResult? ==> p == Handshake(last.portid))
               && (last.DisconnectEvent? ==> p != Idle);
      NoticesAlternate(before, p);
      LastOf(before, p);
      forall n <- trace ensures n.ConnectResult? && n.up ==> n.status == STATUS_SUCCESS { assert n in before || n == last; }
      if before != [] && last.Accepted? { assert !before[|before| - 1].Accepted?; }
      forall i | 0 <= i < |trace| - 1
        ensures Follows(trace[i], trace[i + 1])
      {
        if i < |before| - 1 { assert Follows(before[i], before[i + 1]); }
      }
    }
  }

  lemma Snoc(trace: seq<Notice>, phase: Phase, n: Notice)
    requires EndsIn(trace, phase)
    ensures n.Accepted? && phase.Idle? ==> EndsIn(trace + [n], Handshake(n.portid))
    ensures n.ConnectResult? && phase == Handshake(n.portid) && (n.up ==> n.status == STATUS_SUCCESS) ==>
              EndsIn(trace + [n], if n.up then Session else Idle)
    ensures n.DisconnectEvent? && !phase.Idle? ==> EndsIn(trace + [n], Idle)
  {
    assert (trace + [n])[..|trace|] == trace;
  }

  // ----- choosing a BSS

  predicate SsidMatches(r: ScanResult, ssid: seq<Byte>) { First(Elements(r.ies), EID_SSID) == Some(ssid) }

  predicate PrivacyMatches(r: ScanResult, p: Params) { (r.capability / 16 % 2 == 1) == p.privacy }

  /** The first search of select_bss: BSSID and SSID as far as they were given. */
  predicate FitsAll(r: ScanResult, p: Params) {
    r.valid && (p.hasBssid ==> r.bssid == p.bssid) && (p.ssid != [] ==> SsidMatches(r, p.ssid)) && PrivacyMatches(r, p)
  }

  /** The second search: SSID only. */
  predicate FitsSsid(r: ScanResult, p: Params) {
    r.valid && p.ssid != [] && SsidMatches(r, p.ssid) && PrivacyMatches(r, p)
  }

  function FillSsid(r: ScanResult, p: Params): Params {
    var ie := First(Elements(r.ies), EID_SSID);
    if p.ssid != [] || ie.None? || ie.value == [] then p
    else p.(ssid := if |ie.value| > MAX_SSID then ie.value[..MAX_SSID] else ie.value)
  }

  datatype Choice = Chosen(bss: ScanResult, params: Params) | NoBss

  /** The result taken: the first that fits all that was asked for, else the first that fits the SSID. */
  predicate IsPick(results: seq<ScanResult>, p: Params, i: nat)
    requires i < |results|
  {
    if FitsAll(results[i], p) then forall j | 0 <= j < i :: !FitsAll(results[j], p)
    else && FitsSsid(results[i], p) && (forall r <- results :: !FitsAll(r, p))
         && (forall j | 0 <= j < i :: !FitsSsid(results[j], p))
  }

  /** What the parameters become: the first search fills in a missing SSID. */
  function Filled(r: ScanResult, p: Params): Params {
    if FitsAll(r, p) then FillSsid(r, p) else p
  }

  /** What lcompat_ieee80211_select_bss promises; without scan results a BSSID and a frequency are enough. */
  predicate Chooses(scan: Option<seq<ScanResult>>, p: Params, c: Choice) {
    if scan.None? then
      c == if p.hasBssid && p.frequency != 0 then Chosen(ScanResult(true, p.bssid, [], 0, 0, p.frequency), p) else NoBss
    else
      match c
      case NoBss => forall r <- scan.value :: !FitsAll(r, p) && !FitsSsid(r, p)
      case Chosen(bss, params) =>
        exists i | 0 <= i < |scan.value| :: IsPick(scan.value, p, i) && bss == scan.value[i] && params == Filled(bss, p)
  }

  lemma PickIsUnique(results: seq<ScanResult>, p: Params, i: nat, j: nat)
    requires i < |results| && j < |results| && IsPick(results, p, i) && IsPick(results, p, j)
    ensures i == j
  {
    hide FitsAll, FitsSsid;
    assert results[i] in results && results[j] in results;
  }

  /** That promise leaves one answer. */
  lemma ChoiceIsUnique(scan: Option<seq<ScanResult>>, p: Params, c: Choice, d: Choice)
    requires Chooses(scan, p, c) && Chooses(scan, p, d)
    ensures c == d
  {
    hide FitsAll, FitsSsid, Filled;
    if scan.Some? && c.Chosen? && d.Chosen? {
      var i :| 0 <= i < |scan.value| && IsPick(scan.value, p, i) && c.bss == scan.value[i] && c.params == Filled(c.bss, p);
      var j :| 0 <= j < |scan.value| && IsPick(scan.value, p, j) && d.bss == scan.value[j] && d.params == Filled(d.bss, p);
      PickIsUnique(scan.value, p, i, j);
    }
  }

  /** lcompat_ieee80211_select_bss (mac80211.c:421-477). */
  method SelectBss(scan: Option<seq<ScanResult>>, p: Params) returns (c: Choice)
    ensures Chooses(scan, p, c)
    ensures c.Chosen? ==> c.params == p.(ssid := c.params.ssid) && (p.ssid != [] ==> c.params == p)
  {
    if scan.None? {
      if p.hasBssid && p.frequency != 0 { return Chosen(ScanResult(true, p.bssid, [], 0, 0, p.frequency), p); }
      return NoBss;
    }
    var results := scan.value;
    for i := 0 to |results|
      invariant forall j | 0 <= j < i :: !FitsAll(results[j], p)
    {
      if FitsAll(results[i], p) {
        assert IsPick(results, p, i);
        return Chosen(results[i], FillSsid(results[i], p));
      }
    }
    for i := 0 to |results|
      invariant forall j | 0 <= j < i :: !FitsSsid(results[j], p)
    {
      if FitsSsid(results[i], p) {
        assert IsPick(results, p, i);
        // mac80211.c:468-471 fills in a missing BSSID, but without one the first search would have succeeded
        assert p.hasBssid;
        return Chosen(results[i], p);
      }
    }
    return NoBss;
  }

  // ----- the machine

  /** connect_params and what goes with them; lcompat_ieee80211_clear_connect_params clears all of it. */
  datatype Attempt = Attempt(params: Params, portid: nat, beaconInterval: nat, capability: nat, useQos: bool)

  /** The attempt that a connect request leads to once a BSS is chosen. */
  function Begun(c: Choice, portid: nat): Attempt
    requires c.Chosen?
  {
    var p := if c.params.hasBssid then c.params else c.params.(bssid := c.bss.bssid, hasBssid := true);
    Attempt(if p.frequency == 0 then p.(frequency := c.bss.frequency) else p, portid,
            c.bss.beaconInterval, c.bss.capability, HasWmm(Elements(c.bss.ies)))
  }

  /** The status sent for a native result that is not zero. */
  function FailureStatus(ret: int): nat {
    if ret < 0 then 1 else ret % 0x1_0000
  }

  const NO_ATTEMPT := Attempt(CLEARED, 0, 0, 0, false)

  /** The part of vif->cfg and vif->bss_conf that an association sets. */
  datatype Vif = Vif(cfgAssoc: bool, cfgAid: nat, bssAssoc: bool, bssAid: nat, bssid: Addr, beaconInt: nat)

  const NO_LINK := Vif(false, 0, false, 0, NO_ADDR, 0)

  /** The state of the machine as a value, with the notifications so far. */
  datatype Snap = Snap(started: bool, state: ConnState, conn: Attempt, sta: Option<Addr>, vif: Vif, trace: seq<Notice>)

  function PhaseOf(s: Snap): Phase {
    if s.state.Disconnected? then Idle else if s.state.Connected? then Session else Handshake(s.conn.portid)
  }

  /** What holds between any two calls. */
  ghost predicate SnapOk(s: Snap) {
    && (s.state.Connected? ==>
          && s.sta == Some(s.conn.params.bssid) && s.conn.portid == 0
          && s.vif.cfgAssoc && s.vif.bssAssoc && s.vif.bssid == s.conn.params.bssid && s.vif.cfgAid == s.vif.bssAid < 0x4000)
    && (!s.state.Connected? ==> s.sta == None && s.vif == NO_LINK)
    && (!s.state.Disconnected? ==> s.conn.params.hasBssid)
    && (s.state.Disconnected? ==> s.conn == NO_ATTEMPT)
    && EndsIn(s.trace, PhaseOf(s))
  }

  // ----- what each call does to the state

  /** A handshake fails: one result with its port id, and everything is cleared. */
  function Failed(s: Snap, status: nat): Snap {
    s.(state := Disconnected, conn := NO_ATTEMPT, trace := s.trace + [ConnectResult(s.conn.portid, status, false)])
  }

  /** Whatever was connected or connecting is undone, with one event; nothing happens if there is nothing. */
  function Dropped(s: Snap, reason: nat, requestPort: nat, byAp: bool): Snap {
    if s.state.Disconnected? then s
    else s.(state := Disconnected, conn := NO_ATTEMPT, sta := None, vif := NO_LINK,
            trace := s.trace + [DisconnectEvent(requestPort, reason, byAp)])
  }

  predicate TakesConnect(s: Snap, request: Params) {
    s.started && !request.privacy && request.authType in {0, 8} && s.state == Disconnected
  }

  /** lcompat_netdev_connect (mac80211.c:1131-1184). */
  ghost predicate ConnectStep(s: Snap, s': Snap, request: Params, requestPort: nat, scan: Option<seq<ScanResult>>,
                              channelRet: int, authRet: int) {
    if !TakesConnect(s, request) then s' == s
    else if Chooses(scan, request, NoBss) || channelRet != 0 || authRet != 0 then
      s' == s.(trace := s.trace + [Accepted(requestPort), ConnectResult(requestPort,
                 if Chooses(scan, request, NoBss) then 1 else FailureStatus(if channelRet != 0 then channelRet else authRet), false)])
    else
      exists c: Choice :: Chooses(scan, request, c) && c.Chosen?
                          && s' == s.(state := Authenticating, conn := Begun(c, requestPort), trace := s.trace + [Accepted(requestPort)])
  }

  /** lcompat_netdev_disconnect (mac80211.c:1186-1221). */
  predicate DisconnectStep(s: Snap, s': Snap, reason: nat, requestPort: nat) {
    s' == if s.started && s.state.Connected? then Dropped(s, if reason != 0 then reason else REASON_LEAVING, requestPort, false) else s
  }

  /** lcompat_ieee80211_mgmt_matches (mac80211.c:2151-2160). */
  predicate MgmtMatches(own: Addr, params: Params, frame: seq<Byte>)
    requires |frame| >= 24
  {
    frame[4..10] == own && (params.hasBssid ==> frame[16..22] == params.bssid)
  }

  /** The parameters after another look at the scan results. */
  ghost predicate Refreshed(scan: Option<seq<ScanResult>>, p: Params, p': Params) {
    exists c: Choice :: Chooses(scan, p, c) && p' == if c.Chosen? then c.params else p
  }

  /** lcompat_ieee80211_handle_auth_rx (mac80211.c:2162-2195). */
  ghost predicate AuthStep(own: Addr, s: Snap, s': Snap, frame: seq<Byte>, scan: Option<seq<ScanResult>>, assocRet: int) {
    if |frame| < 30 || s.state != Authenticating || !MgmtMatches(own, s.conn.params, frame) then s' == s
    else
      var status, transaction := Le16(frame[28], frame[29]), Le16(frame[26], frame[27]);
      if status != STATUS_SUCCESS || transaction != 2 then s' == Failed(s, status)
      else if assocRet < 0 then s' == Failed(s, 1)
      else && Refreshed(scan, s.conn.params, s'.conn.params)
           && s' == s.(state := Associating, conn := s.conn.(params := s'.conn.params))
  }

  /** lcompat_ieee80211_handle_assoc_resp_rx (mac80211.c:2197-2230); `ret` is what connect_complete returns. */
  ghost predicate AssocStep(own: Addr, s: Snap, s': Snap, frame: seq<Byte>, scan: Option<seq<ScanResult>>, ret: int) {
    if |frame| < 30 || s.state != Associating || !MgmtMatches(own, s.conn.params, frame) then s' == s
    else
      var status, aid := Le16(frame[26], frame[27]), Le16(frame[28], frame[29]) % 0x4000;
      if status != STATUS_SUCCESS then s' == Failed(s, status)
      else if ret < 0 then s' == Failed(s, 1)
      else
        && Refreshed(scan, s.conn.params, s'.conn.params)
        && s' == if ret > 0 then s.(conn := s.conn.(params := s'.conn.params))
                 else Joined(s.(conn := s.conn.(params := s'.conn.params)), aid)
  }

  /** Associated with the BSS of the attempt. */
  function Joined(s: Snap, aid: nat): Snap {
    s.(state := Connected, sta := Some(s.conn.params.bssid), conn := s.conn.(portid := 0),
       vif := Vif(true, aid, true, aid, s.conn.params.bssid, s.conn.beaconInterval),
       trace := s.trace + [ConnectResult(s.conn.portid, STATUS_SUCCESS, true)])
  }

  /** lcompat_ieee80211_handle_disconnect_rx (mac80211.c:2232-2254). */
  predicate LeaveStep(own: Addr, s: Snap, s': Snap, frame: seq<Byte>) {
    s' == if |frame| >= 26 && MgmtMatches(own, s.conn.params, frame) then Dropped(s, Le16(frame[24], frame[25]), 0, true) else s
  }

  class Station {
    const own: Addr
    var started: bool
    var state: ConnState
    var conn: Attempt
    var sta: Option<Addr>          // the peer's station entry
    var vif: Vif
    ghost var trace: seq<Notice>

    ghost function Now(): Snap
      reads this
    {
      Snap(started, state, conn, sta, vif, trace)
    }

    ghost predicate Inv()
      reads this
    {
      SnapOk(Now())
    }

    constructor (own: Addr)
      ensures Inv() && this.own == own && Now() == Snap(false, Disconnected, NO_ATTEMPT, None, NO_LINK, [])
    {
      this.own := own;
      started, state, conn, sta, vif := false, Disconnected, NO_ATTEMPT, None, NO_LINK;
      trace := [];
    }

    /** lcompat_ieee80211_disconnect_local (mac80211.c:1020-1060): everything is undone; user space hears of it
        exactly when there was a BSSID. */
    method DisconnectLocal(reason: nat, requestPort: nat, byAp: bool)
      requires Inv()
      modifies this
      ensures Inv() && Now() == Dropped(old(Now()), reason, requestPort, byAp)
    {
      hide EndsIn, Follows;
      var haveWireless := conn.params.hasBssid;
      sta := None;
      vif := NO_LINK;
      if haveWireless {
        Snoc(trace, PhaseOf(Now()), DisconnectEvent(requestPort, reason, byAp));
        trace := trace + [DisconnectEvent(requestPort, reason, byAp)];
      }
      state := Disconnected;
      conn := NO_ATTEMPT;
    }

    /** lcompat_ieee80211_connect_failed (mac80211.c:1062-1077), before a station entry exists. */
    method ConnectFailed(status: nat)
      requires sta == None && vif == NO_LINK && EndsIn(trace, Handshake(conn.portid))
      modifies this
      ensures Inv() && Now() == Failed(old(Now()), status)
    {
      hide EndsIn, Follows;
      var requestPort := conn.portid;
      state := Disconnected;
      Snoc(trace, Handshake(conn.portid), ConnectResult(requestPort, status, false));
      trace := trace + [ConnectResult(requestPort, status, false)];
      conn := NO_ATTEMPT;
    }

    /** lcompat_ieee80211_connect_complete (mac80211.c:1079-1129).  `allocRet` is what alloc_sta returns, `addRet` what
        the driver's sta_add returns; any non-zero value leaves the station associating. */
    method ConnectComplete(aid: nat, allocRet: int, addRet: int) returns (ret: int)
      requires Inv() && state == Associating && aid < 0x4000
      modifies this
      ensures Inv() && ret == (if allocRet != 0 then allocRet else addRet)
      ensures Now() == if ret == 0 then Joined(old(Now()), aid) else old(Now())
    {
      hide EndsIn, Follows;
      sta := None;
      if allocRet != 0 { return allocRet; }
      sta := Some(conn.params.bssid);
      if addRet != 0 {
        sta := None;
        return addRet;
      }
      var requestPort := conn.portid;
      state := Connected;
      vif := Vif(true, aid, true, aid, conn.params.bssid, conn.beaconInterval);
      Snoc(trace, Handshake(conn.portid), ConnectResult(requestPort, STATUS_SUCCESS, true));
      trace := trace + [ConnectResult(requestPort, STATUS_SUCCESS, true)];
      conn := conn.(portid := 0);
      return 0;
    }

    /** lcompat_netdev_connect.  `channelRet` and `authRet` are the results of set_channel and of sending the
        authentication frame. */
    method Connect(request: Params, requestPort: nat, scan: Option<seq<ScanResult>>, channelRet: int, authRet: int)
      returns (accepted: bool, ok: bool)
      requires Inv()
      modifies this
      ensures Inv() && ConnectStep(old(Now()), Now(), request, requestPort, scan, channelRet, authRet)
      ensures accepted <==> TakesConnect(old(Now()), request)
      ensures ok <==> accepted && !Chooses(scan, request, NoBss) && channelRet == 0 && authRet == 0
      ensures ok && request.hasBssid ==> conn.params.bssid == request.bssid
    {
      hide EndsIn, Follows, HasWmm, Elements, Chooses;
      if !started || request.privacy || request.authType !in {0, 8} { return false, false; }
      if state != Disconnected { return false, false; }
      ghost var start := trace;
      conn := conn.(params := request, portid := requestPort);
      Snoc(trace, Idle, Accepted(requestPort));
      trace := trace + [Accepted(requestPort)];
      var c := SelectBss(scan, conn.params);
      if Chooses(scan, request, NoBss) { ChoiceIsUnique(scan, request, c, NoBss); }
      if c.NoBss? {
        ConnectFailed(1);
        TwoMore(start, Accepted(requestPort), ConnectResult(requestPort, 1, false));
        return true, false;
      }
      var p := c.params;
      if !p.hasBssid { p := p.(bssid := c.bss.bssid, hasBssid := true); }
      if p.frequency == 0 { p := p.(frequency := c.bss.frequency); }
      var wmm := BssHasWmm(c.bss.ies);
      conn := conn.(params := p, beaconInterval := c.bss.beaconInterval, capability := c.bss.capability, useQos := wmm);
      if channelRet != 0 {
        ConnectFailed(FailureStatus(channelRet));
        TwoMore(start, Accepted(requestPort), ConnectResult(requestPort, FailureStatus(channelRet), false));
        return true, false;
      }
      state := Authenticating;
      if authRet != 0 {
        ConnectFailed(FailureStatus(authRet));
        TwoMore(start, Accepted(requestPort), ConnectResult(requestPort, FailureStatus(authRet), false));
        return true, false;
      }
      return true, true;
    }

    /** lcompat_netdev_disconnect; the deauthentication frame may or may not go out. */
    method Disconnect(reason: nat, requestPort: nat) returns (ok: bool)
      requires Inv()
      modifies this
      ensures Inv() && DisconnectStep(old(Now()), Now(), reason, requestPort)
      ensures ok <==> old(started) && old(state) == Connected
    {
      if !started || state != Connected { return false; }
      DisconnectLocal(if reason != 0 then reason else REASON_LEAVING, requestPort, false);
      return true;
    }

    /** lcompat_ieee80211_handle_auth_rx; `assocRet` is the result of sending the request. */
    method HandleAuth(frame: seq<Byte>, scan: Option<seq<ScanResult>>, assocRet: int) returns (handled: bool)
      requires Inv()
      modifies this
      ensures Inv() && AuthStep(own, old(Now()), Now(), frame, scan, assocRet)
      ensures handled <==> |frame| >= 30
      ensures conn.params.hasBssid && old(conn.params.hasBssid) ==> conn.params.bssid == old(conn.params.bssid)
    {
      hide EndsIn, Follows, Chooses;
      if |frame| < 30 { return false; }
      if state != Authenticating || !MgmtMatches(own, conn.params, frame) { return true; }
      var status, transaction := Le16(frame[28], frame[29]), Le16(frame[26], frame[27]);
      if status != STATUS_SUCCESS || transaction != 2 {
        ConnectFailed(status);
        return true;
      }
      var c := SelectBss(scan, conn.params);
      if c.Chosen? { conn := conn.(params := c.params); }
      state := Associating;
      if assocRet < 0 { ConnectFailed(1); }
      return true;
    }

    /** lcompat_ieee80211_handle_assoc_resp_rx. */
    method HandleAssocResp(frame: seq<Byte>, scan: Option<seq<ScanResult>>, allocRet: int, addRet: int) returns (handled: bool)
      requires Inv()
      modifies this
      ensures Inv() && AssocStep(own, old(Now()), Now(), frame, scan, if allocRet != 0 then allocRet else addRet)
      ensures handled <==> |frame| >= 30
      ensures state.Connected? ==> vif.bssid == old(conn.params.bssid)
    {
      hide EndsIn, Follows, Chooses;
      if |frame| < 30 { return false; }
      if state != Associating || !MgmtMatches(own, conn.params, frame) { return true; }
      var status, aid := Le16(frame[26], frame[27]), Le16(frame[28], frame[29]) % 0x4000;
      if status != STATUS_SUCCESS {
        ConnectFailed(status);
        return true;
      }
      var c := SelectBss(scan, conn.params);
      if c.Chosen? { conn := conn.(params := c.params); }
      var ret := ConnectComplete(aid, allocRet, addRet);
      if ret < 0 { ConnectFailed(1); }
      return true;
    }

    /** lcompat_ieee80211_handle_disconnect_rx. */
    method HandleDisconnect(frame: seq<Byte>) returns (handled: bool)
      requires Inv()
      modifies this
      ensures Inv() && LeaveStep(own, old(Now()), Now(), frame)
      ensures handled <==> |frame| >= 26
    {
      if |frame| < 26 { return false; }
      var reason := Le16(frame[24], frame[25]);
      if state == Disconnected || !MgmtMatches(own, conn.params, frame) { return true; }
      DisconnectLocal(reason, 0, true);
      return true;
    }
  }

  lemma TwoMore(trace: seq<Notice>, a: Notice, b: Notice)
    ensures trace + [a] + [b] == trace + [a, b]
  {
  }

  // ----- runs

  /** One call into the machine with all that the environment decides. */
  datatype Call =
    | CallStart(up: bool)
    | CallConnect(request: Params, port: nat, scan: Option<seq<ScanResult>>, channelRet: int, authRet: int)
    | CallDisconnect(reason: nat, port: nat)
    | CallDriverDisconnect                     // ieee80211_disconnect
    | CallAuth(frame: seq<Byte>, scan: Option<seq<ScanResult>>, assocRet: int)
    | CallAssocResp(frame: seq<Byte>, scan: Option<seq<ScanResult>>, allocRet: int, addRet: int)
    | CallLeave(frame: seq<Byte>)

  ghost predicate CallStep(own: Addr, s: Snap, call: Call, s': Snap) {
    match call
    case CallStart(up) => s' == s.(started := up)
    case CallConnect(request, port, scan, channelRet, authRet) => ConnectStep(s, s', request, port, scan, channelRet, authRet)
    case CallDisconnect(reason, port) => DisconnectStep(s, s', reason, port)
    case CallDriverDisconnect => s' == Dropped(s, REASON_LEAVING, 0, false)
    case CallAuth(frame, scan, assocRet) => AuthStep(own, s, s', frame, scan, assocRet)
    case CallAssocResp(frame, scan, allocRet, addRet) => AssocStep(own, s, s', frame, scan, if allocRet != 0 then allocRet else addRet)
    case CallLeave(frame) => LeaveStep(own, s, s', frame)
  }

  /** `states` is a run of the machine over `calls`. */
  ghost predicate IsRun(own: Addr, states: seq<Snap>, calls: seq<Call>) {
    |states| == |calls| + 1 && forall i | 0 <= i < |calls| :: CallStep(own, states[i], calls[i], states[i + 1])
  }

  function Accepts(trace: seq<Notice>): nat {
    if trace == [] then 0 else Accepts(trace[..|trace| - 1]) + if trace[|trace| - 1].Accepted? then 1 else 0
  }

  /** How many of the first `n` calls are connects that are taken. */
  function Taken(states: seq<Snap>, calls: seq<Call>, n: nat): nat
    requires n <= |calls| && |states| == |calls| + 1
  {
    if n == 0 then 0
    else Taken(states, calls, n - 1) + if calls[n - 1].CallConnect? && TakesConnect(states[n - 1], calls[n - 1].request) then 1 else 0
  }

  lemma AcceptsSnoc(trace: seq<Notice>, n: Notice)
    ensures Accepts(trace + [n]) == Accepts(trace) + if n.Accepted? then 1 else 0
  {
    assert (trace + [n])[..|trace|] == trace;
  }

  /** What one call adds: nothing, one notice that accepts nothing, or the notices of a connect that is taken. */
  ghost predicate Adds(before: seq<Notice>, after: seq<Notice>, taken: bool) {
    || (!taken && after == before)
    || (!taken && exists n: Notice :: !n.Accepted? && after == before + [n])
    || (taken && exists n: Notice :: n.Accepted? && after == before + [n])
    || (taken && exists n: Notice, m: Notice :: n.Accepted? && !m.Accepted? && after == before + [n, m])
  }

  lemma AddsCount(before: seq<Notice>, after: seq<Notice>, taken: bool)
    requires Adds(before, after, taken)
    ensures before <= after && Accepts(after) == Accepts(before) + if taken then 1 else 0
  {
    if n: Notice :| after == before + [n] && (n.Accepted? <==> taken) {
      AcceptsSnoc(before, n);
    } else if n: Notice, m: Notice :| n.Accepted? && !m.Accepted? && after == before + [n, m] && taken {
      AcceptsSnoc(before, n);
      AcceptsSnoc(before + [n], m);
      TwoMore(before, n, m);
    }
  }

  lemma ConnectAdds(s: Snap, s': Snap, request: Params, requestPort: nat, scan: Option<seq<ScanResult>>, channelRet: int, authRet: int)
    requires ConnectStep(s, s', request, requestPort, scan, channelRet, authRet)
    ensures Adds(s.trace, s'.trace, TakesConnect(s, request))
  {
    hide Chooses;
  }

  lemma OthersAdd(own: Addr, s: Snap, call: Call, s': Snap)
    requires CallStep(own, s, call, s') && !call.CallConnect?
    ensures Adds(s.trace, s'.trace, false)
  {
    hide Chooses, MgmtMatches;
  }

  /** One call only adds notices, and an Accepted exactly for a connect that is taken. */
  lemma CallAdds(own: Addr, s: Snap, call: Call, s': Snap)
    requires CallStep(own, s, call, s')
    ensures s.trace <= s'.trace
    ensures Accepts(s'.trace) == Accepts(s.trace) + if call.CallConnect? && TakesConnect(s, call.request) then 1 else 0
  {
    hide Adds, ConnectStep, AuthStep, AssocStep, LeaveStep, DisconnectStep, TakesConnect;
    if call.CallConnect? {
      ConnectAdds(s, s', call.request, call.port, call.scan, call.channelRet, call.authRet);
    } else {
      OthersAdd(own, s, call, s');
    }
    AddsCount(s.trace, s'.trace, call.CallConnect? && TakesConnect(s, call.request));
  }

  /** Along a run: the trace only grows, with one Accepted for each connect that is taken. */
  lemma {:induction false} RunAdds(own: Addr, states: seq<Snap>, calls: seq<Call>, n: nat)
    requires IsRun(own, states, calls) && n <= |calls|
    ensures states[0].trace <= states[n].trace
    ensures Accepts(states[n].trace) == Accepts(states[0].trace) + Taken(states, calls, n)
  {
    hide CallStep;
    if n > 0 {
      RunAdds(own, states, calls, n - 1);
      CallAdds(own, states[n - 1], calls[n - 1], states[n]);
    }
  }

  /** Whatever is called in whatever order, each call does to the state what CallStep says; the invariant holds at the end,
      and the notifications are in the language, with one Accepted for each connect that is taken. */
  method Run(s: Station, calls: seq<Call>) returns (ghost states: seq<Snap>)
    requires s.Inv()
    modifies s
    ensures IsRun(s.own, states, calls) && states[0] == old(s.Now()) && states[|calls|] == s.Now()
    ensures s.Inv() && (s.state.Connected? <==> s.sta.Some?) && (s.state.Connected? <==> s.vif.cfgAssoc && s.vif.bssAssoc)
    ensures old(s.trace) <= s.trace && Accepts(s.trace) == Accepts(old(s.trace)) + Taken(states, calls, |calls|)
    ensures forall i | 0 <= i < |s.trace| - 1 :: Follows(s.trace[i], s.trace[i + 1])
  {
    hide EndsIn, Follows, ConnectStep, DisconnectStep, AuthStep, AssocStep, LeaveStep;
    states := [s.Now()];
    for i := 0 to |calls|
      invariant s.Inv() && |states| == i + 1 && states[0] == old(s.Now()) && states[i] == s.Now()
      invariant forall j | 0 <= j < i :: CallStep(s.own, states[j], calls[j], states[j + 1])
    {
      match calls[i] {
        case CallStart(up) => s.started := up;
        case CallConnect(request, port, scan, channelRet, authRet) =>
          var accepted, ok := s.Connect(request, port, scan, channelRet, authRet);
        case CallDisconnect(reason, port) => var ok := s.Disconnect(reason, port);
        case CallDriverDisconnect => s.DisconnectLocal(REASON_LEAVING, 0, false);
        case CallAuth(frame, scan, assocRet) => var handled := s.HandleAuth(frame, scan, assocRet);
        case CallAssocResp(frame, scan, allocRet, addRet) => var handled := s.HandleAssocResp(frame, scan, allocRet, addRet);
        case CallLeave(frame) => var handled := s.HandleDisconnect(frame);
      }
      states := states + [s.Now()];
    }
    RunAdds(s.own, states, calls, |calls|);
    NoticesAlternate(s.trace, PhaseOf(s.Now()));
  }
}
