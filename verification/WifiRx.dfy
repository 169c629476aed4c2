/** The receive path (mac80211.c:1320-1340, 1921-1962, 2107-2149, 2284-2362): who owns a received buffer, and in what
    order Ethernet frames reach the network device. */
module WifiRx {
  import opened Basics
  import opened PacketMemory
  import opened WifiFrames
  import opened WifiConnection
  import opened SkbList

  const FCS_LEN: nat := 4

  /** lcompat_ieee80211_rx_data_matches_bss: from the access point we are connected to, to us or to a group. */
  predicate FromOurBss(frame: seq<Byte>, own: Addr, link: Option<Addr>)
    requires |frame| >= HDR_3ADDR
  {
    var fc := FrameControl(frame);
    link.Some? && !ToDs(fc) && FromDs(fc) && frame[10..16] == link.value && (frame[4..10] == own || frame[4] % 2 == 1)
  }

  /** lcompat_ieee80211_is_amsdu; the bit is looked up two bytes before the end of the header. */
  predicate IsAmsdu(frame: seq<Byte>, hdrLen: nat) {
    |frame| >= hdrLen && hdrLen >= HDR_3ADDR + 2 && frame[hdrLen - 2] / 128 % 2 == 1
  }

  /** Where the QoS control field of a frame starts. */
  function QosOffset(fc: nat): nat { HDR_3ADDR + if ToDs(fc) && FromDs(fc) then ETH_ALEN else 0 }

  /** What the test should look at: the A-MSDU bit of the QoS control field. */
  predicate SaysAmsdu(frame: seq<Byte>)
    requires |frame| >= 2 && |frame| > QosOffset(FrameControl(frame))
  {
    frame[QosOffset(FrameControl(frame))] / 128 % 2 == 1
  }

  /** Frames with this frame control and a whole header, on which the test and the QoS control field agree. */
  ghost predicate TestIsRight(fc: nat, len: nat)
    requires IsQos(fc)
  {
    forall frame: seq<Byte> | |frame| == len >= DataHdrLen(fc) && FrameControl(frame) == fc ::
      IsAmsdu(frame, DataHdrLen(fc)) <==> SaysAmsdu(frame)
  }

  /** A frame with this frame control and one other byte set. */
  function OneByte(fc: nat, len: nat, at: nat): seq<Byte>
    requires fc < 0x1_0000
  {
    seq(len, i => if i == 0 then fc % 256 else if i == 1 then fc / 256 else if i == at then 128 else 0)
  }

  /** The A-MSDU test answers what the QoS control field says, on all frames with this frame control, if and only if they
      carry no HT control field. */
  lemma AmsduBitPosition(fc: nat, len: nat)
    requires fc < 0x1_0000 && IsQos(fc) && len >= DataHdrLen(fc)
    ensures TestIsRight(fc, len) <==> !Order(fc)
  {
    if Order(fc) {
      var frame := OneByte(fc, len, QosOffset(fc));
      assert FrameControl(frame) == fc;
      assert SaysAmsdu(frame) && !IsAmsdu(frame, DataHdrLen(fc));
    }
  }

  /** The Ethernet frames a received data frame is worth.  An A-MSDU without any usable subframe is tried as a single frame. */
  function Incoming(frame: seq<Byte>, own: Addr, link: Option<Addr>, failed: set<nat>): seq<seq<Byte>> {
    if |frame| < HDR_3ADDR then []
    else
      var fc := FrameControl(frame);
      if IsMgmt(fc) || IsCtl(fc) || !DataPresent(fc) || !FromOurBss(frame, own, link) then []
      else
        var parts := Parts(frame, failed);
        if parts != [] then parts else if ToEthernet(frame).Some? then [ToEthernet(frame).value] else []
  }

  function Parts(frame: seq<Byte>, failed: set<nat>): seq<seq<Byte>>
    requires |frame| >= HDR_3ADDR
  {
    var n := DataHdrLen(FrameControl(frame));
    if IsAmsdu(frame, n) then Delivered(Subframes(frame[n..]), failed) else []
  }

  lemma IncomingData(frame: seq<Byte>, own: Addr, link: Option<Addr>, failed: set<nat>)
    requires |frame| >= HDR_3ADDR && DataPresent(FrameControl(frame)) && FromOurBss(frame, own, link)
    ensures Incoming(frame, own, link, failed) ==
            if Parts(frame, failed) != [] then Parts(frame, failed) else if ToEthernet(frame).Some? then [ToEthernet(frame).value] else []
  {
  }

  /** A frame that the access point sends us, with a QoS control and an HT control field and nothing behind them. */
  predicate HtHeader(hdr: seq<Byte>, own: Addr, link: Option<Addr>) {
    && |hdr| == HDR_3ADDR + 6 && IsQos(FrameControl(hdr)) && Order(FrameControl(hdr)) && DataPresent(FrameControl(hdr))
    && FromOurBss(hdr, own, link)
  }

  /** The first address of a body is no LLC header. */
  predicate NoSnapAddress(eth: seq<Byte>)
    requires |eth| >= 6
  {
    eth[..6] != RFC1042 && eth[..6] != BRIDGE_TUNNEL
  }

  /** What that costs.  Behind such a header the frames of an A-MSDU arrive if and only if bit 7 of the third byte of the HT control
      field is set, whatever the QoS control field says; otherwise nothing arrives. */
  lemma HtControlDecides(hdr: seq<Byte>, eths: seq<seq<Byte>>, pads: seq<seq<Byte>>, own: Addr, link: Option<Addr>)
    requires HtHeader(hdr, own, link) && AllCarriable(eths) && PadsFit(AsMsdus(eths), pads) && eths != []
    requires NoSnapAddress(eths[0])
    ensures Incoming(hdr + Serialize(AsMsdus(eths), pads), own, link, {}) == if hdr[28] / 128 % 2 == 1 then eths else []
  {
    hide Subframes, Delivered, ToEthernet, Serialize, AsMsdus, DataPresent, IsQos, Order;
    var frame := hdr + Serialize(AsMsdus(eths), pads);
    SameHeader(hdr, frame, own, link);
    IncomingData(frame, own, link, {});
    AmsduRoundTrip(hdr, eths, pads);
    NotSingle(hdr, eths, pads);
  }

  /** Such a header, with the A-MSDU bit of its QoS control field set and the HT control field zero. */
  function LosingHeader(own: Addr, bss: Addr): seq<Byte> {
    [0x88, 0x82, 0, 0] + own + bss + bss + [0, 0] + [0x80, 0] + [0, 0, 0, 0]
  }

  lemma LosingFields(own: Addr, bss: Addr)
    ensures var hdr := LosingHeader(own, bss);
            && |hdr| == 30 && hdr[0] == 0x88 && hdr[1] == 0x82 && hdr[4..10] == own && hdr[10..16] == bss && hdr[24] == 0x80 && hdr[28] == 0
  {
  }

  lemma LosingControl()
    ensures IsQos(0x8288) && Order(0x8288) && DataPresent(0x8288) && !ToDs(0x8288) && FromDs(0x8288)
  {
  }

  /** So an A-MSDU that says it is one is lost, whoever it is for and whatever it carries. */
  lemma SubframesLost(own: Addr, bss: Addr, eths: seq<seq<Byte>>, pads: seq<seq<Byte>>)
    requires AllCarriable(eths) && PadsFit(AsMsdus(eths), pads) && eths != [] && NoSnapAddress(eths[0])
    ensures var frame := LosingHeader(own, bss) + Serialize(AsMsdus(eths), pads);
            && |frame| >= 30 && QosOffset(FrameControl(frame)) == 24 && SaysAmsdu(frame) && FromOurBss(frame, own, Some(bss))
            && Delivered(Subframes(frame[30..]), {}) == eths && Incoming(frame, own, Some(bss), {}) == []
  {
    hide LosingHeader, IsQos, Order, DataPresent, ToDs, FromDs, Subframes, Delivered, Serialize, AsMsdus, Incoming;
    var hdr := LosingHeader(own, bss);
    LosingFields(own, bss);
    LosingControl();
    assert FrameControl(hdr) == 0x8288;
    HtControlDecides(hdr, eths, pads, own, Some(bss));
    AmsduRoundTrip(hdr, eths, pads);
    SameHeader(hdr, hdr + Serialize(AsMsdus(eths), pads), own, Some(bss));
  }

  lemma SameHeader(hdr: seq<Byte>, frame: seq<Byte>, own: Addr, link: Option<Addr>)
    requires HtHeader(hdr, own, link) && hdr <= frame
    ensures FrameControl(frame) == FrameControl(hdr) && FromOurBss(frame, own, link)
    ensures DataHdrLen(FrameControl(hdr)) == |hdr| == 30 && frame[28] == hdr[28]
  {
    assert frame[10..16] == hdr[10..16] && frame[4..10] == hdr[4..10];
  }

  /** The first bytes behind the header are an address, which is no SNAP header. */
  lemma NotSingle(hdr: seq<Byte>, eths: seq<seq<Byte>>, pads: seq<seq<Byte>>)
    requires |hdr| >= HDR_3ADDR && DataHdrLen(FrameControl(hdr)) == |hdr|
    requires AllCarriable(eths) && PadsFit(AsMsdus(eths), pads) && eths != [] && NoSnapAddress(eths[0])
    ensures ToEthernet(hdr + Serialize(AsMsdus(eths), pads)).None?
  {
    var body := Serialize(AsMsdus(eths), pads);
    var frame := hdr + body;
    assert FrameControl(frame) == FrameControl(hdr) && frame[|hdr|..] == body;
    assert body[..6] == eths[0][..6];
  }

  /** The frame without its check sequence, if the driver passes one. */
  function Stripped(data: seq<Byte>, includesFcs: bool): seq<Byte> {
    if includesFcs && |data| > FCS_LEN then data[..|data| - FCS_LEN] else data
  }

  function LinkOf(s: Snap): Option<Addr> {
    if s.state == Connected then Some(s.conn.params.bssid) else None
  }

  /** The frames one received buffer contributes, all checks of ieee80211_rx_irqsafe included. */
  function WorthIn(own: Addr, s: Snap, data: seq<Byte>, env: RxEnv): seq<seq<Byte>> {
    Worth(own, LinkOf(s), data, env.bad, env.includesFcs, env.failed)
  }

  function Worth(own: Addr, link: Option<Addr>, data: seq<Byte>, bad: bool, includesFcs: bool, failed: set<nat>): seq<seq<Byte>> {
    if bad || (includesFcs && |data| <= FCS_LEN) then []
    else Incoming(Stripped(data, includesFcs), own, link, failed)
  }

  /** lcompat_ieee80211_handle_mgmt_rx (mac80211.c:2256-2282); beacons and probe responses only feed scan results. */
  ghost predicate MgmtStep(own: Addr, s: Snap, s': Snap, frame: seq<Byte>, env: RxEnv)
    requires |frame| >= HDR_3ADDR
  {
    var subtype := Subtype(FrameControl(frame));
    if subtype == 11 then AuthStep(own, s, s', frame, env.scan, env.assocRet)
    else if subtype == 1 then AssocStep(own, s, s', frame, env.scan, if env.allocRet != 0 then env.allocRet else env.addRet)
    else if subtype == 12 || subtype == 10 then LeaveStep(own, s, s', frame)
    else s' == s
  }

  /** What a received buffer does to the connection: nothing, unless it is a management frame. */
  ghost predicate StationStep(own: Addr, s: Snap, s': Snap, data: seq<Byte>, env: RxEnv) {
    var frame := Stripped(data, env.includesFcs);
    if env.bad || (env.includesFcs && |data| <= FCS_LEN) || |frame| < HDR_3ADDR || !IsMgmt(FrameControl(frame)) then s' == s
    else MgmtStep(own, s, s', frame, env)
  }

  datatype RecvResult = Again | TooBig | Frame(bytes: seq<Byte>)

  /** What the native side and the driver decide about one received buffer. */
  datatype RxEnv = RxEnv(bad: bool, includesFcs: bool, failed: set<nat>, scan: Option<seq<ScanResult>>,
                         assocRet: int, allocRet: int, addRet: int)

  /** `freed` are the buffers handed to kfree_skb, `entered` and `left` the frames put on rx_queue and taken off it, in order. */
  datatype Mark = Mark(station: Snap, items: seq<SkBuff>, freed: seq<SkBuff>, entered: seq<seq<Byte>>, left: seq<seq<Byte>>)

  class Receiver {
    const station: Station
    const queue: SkbQueue
    ghost var freed: seq<SkBuff>         // buffers handed to kfree_skb, in order
    ghost var entered: seq<seq<Byte>>    // frames put on rx_queue, in order
    ghost var left: seq<seq<Byte>>       // frames taken off it, in order

    constructor (station: Station)
      requires station.Inv()
      ensures Valid() && this.station == station && freed == [] && entered == [] && left == [] && fresh(queue)
    {
      this.station := station;
      queue := new SkbQueue();
      freed, entered, left := [], [], [];
    }

    ghost predicate Valid()
      reads this, station, queue, queue.items
    {
      && station.Inv() && queue.Valid()
      && Distinct(freed) && (forall s <- queue.items :: s !in freed)
      && entered == left + Bytes(queue.items)
    }

    function Link(): Option<Addr>
      reads station
    {
      if station.state == Connected then Some(station.conn.params.bssid) else None
    }

    /** The state of the receive path as a value. */
    ghost function Now(): Mark
      reads this, station, queue
    {
      Mark(station.Now(), queue.items, freed, entered, left)
    }

    /** lcompat_ieee80211_enqueue_amsdu; `failed` says which allocations fail. */
    method EnqueueAmsdu(frame: seq<Byte>, hdrLen: nat, failed: set<nat>) returns (ok: bool)
      requires Valid() && hdrLen <= |frame|
      modifies this`entered, queue, queue.items
      ensures Valid() && unchanged(station)
      ensures ok <==> Delivered(Subframes(frame[hdrLen..]), failed) != []
      ensures entered == old(entered) + Delivered(Subframes(frame[hdrLen..]), failed)
      ensures |queue.items| >= |old(queue.items)| && queue.items[..|old(queue.items)|] == old(queue.items)
      ensures forall i | |old(queue.items)| <= i < |queue.items| :: fresh(queue.items[i])
    {
      hide Subframes, Padded, EthFrame, SnapType, Delivered, Be16, Station.Inv, SkbQueue.Valid, Bytes, Distinct;
      NoneDelivered(failed);
      var pos := hdrLen;
      var remaining := |frame| - hdrLen;
      var queued, nth := 0, 0;     // nth numbers the subframes for `failed`
      ghost var seen: seq<Msdu> := [];
      ghost var all := Subframes(frame[hdrLen..]);
      ghost var more := true;
      while remaining >= ETH_HLEN
        invariant 0 <= pos && 0 <= remaining && pos + remaining == |frame|
        invariant more && all == seen + Subframes(frame[pos..])
        invariant Valid() && unchanged(station) && entered == old(entered) + Delivered(seen, failed)
        invariant queued == |Delivered(seen, failed)| && nth == |seen|
        invariant |queue.items| >= |old(queue.items)| && queue.items[..|old(queue.items)|] == old(queue.items)
        invariant forall i | |old(queue.items)| <= i < |queue.items| :: fresh(queue.items[i])
        decreases remaining
      {
        OneSubframe(frame, pos);
        var dst, src := frame[pos..pos + 6], frame[pos + 6..pos + 12];
        var n := Be16(frame[pos + 12], frame[pos + 13]);
        pos := pos + ETH_HLEN;
        remaining := remaining - ETH_HLEN;
        if n == 0 || n > remaining {
          assert all == seen;
          more := false;
          break;
        }
        var m := Msdu(dst, src, frame[pos..pos + n]);
        DeliveredSnoc(seen, m, failed);
        if EthFrame(m).Some? && nth !in failed {
          Enqueue(EthFrame(m).value);
          queued := queued + 1;
        }
        seen, nth := seen + [m], nth + 1;
        var step := Padded(ETH_HLEN + n) - ETH_HLEN;
        if step > remaining {
          assert all == seen;
          more := false;
          break;
        }
        assert all == seen + Subframes(frame[pos + step..]);
        pos := pos + step;
        remaining := remaining - step;
      }
      if more {
        Short(frame, pos);
        assert all == seen;
      }
      ok := queued != 0;
    }

    /** A new buffer with these bytes goes to the end of rx_queue. */
    method Enqueue(bytes: seq<Byte>)
      requires Valid()
      modifies this`entered, queue, queue.items
      ensures Valid() && unchanged(station) && entered == old(entered) + [bytes]
      ensures |queue.items| == |old(queue.items)| + 1 && queue.items[..|old(queue.items)|] == old(queue.items)
      ensures fresh(queue.items[|old(queue.items)|])
    {
      hide Station.Inv, SkbQueue.Valid, Bytes, Distinct;
      var skb := new SkBuff(bytes);
      queue.QueueTail(skb);
      entered := entered + [bytes];
    }

    method Free(skb: SkBuff)
      requires Valid() && skb !in freed && skb !in queue.items
      modifies this`freed
      ensures Valid() && freed == old(freed) + [skb]
    {
      freed := freed + [skb];
    }

    /** lcompat_netdev_recv: the oldest frame is delivered, or dropped if the caller's buffer is too small. */
    method Recv(len: nat) returns (r: RecvResult)
      requires Valid()
      modifies this`freed, this`left, queue, queue.items
      ensures Valid() && unchanged(station) && entered == old(entered)
      ensures old(queue.items) == [] ==> r == Again && left == old(left) && freed == old(freed)
      ensures old(queue.items) != [] ==>
                var bytes := old(queue.items[0].data);
                && left == old(left) + [bytes] && freed == old(freed) + [old(queue.items)[0]]
                && queue.items == old(queue.items)[1..]
                && r == (if len < |bytes| then TooBig else Frame(bytes))
    {
      hide Station.Inv, SkbQueue.Valid, Bytes, Distinct;
      var skb := queue.Dequeue();
      if skb == null { return Again; }
      left := left + [skb.data];
      Free(skb);
      if len < |skb.data| { return TooBig; }
      r := Frame(skb.data);
    }
  
    method HandleMgmt(frame: seq<Byte>, env: RxEnv)
      requires Valid() && |frame| >= HDR_3ADDR
      modifies station
      ensures Valid() && MgmtStep(station.own, old(station.Now()), station.Now(), frame, env)
    {
      hide Bytes, Distinct, SkbQueue.Valid, Station.Inv, AuthStep, AssocStep, LeaveStep;
      var subtype := Subtype(FrameControl(frame));
      var handled := true;
      if subtype == 8 || subtype == 5 || subtype == 4 { return; }
      if subtype == 11 { handled := station.HandleAuth(frame, env.scan, env.assocRet); }
      else if subtype == 1 { handled := station.HandleAssocResp(frame, env.scan, env.allocRet, env.addRet); }
      else if subtype == 12 || subtype == 10 { handled := station.HandleDisconnect(frame); }
    }

    /** ieee80211_rx_irqsafe (mac80211.c:2284-2362): the buffer is freed or ends on rx_queue, never both, and what the network
        device will see grows by exactly the frames it is worth. */
    method RxIrqsafe(skb: SkBuff, env: RxEnv)
      requires Valid() && skb !in freed && skb !in queue.items
      modifies this`freed, this`entered, station, queue, queue.items, skb
      ensures Valid() && left == old(left)
      ensures entered == old(entered) + WorthIn(station.own, old(station.Now()), old(skb.data), env)
      ensures StationStep(station.own, old(station.Now()), station.Now(), old(skb.data), env)
      ensures skb in queue.items <==> skb !in freed
      ensures freed == old(freed) || freed == old(freed) + [skb]
      ensures |queue.items| >= |old(queue.items)| && queue.items[..|old(queue.items)|] == old(queue.items)
      ensures forall i | |old(queue.items)| <= i < |queue.items| :: queue.items[i] == skb || fresh(queue.items[i])
    {
      hide Bytes, Distinct, SkbQueue.Valid, Station.Inv, ToEthernet, Delivered, Subframes, MgmtStep;
      if env.bad {
        Free(skb);
        return;
      }
      if env.includesFcs {
        if |skb.data| <= FCS_LEN {
          Free(skb);
          return;
        }
        skb.data := skb.data[..|skb.data| - FCS_LEN];
      }
      if |skb.data| >= 2 && IsCtl(FrameControl(skb.data)) {
        Free(skb);
        return;
      }
      if |skb.data| < HDR_3ADDR {
        Free(skb);
        return;
      }
      var fc := FrameControl(skb.data);
      if IsMgmt(fc) {
        HandleMgmt(skb.data, env);
        Free(skb);
        return;
      }
      if !DataPresent(fc) || !FromOurBss(skb.data, station.own, Link()) {
        Free(skb);
        return;
      }
      RxData(skb, env.failed);
    }

    /** A data frame from our BSS (mac80211.c:2348-2361). */
    method RxData(skb: SkBuff, failed: set<nat>)
      requires Valid() && skb !in freed && skb !in queue.items && |skb.data| >= HDR_3ADDR
      requires DataPresent(FrameControl(skb.data)) && FromOurBss(skb.data, station.own, Link())
      modifies this`freed, this`entered, queue, queue.items, skb
      ensures Valid() && unchanged(station)
      ensures entered == old(entered) + Incoming(old(skb.data), station.own, Link(), failed)
      ensures skb in queue.items <==> skb !in freed
      ensures freed == old(freed) || freed == old(freed) + [skb]
      ensures |queue.items| >= |old(queue.items)| && queue.items[..|old(queue.items)|] == old(queue.items)
      ensures forall i | |old(queue.items)| <= i < |queue.items| :: queue.items[i] == skb || fresh(queue.items[i])
    {
      hide Bytes, Distinct, SkbQueue.Valid, Station.Inv, ToEthernet, Delivered, Subframes, Incoming, DataPresent, FromOurBss, DataHdrLen;
      IncomingData(skb.data, station.own, Link(), failed);
      var n := DataHdrLen(FrameControl(skb.data));
      if IsAmsdu(skb.data, n) {
        var ok := EnqueueAmsdu(skb.data, n, failed);
        if ok {
          Free(skb);
          return;
        }
      }
      Convert(skb);
    }

    /** The single frame goes on rx_queue in its own buffer, or the buffer is freed (mac80211.c:2356-2361). */
    method Convert(skb: SkBuff)
      requires Valid() && skb !in freed && skb !in queue.items
      modifies this`freed, this`entered, queue, queue.items, skb
      ensures Valid() && unchanged(station)
      ensures var eth := ToEthernet(old(skb.data));
              entered == old(entered) + if eth.Some? then [eth.value] else []
      ensures skb in queue.items <==> skb !in freed
      ensures freed == old(freed) || freed == old(freed) + [skb]
      ensures queue.items == old(queue.items) || queue.items == old(queue.items) + [skb]
    {
      hide Bytes, Distinct, SkbQueue.Valid, Station.Inv, ToEthernet;
      var eth := ToEthernet(skb.data);
      if eth.None? {
        Free(skb);
        return;
      }
      skb.data := eth.value;
      queue.QueueTail(skb);
      entered := entered + [eth.value];
    }
  }

  datatype RxCall = Receive(data: seq<Byte>, env: RxEnv) | Take(len: nat)

  /** Each of these buffers is in exactly one of the two lists. */
  ghost predicate Accounted(given: seq<SkBuff>, freed: seq<SkBuff>, items: seq<SkBuff>) {
    forall s <- given :: s in freed <==> s !in items
  }

  lemma AfterReceive(given: seq<SkBuff>, freed: seq<SkBuff>, items: seq<SkBuff>, freed': seq<SkBuff>, items': seq<SkBuff>, skb: SkBuff)
    requires Accounted(given, freed, items) && skb !in given
    requires |items'| >= |items| && items'[..|items|] == items && forall j | |items| <= j < |items'| :: items'[j] !in given
    requires freed' == freed || freed' == freed + [skb]
    requires skb in items' <==> skb !in freed'
    ensures Accounted(given + [skb], freed', items')
  {
    assert items' == items + items'[|items|..];
    assert forall s <- items'[|items|..] :: s !in given;
  }

  lemma AfterTake(given: seq<SkBuff>, freed: seq<SkBuff>, items: seq<SkBuff>)
    requires Accounted(given, freed, items) && items != [] && items[0] !in items[1..]
    ensures Accounted(given, freed + [items[0]], items[1..])
  {
    assert items == [items[0]] + items[1..];
  }

  lemma HeadOnce(q: SkbQueue)
    requires q.Valid() && q.items != []
    ensures q.items[0] !in q.items[1..]
  {
  }

  /** A reception of the buffer `skb`, made from `data`. */
  ghost predicate ReceiveStep(own: Addr, m: Mark, m': Mark, data: seq<Byte>, env: RxEnv, skb: SkBuff) {
    && StationStep(own, m.station, m'.station, data, env)
    && m'.entered == m.entered + WorthIn(own, m.station, data, env) && m'.left == m.left
    && (m'.freed == m.freed || m'.freed == m.freed + [skb]) && (skb in m'.items <==> skb !in m'.freed)
    && m.items <= m'.items
  }

  /** A read: the oldest frame that has not left yet is delivered, or dropped if it does not fit, and its buffer is freed. */
  predicate TakeStep(m: Mark, m': Mark, len: nat, got: RecvResult) {
    if m.items == [] then got == Again && m' == m
    else
      && |m.left| < |m.entered|
      && var bytes := m.entered[|m.left|];
         && m' == m.(items := m.items[1..], freed := m.freed + [m.items[0]], left := m.left + [bytes])
         && got == if len < |bytes| then TooBig else Frame(bytes)
  }

  function Receives(calls: seq<RxCall>): nat {
    if calls == [] then 0 else Receives(calls[..|calls| - 1]) + if calls[|calls| - 1].Receive? then 1 else 0
  }

  lemma {:induction false} CallsSplit(calls: seq<RxCall>, n: nat)
    requires n < |calls|
    ensures Receives(calls[..n + 1]) == Receives(calls[..n]) + if calls[n].Receive? then 1 else 0
    ensures Receives(calls[..n]) <= n
  {
    assert calls[..n + 1][..n] == calls[..n];
    if n > 0 { CallsSplit(calls, n - 1); }
  }

  /** `marks` is a run of the receive path over `calls`: the buffers made for the receptions are `given`, and the reads answer
      `got`, both in order. */
  ghost predicate IsRxRun(own: Addr, marks: seq<Mark>, calls: seq<RxCall>, given: seq<SkBuff>, got: seq<RecvResult>) {
    && |marks| == |calls| + 1 && |given| == Receives(calls) && |given| + |got| == |calls|
    && forall i | 0 <= i < |calls| :: IsRxStep(own, marks, calls, given, got, i)
  }

  ghost predicate IsRxStep(own: Addr, marks: seq<Mark>, calls: seq<RxCall>, given: seq<SkBuff>, got: seq<RecvResult>, i: nat)
    requires i < |calls| && i + 1 < |marks|
  {
    var j := Receives(calls[..i]);
    match calls[i]
    case Receive(data, env) => j < |given| && ReceiveStep(own, marks[i], marks[i + 1], data, env, given[j])
    case Take(len) => j <= i && i - j < |got| && TakeStep(marks[i], marks[i + 1], len, got[i - j])
  }

  /** All frames that the first `n` calls put on rx_queue: those each reception is worth in the state it meets. */
  function Worths(own: Addr, marks: seq<Mark>, calls: seq<RxCall>, n: nat): seq<seq<Byte>>
    requires n <= |calls| && |marks| == |calls| + 1
  {
    if n == 0 then []
    else Worths(own, marks, calls, n - 1)
         + match calls[n - 1] case Receive(data, env) => WorthIn(own, marks[n - 1].station, data, env) case Take(_) => []
  }

  /** Along a run: what entered is what the receptions are worth; what left and what was freed only grows. */
  lemma {:induction false} RunGrows(own: Addr, marks: seq<Mark>, calls: seq<RxCall>, given: seq<SkBuff>, got: seq<RecvResult>, n: nat)
    requires IsRxRun(own, marks, calls, given, got) && n <= |calls|
    ensures marks[n].entered == marks[0].entered + Worths(own, marks, calls, n)
    ensures marks[0].left <= marks[n].left && marks[0].freed <= marks[n].freed
  {
    hide StationStep, WorthIn;
    if n > 0 {
      RunGrows(own, marks, calls, given, got, n - 1);
      assert IsRxStep(own, marks, calls, given, got, n - 1);
    }
  }

  lemma StepStays(own: Addr, marks: seq<Mark>, calls: seq<RxCall>, given: seq<SkBuff>, got: seq<RecvResult>, i: nat,
                  m: Mark, call: RxCall, given': seq<SkBuff>, got': seq<RecvResult>)
    requires |marks| == |calls| + 1 && i < |calls| && IsRxStep(own, marks, calls, given, got, i)
    requires given <= given' && got <= got'
    ensures IsRxStep(own, marks + [m], calls + [call], given', got', i)
  {
    hide ReceiveStep, TakeStep;
    assert (calls + [call])[..i] == calls[..i];
  }

  lemma AddReceive(own: Addr, marks: seq<Mark>, calls: seq<RxCall>, given: seq<SkBuff>, got: seq<RecvResult>,
                   data: seq<Byte>, env: RxEnv, skb: SkBuff, m: Mark)
    requires IsRxRun(own, marks, calls, given, got) && ReceiveStep(own, marks[|calls|], m, data, env, skb)
    ensures IsRxRun(own, marks + [m], calls + [Receive(data, env)], given + [skb], got)
  {
    hide ReceiveStep, TakeStep;
    var call := Receive(data, env);
    assert (calls + [call])[..|calls|] == calls;
    forall i | 0 <= i < |calls + [call]|
      ensures IsRxStep(own, marks + [m], calls + [call], given + [skb], got, i)
    {
      if i < |calls| {
        assert IsRxStep(own, marks, calls, given, got, i);
        StepStays(own, marks, calls, given, got, i, m, call, given + [skb], got);
      }
    }
  }

  lemma AddTake(own: Addr, marks: seq<Mark>, calls: seq<RxCall>, given: seq<SkBuff>, got: seq<RecvResult>,
                len: nat, result: RecvResult, m: Mark)
    requires IsRxRun(own, marks, calls, given, got) && TakeStep(marks[|calls|], m, len, result)
    ensures IsRxRun(own, marks + [m], calls + [Take(len)], given, got + [result])
  {
    hide ReceiveStep, TakeStep;
    var call := Take(len);
    assert (calls + [call])[..|calls|] == calls;
    forall i | 0 <= i < |calls + [call]|
      ensures IsRxStep(own, marks + [m], calls + [call], given, got + [result], i)
    {
      if i < |calls| {
        assert IsRxStep(own, marks, calls, given, got, i);
        StepStays(own, marks, calls, given, got, i, m, call, given, got + [result]);
      }
    }
  }

  lemma FirstOut(entered: seq<seq<Byte>>, left: seq<seq<Byte>>, items: seq<SkBuff>)
    requires entered == left + Bytes(items) && items != []
    ensures |left| < |entered| && entered[|left|] == items[0].data
  {
  }

  /** The driver passes a new buffer with these bytes. */
  method Reception(r: Receiver, data: seq<Byte>, env: RxEnv) returns (skb: SkBuff)
    requires r.Valid()
    modifies r`freed, r`entered, r.station, r.queue, r.queue.items
    ensures r.Valid() && fresh(skb) && ReceiveStep(r.station.own, old(r.Now()), r.Now(), data, env, skb)
    ensures r.freed == old(r.freed) || r.freed == old(r.freed) + [skb]
    ensures skb in r.queue.items <==> skb !in r.freed
    ensures |r.queue.items| >= |old(r.queue.items)| && r.queue.items[..|old(r.queue.items)|] == old(r.queue.items)
    ensures forall i | |old(r.queue.items)| <= i < |r.queue.items| :: fresh(r.queue.items[i])
  {
    hide Station.Inv, Bytes, SkbQueue.Valid, ReceiveStep, StationStep, WorthIn;
    skb := new SkBuff(data);
    ghost var before := r.Now();
    r.RxIrqsafe(skb, env);
    Received(r.station.own, before, r.Now(), data, env, skb);
  }

  /** Any sequence of receptions and reads.  Each call does what ReceiveStep and TakeStep say, with a new buffer for each reception;
      every buffer given to the receiver is freed exactly once or stands on rx_queue exactly once; the frames put on the
      queue are those the receptions are worth, in order; and the frames that left are the first of them. */
  method Run(r: Receiver, calls: seq<RxCall>) returns (ghost given: seq<SkBuff>, got: seq<RecvResult>, ghost marks: seq<Mark>)
    requires r.Valid()
    modifies r, r.station, r.queue, r.queue.items
    ensures r.Valid()
    ensures IsRxRun(r.station.own, marks, calls, given, got) && marks[0] == old(r.Now()) && marks[|calls|] == r.Now()
    ensures Distinct(given) && forall s <- given :: fresh(s)
    ensures Accounted(given, r.freed, r.queue.items) && Distinct(r.freed) && Distinct(r.queue.items)
    ensures old(r.freed) <= r.freed && old(r.left) <= r.left <= r.entered
    ensures r.entered == old(r.entered) + Worths(r.station.own, marks, calls, |calls|)
  {
    hide Station.Inv, Bytes, SkbQueue.Valid, Accounted, IsRxRun, ReceiveStep, TakeStep, StationStep, WorthIn;
    given, got, marks := [], [], [r.Now()];
    Nothing(r.freed, r.queue.items);
    NoCalls(r.station.own, marks);
    for i := 0 to |calls|
      invariant r.Valid() && Accounted(given, r.freed, r.queue.items)
      invariant Distinct(given) && forall s <- given :: fresh(s)
      invariant forall j | 0 <= j < |r.queue.items| :: fresh(r.queue.items[j]) || r.queue.items[j] in old(r.queue.items)
      invariant |marks| == i + 1 && marks[0] == old(r.Now()) && marks[i] == r.Now()
      invariant IsRxRun(r.station.own, marks, calls[..i], given, got)
    {
      assert calls[..i + 1] == calls[..i] + [calls[i]];
      match calls[i] {
        case Receive(data, env) =>
          ghost var before := r.Now();
          var skb := Reception(r, data, env);
          AfterReceive(given, before.freed, before.items, r.freed, r.queue.items, skb);
          AddReceive(r.station.own, marks, calls[..i], given, got, data, env, skb, r.Now());
          given := given + [skb];
        case Take(len) =>
          ghost var before := r.Now();
          if before.items != [] {
            HeadOnce(r.queue);
            FirstOut(r.entered, r.left, r.queue.items);
          }
          var result := r.Recv(len);
          if before.items != [] { AfterTake(given, before.freed, before.items); }
          Took(before, r.Now(), len, result);
          AddTake(r.station.own, marks, calls[..i], given, got, len, result, r.Now());
          got := got + [result];
      }
      marks := marks + [r.Now()];
    }
    assert calls[..|calls|] == calls;
    RunGrows(r.station.own, marks, calls, given, got, |calls|);
    QueueDistinct(r.queue);
  }

  lemma NoCalls(own: Addr, marks: seq<Mark>)
    requires |marks| == 1
    ensures IsRxRun(own, marks, [], [], [])
  {
  }

  lemma Received(own: Addr, m: Mark, m': Mark, data: seq<Byte>, env: RxEnv, skb: SkBuff)
    requires StationStep(own, m.station, m'.station, data, env)
    requires m'.entered == m.entered + WorthIn(own, m.station, data, env) && m'.left == m.left
    requires (m'.freed == m.freed || m'.freed == m.freed + [skb]) && (skb in m'.items <==> skb !in m'.freed)
    requires |m'.items| >= |m.items| && m'.items[..|m.items|] == m.items
    ensures ReceiveStep(own, m, m', data, env, skb)
  {
    hide StationStep, WorthIn;
  }

  lemma Took(m: Mark, m': Mark, len: nat, got: RecvResult)
    requires m'.station == m.station && m'.entered == m.entered
    requires m.items == [] ==> got == Again && m' == m
    requires m.items != [] ==>
               && |m.left| < |m.entered| && m'.left == m.left + [m.entered[|m.left|]] && m'.freed == m.freed + [m.items[0]]
               && m'.items == m.items[1..] && got == if len < |m.entered[|m.left|]| then TooBig else Frame(m.entered[|m.left|])
    ensures TakeStep(m, m', len, got)
  {
  }

  lemma Nothing(freed: seq<SkBuff>, items: seq<SkBuff>)
    ensures Accounted([], freed, items)
  {
  }

  lemma QueueDistinct(q: SkbQueue)
    requires q.Valid()
    ensures Distinct(q.items)
  {
  }
}
