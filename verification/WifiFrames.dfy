/** Data frames of the 802.11 station layer as bytes (mac80211.c): 802.3 to 802.11 and back, and A-MSDU
    subframes (sections 9.3.2.1 and 9.3.2.2 of IEEE Std 802.11-2020). */
module WifiFrames {
  import opened Basics
  import opened PacketMemory

  const ETH_ALEN: nat := 6
  const ETH_HLEN: nat := 14
  const HDR_3ADDR: nat := 24
  const SNAP_LEN: nat := 8
  const AARP: nat := 0x80F3
  const IPX: nat := 0x8137
  const RFC1042: seq<Byte> := [0xaa, 0xaa, 0x03, 0x00, 0x00, 0x00]
  const BRIDGE_TUNNEL: seq<Byte> := [0xaa, 0xaa, 0x03, 0x00, 0x00, 0xf8]

  type Addr = a: seq<Byte> | |a| == 6 witness [0, 0, 0, 0, 0, 0]

  function Be16(hi: Byte, lo: Byte): nat { hi * 256 + lo }
  function Le16(lo: Byte, hi: Byte): nat { hi * 256 + lo }

  // ----- frame control (include/net/mac80211.h:1827-1880)

  predicate Bit(fc: nat, unit: nat)
    requires unit > 0
  {
    fc / unit % 2 == 1
  }

  predicate ToDs(fc: nat) { Bit(fc, 0x100) }
  predicate FromDs(fc: nat) { Bit(fc, 0x200) }
  predicate Protected(fc: nat) { Bit(fc, 0x4000) }
  predicate Order(fc: nat) { Bit(fc, 0x8000) }
  function FrameType(fc: nat): nat { fc / 4 % 4 }
  function Subtype(fc: nat): nat { fc / 16 % 16 }
  predicate IsMgmt(fc: nat) { FrameType(fc) == 0 }
  predicate IsCtl(fc: nat) { FrameType(fc) == 1 }
  predicate IsData(fc: nat) { FrameType(fc) == 2 }
  predicate IsQos(fc: nat) { IsData(fc) && Bit(fc, 0x80) }
  predicate DataPresent(fc: nat) { IsData(fc) && Subtype(fc) != 4 && Subtype(fc) != 12 }

  /** lcompat_ieee80211_data_hdr_len (mac80211.c:169-182). */
  function DataHdrLen(fc: nat): nat {
    HDR_3ADDR + (if ToDs(fc) && FromDs(fc) then ETH_ALEN else 0) + (if IsQos(fc) then 2 + (if Order(fc) then 4 else 0) else 0)
  }

  function FrameControl(frame: seq<Byte>): nat
    requires |frame| >= 2
  {
    Le16(frame[0], frame[1])
  }

  // ----- SNAP

  /** lcompat_ieee80211_snap_to_ethertype (mac80211.c:2039-2064): the type field, if the header is one it knows. */
  function SnapType(payload: seq<Byte>): Option<nat> {
    if |payload| < SNAP_LEN then None
    else
      var proto := Be16(payload[6], payload[7]);
      if payload[..6] == RFC1042 && proto != AARP && proto != IPX then Some(proto)
      else if payload[..6] == BRIDGE_TUNNEL then Some(proto)
      else None
  }

  /** An Ethernet frame. */
  function Ethernet(dst: Addr, src: Addr, proto: seq<Byte>, payload: seq<Byte>): seq<Byte> {
    dst + src + proto + payload
  }

  // ----- 802.11 to Ethernet

  /** lcompat_ieee80211_data_to_ethernet (mac80211.c:1964-2026) on the bytes of the frame. */
  function ToEthernet(frame: seq<Byte>): Option<seq<Byte>> {
    if |frame| < HDR_3ADDR + SNAP_LEN then None
    else
      var fc := FrameControl(frame);
      if Protected(fc) || !DataPresent(fc) || (ToDs(fc) && FromDs(fc)) || |frame| < DataHdrLen(fc) + SNAP_LEN then None
      else
        var payload := frame[DataHdrLen(fc)..];
        var dst := if ToDs(fc) then frame[16..22] else frame[4..10];
        var src := if FromDs(fc) then frame[16..22] else frame[10..16];
        if SnapType(payload).None? then None
        else Some(Ethernet(dst, src, payload[6..8], payload[SNAP_LEN..]))
  }

  // ----- Ethernet to 802.11

  /** The header lcompat_ieee80211_build_data_frame writes (mac80211.c:1382-1397). */
  function TxHeader(bssid: Addr, own: Addr, dst: Addr, seqNo: nat, qos: bool): seq<Byte> {
    [if qos then 0x88 else 0x08, 0x01, 0, 0] + bssid + own + dst + [seqNo % 16 * 16, seqNo / 16 % 256]
    + (if qos then [0, 0] else [])
  }

  function TxFrame(bssid: Addr, own: Addr, seqNo: nat, qos: bool, data: seq<Byte>): seq<Byte>
    requires |data| >= ETH_HLEN
  {
    TxHeader(bssid, own, data[..6], seqNo, qos) + (RFC1042 + data[12..14]) + data[ETH_HLEN..]
  }

  lemma TxHeaderFields(bssid: Addr, own: Addr, dst: Addr, seqNo: nat, qos: bool)
    ensures var h := TxHeader(bssid, own, dst, seqNo, qos);
            && |h| == HDR_3ADDR + (if qos then 2 else 0)
            && h[0] == (if qos then 0x88 else 0x08) && h[1] == 0x01
            && h[4..10] == bssid && h[10..16] == own && h[16..22] == dst
  {
  }

  lemma TxFrameFields(bssid: Addr, own: Addr, seqNo: nat, qos: bool, data: seq<Byte>)
    requires |data| >= ETH_HLEN
    ensures var f := TxFrame(bssid, own, seqNo, qos, data);
            var n := HDR_3ADDR + (if qos then 2 else 0);
            && |f| == n + SNAP_LEN + (|data| - ETH_HLEN)
            && f[0] == (if qos then 0x88 else 0x08) && f[1] == 0x01
            && f[4..10] == bssid && f[10..16] == own && f[16..22] == data[..6]
            && f[n..] == (RFC1042 + data[12..14]) + data[ETH_HLEN..]
  {
    TxHeaderFields(bssid, own, data[..6], seqNo, qos);
    var h := TxHeader(bssid, own, data[..6], seqNo, qos);
    var f := TxFrame(bssid, own, seqNo, qos, data);
    assert f == h + ((RFC1042 + data[12..14]) + data[ETH_HLEN..]);
    assert f[4..10] == h[4..10] && f[10..16] == h[10..16] && f[16..22] == h[16..22];
  }

  lemma TxControl(qos: bool)
    ensures var fc := Le16(if qos then 0x88 else 0x08, 0x01);
            && ToDs(fc) && !FromDs(fc) && !Protected(fc) && DataPresent(fc) && DataHdrLen(fc) == HDR_3ADDR + (if qos then 2 else 0)
  {
  }

  lemma SnapOfTx(data: seq<Byte>)
    requires |data| >= ETH_HLEN
    ensures var payload := (RFC1042 + data[12..14]) + data[ETH_HLEN..]; var proto := Be16(data[12], data[13]);
            && |payload| >= SNAP_LEN
            && (SnapType(payload).Some? <==> proto != AARP && proto != IPX)
            && payload[6..8] == data[12..14] && payload[SNAP_LEN..] == data[ETH_HLEN..]
  {
    var payload := (RFC1042 + data[12..14]) + data[ETH_HLEN..];
    assert payload[..6] == RFC1042;
    assert RFC1042[5] != BRIDGE_TUNNEL[5];
  }

  /** Receiving what was sent gives the frame back, with the interface's address as its source,
      if and only if the EtherType is neither AARP nor IPX. */
  lemma EthernetRoundTrip(bssid: Addr, own: Addr, seqNo: nat, qos: bool, data: seq<Byte>)
    requires |data| >= ETH_HLEN
    ensures var proto := Be16(data[12], data[13]); var back := ToEthernet(TxFrame(bssid, own, seqNo, qos, data));
            && (back.Some? <==> proto != AARP && proto != IPX)
            && (back.Some? ==> back.value == Ethernet(data[..6], own, data[12..14], data[ETH_HLEN..]))
  {
    hide TxFrame, SnapType;
    TxFrameFields(bssid, own, seqNo, qos, data);
    TxControl(qos);
    SnapOfTx(data);
  }

  // ----- A-MSDU

  datatype Msdu = Msdu(dst: Addr, src: Addr, body: seq<Byte>)

  /** (n + 3) & ~3 */
  function Padded(n: nat): nat { (n + 3) / 4 * 4 }

  /** The subframes the loop of lcompat_ieee80211_enqueue_amsdu finds, whatever the bytes are (mac80211.c:2119-2146). */
  function Subframes(bytes: seq<Byte>): seq<Msdu>
    decreases |bytes|
  {
    if |bytes| < ETH_HLEN then []
    else
      var n := Be16(bytes[12], bytes[13]);
      var rest := bytes[ETH_HLEN..];
      if n == 0 || n > |rest| then []
      else
        var step := Padded(ETH_HLEN + n) - ETH_HLEN;
        [Msdu(bytes[..6], bytes[6..12], rest[..n])] + (if step > |rest| then [] else Subframes(rest[step..]))
  }

  /** lcompat_ieee80211_build_eth_skb (mac80211.c:2066-2105), when memory is available. */
  function EthFrame(m: Msdu): Option<seq<Byte>> {
    if SnapType(m.body).None? then None else Some(Ethernet(m.dst, m.src, m.body[6..8], m.body[SNAP_LEN..]))
  }

  /** Frames queued for the subframes: in order, those with a known SNAP header whose buffer could be
      allocated; `failed` holds the positions where alloc_skb did not succeed. */
  function Delivered(ms: seq<Msdu>, failed: set<nat>): seq<seq<Byte>> {
    if ms == [] then []
    else
      var last := |ms| - 1;
      var before := Delivered(ms[..last], failed);
      if EthFrame(ms[last]).Some? && last !in failed then before + [EthFrame(ms[last]).value] else before
  }

  predicate Sendable(m: Msdu) { 0 < |m.body| < 0x1_0000 }

  predicate AllSendable(ms: seq<Msdu>) { forall i | 0 <= i < |ms| :: Sendable(ms[i]) }

  /** A subframe as section 9.3.2.2 lays it out. */
  function Encode(m: Msdu): seq<Byte>
    requires Sendable(m)
  {
    m.dst + m.src + [|m.body| / 256, |m.body| % 256] + m.body
  }

  predicate PadFits(m: Msdu, pad: seq<Byte>) { |pad| == Padded(ETH_HLEN + |m.body|) - (ETH_HLEN + |m.body|) }

  /** Every subframe is padded to four bytes, the last one perhaps not. */
  predicate PadsFit(ms: seq<Msdu>, pads: seq<seq<Byte>>) {
    && |pads| == |ms|
    && forall i | 0 <= i < |ms| :: PadFits(ms[i], pads[i]) || (i == |ms| - 1 && pads[i] == [])
  }

  function Serialize(ms: seq<Msdu>, pads: seq<seq<Byte>>): seq<Byte>
    requires |pads| == |ms| && AllSendable(ms)
  {
    if ms == [] then [] else Encode(ms[0]) + pads[0] + Serialize(ms[1..], pads[1..])
  }

  lemma EncodedFields(m: Msdu, more: seq<Byte>)
    requires Sendable(m)
    ensures var b := Encode(m) + more;
            && |b| == ETH_HLEN + |m.body| + |more| && b[..6] == m.dst && b[6..12] == m.src
            && Be16(b[12], b[13]) == |m.body| && b[ETH_HLEN..] == m.body + more
  {
    var n := |m.body|;
    assert n / 256 * 256 + n % 256 == n;
  }

  lemma SizesFit(hi: Byte, lo: Byte)
    ensures Be16(hi, lo) < 0x1_0000 && Be16(hi, lo) <= Padded(ETH_HLEN + Be16(hi, lo)) - ETH_HLEN
  {
  }

  lemma Unfold(bytes: seq<Byte>)
    requires |bytes| >= ETH_HLEN
    ensures var n := Be16(bytes[12], bytes[13]); var rest := bytes[ETH_HLEN..];
            Subframes(bytes) ==
            if n == 0 || n > |rest| then []
            else
              var step := Padded(ETH_HLEN + n) - ETH_HLEN;
              [Msdu(bytes[..6], bytes[6..12], rest[..n])] + (if step > |rest| then [] else Subframes(rest[step..]))
  {
  }

  /** One round of the parser, in terms of the whole buffer. */
  lemma OneSubframe(frame: seq<Byte>, pos: nat)
    requires pos + ETH_HLEN <= |frame|
    ensures var n := Be16(frame[pos + 12], frame[pos + 13]);
            var at := pos + ETH_HLEN;
            if n == 0 || n > |frame| - at then Subframes(frame[pos..]) == []
            else
              var m := Msdu(frame[pos..pos + 6], frame[pos + 6..pos + 12], frame[at..at + n]);
              var step := Padded(ETH_HLEN + n) - ETH_HLEN;
              && Sendable(m) && n <= step
              && Subframes(frame[pos..]) == [m] + if step > |frame| - at then [] else Subframes(frame[at + step..])
  {
    hide Padded, Be16, Subframes;
    var bytes := frame[pos..];
    Unfold(bytes);
    var n := Be16(bytes[12], bytes[13]);
    SizesFit(bytes[12], bytes[13]);
    var at := pos + ETH_HLEN;
    assert bytes[ETH_HLEN..] == frame[at..];
    if 0 < n <= |frame| - at {
      assert bytes[..6] == frame[pos..pos + 6] && bytes[6..12] == frame[pos + 6..pos + 12];
      assert frame[at..][..n] == frame[at..at + n];
      var step := Padded(ETH_HLEN + n) - ETH_HLEN;
      if step <= |frame| - at { assert frame[at..][step..] == frame[at + step..]; }
    }
  }

  /** Parsing one encoded subframe. */
  lemma ParseOne(m: Msdu, pad: seq<Byte>, tail: seq<Byte>)
    requires Sendable(m) && (PadFits(m, pad) || (pad == [] && tail == []))
    ensures Subframes(Encode(m) + (pad + tail)) == [m] + Subframes(tail)
  {
    hide Padded;
    var b, n := Encode(m) + (pad + tail), |m.body|;
    EncodedFields(m, pad + tail);
    OneSubframe(b, 0);
    assert b[0..] == b;
    var step := Padded(ETH_HLEN + n) - ETH_HLEN;
    var at := ETH_HLEN;
    assert b[0..6] == b[..6] && b[at..at + n] == b[at..][..n] == m.body;
    if PadFits(m, pad) {
      assert b[at + step..] == b[at..][step..] == tail;
    } else {
      assert b[at + n..] == [];
      assert Subframes(tail) == [];
    }
  }

  /** Parsing undoes serialization, for any contents of the padding. */
  lemma {:induction false} ParseInvertsSerialize(ms: seq<Msdu>, pads: seq<seq<Byte>>)
    requires PadsFit(ms, pads) && AllSendable(ms)
    ensures Subframes(Serialize(ms, pads)) == ms
  {
    hide Subframes, Encode, PadFits;
    if ms == [] {
      NoBytes();
    } else {
      ParseInvertsSerialize(ms[1..], pads[1..]);
      var tail := Serialize(ms[1..], pads[1..]);
      assert Serialize(ms, pads) == Encode(ms[0]) + (pads[0] + tail);
      ParseOne(ms[0], pads[0], tail);
      assert [ms[0]] + ms[1..] == ms;
    }
  }

  lemma NoBytes()
    ensures Subframes([]) == []
  {
  }

  /** Every subframe found lies inside the bytes that were given. */
  lemma {:induction false} SubframesInside(frame: seq<Byte>, pos: nat)
    requires pos <= |frame|
    ensures forall m <- Subframes(frame[pos..]) :: Sendable(m) && ETH_HLEN + |m.body| <= |frame| - pos
    decreases |frame| - pos
  {
    hide Subframes, Padded;
    if pos + ETH_HLEN <= |frame| {
      OneSubframe(frame, pos);
      var n := Be16(frame[pos + 12], frame[pos + 13]);
      var step := Padded(ETH_HLEN + n) - ETH_HLEN;
      if 0 < n <= step <= |frame| - pos - ETH_HLEN { SubframesInside(frame, pos + ETH_HLEN + step); }
    } else {
      Short(frame, pos);
    }
  }

  lemma Short(frame: seq<Byte>, pos: nat)
    requires pos <= |frame| < pos + ETH_HLEN
    ensures Subframes(frame[pos..]) == []
  {
  }

  lemma NoneDelivered(failed: set<nat>)
    ensures Delivered([], failed) == []
  {
  }

  lemma DeliveredSnoc(ms: seq<Msdu>, m: Msdu, failed: set<nat>)
    ensures Delivered(ms + [m], failed) ==
            Delivered(ms, failed) + if EthFrame(m).Some? && |ms| !in failed then [EthFrame(m).value] else []
  {
    assert (ms + [m])[..|ms|] == ms;
  }

  // ----- Ethernet frames through an A-MSDU

  /** An Ethernet frame as the body of a subframe. */
  function AsMsdu(eth: seq<Byte>): Msdu
    requires |eth| >= ETH_HLEN
  {
    Msdu(eth[..6], eth[6..12], RFC1042 + eth[12..14] + eth[ETH_HLEN..])
  }

  lemma MsduRoundTrip(eth: seq<Byte>)
    requires |eth| >= ETH_HLEN
    ensures var proto := Be16(eth[12], eth[13]);
            EthFrame(AsMsdu(eth)) == if proto != AARP && proto != IPX then Some(eth) else None
  {
    SnapOfTx(eth);
    assert eth == eth[..6] + eth[6..12] + eth[12..14] + eth[ETH_HLEN..];
  }

  predicate Carriable(eth: seq<Byte>) {
    && ETH_HLEN <= |eth| && |eth| - ETH_HLEN + SNAP_LEN < 0x1_0000
    && Be16(eth[12], eth[13]) != AARP && Be16(eth[12], eth[13]) != IPX
  }

  predicate AllCarriable(eths: seq<seq<Byte>>) { forall i | 0 <= i < |eths| :: Carriable(eths[i]) }

  function AsMsdus(eths: seq<seq<Byte>>): (ms: seq<Msdu>)
    requires AllCarriable(eths)
    ensures |ms| == |eths| && AllSendable(ms) && forall i | 0 <= i < |ms| :: ms[i] == AsMsdu(eths[i])
  {
    seq(|eths|, i requires 0 <= i < |eths| => AsMsdu(eths[i]))
  }

  lemma {:induction false} AllDelivered(eths: seq<seq<Byte>>)
    requires AllCarriable(eths)
    ensures Delivered(AsMsdus(eths), {}) == eths
  {
    hide EthFrame;
    if eths == [] {
    } else {
      var last := |eths| - 1;
      AllDelivered(eths[..last]);
      assert AsMsdus(eths)[..last] == AsMsdus(eths[..last]);
      MsduRoundTrip(eths[last]);
      assert eths == eths[..last] + [eths[last]];
    }
  }

  /** A list of Ethernet frames put into one A-MSDU, behind any header and with any padding bytes, comes out
      of the receiver as that list, in order. */
  lemma AmsduRoundTrip(hdr: seq<Byte>, eths: seq<seq<Byte>>, pads: seq<seq<Byte>>)
    requires AllCarriable(eths) && PadsFit(AsMsdus(eths), pads)
    ensures Delivered(Subframes((hdr + Serialize(AsMsdus(eths), pads))[|hdr|..]), {}) == eths
  {
    var body := Serialize(AsMsdus(eths), pads);
    assert (hdr + body)[|hdr|..] == body;
    ParseInvertsSerialize(AsMsdus(eths), pads);
    AllDelivered(eths);
  }

  // ----- the conversion in place

  /** memmove to a lower place. */
  method MoveDown(buf: array<Byte>, from: nat, to: nat, count: nat)
    requires to <= from && from + count <= buf.Length
    modifies buf
    ensures buf[to..to + count] == old(buf[from..from + count])
  {
    for i := 0 to count
      invariant forall j | to <= j < to + i :: buf[j] == old(buf[j + (from - to)])
      invariant forall j | to + i <= j < buf.Length :: buf[j] == old(buf[j])
    {
      buf[to + i] := buf[from + i];
    }
  }

  /** The checks before the conversion, in the order of the code. */
  predicate Convertible(frame: seq<Byte>) {
    && HDR_3ADDR + SNAP_LEN <= |frame|
    && var fc := FrameControl(frame);
    && !Protected(fc) && DataPresent(fc) && !(ToDs(fc) && FromDs(fc)) && DataHdrLen(fc) + SNAP_LEN <= |frame|
    && SnapType(frame[DataHdrLen(fc)..]).Some?
  }

  function NewHeader(frame: seq<Byte>): seq<Byte>
    requires Convertible(frame)
  {
    var fc := FrameControl(frame);
    (if ToDs(fc) then frame[16..22] else frame[4..10]) + (if FromDs(fc) then frame[16..22] else frame[10..16])
    + frame[DataHdrLen(fc) + 6..DataHdrLen(fc) + 8]
  }

  lemma ConversionParts(frame: seq<Byte>)
    ensures ToEthernet(frame).Some? <==> Convertible(frame)
    ensures Convertible(frame) ==>
              && |NewHeader(frame)| == ETH_HLEN && HDR_3ADDR <= DataHdrLen(FrameControl(frame)) <= |frame| - SNAP_LEN
              && ToEthernet(frame).value == NewHeader(frame) + frame[DataHdrLen(FrameControl(frame)) + SNAP_LEN..]
  {
    if Convertible(frame) {
      var n := DataHdrLen(FrameControl(frame));
      assert frame[n..][6..8] == frame[n + 6..n + 8] && frame[n..][SNAP_LEN..] == frame[n + SNAP_LEN..];
    }
  }

  /** lcompat_ieee80211_data_to_ethernet in the buffer itself: the payload moves down over the 802.11
      header, the Ethernet header is written before it, and the buffer is trimmed to the result. */
  method DataToEthernet(buf: array<Byte>, len: nat) returns (n: Option<nat>)
    requires len <= buf.Length
    modifies buf
    ensures n.Some? <==> ToEthernet(old(buf[..len])).Some?
    ensures n.Some? ==> n.value <= len && buf[..n.value] == ToEthernet(old(buf[..len])).value
    ensures n.None? ==> buf[..] == old(buf[..])
  {
    hide ToEthernet, SnapType, DataHdrLen, DataPresent, ToDs, FromDs, Protected, NewHeader;
    ghost var frame := buf[..len];
    ConversionParts(frame);
    if len < HDR_3ADDR + SNAP_LEN { return None; }
    var fc := Le16(buf[0], buf[1]);
    assert fc == FrameControl(frame);
    if Protected(fc) { return None; }
    if !DataPresent(fc) || (ToDs(fc) && FromDs(fc)) { return None; }
    var hdrLen := DataHdrLen(fc);
    if len < hdrLen + SNAP_LEN { return None; }
    assert buf[hdrLen..len] == frame[hdrLen..];
    if SnapType(buf[hdrLen..len]).None? { return None; }
    var head := (if ToDs(fc) then buf[16..22] else buf[4..10]) + (if FromDs(fc) then buf[16..22] else buf[10..16])
                + buf[hdrLen + 6..hdrLen + 8];
    HeaderIs(frame, head, buf[..]);
    var count := len - hdrLen - SNAP_LEN;
    ghost var payload := buf[hdrLen + SNAP_LEN..hdrLen + SNAP_LEN + count];
    assert payload == frame[hdrLen + SNAP_LEN..];
    MoveDown(buf, hdrLen + SNAP_LEN, ETH_HLEN, count);
    WriteHead(buf, head, payload);
    n := Some(ETH_HLEN + count);
  }

  lemma HeaderIs(frame: seq<Byte>, head: seq<Byte>, buf: seq<Byte>)
    requires Convertible(frame) && |frame| <= |buf| && frame == buf[..|frame|]
    requires var fc := FrameControl(frame); var n := DataHdrLen(fc);
             head == (if ToDs(fc) then buf[16..22] else buf[4..10]) + (if FromDs(fc) then buf[16..22] else buf[10..16]) + buf[n + 6..n + 8]
    ensures head == NewHeader(frame)
  {
    hide DataPresent, SnapType, DataHdrLen, ToDs, FromDs, Protected, FrameControl;
    var n := DataHdrLen(FrameControl(frame));
    PrefixSlice(buf, |frame|, 4, 10);
    PrefixSlice(buf, |frame|, 10, 16);
    PrefixSlice(buf, |frame|, 16, 22);
    PrefixSlice(buf, |frame|, n + 6, n + 8);
  }

  lemma PrefixSlice(buf: seq<Byte>, n: nat, a: nat, b: nat)
    requires a <= b <= n <= |buf|
    ensures buf[..n][a..b] == buf[a..b]
  {
  }

  method WriteHead(buf: array<Byte>, head: seq<Byte>, ghost payload: seq<Byte>)
    requires |head| + |payload| <= buf.Length && buf[|head|..|head| + |payload|] == payload
    modifies buf
    ensures buf[..|head| + |payload|] == head + payload
  {
    forall j | 0 <= j < |head| { buf[j] := head[j]; }
    assert buf[..|head|] == head && buf[|head|..|head| + |payload|] == payload;
    assert buf[..|head| + |payload|] == buf[..|head|] + buf[|head|..|head| + |payload|];
  }
}
