/** The association request (mac80211.c:534-682, 684-785). */
module WifiAssoc {
  import opened Basics
  import opened PacketMemory
  import opened WifiElements

  const WMM_INFO: seq<Byte> := [221, 7, 0x00, 0x50, 0xf2, 0x02, 0x00, 0x01, 0x00]
  const ASSOC_FIXED: nat := 28
  const LISTEN_INTERVAL: Byte := 10

  function SuppPart(e: seq<Byte>): seq<Byte> { e[..Least(8, |e|)] }
  function ExtPart(e: seq<Byte>): seq<Byte> { e[Least(8, |e|)..Least(24, |e|)] }

  /** What precedes the first zero. */
  function UpToZero(s: seq<Byte>): (r: seq<Byte>)
    ensures |r| <= |s|
  {
    if s == [] || s[0] == 0 then [] else [s[0]] + UpToZero(s[1..])
  }

  /** The two rate lists of a request: what fits the buffers, up to a zero, which the code takes for the end. */
  function SuppList(e: seq<Byte>): (r: seq<Byte>)
    ensures |r| <= 8
  {
    UpToZero(SuppPart(e))
  }

  function ExtList(e: seq<Byte>): (r: seq<Byte>)
    ensures |r| <= 16
  {
    UpToZero(ExtPart(e))
  }

  lemma {:induction false} UpToZeroIff(s: seq<Byte>)
    ensures UpToZero(s) == s <==> forall i | 0 <= i < |s| :: s[i] != 0
    ensures |UpToZero(s)| == |s| ==> UpToZero(s) == s
  {
    if s != [] {
      UpToZeroIff(s[1..]);
      assert s == [s[0]] + s[1..];
      if s[0] != 0 {
        assert UpToZero(s)[1..] == UpToZero(s[1..]);
        assert (forall i | 0 <= i < |s| :: s[i] != 0) <==> forall i | 0 <= i < |s[1..]| :: s[1..][i] != 0 by {
          assert forall i | 0 < i < |s| :: s[i] == s[1..][i - 1];
        }
      }
    }
  }

  lemma {:induction false} UpToZeroPads(a: seq<Byte>, b: seq<Byte>)
    requires b == [] || b[0] == 0
    ensures UpToZero(a + b) == UpToZero(a)
  {
    if a == [] {
      assert a + b == b;
    } else {
      UpToZeroPads(a[1..], b);
      assert (a + b)[1..] == a[1..] + b;
    }
  }

  /** The two lists are all bytes that were to be sent if and only if these are at most 24 and none of them is zero. */
  lemma NothingCut(e: seq<Byte>)
    ensures SuppList(e) + ExtList(e) == e <==> |e| <= 24 && forall i | 0 <= i < |e| :: e[i] != 0
  {
    var a, b := SuppPart(e), ExtPart(e);
    UpToZeroIff(a);
    UpToZeroIff(b);
    if |e| <= 24 {
      assert e == a + b;
      assert (forall i | 0 <= i < |e| :: e[i] != 0) <==> (forall i | 0 <= i < |a| :: a[i] != 0) && forall i | 0 <= i < |b| :: b[i] != 0 by {
        assert forall i | |a| <= i < |e| :: e[i] == b[i - |a|];
      }
      if SuppList(e) + ExtList(e) == e { assert |UpToZero(a)| == |a| && |UpToZero(b)| == |b|; }
    }
  }

  /** The driver's rates, among the first `n`, that are to be sent. */
  ghost function RatesToSend(x: RateInput, n: nat): set<nat>
    requires n <= |x.rates|
  {
    set i | 0 <= i < n && x.IsSent(i)
  }

  lemma RatesSnoc(x: RateInput, n: nat)
    requires 0 < n <= |x.rates|
    ensures RatesToSend(x, n) == RatesToSend(x, n - 1) + (if x.IsSent(n - 1) then {n - 1} else {})
    ensures n - 1 !in RatesToSend(x, n - 1)
  {
    hide RateInput.IsSent;
  }

  /** One byte is sent for each of them. */
  lemma {:induction false} EmittedCount(x: RateInput, n: nat)
    requires n <= |x.rates|
    ensures |x.Emitted(n)| == |RatesToSend(x, n)|
  {
    if n > 0 {
      EmittedCount(x, n - 1);
      SentFacts(x, n - 1);
      RatesSnoc(x, n);
      hide RatesToSend, RateInput.IsSent, RateInput.Sent, RateInput.SentAsZero;
      assert x.Emitted(n) == x.Emitted(n - 1) + if x.Sent(n - 1).Some? then [x.Sent(n - 1).value] else [];
    }
  }

  ghost predicate HasZero(s: seq<Byte>) { exists i | 0 <= i < |s| :: s[i] == 0 }

  ghost predicate SendsZero(x: RateInput, n: nat)
    requires n <= |x.rates|
  {
    exists i | 0 <= i < n :: x.IsSent(i) && x.SentAsZero(i)
  }

  lemma ZeroSnoc(s: seq<Byte>, b: Byte)
    ensures HasZero(s + [b]) <==> HasZero(s) || b == 0
  {
    if b == 0 { assert (s + [b])[|s|] == 0; }
    if i :| 0 <= i < |s| && s[i] == 0 { assert (s + [b])[i] == 0; }
  }

  lemma {:induction false} EmittedZero(x: RateInput, n: nat)
    requires n <= |x.rates|
    ensures HasZero(x.Emitted(n)) <==> SendsZero(x, n)
  {
    if n == 0 {
      assert x.Emitted(0) == [];
    } else {
      EmittedZero(x, n - 1);
      SentFacts(x, n - 1);
      SendsSnoc(x, n);
      var e := x.Emitted(n - 1);
      if x.Sent(n - 1).Some? {
        assert x.Emitted(n) == e + [x.Sent(n - 1).value];
        ZeroSnoc(e, x.Sent(n - 1).value);
      } else {
        assert x.Emitted(n) == e + [] == e;
      }
    }
  }

  lemma SendsSnoc(x: RateInput, n: nat)
    requires 0 < n <= |x.rates|
    ensures SendsZero(x, n) <==> SendsZero(x, n - 1) || (x.IsSent(n - 1) && x.SentAsZero(n - 1))
  {
    hide RateInput.IsSent, RateInput.SentAsZero;
    if i :| 0 <= i < n && x.IsSent(i) && x.SentAsZero(i) { assert i < n - 1 || i == n - 1; }
  }

  lemma SentFacts(x: RateInput, i: nat)
    requires i < |x.rates|
    ensures x.IsSent(i) <==> x.Sent(i).Some?
    ensures x.IsSent(i) ==> (x.SentAsZero(i) <==> x.Sent(i).value == 0)
  {
    EntryListed(Body(x.Supp()), x.rates[i]);
    EntryListed(Body(x.Ext()), x.rates[i]);
    EntrySmall(Body(x.Supp()), x.rates[i]);
    EntrySmall(Body(x.Ext()), x.rates[i]);
  }

  /** No rate is lost if and only if at most 24 of the driver's rates are to be sent, and none of these is zero, unless the scan
      result marks it as basic.  Without a scan result these are all rates. */
  lemma AllRatesListed(x: RateInput)
    ensures var e := x.Emitted(|x.rates|); var n := |x.rates|;
            && (SuppList(e) + ExtList(e) == e
                <==> |RatesToSend(x, n)| <= 24 && forall i | 0 <= i < n :: x.IsSent(i) ==> !x.SentAsZero(i))
            && (x.ies == [] ==>
                  (SuppList(e) + ExtList(e) == e <==> n <= 24 && forall i | 0 <= i < n :: x.rates[i] != 0))
            && (x.DriverRates() ==> SuppList(e) + ExtList(e) == e)
  {
    var e, n := x.Emitted(|x.rates|), |x.rates|;
    NothingCut(e);
    EmittedCount(x, n);
    EmittedZero(x, n);
    if x.ies == [] {
      assert Elements([]) == [];
      AllSent(x, n);
    }
    if x.DriverRates() { EmittedNonzero(x, n); }
    hide SuppList, ExtList, RateInput.Emitted, RateInput.IsSent;
    assert HasZero(e) <==> exists i | 0 <= i < |e| :: e[i] == 0;
  }

  lemma {:induction false} AllSent(x: RateInput, n: nat)
    requires n <= |x.rates| && !x.HasRates()
    ensures |x.Emitted(n)| == n
    ensures forall i | 0 <= i < n :: x.IsSent(i) && (x.SentAsZero(i) <==> x.rates[i] == 0)
  {
    if n > 0 { AllSent(x, n - 1); }
  }

  /** So a zero rate in the middle cuts off what follows it. */
  lemma RatesCut()
    ensures var x := RateInput([2, 0, 4], []); var e := x.Emitted(3);
            e == [2, 0, 4] && SuppList(e) == [2] && ExtList(e) == []
  {
    var x := RateInput([2, 0, 4], []);
    assert Elements([]) == [] && First([], EID_SUPP_RATES).None? && First([], EID_EXT_SUPP_RATES).None?;
    assert x.Emitted(0) == [] && x.Emitted(1) == [2] && x.Emitted(2) == [2, 0] && x.Emitted(3) == [2, 0, 4];
    var e: seq<Byte> := [2, 0, 4];
    assert SuppPart(e) == e && ExtPart(e) == [];
    assert e[1..] == [0, 4] && UpToZero([0, 4]) == [];
  }

  // ----- loops over the rate lists

  /** The inner loop of lcompat_ieee80211_build_supported_rates_ie: stop at the first match (mac80211.c:570-584). */
  method FindRate(body: seq<Byte>, rate: Byte) returns (allowed: bool, basic: bool)
    ensures allowed <==> Entry(body, rate).Some?
    ensures if allowed then basic <==> Entry(body, rate).value >= 128 else !basic
  {
    var j := 0;
    while j < |body|
      invariant 0 <= j <= |body| && Entry(body, rate) == Entry(body[j..], rate)
    {
      assert body[j..][0] == body[j] && body[j..][1..] == body[j + 1..];
      if body[j] % 128 == rate { return true, body[j] >= 128; }
      j := j + 1;
    }
    return false, false;
  }

  /** Both buffers after the bytes `e` were stored, `m` in the first and `n` in the second. */
  ghost predicate Stored(supp: seq<Byte>, ext: seq<Byte>, e: seq<Byte>, m: nat, n: nat) {
    && |supp| == 8 && |ext| == 16 && m == Least(8, |e|) && m + n == Least(24, |e|)
    && supp[..m] == SuppPart(e) && ext[..n] == ExtPart(e)
    && (forall i | m <= i < 8 :: supp[i] == 0) && (forall i | n <= i < 16 :: ext[i] == 0)
  }

  lemma StoreNothing(supp: seq<Byte>, ext: seq<Byte>)
    requires |supp| == 8 && |ext| == 16 && (forall i | 0 <= i < 8 :: supp[i] == 0) && (forall i | 0 <= i < 16 :: ext[i] == 0)
    ensures Stored(supp, ext, [], 0, 0)
  {
  }

  lemma StoreOne(supp: seq<Byte>, ext: seq<Byte>, e: seq<Byte>, m: nat, n: nat, b: Byte)
    requires Stored(supp, ext, e, m, n)
    ensures |supp| == 8 && |ext| == 16 && m <= 8 && n <= 16
    ensures m < 8 ==> Stored(supp[m := b], ext, e + [b], m + 1, n)
    ensures m == 8 && n < 16 ==> Stored(supp, ext[n := b], e + [b], m, n + 1)
    ensures m == 8 && n == 16 ==> Stored(supp, ext, e + [b], m, n)
  {
    PartsSnoc(e, b);
  }

  /** lcompat_ieee80211_build_supported_rates_ie: the first eight rates go to one buffer, up to sixteen more to
      the other, and what does not fit is dropped. */
  method BuildRates(x: RateInput, supp: array<Byte>, ext: array<Byte>) returns (ghost m: nat, ghost n: nat, count: nat)
    requires supp.Length == 8 && ext.Length == 16 && supp != ext
    requires (forall i | 0 <= i < 8 :: supp[i] == 0) && (forall i | 0 <= i < 16 :: ext[i] == 0)
    modifies supp, ext
    ensures Stored(supp[..], ext[..], x.Emitted(|x.rates|), m, n) && count == m + n
  {
    hide Stored, RateInput.Sent, Elements, Entry;
    var scan := FindIe(x.ies, EID_SUPP_RATES);
    var scanExt := FindIe(x.ies, EID_EXT_SUPP_RATES);
    var suppCount, extCount := 0, 0;
    StoreNothing(supp[..], ext[..]);
    for i := 0 to |x.rates|
      invariant 0 <= suppCount && 0 <= extCount && Stored(supp[..], ext[..], x.Emitted(i), suppCount, extCount)
    {
      var allowed, basic := AllowRate(scan, scanExt, x.rates[i]);
      SentIs(x, i, allowed, basic);
      if allowed {
        var b := x.rates[i] + if basic then 128 else 0;
        StoreOne(supp[..], ext[..], x.Emitted(i), suppCount, extCount, b);
        ghost var s, t := supp[..], ext[..];
        if suppCount < 8 {
          supp[suppCount] := b;
          assert supp[..] == s[suppCount := b] && ext[..] == t;
          suppCount := suppCount + 1;
        } else if extCount < 16 {
          ext[extCount] := b;
          assert ext[..] == t[extCount := b] && supp[..] == s;
          extCount := extCount + 1;
        }
      }
    }
    m, n, count := suppCount, extCount, suppCount + extCount;
  }

  /** Is a driver rate among the scanned ones, and is it basic? (mac80211.c:564-588) */
  method AllowRate(scan: Option<seq<Byte>>, scanExt: Option<seq<Byte>>, rate: Byte) returns (allowed: bool, basic: bool)
    ensures scan.None? && scanExt.None? ==> allowed && !basic
    ensures basic ==> rate < 128
    ensures scan.Some? || scanExt.Some? ==>
              var e, f := Entry(Body(scan), rate), Entry(Body(scanExt), rate);
              && (allowed <==> e.Some? || f.Some?)
              && (allowed ==> rate < 128 && (basic <==> if e.Some? then e.value >= 128 else f.value >= 128))
  {
    EntrySmall(Body(scan), rate);
    EntrySmall(Body(scanExt), rate);
    allowed, basic := true, false;
    if scan.Some? || scanExt.Some? {
      allowed := false;
      if scan.Some? { allowed, basic := FindRate(scan.value, rate); }
      if !allowed && scanExt.Some? { allowed, basic := FindRate(scanExt.value, rate); }
    }
  }

  /** A listed rate has seven bits. */
  lemma {:induction false} EntrySmall(body: seq<Byte>, rate: Byte)
    ensures Entry(body, rate).Some? ==> rate < 128
  {
    if body != [] { EntrySmall(body[1..], rate); }
  }

  lemma SentIs(x: RateInput, i: nat, allowed: bool, basic: bool)
    requires i < |x.rates| && (basic ==> x.rates[i] < 128)
    requires if !x.HasRates() then allowed && !basic
             else var e := Entry(Body(x.Supp()), x.rates[i]); var f := Entry(Body(x.Ext()), x.rates[i]);
                  && (allowed <==> e.Some? || f.Some?)
                  && (allowed ==> x.rates[i] < 128 && (basic <==> if e.Some? then e.value >= 128 else f.value >= 128))
    ensures allowed ==> x.Emitted(i + 1) == x.Emitted(i) + [x.rates[i] + if basic then 128 else 0]
    ensures !allowed ==> x.Emitted(i + 1) == x.Emitted(i)
  {
  }

  lemma PartsSnoc(e: seq<Byte>, b: Byte)
    ensures |e| < 8 ==> SuppPart(e + [b]) == SuppPart(e) + [b] && ExtPart(e + [b]) == []
    ensures 8 <= |e| ==> SuppPart(e + [b]) == SuppPart(e)
    ensures 8 <= |e| < 24 ==> ExtPart(e + [b]) == ExtPart(e) + [b]
    ensures 24 <= |e| ==> ExtPart(e + [b]) == ExtPart(e)
  {
  }

  /** The loops of the two mask functions; the mask is the set of its bit numbers (mac80211.c:600-682). */
  method RateMasks(x: RateInput) returns (supported: set<nat>, basic: set<nat>)
    ensures supported == x.Supported() && basic == x.Basic()
  {
    var scan := FindIe(x.ies, EID_SUPP_RATES);
    var scanExt := FindIe(x.ies, EID_EXT_SUPP_RATES);
    supported, basic := {}, {};
    var limit := Least(32, |x.rates|);
    for i := 0 to limit
      invariant supported == (set k: nat | k < i && k in x.Supported())
      invariant basic == (set k: nat | k < i && k in x.Basic())
    {
      var l0, m0 := MatchRate(Body(scan), x.rates[i]);
      var l1, m1 := MatchRate(Body(scanExt), x.rates[i]);
      if x.ies == [] || l0 || l1 { supported := supported + {i}; }
      if m0 || m1 { basic := basic + {i}; }
    }
    assert forall k <- x.Supported() :: k < limit;
  }

  /** One list against one rate, to the end of the list. */
  method MatchRate(body: seq<Byte>, rate: Byte) returns (listed: bool, marked: bool)
    ensures listed <==> Listed(body, rate)
    ensures marked <==> exists j | 0 <= j < |body| :: body[j] % 128 == rate && body[j] >= 128
  {
    listed, marked := false, false;
    for j := 0 to |body|
      invariant listed <==> exists k | 0 <= k < j :: body[k] % 128 == rate
      invariant marked <==> exists k | 0 <= k < j :: body[k] % 128 == rate && body[k] >= 128
    {
      if body[j] % 128 == rate {
        listed := true;
        if body[j] >= 128 { marked := true; }
      }
    }
  }

  // ----- the request

  function WmmElement(): Element { Element(EID_VENDOR, WMM_INFO[2..]) }

  /** The elements an association request carries. */
  function AssocElements(ssid: seq<Byte>, x: RateInput): seq<Element> {
    var e := x.Emitted(|x.rates|);
    [Element(EID_SSID, ssid)]
    + (if SuppList(e) != [] then [Element(EID_SUPP_RATES, SuppList(e))] else [])
    + (if ExtList(e) != [] then [Element(EID_EXT_SUPP_RATES, ExtList(e))] else [])
    + (if HasWmm(Elements(x.ies)) then [WmmElement()] else [])
  }

  function EncodeOne(e: Element): seq<Byte>
    requires |e.body| <= 255
  {
    [e.id, |e.body|] + e.body
  }

  lemma AssocEncoding(ssid: seq<Byte>, x: RateInput)
    requires |ssid| <= 255
    ensures var e := x.Emitted(|x.rates|); var es := AssocElements(ssid, x);
            Encodable(es) && Encode(es) == ElementBytes(ssid, SuppList(e), ExtList(e), HasWmm(Elements(x.ies)))
  {
    hide HasWmm, Elements;
    var e := x.Emitted(|x.rates|);
    var a := [Element(EID_SSID, ssid)];
    var b := if SuppList(e) != [] then [Element(EID_SUPP_RATES, SuppList(e))] else [];
    var c := if ExtList(e) != [] then [Element(EID_EXT_SUPP_RATES, ExtList(e))] else [];
    var d := if HasWmm(Elements(x.ies)) then [WmmElement()] else [];
    assert EncodeOne(WmmElement()) == WMM_INFO;
    EncodeSplit(a, b);
    EncodeSplit(a + b, c);
    EncodeSplit(a + b + c, d);
    OneEncoded(a);
    OneEncoded(b);
    OneEncoded(c);
    OneEncoded(d);
  }

  lemma OneEncoded(es: seq<Element>)
    requires Encodable(es) && |es| <= 1
    ensures Encode(es) == if es == [] then [] else EncodeOne(es[0])
  {
  }

  /** Reading the elements back gives the SSID, both rate lists, and WMM exactly when the scan result had it. */
  lemma AssocRoundTrip(ssid: seq<Byte>, x: RateInput)
    requires |ssid| <= 255
    ensures var e := x.Emitted(|x.rates|);
            && Encodable(AssocElements(ssid, x))
            && var back := Elements(Encode(AssocElements(ssid, x)));
            && First(back, EID_SSID) == Some(ssid)
            && First(back, EID_SUPP_RATES) == (if SuppList(e) != [] then Some(SuppList(e)) else None)
            && First(back, EID_EXT_SUPP_RATES) == (if ExtList(e) != [] then Some(ExtList(e)) else None)
            && (HasWmm(back) <==> HasWmm(Elements(x.ies)))
  {
    hide Elements, Encode;
    var es := AssocElements(ssid, x);
    ElementsOfEncode(es);
    assert IsWmm(WmmElement());
    FirstAfter(es, x, ssid);
    if HasWmm(Elements(x.ies)) { assert es[|es| - 1] == WmmElement(); }
  }

  lemma FirstAfter(es: seq<Element>, x: RateInput, ssid: seq<Byte>)
    requires es == AssocElements(ssid, x)
    ensures var e := x.Emitted(|x.rates|);
            && First(es, EID_SSID) == Some(ssid)
            && First(es, EID_SUPP_RATES) == (if SuppList(e) != [] then Some(SuppList(e)) else None)
            && First(es, EID_EXT_SUPP_RATES) == (if ExtList(e) != [] then Some(ExtList(e)) else None)
  {
    hide HasWmm, Elements;
    var e := x.Emitted(|x.rates|);
    var a := Element(EID_SSID, ssid);
    var b := if SuppList(e) != [] then [Element(EID_SUPP_RATES, SuppList(e))] else [];
    var c := if ExtList(e) != [] then [Element(EID_EXT_SUPP_RATES, ExtList(e))] else [];
    var d := if HasWmm(Elements(x.ies)) then [WmmElement()] else [];
    assert es == [a] + (b + (c + d));
    FirstSkips([a], b + (c + d), EID_SUPP_RATES);
    FirstSkips([a], b + (c + d), EID_EXT_SUPP_RATES);
    FirstSkips(b, c + d, EID_EXT_SUPP_RATES);
    FirstSkips(c, d, EID_SUPP_RATES);
    FirstSkips(d, [], EID_SUPP_RATES);
    FirstSkips(d, [], EID_EXT_SUPP_RATES);
    assert d + [] == d;
    if b == [] { assert b + (c + d) == c + d; }
  }

  lemma {:induction false} FirstSkips(a: seq<Element>, b: seq<Element>, id: Byte)
    requires forall i | 0 <= i < |a| :: a[i].id != id
    ensures First(a + b, id) == First(b, id)
  {
    if a == [] {
      assert a + b == b;
    } else {
      FirstSkips(a[1..], b, id);
      assert (a + b)[1..] == a[1..] + b;
    }
  }

  function Capability(privacy: bool, shortSlot: bool): nat {
    1 + (if privacy then 16 else 0) + (if shortSlot then 1024 else 0)
  }

  function AssocFixed(bssid: seq<Byte>, own: seq<Byte>, seqNo: nat, cap: nat): seq<Byte>
    requires cap < 0x1_0000
  {
    [0, 0, 0, 0] + bssid + own + bssid + [seqNo % 16 * 16, seqNo / 16 % 256] + [cap % 256, cap / 256] + [LISTEN_INTERVAL, 0]
  }

  /** memcpy to the moving position. */
  method Append(buf: array<Byte>, pos: nat, src: seq<Byte>) returns (next: nat)
    requires pos + |src| <= buf.Length
    modifies buf
    ensures next == pos + |src| && buf[..next] == old(buf[..pos]) + src
  {
    ghost var before := buf[..pos];
    forall j | 0 <= j < |src| { buf[pos + j] := src[j]; }
    next := pos + |src|;
    assert buf[..pos] == before && buf[pos..next] == src;
    assert buf[..next] == buf[..pos] + buf[pos..next];
  }

  /** Count up to the first zero (mac80211.c:707-710). */
  method CountRates(rates: array<Byte>) returns (count: nat)
    ensures count <= rates.Length && rates[..count] == UpToZero(rates[..])
  {
    count := 0;
    while count < rates.Length && rates[count] != 0
      invariant count <= rates.Length && UpToZero(rates[..]) == rates[..count] + UpToZero(rates[count..])
    {
      assert rates[count..][0] == rates[count] && rates[count..][1..] == rates[count + 1..];
      assert rates[..count + 1] == rates[..count] + [rates[count]];
      count := count + 1;
    }
    if count < rates.Length { assert rates[count..][0] == 0; }
    assert rates[..count] + [] == rates[..count];
  }

  lemma StoredLists(supp: seq<Byte>, ext: seq<Byte>, e: seq<Byte>, m: nat, n: nat)
    requires Stored(supp, ext, e, m, n)
    ensures UpToZero(supp) == SuppList(e) && UpToZero(ext) == ExtList(e)
  {
    assert supp == supp[..m] + supp[m..] && ext == ext[..n] + ext[n..];
    UpToZeroPads(supp[..m], supp[m..]);
    UpToZeroPads(ext[..n], ext[n..]);
  }

  /** The two rate lists with their lengths (mac80211.c:689-710). */
  method RateLists(x: RateInput) returns (supp: seq<Byte>, ext: seq<Byte>)
    ensures supp == SuppList(x.Emitted(|x.rates|)) && ext == ExtList(x.Emitted(|x.rates|)) && |supp| <= 8 && |ext| <= 16
  {
    hide Stored, SuppPart, ExtPart, UpToZero;
    var s, t := new Byte[8](i => 0), new Byte[16](i => 0);
    ghost var m, n;
    var count;
    m, n, count := BuildRates(x, s, t);
    StoredLists(s[..], t[..], x.Emitted(|x.rates|), m, n);
    var suppCount := CountRates(s);
    var extCount := CountRates(t);
    supp, ext := s[..suppCount], t[..extCount];
  }

  /** What WriteElements writes. */
  function ElementBytes(ssid: seq<Byte>, supp: seq<Byte>, ext: seq<Byte>, wmm: bool): seq<Byte>
    requires |ssid| <= 255 && |supp| <= 255 && |ext| <= 255
  {
    EncodeOne(Element(EID_SSID, ssid))
    + (if supp != [] then EncodeOne(Element(EID_SUPP_RATES, supp)) else [])
    + (if ext != [] then EncodeOne(Element(EID_EXT_SUPP_RATES, ext)) else [])
    + (if wmm then WMM_INFO else [])
  }

  /** The element part (mac80211.c:754-777). */
  method WriteElements(buf: array<Byte>, at: nat, ssid: seq<Byte>, supp: seq<Byte>, ext: seq<Byte>, wmm: bool) returns (pos: nat)
    requires |ssid| <= 255 && |supp| <= 255 && |ext| <= 255 && at + |ElementBytes(ssid, supp, ext, wmm)| <= buf.Length
    modifies buf
    ensures pos == at + |ElementBytes(ssid, supp, ext, wmm)| && buf[..pos] == old(buf[..at]) + ElementBytes(ssid, supp, ext, wmm)
  {
    hide EncodeOne;
    ghost var start := buf[..at];
    ghost var a := EncodeOne(Element(EID_SSID, ssid));
    ghost var b := if supp != [] then EncodeOne(Element(EID_SUPP_RATES, supp)) else [];
    ghost var c := if ext != [] then EncodeOne(Element(EID_EXT_SUPP_RATES, ext)) else [];
    ghost var d := if wmm then WMM_INFO else [];
    ghost var all := ElementBytes(ssid, supp, ext, wmm);
    assert all == a + b + c + d && |all| == |a| + |b| + |c| + |d|;
    pos := Append(buf, at, EncodeOne(Element(EID_SSID, ssid)));
    if supp != [] { pos := Append(buf, pos, EncodeOne(Element(EID_SUPP_RATES, supp))); }
    assert pos == at + |a| + |b| && buf[..pos] == start + a + b;
    if ext != [] { pos := Append(buf, pos, EncodeOne(Element(EID_EXT_SUPP_RATES, ext))); }
    assert pos == at + |a| + |b| + |c| && buf[..pos] == start + a + b + c;
    if wmm { pos := Append(buf, pos, WMM_INFO); }
    assert pos == at + |all| && buf[..pos] == start + a + b + c + d;
    Regroup(start, a, b, c, d);
  }

  lemma Regroup(s: seq<Byte>, a: seq<Byte>, b: seq<Byte>, c: seq<Byte>, d: seq<Byte>)
    ensures s + a + b + c + d == s + (a + b + c + d)
  {
  }

  /** lcompat_ieee80211_send_assoc_req up to the hand-over: header, fixed fields and elements.  The length computed
      first is the length written, so the final check (mac80211.c:779-782) never fails. */
  method BuildAssocReq(bssid: seq<Byte>, own: seq<Byte>, seqNo: nat, privacy: bool, shortSlot: bool, ssid: seq<Byte>, x: RateInput)
    returns (r: Option<array<Byte>>)
    requires |bssid| == 6 && |own| == 6
    ensures r.Some? <==> |ssid| <= 255
    ensures r.Some? ==>
              && Encodable(AssocElements(ssid, x))
              && r.value[..] == AssocFixed(bssid, own, seqNo, Capability(privacy, shortSlot)) + Encode(AssocElements(ssid, x))
  {
    hide HasWmm, Elements, Encode, AssocElements, AssocFixed, SuppList, ExtList;
    var supp, ext := RateLists(x);
    if |ssid| > 255 { return None; }
    var wmm := BssHasWmm(x.ies);
    var m, n := |supp|, |ext|;
    var total := ASSOC_FIXED + 2 + |ssid| + (if m != 0 then 2 + m else 0) + (if n != 0 then 2 + n else 0) + if wmm then |WMM_INFO| else 0;
    AssocEncoding(ssid, x);
    FixedLen(bssid, own, seqNo, Capability(privacy, shortSlot));
    assert ElementBytes(ssid, supp, ext, wmm) == Encode(AssocElements(ssid, x));
    ElementLen(ssid, supp, ext, wmm);
    var buf := new Byte[total];
    var pos := Append(buf, 0, AssocFixed(bssid, own, seqNo, Capability(privacy, shortSlot)));
    pos := WriteElements(buf, pos, ssid, supp, ext, wmm);
    if pos != total { assert false; }
    assert buf[..] == buf[..pos] && buf[..0] == [];
    r := Some(buf);
  }

  lemma ElementLen(ssid: seq<Byte>, supp: seq<Byte>, ext: seq<Byte>, wmm: bool)
    requires |ssid| <= 255 && |supp| <= 255 && |ext| <= 255
    ensures |ElementBytes(ssid, supp, ext, wmm)| ==
            2 + |ssid| + (if |supp| != 0 then 2 + |supp| else 0) + (if |ext| != 0 then 2 + |ext| else 0) + if wmm then |WMM_INFO| else 0
  {
  }

  lemma FixedLen(bssid: seq<Byte>, own: seq<Byte>, seqNo: nat, cap: nat)
    requires |bssid| == 6 && |own| == 6 && cap < 0x1_0000
    ensures |AssocFixed(bssid, own, seqNo, cap)| == ASSOC_FIXED
  {
  }

  lemma {:induction false} EmittedNonzero(x: RateInput, n: nat)
    requires x.DriverRates() && n <= |x.rates|
    ensures |x.Emitted(n)| <= n && forall i | 0 <= i < |x.Emitted(n)| :: x.Emitted(n)[i] != 0
  {
    if n > 0 { EmittedNonzero(x, n - 1); }
  }
}
