/** Elements of management frames (section 9.4.2.1 of IEEE Std 802.11-2020) and the rate sets derived from
    them (mac80211.c:328-369, 534-785). */
module WifiElements {
  import opened Basics
  import opened PacketMemory

  const EID_SSID: Byte := 0
  const EID_SUPP_RATES: Byte := 1
  const EID_EXT_SUPP_RATES: Byte := 50
  const EID_VENDOR: Byte := 221

  datatype Element = Element(id: Byte, body: seq<Byte>)

  /** The elements that lie completely inside the buffer, in order. */
  function Elements(ies: seq<Byte>): seq<Element>
    decreases |ies|
  {
    if |ies| < 2 || 2 + ies[1] > |ies| then []
    else [Element(ies[0], ies[2..2 + ies[1]])] + Elements(ies[2 + ies[1]..])
  }

  predicate Encodable(es: seq<Element>) { forall i | 0 <= i < |es| :: |es[i].body| <= 255 }

  function Encode(es: seq<Element>): seq<Byte>
    requires Encodable(es)
  {
    if es == [] then [] else [es[0].id, |es[0].body|] + es[0].body + Encode(es[1..])
  }

  lemma {:induction false} ElementsOfEncode(es: seq<Element>)
    requires Encodable(es)
    ensures Elements(Encode(es)) == es
  {
    if es != [] {
      ElementsOfEncode(es[1..]);
      var b := Encode(es);
      assert b[2..2 + b[1]] == es[0].body && b[2 + b[1]..] == Encode(es[1..]);
      assert [es[0]] + es[1..] == es;
    }
  }

  lemma {:induction false} EncodeSplit(a: seq<Element>, b: seq<Element>)
    requires Encodable(a) && Encodable(b)
    ensures Encodable(a + b) && Encode(a + b) == Encode(a) + Encode(b)
  {
    if a == [] {
      assert a + b == b;
    } else {
      EncodeSplit(a[1..], b);
      assert (a + b)[1..] == a[1..] + b;
    }
  }

  /** The body of the first element with this number. */
  function First(es: seq<Element>, id: Byte): Option<seq<Byte>> {
    if es == [] then None else if es[0].id == id then Some(es[0].body) else First(es[1..], id)
  }

  /** One round of a loop over the elements. */
  lemma OneElement(ies: seq<Byte>, pos: nat)
    requires pos + 2 <= |ies|
    ensures var n := ies[pos + 1];
            if pos + 2 + n > |ies| then Elements(ies[pos..]) == []
            else Elements(ies[pos..]) == [Element(ies[pos], ies[pos + 2..pos + 2 + n])] + Elements(ies[pos + 2 + n..])
  {
    var b, n := ies[pos..], ies[pos + 1];
    if pos + 2 + n <= |ies| {
      assert b[2..2 + n] == ies[pos + 2..pos + 2 + n] && b[2 + n..] == ies[pos + 2 + n..];
    }
  }

  lemma NoElement(ies: seq<Byte>, pos: nat)
    requires pos <= |ies| < pos + 2
    ensures Elements(ies[pos..]) == []
  {
  }

  /** lcompat_ieee80211_find_ie (mac80211.c:328-348). */
  method FindIe(ies: seq<Byte>, eid: Byte) returns (r: Option<seq<Byte>>)
    ensures r == First(Elements(ies), eid)
  {
    hide Elements;
    var pos := 0;
    assert ies[0..] == ies;
    while pos + 2 <= |ies|
      invariant 0 <= pos <= |ies| && First(Elements(ies), eid) == First(Elements(ies[pos..]), eid)
      decreases |ies| - pos
    {
      OneElement(ies, pos);
      var id, n := ies[pos], ies[pos + 1];
      pos := pos + 2;
      if pos + n > |ies| { return None; }
      if id == eid { return Some(ies[pos..pos + n]); }
      pos := pos + n;
    }
    NoElement(ies, pos);
    r := None;
  }

  predicate IsWmm(e: Element) {
    && e.id == EID_VENDOR && |e.body| >= 6 && e.body[0] == 0x00 && e.body[1] == 0x50 && e.body[2] == 0xf2 && e.body[3] == 0x02
    && (e.body[4] == 0x00 || e.body[4] == 0x01) && e.body[5] == 0x01
  }

  predicate HasWmm(es: seq<Element>) { exists e <- es :: IsWmm(e) }

  /** lcompat_ieee80211_bss_has_wmm (mac80211.c:350-369). */
  method BssHasWmm(ies: seq<Byte>) returns (found: bool)
    ensures found <==> HasWmm(Elements(ies))
  {
    hide Elements, IsWmm;
    var pos := 0;
    assert ies[0..] == ies;
    while pos + 2 <= |ies|
      invariant 0 <= pos <= |ies| && (HasWmm(Elements(ies)) <==> HasWmm(Elements(ies[pos..])))
      decreases |ies| - pos
    {
      OneElement(ies, pos);
      var id, n := ies[pos], ies[pos + 1];
      pos := pos + 2;
      if pos + n > |ies| { return false; }
      if IsWmm(Element(id, ies[pos..pos + n])) { return true; }
      pos := pos + n;
    }
    NoElement(ies, pos);
    found := false;
  }

  // ----- rates

  /** `rate` occurs in a list of rates whose top bit marks basic ones. */
  predicate Listed(body: seq<Byte>, rate: Byte) { exists j | 0 <= j < |body| :: body[j] % 128 == rate }

  /** The first entry for `rate`. */
  function Entry(body: seq<Byte>, rate: Byte): Option<Byte> {
    if body == [] then None else if body[0] % 128 == rate then Some(body[0]) else Entry(body[1..], rate)
  }

  lemma {:induction false} EntryListed(body: seq<Byte>, rate: Byte)
    ensures Entry(body, rate).Some? <==> Listed(body, rate)
    ensures Entry(body, rate).Some? ==> Entry(body, rate).value % 128 == rate
  {
    if body != [] {
      EntryListed(body[1..], rate);
      if Listed(body, rate) && body[0] % 128 != rate {
        var j :| 0 <= j < |body| && body[j] % 128 == rate;
        assert body[1..][j - 1] == body[j];
      }
      if Listed(body[1..], rate) {
        var j :| 0 <= j < |body[1..]| && body[1..][j] % 128 == rate;
        assert body[j + 1] == body[1..][j];
      }
    }
  }

  function Body(o: Option<seq<Byte>>): seq<Byte> { if o.Some? then o.value else [] }

  /** The rate elements of a scan result, and the driver's rates in units of 500 kb/s. */
  datatype RateInput = RateInput(rates: seq<Byte>, ies: seq<Byte>) {
    function Supp(): Option<seq<Byte>> { First(Elements(ies), EID_SUPP_RATES) }
    function Ext(): Option<seq<Byte>> { First(Elements(ies), EID_EXT_SUPP_RATES) }
    predicate HasRates() { Supp().Some? || Ext().Some? }

    /** The byte sent for driver rate `i`: without rate elements in the scan result every rate, otherwise those it lists. */
    function Sent(i: nat): Option<Byte>
      requires i < |rates|
    {
      if !HasRates() then Some(rates[i])
      else
        var e := Entry(Body(Supp()), rates[i]);
        var f := Entry(Body(Ext()), rates[i]);
        if e.Some? then Some(rates[i] % 128 + (if e.value >= 128 then 128 else 0))
        else if f.Some? then Some(rates[i] % 128 + (if f.value >= 128 then 128 else 0))
        else None
    }

    /** Is driver rate `i` to be sent?  Without rate elements in the scan result every rate is, otherwise those it lists. */
    predicate IsSent(i: nat)
      requires i < |rates|
    {
      !HasRates() || Listed(Body(Supp()), rates[i]) || Listed(Body(Ext()), rates[i])
    }

    /** A zero rate is sent as a zero byte, unless its first matching entry in the scan result is marked as basic. */
    predicate SentAsZero(i: nat)
      requires i < |rates|
    {
      rates[i] == 0 &&
      var e := Entry(Body(Supp()), 0);
      var f := Entry(Body(Ext()), 0);
      !(HasRates() && if e.Some? then e.value >= 128 else f.Some? && f.value >= 128)
    }

    /** All bytes to send for the first `n` rates. */
    function Emitted(n: nat): seq<Byte>
      requires n <= |rates|
    {
      if n == 0 then [] else Emitted(n - 1) + if Sent(n - 1).Some? then [Sent(n - 1).value] else []
    }

    /** Bit numbers of lcompat_ieee80211_supported_rates_mask. */
    function Supported(): set<nat> {
      set i: nat | i < |rates| && i < 32 && (ies == [] || Listed(Body(Supp()), rates[i]) || Listed(Body(Ext()), rates[i]))
    }

    predicate Marked(body: seq<Byte>, rate: Byte) { exists j | 0 <= j < |body| :: body[j] % 128 == rate && body[j] >= 128 }

    /** Bit numbers of lcompat_ieee80211_basic_rates_mask. */
    function Basic(): set<nat> {
      set i: nat | i < |rates| && i < 32 && (Marked(Body(Supp()), rates[i]) || Marked(Body(Ext()), rates[i]))
    }

    /** Rates of the first `n` bits of a mask, in ascending order. */
    function RatesOf(mask: set<nat>, n: nat): seq<Byte>
      requires n <= |rates|
    {
      if n == 0 then [] else RatesOf(mask, n - 1) + if n - 1 in mask then [rates[n - 1]] else []
    }

    predicate DriverRates() { |rates| <= 24 && forall i | 0 <= i < |rates| :: 1 <= rates[i] < 128 }
  }

  function Plain(bytes: seq<Byte>): seq<Byte> {
    seq(|bytes|, i requires 0 <= i < |bytes| => bytes[i] % 128)
  }

  lemma PlainSnoc(a: seq<Byte>, b: Byte)
    ensures Plain(a + [b]) == Plain(a) + [b % 128]
  {
  }

  /** basic_rates_mask is a subset of supported_rates_mask. */
  lemma BasicIsSupported(x: RateInput)
    ensures x.Basic() <= x.Supported()
  {
    forall i <- x.Basic()
      ensures i in x.Supported()
    {
      if x.Marked(Body(x.Supp()), x.rates[i]) { assert Listed(Body(x.Supp()), x.rates[i]); }
      else { assert Listed(Body(x.Ext()), x.rates[i]); }
    }
  }

  lemma SentIsBit(x: RateInput, i: nat)
    requires i < |x.rates| && i < 32 && x.rates[i] < 128
    ensures x.Sent(i).Some? ==> x.Sent(i).value % 128 == x.rates[i]
    ensures x.HasRates() || x.ies == [] ==> (x.Sent(i).Some? <==> i in x.Supported())
  {
    EntryListed(Body(x.Supp()), x.rates[i]);
    EntryListed(Body(x.Ext()), x.rates[i]);
  }

  lemma {:induction false} EmittedMatches(x: RateInput, n: nat)
    requires x.DriverRates() && n <= |x.rates| && (x.HasRates() || x.ies == [])
    ensures Plain(x.Emitted(n)) == x.RatesOf(x.Supported(), n)
  {
    if n > 0 {
      EmittedMatches(x, n - 1);
      SentIsBit(x, n - 1);
      if x.Sent(n - 1).Some? { PlainSnoc(x.Emitted(n - 1), x.Sent(n - 1).value); }
    }
  }

  lemma {:induction false} EmittedAll(x: RateInput, n: nat)
    requires n <= |x.rates| && !x.HasRates()
    ensures |x.Emitted(n)| == n
  {
    if n > 0 { EmittedAll(x, n - 1); }
  }

  lemma {:induction false} NoRatesOf(x: RateInput, n: nat)
    requires n <= |x.rates|
    ensures x.RatesOf({}, n) == []
  {
    if n > 0 { NoRatesOf(x, n - 1); }
  }

  /** The rates sent are exactly the bits of supported_rates_mask, ascending, if and only if the scan result
      carries a rate element or no elements at all.  With other elements but no rate element, every
      rate is sent and the mask is empty. */
  lemma RatesAgreeWithMask(x: RateInput)
    requires x.DriverRates()
    ensures Plain(x.Emitted(|x.rates|)) == x.RatesOf(x.Supported(), |x.rates|)
       <==> x.HasRates() || x.ies == [] || x.rates == []
  {
    if x.HasRates() || x.ies == [] || x.rates == [] {
      if x.rates != [] { EmittedMatches(x, |x.rates|); }
    } else {
      EmittedAll(x, |x.rates|);
      assert x.Supported() == {};
      NoRatesOf(x, |x.rates|);
      assert |Plain(x.Emitted(|x.rates|))| > 0;
    }
  }
}
