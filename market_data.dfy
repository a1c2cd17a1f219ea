/**
  The metric extraction of the scanner: the last close of each volatility
  index, the VWAP of the current SPY session, the distance of the last price
  from that VWAP and the VIX term-structure slope ("contango").

  Prices are exact reals. The only place where the source's floating-point
  semantics change the outcome is division by zero, which numpy answers with
  NaN or an infinity instead of an exception; `Float` keeps those values.
 */
module MarketData {

  /** One 5-minute SPY bar: the calendar day it belongs to, its high, low
      and close, and its traded volume. */
  datatype Bar = Bar(date: int, high: real, low: real, close: real, volume: nat)

  /** A double-precision result of a division, with its exceptional values. */
  datatype Float = Finite(value: real) | PosInf | NegInf | NaN

  /** IEEE quotient of two finite numbers. */
  function Div(x: real, y: real): Float {
    if y != 0.0 then Finite(x / y)
    else if x > 0.0 then PosInf
    else if x < 0.0 then NegInf
    else NaN
  }

  /** IEEE product with a positive finite constant. */
  function Scale(x: Float, k: real): Float
    requires k > 0.0
  {
    match x
    case Finite(v) => Finite(v * k)
    case _ => x
  }

  /** IEEE `x < c` for a finite `c`: false for NaN. */
  predicate Below(x: Float, c: real) {
    match x
    case Finite(v) => v < c
    case NegInf => true
    case _ => false
  }

  /** IEEE `x > c` for a finite `c`: false for NaN. */
  predicate Above(x: Float, c: real) {
    match x
    case Finite(v) => v > c
    case PosInf => true
    case _ => false
  }

  /** IEEE `abs(x) > c` for a finite `c`: false for NaN. */
  predicate AbsAbove(x: Float, c: real) {
    match x
    case Finite(v) => (if v < 0.0 then -v else v) > c
    case NaN => false
    case _ => true
  }

  /** No comparison holds of NaN. */
  lemma NaNComparesFalse(c: real)
    ensures !Below(NaN, c) && !Above(NaN, c) && !AbsAbove(NaN, c)
  {
  }

  /** IEEE `abs(x) > c` is `x > c or x < -c` for a non-negative `c`. */
  lemma AbsAboveSplits(x: Float, c: real)
    requires c >= 0.0
    ensures AbsAbove(x, c) <==> Above(x, c) || Below(x, -c)
  {
  }

  // ---------------------------------------------------------------------
  // Session isolation

  /** The bars of `bars` whose date is `d`, in their original order. */
  function BarsOn(bars: seq<Bar>, d: int): (r: seq<Bar>)
    ensures |r| <= |bars|
    ensures forall i :: 0 <= i < |r| ==> r[i].date == d && r[i] in bars
    ensures forall b :: b in bars && b.date == d ==> b in r
    ensures forall b :: multiset(r)[b] == if b.date == d then multiset(bars)[b] else 0
  {
    if bars == [] then []
    else
      assert bars == [bars[0]] + bars[1..];
      (if bars[0].date == d then [bars[0]] else []) + BarsOn(bars[1..], d)
  }

  /** Filtering a day out of a concatenation filters each part, keeping the
      order of the kept bars. */
  lemma {:induction false} BarsOnAppend(a: seq<Bar>, c: seq<Bar>, d: int)
    ensures BarsOn(a + c, d) == BarsOn(a, d) + BarsOn(c, d)
  {
    if a == [] {
      assert a + c == c;
    } else {
      assert (a + c)[0] == a[0];
      assert (a + c)[1..] == a[1..] + c;
      BarsOnAppend(a[1..], c, d);
    }
  }

  /** A single bar is kept exactly when it is on day `d`. */
  lemma BarsOnSingle(b: Bar, d: int)
    ensures BarsOn([b], d) == if b.date == d then [b] else []
  {
    assert [b][1..] == [];
  }

  /** The current session: the bars sharing the date of the last bar. */
  function Session(bars: seq<Bar>): (r: seq<Bar>)
    requires |bars| > 0
    ensures 0 < |r| <= |bars|
    ensures r[|r| - 1] == bars[|bars| - 1]
    ensures forall b :: b in r <==> b in bars && b.date == bars[|bars| - 1].date
    ensures forall b ::
      multiset(r)[b] == if b.date == bars[|bars| - 1].date then multiset(bars)[b] else 0
  {
    BarsOnKeepsLast(bars, bars[|bars| - 1].date);
    BarsOn(bars, bars[|bars| - 1].date)
  }

  /** Bars of other days in front of a series leave the current session as it is. */
  lemma {:induction false} BarsOnSkipsOtherDays(prior: seq<Bar>, today: seq<Bar>, d: int)
    requires forall i :: 0 <= i < |prior| ==> prior[i].date != d
    ensures BarsOn(prior + today, d) == BarsOn(today, d)
  {
    if prior != [] {
      var all := prior + today;
      assert all[0] == prior[0] && all[0].date != d;
      assert all[1..] == prior[1..] + today;
      assert BarsOn(all, d) == BarsOn(all[1..], d);
      BarsOnSkipsOtherDays(prior[1..], today, d);
      assert BarsOn(all[1..], d) == BarsOn(today, d);
    } else {
      assert prior + today == today;
    }
  }

  /** The last bar of `BarsOn(bars, d)` is the last bar of `bars` when that bar
      is on day `d`. */
  lemma BarsOnKeepsLast(bars: seq<Bar>, d: int)
    requires |bars| > 0 && bars[|bars| - 1].date == d
    ensures |BarsOn(bars, d)| > 0 && BarsOn(bars, d)[|BarsOn(bars, d)| - 1] == bars[|bars| - 1]
  {
    var n := |bars|;
    assert bars == bars[..n - 1] + [bars[n - 1]];
    BarsOnAppend(bars[..n - 1], [bars[n - 1]], d);
    BarsOnSingle(bars[n - 1], d);
  }

  // ---------------------------------------------------------------------
  // VWAP

  /** The typical price `(H + L + C) / 3` of a bar. */
  function TypicalPrice(b: Bar): real {
    (b.high + b.low + b.close) / 3.0
  }

  function TotalVolume(s: seq<Bar>): nat {
    if s == [] then 0 else s[0].volume + TotalVolume(s[1..])
  }

  /** The sum of typical price times volume. */
  function TotalPriceVolume(s: seq<Bar>): real {
    if s == [] then 0.0 else TypicalPrice(s[0]) * s[0].volume as real + TotalPriceVolume(s[1..])
  }

  /** The volume-weighted average typical price, NaN for a session without volume. */
  function Vwap(s: seq<Bar>): Float {
    Div(TotalPriceVolume(s), TotalVolume(s) as real)
  }

  function MinTypical(s: seq<Bar>): (r: real)
    requires |s| > 0
    ensures forall i :: 0 <= i < |s| ==> r <= TypicalPrice(s[i])
    ensures exists i :: 0 <= i < |s| && r == TypicalPrice(s[i])
  {
    if |s| == 1 then TypicalPrice(s[0])
    else
      var m := MinTypical(s[1..]);
      if TypicalPrice(s[0]) <= m then TypicalPrice(s[0]) else m
  }

  function MaxTypical(s: seq<Bar>): (r: real)
    requires |s| > 0
    ensures forall i :: 0 <= i < |s| ==> TypicalPrice(s[i]) <= r
    ensures exists i :: 0 <= i < |s| && r == TypicalPrice(s[i])
  {
    if |s| == 1 then TypicalPrice(s[0])
    else
      var m := MaxTypical(s[1..]);
      if TypicalPrice(s[0]) >= m then TypicalPrice(s[0]) else m
  }

  /** Weighting by non-negative volumes keeps the weighted sum between the
      bounds of the typical prices times the total volume. */
  lemma {:induction false} WeightedSumBounds(s: seq<Bar>, lo: real, hi: real)
    requires forall i :: 0 <= i < |s| ==> lo <= TypicalPrice(s[i]) <= hi
    ensures lo * TotalVolume(s) as real <= TotalPriceVolume(s) <= hi * TotalVolume(s) as real
  {
    if s != [] {
      WeightedSumBounds(s[1..], lo, hi);
      var t, v := TypicalPrice(s[0]), s[0].volume as real;
      assert lo <= t <= hi;
      ProductNonNegative(t - lo, v);
      ProductNonNegative(hi - t, v);
      assert TotalVolume(s) as real == v + TotalVolume(s[1..]) as real;
    }
  }

  /** A session with no volume has a zero weighted sum, hence VWAP 0/0 = NaN. */
  lemma {:induction false} NoVolumeVwapIsNaN(s: seq<Bar>)
    requires TotalVolume(s) == 0
    ensures TotalPriceVolume(s) == 0.0
    ensures Vwap(s) == NaN
  {
    if s != [] {
      NoVolumeVwapIsNaN(s[1..]);
    }
  }

  /** With positive volume the VWAP is a finite number within any bounds of
      the session's typical prices. */
  lemma VwapWithin(s: seq<Bar>, lo: real, hi: real)
    requires TotalVolume(s) > 0
    requires forall i :: 0 <= i < |s| ==> lo <= TypicalPrice(s[i]) <= hi
    ensures Vwap(s).Finite? && lo <= Vwap(s).value <= hi
  {
    WeightedSumBounds(s, lo, hi);
    QuotientBounds(TotalPriceVolume(s), TotalVolume(s) as real, lo, hi);
  }

  /** With positive volume the VWAP is a finite number between the smallest
      and the largest typical price of the session. */
  lemma VwapBetweenTypicalPrices(s: seq<Bar>)
    requires TotalVolume(s) > 0
    ensures |s| > 0 && Vwap(s).Finite?
    ensures MinTypical(s) <= Vwap(s).value <= MaxTypical(s)
  {
    assert s != [];
    VwapWithin(s, MinTypical(s), MaxTypical(s));
  }

  lemma ProductNonNegative(a: real, b: real)
    requires a >= 0.0 && b >= 0.0
    ensures a * b >= 0.0
  {
  }

  lemma QuotientBounds(p: real, v: real, lo: real, hi: real)
    requires v > 0.0 && lo * v <= p <= hi * v
    ensures lo <= p / v <= hi
  {
    assert (p / v) * v == p;
  }

  /** A one-bar session with volume has that bar's typical price as VWAP. */
  lemma VwapSingleBar(b: Bar)
    requires b.volume > 0
    ensures Vwap([b]) == Finite(TypicalPrice(b))
  {
    assert [b][1..] == [];
    var t, v := TypicalPrice(b), b.volume as real;
    assert TotalVolume([b]) as real == v;
    assert TotalPriceVolume([b]) == t * v;
    assert (t * v) / v == t;
  }

  // ---------------------------------------------------------------------
  // Derived metrics

  /** Percentage distance `(price - vwap) / vwap * 100` in IEEE semantics. */
  function Distance(price: real, vwap: Float): Float {
    match vwap
    case Finite(v) => Scale(Div(price - v, v), 100.0)
    case _ => NaN
  }

  /** Against a positive VWAP, "the distance is below c percent" means the
      price is below VWAP scaled by `1 + c / 100`. */
  lemma DistanceBelow(price: real, v: real, c: real)
    requires v > 0.0
    ensures Below(Distance(price, Finite(v)), c) <==> price < v * (1.0 + c / 100.0)
  {
    var q := (price - v) / v;
    assert q * v == price - v;
    assert q * 100.0 < c <==> q < c / 100.0;
    assert q < c / 100.0 <==> q * v < (c / 100.0) * v;
  }

  /** Against a positive VWAP, "the distance is above c percent" means the
      price is above VWAP scaled by `1 + c / 100`. */
  lemma DistanceAbove(price: real, v: real, c: real)
    requires v > 0.0
    ensures Above(Distance(price, Finite(v)), c) <==> price > v * (1.0 + c / 100.0)
  {
    var q := (price - v) / v;
    assert q * v == price - v;
    assert q * 100.0 > c <==> q > c / 100.0;
    assert q > c / 100.0 <==> q * v > (c / 100.0) * v;
  }

  /** Term-structure slope `(vix3m / vix - 1) * 100`, 0 when VIX is not positive. */
  function Contango(vix: real, vix3m: real): (r: real)
    ensures vix <= 0.0 ==> r == 0.0
    ensures vix > 0.0 ==> vix3m == vix * (1.0 + r / 100.0)
  {
    if vix > 0.0 then (vix3m / vix - 1.0) * 100.0 else 0.0
  }

  /** For a positive VIX, the slope is below `c` exactly when VIX3M is below
      VIX scaled by `1 + c / 100`; in particular it is negative exactly in
      backwardation (VIX3M below VIX) and below -2 exactly when VIX3M is
      under 98% of VIX. */
  lemma ContangoBelow(vix: real, vix3m: real, c: real)
    requires vix > 0.0
    ensures Contango(vix, vix3m) < c <==> vix3m < vix * (1.0 + c / 100.0)
  {
    var r := Contango(vix, vix3m);
    assert vix3m - vix * (1.0 + c / 100.0) == vix * ((r - c) / 100.0);
  }

  /** The slope is zero exactly when the two indices are equal (for a positive VIX). */
  lemma ContangoZero(vix: real, vix3m: real)
    requires vix > 0.0
    ensures Contango(vix, vix3m) == 0.0 <==> vix3m == vix
  {
  }

  // ---------------------------------------------------------------------
  // The market snapshot

  /** The daily closes returned by the 5-day history request of each
      volatility index; an empty history stands for an empty frame or a
      request that raised. */
  datatype Quotes = Quotes(vix1d: seq<real>, vvix: seq<real>, vix: seq<real>, vix3m: seq<real>)

  /** The last close of a history, 0.0 when there is none. */
  function LastClose(closes: seq<real>): real {
    if |closes| == 0 then 0.0 else closes[|closes| - 1]
  }

  /** What the data step hands to the decision logic. */
  datatype Snapshot = Snapshot(
    vix1d: real, vvix: real, vix: real, vix3m: real,
    price: real, vwap: Float, distance: Float, contango: real)

  /** The data step: sentiment values, then price, VWAP, distance and
      contango from the two-day 5-minute SPY series. An empty series
      yields price, VWAP, distance and contango all 0. */
  function Extract(q: Quotes, spy: seq<Bar>): (r: Snapshot)
    ensures r.vix1d == LastClose(q.vix1d) && r.vvix == LastClose(q.vvix)
    ensures r.vix == LastClose(q.vix) && r.vix3m == LastClose(q.vix3m)
    ensures |spy| == 0 ==>
      r.price == 0.0 && r.vwap == Finite(0.0) && r.distance == Finite(0.0) && r.contango == 0.0
    ensures |spy| > 0 ==> r.price == spy[|spy| - 1].close && r.vwap == Vwap(Session(spy))
    ensures |spy| > 0 ==> r.distance == Distance(r.price, r.vwap) && r.contango == Contango(r.vix, r.vix3m)
  {
    var vix1d, vvix, vix, vix3m := LastClose(q.vix1d), LastClose(q.vvix), LastClose(q.vix), LastClose(q.vix3m);
    if |spy| == 0 then
      Snapshot(vix1d, vvix, vix, vix3m, 0.0, Finite(0.0), Finite(0.0), 0.0)
    else
      var price := spy[|spy| - 1].close;
      var vwap := Vwap(Session(spy));
      Snapshot(vix1d, vvix, vix, vix3m, price, vwap, Distance(price, vwap), Contango(vix, vix3m))
  }

  /** The previous day's bars have no influence on the snapshot: only the
      current session enters VWAP and distance. */
  lemma PriorSessionIgnored(q: Quotes, prior: seq<Bar>, today: seq<Bar>)
    requires |today| > 0
    requires forall i :: 0 <= i < |prior| ==> prior[i].date != today[|today| - 1].date
    ensures Extract(q, prior + today) == Extract(q, today)
  {
    var d := today[|today| - 1].date;
    assert (prior + today)[|prior + today| - 1] == today[|today| - 1];
    BarsOnSkipsOtherDays(prior, today, d);
  }

  /** A session whose bars all traded nothing yields NaN VWAP and NaN distance. */
  lemma NoVolumeSnapshot(q: Quotes, spy: seq<Bar>)
    requires |spy| > 0 && TotalVolume(Session(spy)) == 0
    ensures Extract(q, spy).vwap == NaN && Extract(q, spy).distance == NaN
  {
    NoVolumeVwapIsNaN(Session(spy));
  }
}
