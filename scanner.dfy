/**
  One press of the scan button: fetch the data, refuse to go on when the
  SPY price is 0 (the value a failed SPY request leaves), otherwise classify
  the market and derive the structure of that scenario.
 */
module Scanner {
  import opened MarketData
  import opened Regime
  import opened Strategy

  datatype ScanResult =
    | ConnectionError
    | Plan(snapshot: Snapshot, regime: Regime, structure: Structure)

  function Scan(rule: LongLegRule, q: Quotes, spy: seq<Bar>): ScanResult {
    var s := Extract(q, spy);
    if s.price == 0.0 then ConnectionError
    else
      var regime := Classify(s.vix1d, s.vvix, s.contango);
      Plan(s, regime, Generate(rule, regime, s.price, s.distance))
  }

  /** The scan reports an error exactly when the SPY price is 0, which is the
      case whenever the SPY series is empty; otherwise it plans from the
      snapshot's own readings. */
  lemma ScanOutcome(rule: LongLegRule, q: Quotes, spy: seq<Bar>)
    ensures Scan(rule, q, spy) == ConnectionError <==> |spy| == 0 || spy[|spy| - 1].close == 0.0
    ensures var r := Scan(rule, q, spy);
      r.Plan? ==> (r.snapshot == Extract(q, spy) &&
        r.regime == Classify(LastClose(q.vix1d), LastClose(q.vvix), r.snapshot.contango) &&
        r.structure == Generate(rule, r.regime, r.snapshot.price, r.snapshot.distance))
  {
  }

  /** A plan carries no legs exactly in scenario D, and two or four otherwise. */
  lemma PlanLegs(rule: LongLegRule, q: Quotes, spy: seq<Bar>)
    requires Scan(rule, q, spy).Plan?
    ensures var r := Scan(rule, q, spy);
      (Legs(r.structure) == [] <==> r.regime == Extreme) &&
      (r.regime != Extreme ==> |Legs(r.structure)| in {2, 4})
  {
    var r := Scan(rule, q, spy);
    NoTradeIffExtreme(rule, r.regime, r.snapshot.price, r.snapshot.distance);
  }

  /** With VIX1D unavailable the scan plans the calm 1% iron condor unless
      VVIX or the slope signal danger. */
  lemma MissingVix1dRoutesToCalm(rule: LongLegRule, q: Quotes, spy: seq<Bar>)
    requires q.vix1d == []
    requires Scan(rule, q, spy).Plan?
    ensures var r := Scan(rule, q, spy);
      r.regime == (if r.snapshot.vvix > 125.0 || r.snapshot.contango < -2.0 then Extreme else Calm)
  {
    var s := Extract(q, spy);
    MissingVix1dIsCalm(s.vvix, s.contango);
  }

  /** With VIX3M unavailable but VIX available the slope reads -100%, so
      the scan always lands in scenario D. */
  lemma MissingVix3mIsExtreme(rule: LongLegRule, q: Quotes, spy: seq<Bar>)
    requires q.vix3m == [] && LastClose(q.vix) > 0.0
    requires Scan(rule, q, spy).Plan?
    ensures Scan(rule, q, spy).snapshot.contango == -100.0
    ensures Scan(rule, q, spy).regime == Extreme
    ensures Scan(rule, q, spy).structure == NoTrade
  {
    var vix := LastClose(q.vix);
    assert 0.0 / vix == 0.0;
  }

  /** With VIX unavailable the slope reads 0, so only VIX1D and VVIX can
      signal danger. */
  lemma MissingVixDisablesSlope(rule: LongLegRule, q: Quotes, spy: seq<Bar>)
    requires LastClose(q.vix) <= 0.0
    requires Scan(rule, q, spy).Plan?
    ensures Scan(rule, q, spy).snapshot.contango == 0.0
    ensures Scan(rule, q, spy).regime == Extreme <==> LastClose(q.vix1d) > 35.0 || LastClose(q.vvix) > 125.0
  {
  }

  /** A session of bars without volume leaves NaN for VWAP and distance:
      scenario C then sells the bull put and scenario B the iron condor. */
  lemma NoVolumeSessionStructure(rule: LongLegRule, q: Quotes, spy: seq<Bar>)
    requires |spy| > 0 && TotalVolume(Session(spy)) == 0
    requires Scan(rule, q, spy).Plan?
    ensures var r := Scan(rule, q, spy);
      (r.regime == HighVol ==> r.structure.BullPutSpread?) &&
      (r.regime == Moderate ==> r.structure.IronCondor?)
  {
    NoVolumeSnapshot(q, spy);
  }
}
