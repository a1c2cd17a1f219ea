/**
  The strike generator: for each scenario, the option structure and its
  strikes, placed at `round(price * factor)` with a $5 wing.
 */
module Strategy {
  import opened Rounding
  import opened MarketData
  import opened Regime

  datatype Side = Buy | Sell
  datatype Right = Put | Call

  /** One option leg: buy (protection) or sell (income), put or call, strike. */
  datatype Leg = Leg(side: Side, right: Right, strike: int)

  /** The structure proposed for a scenario. */
  datatype Structure =
    | NoTrade
    | BullPutSpread(sellPut: int, buyPut: int)
    | BearCallSpread(sellCall: int, buyCall: int)
    | IronCondor(buyPut: int, sellPut: int, sellCall: int, buyCall: int)

  /** The legs in the order they are shown: a spread short leg first, an iron
      condor as buy put, sell put, sell call, buy call. */
  function Legs(s: Structure): seq<Leg> {
    match s
    case NoTrade => []
    case BullPutSpread(sp, bp) => [Leg(Sell, Put, sp), Leg(Buy, Put, bp)]
    case BearCallSpread(sc, bc) => [Leg(Sell, Call, sc), Leg(Buy, Call, bc)]
    case IronCondor(bp, sp, sc, bc) =>
      [Leg(Buy, Put, bp), Leg(Sell, Put, sp), Leg(Sell, Call, sc), Leg(Buy, Call, bc)]
  }

  /** The distance between the short and the long strike of each side. */
  function WingWidths(s: Structure): seq<int> {
    match s
    case NoTrade => []
    case BullPutSpread(sp, bp) => [sp - bp]
    case BearCallSpread(sc, bc) => [bc - sc]
    case IronCondor(bp, sp, sc, bc) => [sp - bp, bc - sc]
  }

  /** The fixed wing of the strategy, in dollars. */
  const Wing: int := 5

  /** How a long strike is derived from the unrounded short strike `x`.
      `AsWritten` rounds after adding the wing, `round(x + 5)`; `Corrected`
      adds the wing to the rounded short strike, `round(x) + 5`. */
  datatype LongLegRule = AsWritten | Corrected

  function LongStrike(rule: LongLegRule, x: real, offset: int): int {
    match rule
    case AsWritten => PyRound(x + offset as real)
    case Corrected => PyRound(x) + offset
  }

  /** Sell the put at `round(x)`, buy the put one wing lower. */
  function BullPut(rule: LongLegRule, x: real): Structure {
    BullPutSpread(PyRound(x), LongStrike(rule, x, -Wing))
  }

  /** Sell the call at `round(x)`, buy the call one wing higher. */
  function BearCall(rule: LongLegRule, x: real): Structure {
    BearCallSpread(PyRound(x), LongStrike(rule, x, Wing))
  }

  /** Short put at `round(lo)`, short call at `round(hi)`, each protected one wing out. */
  function Condor(rule: LongLegRule, lo: real, hi: real): Structure {
    IronCondor(LongStrike(rule, lo, -Wing), PyRound(lo), PyRound(hi), LongStrike(rule, hi, Wing))
  }

  /** The structure of each scenario, given the SPY price and its distance
      (in percent) from the session VWAP. */
  function Generate(rule: LongLegRule, regime: Regime, price: real, dist: Float): Structure {
    match regime
    case Extreme => NoTrade
    case HighVol =>
      if Below(dist, -0.60) then BearCall(rule, price * 1.03) else BullPut(rule, price * 0.97)
    case Moderate =>
      if AbsAbove(dist, 0.40) then
        if Above(dist, 0.0) then BullPut(rule, price * 0.98) else BearCall(rule, price * 1.02)
      else Condor(rule, price * 0.98, price * 1.02)
    case Calm => Condor(rule, price * 0.99, price * 1.01)
  }

  // ---------------------------------------------------------------------
  // Which structure each scenario yields

  /** Only scenario D yields no trade; every other scenario yields two or four legs. */
  lemma NoTradeIffExtreme(rule: LongLegRule, regime: Regime, price: real, dist: Float)
    ensures Generate(rule, regime, price, dist) == NoTrade <==> regime == Extreme
    ensures Legs(Generate(rule, regime, price, dist)) == [] <==> regime == Extreme
    ensures regime != Extreme ==> |Legs(Generate(rule, regime, price, dist))| in {2, 4}
  {
  }

  /** Scenario C: a two-leg spread, a bear call 3% above the price when the
      price is more than 0.60% below VWAP, a bull put 3% below otherwise. */
  lemma HighVolSpread(rule: LongLegRule, price: real, dist: Float)
    ensures var s := Generate(rule, HighVol, price, dist);
      |Legs(s)| == 2 &&
      (s.BearCallSpread? <==> Below(dist, -0.60)) &&
      (s.BullPutSpread? <==> !Below(dist, -0.60)) &&
      (s.BearCallSpread? ==> (s.sellCall == PyRound(price * 1.03) &&
        s.buyCall == LongStrike(rule, price * 1.03, Wing))) &&
      (s.BullPutSpread? ==> (s.sellPut == PyRound(price * 0.97) &&
        s.buyPut == LongStrike(rule, price * 0.97, -Wing)))
  {
  }

  /** A distance of exactly -0.60% is not below the threshold: bull put. */
  lemma HighVolThresholdIsBullPut(rule: LongLegRule, price: real)
    ensures Generate(rule, HighVol, price, Finite(-0.60)).BullPutSpread?
  {
  }

  /** Scenario B: directional exactly when the distance exceeds 0.40% in
      magnitude (bull put above VWAP, bear call below), an iron condor
      otherwise, all 2% from the price. */
  lemma ModerateStructure(rule: LongLegRule, price: real, dist: Float)
    ensures var s := Generate(rule, Moderate, price, dist);
      (|Legs(s)| == 2 <==> AbsAbove(dist, 0.40)) &&
      (s.BullPutSpread? <==> Above(dist, 0.40)) &&
      (s.BearCallSpread? <==> Below(dist, -0.40)) &&
      (s.IronCondor? <==> !Above(dist, 0.40) && !Below(dist, -0.40)) &&
      (s.BullPutSpread? ==> (s.sellPut == PyRound(price * 0.98) &&
        s.buyPut == LongStrike(rule, price * 0.98, -Wing))) &&
      (s.BearCallSpread? ==> (s.sellCall == PyRound(price * 1.02) &&
        s.buyCall == LongStrike(rule, price * 1.02, Wing))) &&
      (s.IronCondor? ==> (s.sellPut == PyRound(price * 0.98) && s.sellCall == PyRound(price * 1.02) &&
        s.buyPut == LongStrike(rule, price * 0.98, -Wing) && s.buyCall == LongStrike(rule, price * 1.02, Wing)))
  {
    AbsAboveSplits(dist, 0.40);
  }

  /** Scenario A: always the 1% iron condor. */
  lemma CalmCondor(rule: LongLegRule, price: real, dist: Float)
    ensures var s := Generate(rule, Calm, price, dist);
      s.IronCondor? && s.sellPut == PyRound(price * 0.99) && s.sellCall == PyRound(price * 1.01) &&
      s.buyPut == LongStrike(rule, price * 0.99, -Wing) && s.buyCall == LongStrike(rule, price * 1.01, Wing)
  {
  }

  // ---------------------------------------------------------------------
  // Shape of the strikes

  /** Wings of the long-leg rules: exactly 5 when the long strike is the
      rounded short strike plus or minus 5; when it is rounded itself, within
      one of 5, and exactly 5 unless the short strike is an exact tie. */
  lemma LongStrikeWing(rule: LongLegRule, x: real)
    ensures rule == Corrected ==> PyRound(x) - LongStrike(rule, x, -Wing) == 5
    ensures rule == Corrected ==> LongStrike(rule, x, Wing) - PyRound(x) == 5
    ensures 4 <= PyRound(x) - LongStrike(rule, x, -Wing) <= 6
    ensures 4 <= LongStrike(rule, x, Wing) - PyRound(x) <= 6
    ensures !IsTie(x) ==> PyRound(x) - LongStrike(rule, x, -Wing) == 5
    ensures !IsTie(x) ==> LongStrike(rule, x, Wing) - PyRound(x) == 5
  {
    PyRoundPlusFive(x);
    PyRoundMinusFive(x);
  }

  /** The wings a long-leg rule can produce. */
  function WingRange(rule: LongLegRule): set<int> {
    if rule == Corrected then {5} else {4, 5, 6}
  }

  /** Every wing of `s` lies in `range`. */
  predicate WingsIn(s: Structure, range: set<int>) {
    forall w :: w in WingWidths(s) ==> w in range
  }

  lemma BullPutWings(rule: LongLegRule, x: real)
    ensures WingsIn(BullPut(rule, x), WingRange(rule))
  {
    LongStrikeWing(rule, x);
  }

  lemma BearCallWings(rule: LongLegRule, x: real)
    ensures WingsIn(BearCall(rule, x), WingRange(rule))
  {
    LongStrikeWing(rule, x);
  }

  lemma CondorWings(rule: LongLegRule, lo: real, hi: real)
    ensures WingsIn(Condor(rule, lo, hi), WingRange(rule))
  {
    LongStrikeWing(rule, lo);
    LongStrikeWing(rule, hi);
  }

  /** Every wing of a generated structure is one the rule can produce. */
  lemma GeneratedWings(rule: LongLegRule, regime: Regime, price: real, dist: Float)
    ensures WingsIn(Generate(rule, regime, price, dist), WingRange(rule))
  {
    match regime
    case Extreme =>
    case HighVol =>
      if Below(dist, -0.60) { BearCallWings(rule, price * 1.03); } else { BullPutWings(rule, price * 0.97); }
    case Moderate =>
      if !AbsAbove(dist, 0.40) {
        CondorWings(rule, price * 0.98, price * 1.02);
      } else if Above(dist, 0.0) {
        BullPutWings(rule, price * 0.98);
      } else {
        BearCallWings(rule, price * 1.02);
      }
    case Calm => CondorWings(rule, price * 0.99, price * 1.01);
  }

  /** With the corrected long strikes every wing is exactly $5. */
  lemma CorrectedWingsAreFive(regime: Regime, price: real, dist: Float)
    ensures forall w :: w in WingWidths(Generate(Corrected, regime, price, dist)) ==> w == Wing
  {
    GeneratedWings(Corrected, regime, price, dist);
    assert WingsIn(Generate(Corrected, regime, price, dist), {5});
  }

  /** As written, every wing is $4, $5 or $6: the protective leg is always on
      the far side of the income leg. */
  lemma AsWrittenWingsNearFive(regime: Regime, price: real, dist: Float)
    ensures forall w :: w in WingWidths(Generate(AsWritten, regime, price, dist)) ==> 4 <= w <= 6
  {
    GeneratedWings(AsWritten, regime, price, dist);
    assert WingsIn(Generate(AsWritten, regime, price, dist), {4, 5, 6});
  }

  /** The two long-leg rules always give the same kind of structure with
      the same short strikes. */
  lemma RulesShareShortStrikes(regime: Regime, price: real, dist: Float)
    ensures var a, c := Generate(AsWritten, regime, price, dist), Generate(Corrected, regime, price, dist);
      a.NoTrade? == c.NoTrade? && a.BullPutSpread? == c.BullPutSpread? &&
      a.BearCallSpread? == c.BearCallSpread? && a.IronCondor? == c.IronCondor? &&
      (a.BullPutSpread? || a.IronCondor? ==> a.sellPut == c.sellPut) &&
      (a.BearCallSpread? || a.IronCondor? ==> a.sellCall == c.sellCall)
  {
  }

  /** Where no unrounded strike is an exact tie the two rules give the same
      structure. */
  lemma RulesAgreeOffTies(regime: Regime, price: real, dist: Float)
    requires !IsTie(price * 0.97) && !IsTie(price * 1.03)
    requires !IsTie(price * 0.98) && !IsTie(price * 1.02)
    requires !IsTie(price * 0.99) && !IsTie(price * 1.01)
    ensures Generate(AsWritten, regime, price, dist) == Generate(Corrected, regime, price, dist)
  {
    forall x: real | !IsTie(x) ensures LongStrike(AsWritten, x, Wing) == LongStrike(Corrected, x, Wing)
      && LongStrike(AsWritten, x, -Wing) == LongStrike(Corrected, x, -Wing)
    {
      LongStrikeWing(AsWritten, x);
    }
  }

  /** For a positive price the legs of an iron condor, in the order shown,
      have strictly rising strikes except that the two short strikes may meet:
      buy put < sell put <= sell call < buy call. */
  lemma CondorOrdered(rule: LongLegRule, regime: Regime, price: real, dist: Float)
    requires price > 0.0
    requires Generate(rule, regime, price, dist).IronCondor?
    ensures var legs := Legs(Generate(rule, regime, price, dist));
      |legs| == 4 &&
      legs[0].side == Buy && legs[0].right == Put && legs[1].side == Sell && legs[1].right == Put &&
      legs[2].side == Sell && legs[2].right == Call && legs[3].side == Buy && legs[3].right == Call &&
      legs[0].strike < legs[1].strike <= legs[2].strike < legs[3].strike
  {
    var lo, hi := if regime == Calm then price * 0.99 else price * 0.98,
                  if regime == Calm then price * 1.01 else price * 1.02;
    assert Generate(rule, regime, price, dist) == Condor(rule, lo, hi);
    PyRoundMonotone(lo, hi);
    LongStrikeWing(rule, lo);
    LongStrikeWing(rule, hi);
  }

  /** From a price of $50 on, every short put is at or below the price and
      every short call at or above it: the income legs start out of the money. */
  lemma ShortStrikesOutOfTheMoney(rule: LongLegRule, regime: Regime, price: real, dist: Float)
    requires price >= 50.0
    ensures forall leg :: leg in Legs(Generate(rule, regime, price, dist)) && leg.side == Sell ==>
      (leg.right == Put ==> leg.strike as real <= price) &&
      (leg.right == Call ==> leg.strike as real >= price)
  {
    var r97, r98, r99 := PyRound(price * 0.97), PyRound(price * 0.98), PyRound(price * 0.99);
    var r101, r102, r103 := PyRound(price * 1.01), PyRound(price * 1.02), PyRound(price * 1.03);
    assert r97 as real <= price && r98 as real <= price && r99 as real <= price;
    assert r101 as real >= price && r102 as real >= price && r103 as real >= price;
  }

  // ---------------------------------------------------------------------
  // The exact-tie wing

  /** At a price of $550 scenario C with the price at VWAP sells the 533.5
      put, which rounds to 534; as written the protective put is
      round(528.5) = 528, a $6 wing; corrected it is 529. */
  lemma TieWidensWing()
    ensures Generate(AsWritten, HighVol, 550.0, Finite(0.0)) == BullPutSpread(534, 528)
    ensures WingWidths(Generate(AsWritten, HighVol, 550.0, Finite(0.0))) == [6]
    ensures Generate(Corrected, HighVol, 550.0, Finite(0.0)) == BullPutSpread(534, 529)
  {
    assert 550.0 * 0.97 == 533.5;
    assert (533.5).Floor == 533;
    assert (528.5).Floor == 528;
  }
}
