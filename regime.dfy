/**
  The regime classifier: an ordered decision list over the VIX1D level, the
  VVIX level and the VIX term-structure slope. The first rule that matches
  decides the scenario.
 */
module Regime {

  /** The four scenarios, D to A. */
  datatype Regime =
    | Extreme   // D: do not trade
    | HighVol   // C: directional spread 3% away
    | Moderate  // B: directional spread or iron condor 2% away
    | Calm      // A: iron condor 1% away

  /** The rule of scenario D: any one of the three danger signals. */
  predicate ExtremeTriggered(vix1d: real, vvix: real, contango: real) {
    vix1d > 35.0 || vvix > 125.0 || contango < -2.0
  }

  function Classify(vix1d: real, vvix: real, contango: real): Regime {
    if ExtremeTriggered(vix1d, vvix, contango) then Extreme
    else if vix1d > 25.0 then HighVol
    else if 18.0 <= vix1d <= 25.0 then Moderate
    else Calm
  }

  /** Risk ranking of the scenarios, Calm lowest. */
  function Severity(r: Regime): nat {
    match r
    case Calm => 0
    case Moderate => 1
    case HighVol => 2
    case Extreme => 3
  }

  /** Each scenario in terms of the inputs alone: the four conditions are
      disjoint, cover every input, and each is the one its scenario needs. */
  lemma ClassifyCharacterized(vix1d: real, vvix: real, contango: real)
    ensures Classify(vix1d, vvix, contango) == Extreme <==>
      (vix1d > 35.0 || vvix > 125.0 || contango < -2.0)
    ensures Classify(vix1d, vvix, contango) == HighVol <==>
      (vix1d <= 35.0 && vvix <= 125.0 && contango >= -2.0 && vix1d > 25.0)
    ensures Classify(vix1d, vvix, contango) == Moderate <==>
      (vvix <= 125.0 && contango >= -2.0 && 18.0 <= vix1d <= 25.0)
    ensures Classify(vix1d, vvix, contango) == Calm <==>
      (vvix <= 125.0 && contango >= -2.0 && vix1d < 18.0)
  {
  }

  /** VIX1D at exactly 25 without a danger signal is Moderate, not HighVol. */
  lemma UpperBoundaryIsModerate(vvix: real, contango: real)
    requires vvix <= 125.0 && contango >= -2.0
    ensures Classify(25.0, vvix, contango) == Moderate
  {
  }

  /** VIX1D at exactly 18 without a danger signal is Moderate. */
  lemma LowerBoundaryIsModerate(vvix: real, contango: real)
    requires vvix <= 125.0 && contango >= -2.0
    ensures Classify(18.0, vvix, contango) == Moderate
  {
  }

  /** A VIX1D of 0.0, the value left by a failed fetch, is Calm unless a
      danger signal from VVIX or the slope fires. */
  lemma MissingVix1dIsCalm(vvix: real, contango: real)
    ensures Classify(0.0, vvix, contango) ==
      if vvix > 125.0 || contango < -2.0 then Extreme else Calm
  {
  }

  /** A higher VIX1D never yields a less severe scenario. */
  lemma SeverityMonotoneInVix1d(a: real, b: real, vvix: real, contango: real)
    requires a <= b
    ensures Severity(Classify(a, vvix, contango)) <= Severity(Classify(b, vvix, contango))
  {
  }

  /** A higher VVIX never yields a less severe scenario. */
  lemma SeverityMonotoneInVvix(vix1d: real, a: real, b: real, contango: real)
    requires a <= b
    ensures Severity(Classify(vix1d, a, contango)) <= Severity(Classify(vix1d, b, contango))
  {
  }

  /** A lower slope never yields a less severe scenario. */
  lemma SeverityAntitoneInContango(vix1d: real, vvix: real, a: real, b: real)
    requires a <= b
    ensures Severity(Classify(vix1d, vvix, b)) <= Severity(Classify(vix1d, vvix, a))
  {
  }
}
