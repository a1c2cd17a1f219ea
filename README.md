# SPY 0DTE Sentinel: the decision engine in Dafny

The Sentinel is a one-page web app. When its scan button is pressed, it fetches
VIX1D, VVIX, VIX and VIX3M, plus two days of 5-minute SPY bars. It then
classifies the market into one of four scenarios and prints the option
structure for that scenario, with its strikes.

This project models the part of the app that makes decisions, and proves
properties of it. Everything is a pure function; there is no state.

- `rounding.dfy`, module `Rounding`: Python's built-in `round`. It rounds to
  the nearest integer, and an exact half goes to the even neighbour. Every
  strike passes through it.
- `market_data.dfy`, module `MarketData`: builds the snapshot of readings.
  - The last close of each volatility index, or `0.0` when its history is
    empty.
  - The current session: the bars whose date is the date of the last bar.
  - The VWAP of the session: the typical price `(H+L+C)/3` of each bar,
    weighted by volume.
  - The distance of the last price from VWAP, in percent.
  - The term-structure slope `(VIX3M/VIX − 1)·100`, which is `0` when VIX is
    not positive.
  - Prices are exact reals. Division by zero keeps numpy's behaviour: it gives
    NaN or ±inf rather than an error (type `Float`). So a session that traded
    no volume gives a NaN VWAP, exactly as in the code.
- `regime.dfy`, module `Regime`: the classifier, an ordered decision list.
  - D / Extreme: VIX1D > 35, or VVIX > 125, or slope < −2.
  - C / HighVol: otherwise, VIX1D > 25.
  - B / Moderate: otherwise, 18 ≤ VIX1D ≤ 25.
  - A / Calm: everything else.
- `strategy.dfy`, module `Strategy`: the strike generator.
  - Scenario D: no trade.
  - Scenario C: a 3% bear call when the distance is below −0.60%,
    otherwise a 3% bull put.
  - Scenario B: a 2% directional spread when the distance exceeds 0.40% in
    magnitude (bull put above VWAP, bear call below), otherwise a 2% iron
    condor.
  - Scenario A: a 1% iron condor.
  - Short strikes are `round(price·factor)`; long strikes are offset by 5.
  - The legs come in display order: buy put, sell put, sell call, buy call.
  - The long-leg formula is a parameter, `LongLegRule`. `AsWritten` is the
    code's `round(x ± 5)`. `Corrected` is `round(x) ± 5` (see Findings).
- `scanner.dfy`, module `Scanner`: one scan. A SPY price of `0` is the
  connection error. Otherwise the scan classifies and generates.

The two pieces of I/O are inputs to the model:
- The volatility histories: `Quotes`, one sequence of closes per index.
  An empty sequence stands for an empty frame or a request that raised.
- The SPY series: a sequence of `Bar`. An empty sequence stands for an empty
  frame or a failed request.

Points of the code's behaviour that the model keeps as they are:
- VIX1D = 25 exactly is Moderate, not HighVol: the HighVol test at
  `app.py:86` is a strict `> 25`, and `app.py:98` admits `<= 25`.
- A missing volatility reading is `0.0` (`app.py:19-21`) and is used like any
  other reading. A missing VIX1D therefore falls through to Calm at
  `app.py:117`; nothing fails hard.
- A zero-volume session is not reported as unavailable: `app.py:38` divides
  0 by 0, the NaN VWAP flows into the distance at `app.py:39`, and every
  comparison against NaN at `app.py:88-101` is false.
- There is no position sizing and no risk budget; the capital appears only in
  the caption at `app.py:60`.
- The wing offset is 5 in every scenario (`app.py:90-123`). After rounding,
  the wing is $5 except at exact ties, where it is $4 or $6 (see Findings).

## Model

| member | source | states |
|---|---|---|
| Rounding.PyRound | app.py:90-94 | The result is within one half of `x`, and is even when exactly one half away: round-half-to-even |
| Rounding.PyRoundIsNearestEven | app.py:90-94 | Any integer that meets the nearest-even conditions is `round(x)`, so the contract determines the function |
| Rounding.PyRoundOnTie | app.py:90-94 | On an exact .5 tie the result is the even neighbour |
| Rounding.PyRoundMonotone | app.py:110-113 | `x <= y` implies `round(x) <= round(y)` |
| Rounding.PyRoundShift | app.py:90-94 | Shifting by an integer commutes with `round` unless the shift is odd and `x` is a tie |
| Rounding.PyRoundPlusFive | app.py:90 | `round(x+5) − round(x)` is 5 off a tie, and 6 or 4 on a tie, by the parity of the floor |
| Rounding.PyRoundMinusFive | app.py:94 | `round(x) − round(x−5)` is 5 off a tie, and 4 or 6 on a tie, by the parity of the floor |
| MarketData.BarsOn | app.py:35 | Keeps exactly the bars of the given date, with their multiplicity: each bar of that date occurs as often as in the input, every other bar not at all |
| MarketData.BarsOnAppend | app.py:35 | Filtering a concatenation is the concatenation of the filtered parts, so the filter keeps the bars' order |
| MarketData.BarsOnSingle | app.py:35 | A single bar is kept exactly when it is on the given date |
| MarketData.Session | app.py:34-35 | The session is non-empty, ends with the last bar, and holds every bar dated like the last bar as often as the series does, and no other bar |
| MarketData.PriorSessionIgnored | app.py:33-38 | Bars of other days placed before the series leave the whole snapshot unchanged |
| MarketData.WeightedSumBounds | app.py:38 | With non-negative volumes, the volume-weighted sum lies between lo·V and hi·V for any typical-price bounds lo, hi |
| MarketData.VwapWithin | app.py:37-38 | With positive volume, VWAP is finite and within any bounds of the session's typical prices |
| MarketData.VwapBetweenTypicalPrices | app.py:37-38 | With positive volume, min typical price ≤ VWAP ≤ max typical price |
| MarketData.MinTypical | app.py:37 | A lower bound of the typical prices that one of them attains |
| MarketData.MaxTypical | app.py:37 | An upper bound of the typical prices that one of them attains |
| MarketData.VwapSingleBar | app.py:37-38 | A one-bar session with volume has that bar's typical price as VWAP |
| MarketData.NoVolumeVwapIsNaN | app.py:38 | A session without volume has a zero weighted sum, so VWAP is 0/0 = NaN |
| MarketData.DistanceBelow | app.py:39 | For a positive VWAP v, distance < c% iff price < v·(1 + c/100) |
| MarketData.DistanceAbove | app.py:39 | For a positive VWAP v, distance > c% iff price > v·(1 + c/100) |
| MarketData.NaNComparesFalse | app.py:88-101 | No threshold comparison holds of NaN |
| MarketData.AbsAboveSplits | app.py:99 | `abs(d) > c` iff `d > c` or `d < −c`, including the infinities |
| MarketData.Contango | app.py:41 | 0 when VIX ≤ 0; otherwise VIX3M is recovered from the slope as VIX·(1 + slope/100) |
| MarketData.ContangoBelow | app.py:41 | For VIX > 0, slope < c iff VIX3M < VIX·(1 + c/100): negative iff VIX3M < VIX, below −2 iff VIX3M < 0.98·VIX |
| MarketData.ContangoZero | app.py:41 | For VIX > 0, the slope is 0 iff VIX3M = VIX |
| MarketData.Extract | app.py:19-43 | Each volatility field is the last close or 0.0; an empty SPY series gives price, VWAP, distance and slope all 0; otherwise price is the last close, VWAP is that of the session, distance is measured from that VWAP and the slope is Contango(VIX, VIX3M) |
| MarketData.NoVolumeSnapshot | app.py:38-39 | A session without volume gives NaN VWAP and NaN distance |
| Regime.ClassifyCharacterized | app.py:81-117 | Each scenario iff its condition on the inputs; the four conditions are disjoint and cover every input |
| Regime.UpperBoundaryIsModerate | app.py:86-98 | VIX1D = 25 with no danger signal is Moderate |
| Regime.LowerBoundaryIsModerate | app.py:98 | VIX1D = 18 with no danger signal is Moderate |
| Regime.MissingVix1dIsCalm | app.py:117 | VIX1D = 0.0 is Calm unless VVIX or the slope signals danger |
| Regime.SeverityMonotoneInVix1d | app.py:81-117 | A higher VIX1D never gives a less severe scenario |
| Regime.SeverityMonotoneInVvix | app.py:81 | A higher VVIX never gives a less severe scenario |
| Regime.SeverityAntitoneInContango | app.py:81 | A lower slope never gives a less severe scenario |
| Strategy.NoTradeIffExtreme | app.py:81-124 | No trade and no legs iff scenario D; two or four legs otherwise |
| Strategy.HighVolSpread | app.py:88-95 | Scenario C: two legs; bear call at round(1.03p) iff distance < −0.60, else bull put at round(0.97p); long strike one wing out by the rule |
| Strategy.HighVolThresholdIsBullPut | app.py:88-94 | A distance of exactly −0.60 gives the bull put |
| Strategy.ModerateStructure | app.py:99-114 | Scenario B: two legs iff abs(distance) > 0.40; bull put iff > 0.40, bear call iff < −0.40, iron condor otherwise; short strikes at round(0.98p) and round(1.02p), long strikes one wing out by the rule |
| Strategy.CalmCondor | app.py:117-124 | Scenario A: iron condor with short strikes round(0.99p) and round(1.01p), long strikes one wing out by the rule |
| Strategy.LongStrikeWing | app.py:90-94 | A long strike is 5 from its short strike under Corrected; under AsWritten it is within 4..6, and exactly 5 off a tie |
| Strategy.BullPutWings | app.py:94 | Each wing of a bull put is in the rule's range ({5} or {4,5,6}) |
| Strategy.BearCallWings | app.py:90 | Each wing of a bear call is in the rule's range |
| Strategy.CondorWings | app.py:108-124 | Both wings of an iron condor are in the rule's range |
| Strategy.GeneratedWings | app.py:88-124 | Every wing of any generated structure is in the rule's range |
| Strategy.CorrectedWingsAreFive | app.py:127 | With the corrected long legs every wing is exactly $5 |
| Strategy.AsWrittenWingsNearFive | app.py:88-124 | As written, every wing is $4, $5 or $6, so the long leg is always beyond the short leg |
| Strategy.RulesShareShortStrikes | app.py:88-124 | Both long-leg rules give the same kind of structure with the same short strikes |
| Strategy.RulesAgreeOffTies | app.py:88-124 | When no unrounded strike is an exact tie, both rules give the same structure |
| Strategy.CondorOrdered | app.py:47-53 | For p > 0, an iron condor's legs are buy put, sell put, sell call, buy call, with strikes bp < sp ≤ sc < bc |
| Strategy.ShortStrikesOutOfTheMoney | app.py:55 | For p ≥ 50, every short put strike ≤ p ≤ every short call strike |
| Strategy.TieWidensWing | app.py:94 | At p = 550 in scenario C at VWAP: as written BullPut(534, 528), a $6 wing; corrected BullPut(534, 529) |
| Scanner.ScanOutcome | app.py:62-68 | Error iff the SPY series is empty or its last close is 0; otherwise the plan is built from the snapshot's readings |
| Scanner.PlanLegs | app.py:79-124 | A plan has no legs iff scenario D, and two or four otherwise |
| Scanner.MissingVix1dRoutesToCalm | app.py:19-21 | An unavailable VIX1D gives Calm unless VVIX or the slope signals danger |
| Scanner.MissingVix3mIsExtreme | app.py:41 | An unavailable VIX3M with VIX available gives slope −100, so scenario D and no trade |
| Scanner.MissingVixDisablesSlope | app.py:41 | An unavailable VIX gives slope 0, so only VIX1D and VVIX can trigger scenario D |
| Scanner.NoVolumeSessionStructure | app.py:38-39 | With a zero-volume session, scenario C sells the bull put and scenario B the iron condor |

## Findings

| source | as written | input that shows it | evidently intended | confidence | as-written member | corrected member |
|---|---|---|---|---|---|---|
| app.py:94 | The long leg is `round(price*0.97 - 5)`, rounded separately from the short leg `round(price*0.97)`. The same holds for the other long legs at lines 90, 102, 105, 110, 113, 120 and 123 | price 550, scenario C, distance ≥ −0.60: the short put 533.5 rounds to 534 and the long put 528.5 rounds to 528 (ties go to even), a $6 wing; when the floor is even the wing is $4 instead | every wing is $5 (line 127), i.e. the long leg is `round(price*f) ± 5` | not executed; exact under real arithmetic, and 550·0.97 is also an exact tie in binary floating point | Strategy.TieWidensWing | Strategy.CorrectedWingsAreFive |

`LongLegRule` selects between the two formulas, and every other lemma holds
for both. `Strategy.AsWrittenWingsNearFive` and `Strategy.RulesAgreeOffTies`
bound how far the code can drift: by at most $1 per wing, and only at exact
ties.

## Left out

- Fetching data through yfinance (`app.py:15-26`) and its `except:`
  fallbacks: network I/O in a foreign library. Their outputs are inputs to the
  model. A failed or empty fetch is an empty history or an empty bar series.
- A NaN close returned by the provider for a volatility index is not
  modelled. Volatility readings are finite reals.
- A NaN in a SPY bar is not modelled either (pandas' `.sum()` would skip it
  at `app.py:38`, and a NaN last close would pass the `price == 0` test at
  `app.py:66`). Bar prices are finite reals and volumes are natural numbers.
- All Streamlit output: titles, metrics, LaTeX, the table built in
  `mostrar_estrategia` and the captions. Only the leg order that the table
  defines is kept, in `Strategy.Legs`.
- The Madrid wall clock in the caption (`app.py:59-60`): display only.
- Binary floating-point representation of the factors 0.97 … 1.03 and of the
  prices. The model computes the products exactly, so a product that lands
  within rounding error of a .5 tie may round differently in the code.
- A bar's open and intraday timestamp: only its date, high, low, close and
  volume enter the computation.
- Whether Python prints a strike as `534` or `534.0`: the model's strikes are
  integers.
- Position sizing, risk budget and a hard failure on missing data: none of
  them exists in the code, which only mentions the capital in a caption.
- Re-classifying the same inputs gives the same result. Every member is a
  function, so this holds by construction and no lemma states it.
