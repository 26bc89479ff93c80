/** The scoring half of `SignalEngine` in `core/signals.py`: seven bucketed
    scorers over one option-chain row, the weighted confidence sum, the
    reasoning text, the BUY/SELL/HOLD decision table, the trading-hours gate,
    the per-row analysis table and the signals one analysis emits. */
module SignalScoring {
  import opened Common
  import opened Calendar
  import opened Sorting
  import Helpers

  /** One row of the option chain.  The optional columns are `None` when the
      chain does not carry them; the scorers then use the source's defaults. */
  datatype ChainRow = ChainRow(
    strike: real, optionType: string, ltp: real, delta: real,
    oiChange: Option<real>, oi: Option<real>, volume: Option<real>,
    iv: Option<real>, bid: Option<real>, ask: Option<real>)

  /** The `params` dictionary: the seven `*_score` values of one row. */
  datatype Scores = Scores(
    delta: real, oi: real, volume: real, momentum: real,
    iv: real, spread: real, liquidity: real)

  predicate InUnit(s: Scores) {
    && 0.0 <= s.delta <= 1.0 && 0.0 <= s.oi <= 1.0 && 0.0 <= s.volume <= 1.0
    && 0.0 <= s.momentum <= 1.0 && 0.0 <= s.iv <= 1.0 && 0.0 <= s.spread <= 1.0
    && 0.0 <= s.liquidity <= 1.0
  }

  // ---------------------------------------------------------------- scorers

  /** `analyze_delta`: a call is bucketed on its signed delta, anything else on |delta|. */
  function DeltaScore(delta: real, optionType: string): (r: real)
    ensures r in {0.9, 0.7, 0.5, 0.2}
  {
    var d := if optionType == "CE" then delta else Abs(delta);
    if d > 0.7 then 0.9 else if d > 0.5 then 0.7 else if d > 0.3 then 0.5 else 0.2
  }

  /** `analyze_oi_change`: the size of the change as a percentage of open interest. */
  function OiScore(oiChange: real, totalOi: real): (r: real)
    ensures r in {0.9, 0.7, 0.5, 0.3}
    ensures totalOi == 0.0 ==> r == 0.3
  {
    if totalOi == 0.0 then 0.3
    else
      var pct := oiChange / totalOi * 100.0;
      if Abs(pct) > 20.0 then 0.9 else if Abs(pct) > 10.0 then 0.7
      else if Abs(pct) > 5.0 then 0.5 else 0.3
  }

  /** `analyze_volume`: traded volume relative to open interest. */
  function VolumeScore(volume: real, oi: real): (r: real)
    ensures r in {0.9, 0.7, 0.5, 0.3}
    ensures oi == 0.0 ==> r == 0.3
  {
    if oi == 0.0 then 0.3
    else
      var ratio := volume / oi;
      if ratio > 0.5 then 0.9 else if ratio > 0.3 then 0.7 else if ratio > 0.1 then 0.5 else 0.3
  }

  /** `analyze_momentum`: the signed distance between underlying and strike, as a
      fraction of the underlying, in the option's favour.  The source divides by
      the underlying price without a guard. */
  function MomentumScore(ltp: real, underlying: real, strike: real, optionType: string): (r: real)
    requires underlying != 0.0
    ensures r in {0.8, 0.6, 0.4, 0.2}
  {
    var distance := if optionType == "CE" then (underlying - strike) / underlying
                    else (strike - underlying) / underlying;
    if distance > 0.02 then 0.8 else if distance > 0.0 then 0.6
    else if distance > -0.02 then 0.4 else 0.2
  }

  /** `analyze_iv`: a middle band of implied volatility scores best. */
  function IvScore(iv: real): (r: real)
    ensures r in {0.3, 0.7, 0.5, 0.2}
  {
    if iv < 15.0 then 0.3 else if iv < 25.0 then 0.7 else if iv < 35.0 then 0.5 else 0.2
  }

  /** `analyze_spread`: the bid-ask spread as a percentage of the last price. */
  function SpreadScore(bid: real, ask: real, ltp: real): (r: real)
    ensures r in {0.1, 0.9, 0.7, 0.5, 0.2}
    ensures r == 0.1 <==> ask <= bid || ltp == 0.0
  {
    if ask <= bid || ltp == 0.0 then 0.1
    else
      var pct := (ask - bid) / ltp * 100.0;
      if pct < 2.0 then 0.9 else if pct < 5.0 then 0.7 else if pct < 10.0 then 0.5 else 0.2
  }

  /** `analyze_liquidity`: whether both sides of the book are quoted. */
  function LiquidityScore(bid: real, ask: real): (r: real)
    ensures r in {0.1, 0.8, 0.5, 0.2}
    ensures r == 0.8 <==> bid > 0.0 && ask > 0.0
  {
    if bid == 0.0 && ask == 0.0 then 0.1
    else if bid > 0.0 && ask > 0.0 then 0.8
    else if bid > 0.0 || ask > 0.0 then 0.5
    else 0.2
  }

  /** The `params` of one row, with the source's defaults for missing columns
      (0 for open interest, its change, volume and quotes; 20 for IV). */
  function RowScores(row: ChainRow, underlying: real): (s: Scores)
    requires underlying != 0.0
    ensures InUnit(s)
  {
    Scores(
      DeltaScore(row.delta, row.optionType),
      OiScore(row.oiChange.GetOr(0.0), row.oi.GetOr(0.0)),
      VolumeScore(row.volume.GetOr(0.0), row.oi.GetOr(0.0)),
      MomentumScore(row.ltp, underlying, row.strike, row.optionType),
      IvScore(row.iv.GetOr(20.0)),
      SpreadScore(row.bid.GetOr(0.0), row.ask.GetOr(0.0), row.ltp),
      LiquidityScore(row.bid.GetOr(0.0), row.ask.GetOr(0.0)))
  }

  lemma DivideMonotone(a: real, b: real, c: real)
    requires c > 0.0 && a <= b
    ensures a / c <= b / c
  {
    assert b / c - a / c == (b - a) / c;
  }

  /** For a fixed last price, a wider valid spread never scores higher. */
  lemma SpreadScoreMonotone(bid1: real, ask1: real, bid2: real, ask2: real, ltp: real)
    requires bid1 < ask1 && bid2 < ask2 && ltp > 0.0
    requires ask1 - bid1 <= ask2 - bid2
    ensures SpreadScore(bid1, ask1, ltp) >= SpreadScore(bid2, ask2, ltp)
  {
    DivideMonotone(ask1 - bid1, ask2 - bid2, ltp);
  }

  /** For positive open interest, more volume never scores lower. */
  lemma VolumeScoreMonotone(v1: real, v2: real, oi: real)
    requires oi > 0.0 && v1 <= v2
    ensures VolumeScore(v1, oi) <= VolumeScore(v2, oi)
  {
    DivideMonotone(v1, v2, oi);
  }

  /** A call's delta score rises with delta; a put scores by magnitude, so a
      call and a put with opposite deltas score alike and a negative call
      delta scores lowest. */
  lemma DeltaScoreShape(d1: real, d2: real, optionType: string)
    requires d1 <= d2
    ensures DeltaScore(d1, "CE") <= DeltaScore(d2, "CE")
    ensures optionType != "CE" ==> DeltaScore(-d1, optionType) == DeltaScore(d1, optionType)
    ensures optionType != "CE" ==> DeltaScore(d1, optionType) == DeltaScore(Abs(d1), "CE")
    ensures d1 <= 0.0 ==> DeltaScore(d1, "CE") == 0.2
  {
    if optionType != "CE" {
      assert Abs(-d1) == Abs(d1);
    }
  }

  // ------------------------------------------------------- confidence sum

  /** `s.replace(pat, '')`: every occurrence of `pat`, found scanning from the
      left without overlap, removed. */
  function RemoveAll(s: string, pat: string): string
    requires |pat| > 0
    decreases |s|
  {
    if |s| < |pat| then s
    else if s[..|pat|] == pat then RemoveAll(s[|pat|..], pat)
    else [s[0]] + RemoveAll(s[1..], pat)
  }

  /** Removing a pattern from `s + pat` gives back `s` when no character of `s`
      can start the pattern. */
  lemma {:induction false} RemoveAllSuffix(s: string, pat: string)
    requires |pat| > 0
    requires forall i :: 0 <= i < |s| ==> s[i] != pat[0]
    ensures RemoveAll(s + pat, pat) == s
    decreases |s|
  {
    var t := s + pat;
    if s == [] {
      assert t == pat && t[..|pat|] == pat && t[|pat|..] == [];
    } else {
      assert t[..|pat|][0] == s[0];
      assert t[1..] == s[1..] + pat;
      RemoveAllSuffix(s[1..], pat);
      assert [s[0]] + s[1..] == s;
    }
  }

  /** The score names, in the order the `params` dictionary lists them. */
  const ScoreNames: seq<string> := ["delta", "oi", "volume", "momentum", "iv", "spread", "liquidity"]

  /** `f'{name}_score'`. */
  function ScoreKey(name: string): string {
    name + "_score"
  }

  /** The keys of the `params` dictionary. */
  function ScoreKeys(): (keys: seq<string>)
    ensures |keys| == 7
  {
    seq(7, i requires 0 <= i < 7 => ScoreKey(ScoreNames[i]))
  }

  function ScoreAt(s: Scores, i: nat): real
    requires i < 7
  {
    if i == 0 then s.delta else if i == 1 then s.oi else if i == 2 then s.volume
    else if i == 3 then s.momentum else if i == 4 then s.iv else if i == 5 then s.spread
    else s.liquidity
  }

  /** `params[key]` for a key that may be missing. */
  function LookupScore(s: Scores, key: string): (r: Option<real>)
    ensures r.Some? <==> exists i :: 0 <= i < 7 && ScoreKeys()[i] == key
  {
    if key == ScoreKeys()[0] then Some(s.delta)
    else if key == ScoreKeys()[1] then Some(s.oi)
    else if key == ScoreKeys()[2] then Some(s.volume)
    else if key == ScoreKeys()[3] then Some(s.momentum)
    else if key == ScoreKeys()[4] then Some(s.iv)
    else if key == ScoreKeys()[5] then Some(s.spread)
    else if key == ScoreKeys()[6] then Some(s.liquidity)
    else None
  }

  /** The initial `parameter_weights`.  Its names differ from the score names:
      open interest is weighted under `oi_change`. */
  const WeightNames: seq<string> := ["delta", "oi_change", "volume", "momentum", "iv", "spread", "liquidity"]

  const InitialWeights: map<string, real> := map[
    "delta" := 0.25, "oi_change" := 0.20, "volume" := 0.15, "momentum" := 0.15,
    "iv" := 0.10, "spread" := 0.10, "liquidity" := 0.05]

  /** The weight a name receives in the confidence sum; absent names take part with 0. */
  function Weight(w: map<string, real>, name: string): real {
    if name in w then w[name] else 0.0
  }

  /** The confidence terms for the given `params` keys: a key takes part only
      when its name with `_score` removed is a weight name. */
  function ConfidenceOver(s: Scores, w: map<string, real>, keys: seq<string>): real {
    if keys == [] then 0.0
    else
      Contribution(s, w, keys[0]) + ConfidenceOver(s, w, keys[1..])
  }

  /** The term of one key: its score times the weight of its name. */
  function Contribution(s: Scores, w: map<string, real>, key: string): real {
    LookupScore(s, key).GetOr(0.0) * Weight(w, RemoveAll(key, "_score"))
  }

  /** The weighted confidence of one row: the sum over all score keys. */
  function Confidence(s: Scores, w: map<string, real>): real {
    ConfidenceOver(s, w, ScoreKeys())
  }

  /** Stripping `_score` from each key gives back the score name. */
  lemma ScoreKeyNames()
    ensures forall i :: 0 <= i < 7 ==> RemoveAll(ScoreKeys()[i], "_score") == ScoreNames[i]
  {
    forall i | 0 <= i < 7 ensures RemoveAll(ScoreKeys()[i], "_score") == ScoreNames[i] {
      var n := ScoreNames[i];
      assert forall j :: 0 <= j < |n| ==> n[j] != '_';
      RemoveAllSuffix(n, "_score");
    }
  }

  /** The confidence sum written out: each score times the weight of its
      name, absent names weighing 0. */
  function WeightedScores(s: Scores, w: map<string, real>): real {
    s.delta * Weight(w, "delta") + s.oi * Weight(w, "oi") + s.volume * Weight(w, "volume")
    + s.momentum * Weight(w, "momentum") + s.iv * Weight(w, "iv")
    + s.spread * Weight(w, "spread") + s.liquidity * Weight(w, "liquidity")
  }

  /** Stripping `_score` from each key of `params` pairs every score with the
      weight of its own name. */
  lemma ConfidenceFormula(s: Scores, w: map<string, real>)
    ensures Confidence(s, w) == WeightedScores(s, w)
  {
    ConfidenceAsContributions(s, w);
    ContributionsAsProducts(s, w);
  }

  function SumOfContributions(s: Scores, w: map<string, real>): real {
    var k := ScoreKeys();
    Contribution(s, w, k[0]) + Contribution(s, w, k[1]) + Contribution(s, w, k[2])
    + Contribution(s, w, k[3]) + Contribution(s, w, k[4]) + Contribution(s, w, k[5])
    + Contribution(s, w, k[6])
  }

  lemma ConfidenceAsContributions(s: Scores, w: map<string, real>)
    ensures Confidence(s, w) == SumOfContributions(s, w)
  {
    ConfidenceOverTail(s, w, 0);
    var k := ScoreKeys();
    assert ContributionsFrom(s, w, 6) == Contribution(s, w, k[6]);
    assert ContributionsFrom(s, w, 4) == Contribution(s, w, k[4]) + Contribution(s, w, k[5]) + Contribution(s, w, k[6]);
    assert ContributionsFrom(s, w, 2) == Contribution(s, w, k[2]) + Contribution(s, w, k[3]) + ContributionsFrom(s, w, 4);
  }

  lemma ContributionsAsProducts(s: Scores, w: map<string, real>)
    ensures SumOfContributions(s, w) == WeightedScores(s, w)
  {
    var k := ScoreKeys();
    FrontProducts(s, w);
    BackProducts(s, w);
  }

  lemma FrontProducts(s: Scores, w: map<string, real>)
    ensures var k := ScoreKeys();
      Contribution(s, w, k[0]) + Contribution(s, w, k[1]) + Contribution(s, w, k[2])
      == s.delta * Weight(w, "delta") + s.oi * Weight(w, "oi") + s.volume * Weight(w, "volume")
  {
    ScoreNameFacts();
    ContributionAt(s, w, 0);
    ContributionAt(s, w, 1);
    ContributionAt(s, w, 2);
  }

  lemma BackProducts(s: Scores, w: map<string, real>)
    ensures var k := ScoreKeys();
      Contribution(s, w, k[3]) + Contribution(s, w, k[4]) + Contribution(s, w, k[5]) + Contribution(s, w, k[6])
      == s.momentum * Weight(w, "momentum") + s.iv * Weight(w, "iv")
       + s.spread * Weight(w, "spread") + s.liquidity * Weight(w, "liquidity")
  {
    ScoreNameFacts();
    ContributionAt(s, w, 3);
    ContributionAt(s, w, 4);
    ContributionAt(s, w, 5);
    ContributionAt(s, w, 6);
  }

  /** The terms of the score keys from position `i` on. */
  function ContributionsFrom(s: Scores, w: map<string, real>, i: nat): real
    requires i <= 7
    decreases 7 - i
  {
    if i == 7 then 0.0 else Contribution(s, w, ScoreKeys()[i]) + ContributionsFrom(s, w, i + 1)
  }

  lemma {:induction false} ConfidenceOverTail(s: Scores, w: map<string, real>, i: nat)
    requires i <= 7
    ensures ConfidenceOver(s, w, ScoreKeys()[i..]) == ContributionsFrom(s, w, i)
    decreases 7 - i
  {
    var keys := ScoreKeys()[i..];
    if i < 7 {
      assert keys[0] == ScoreKeys()[i];
      assert keys[1..] == ScoreKeys()[i + 1..];
      ConfidenceOverTail(s, w, i + 1);
    }
  }

  lemma ScoreNameFacts()
    ensures ScoreNames[0] == "delta" && ScoreNames[1] == "oi" && ScoreNames[2] == "volume"
    ensures ScoreNames[3] == "momentum" && ScoreNames[4] == "iv" && ScoreNames[5] == "spread"
    ensures ScoreNames[6] == "liquidity"
  {
  }

  lemma ContributionAt(s: Scores, w: map<string, real>, i: nat)
    requires i < 7
    ensures Contribution(s, w, ScoreKeys()[i]) == ScoreAt(s, i) * Weight(w, ScoreNames[i])
  {
    KeyFacts(s, i);
  }

  lemma KeyFacts(s: Scores, i: nat)
    requires i < 7
    ensures RemoveAll(ScoreKeys()[i], "_score") == ScoreNames[i]
    ensures LookupScore(s, ScoreKeys()[i]) == Some(ScoreAt(s, i))
  {
    ScoreKeyNames();
    LookupScoreKeys(s);
  }

  /** Each score key finds its own score. */
  lemma LookupScoreKeys(s: Scores)
    ensures forall i :: 0 <= i < 7 ==> LookupScore(s, ScoreKeys()[i]) == Some(ScoreAt(s, i))
  {
    var k := ScoreKeys();
    assert k[4][0] != k[1][0];
    assert k[5][0] != k[2][0];
    assert LookupScore(s, k[0]) == Some(s.delta);
    assert LookupScore(s, k[1]) == Some(s.oi);
    assert LookupScore(s, k[2]) == Some(s.volume);
    assert LookupScore(s, k[3]) == Some(s.momentum);
    assert LookupScore(s, k[4]) == Some(s.iv);
    assert LookupScore(s, k[5]) == Some(s.spread);
    assert LookupScore(s, k[6]) == Some(s.liquidity);
  }

  /** The open-interest score looks up the name `oi`, which is not a weight
      name, so with weights over the weight names the OI score has no effect
      on confidence. */
  lemma ConfidenceIgnoresOi(s: Scores, w: map<string, real>, x: real)
    requires forall n :: n in w ==> n in WeightNames
    ensures Confidence(s.(oi := x), w) == Confidence(s, w)
  {
    OiIsNoWeightName();
    assert "oi" !in w;
    var t := s.(oi := x);
    assert WeightedScores(t, w) == WeightedScores(s, w);
    ConfidenceFormula(s, w);
    ConfidenceFormula(t, w);
  }

  lemma OiIsNoWeightName()
    ensures "oi" !in WeightNames
  {
    assert "oi"[0] != "iv"[0];
    forall i | 0 <= i < |WeightNames| ensures WeightNames[i] != "oi" {
      if i == 4 {
        assert WeightNames[i][0] != "oi"[0];
      } else {
        assert |WeightNames[i]| != |"oi"|;
      }
    }
  }

  /** Under the initial weights every row's confidence lies in [0.16, 0.68]:
      the best possible row does not reach 0.7. */
  lemma InitialConfidenceRange(row: ChainRow, underlying: real)
    requires underlying != 0.0
    ensures 0.16 <= Confidence(RowScores(row, underlying), InitialWeights) <= 0.68
  {
    var s := RowScores(row, underlying);
    OiIsNoWeightName();
    ConfidenceFormula(s, InitialWeights);
  }

  // ---------------------------------------------------------------- action

  datatype Action = BUY | SELL | HOLD

  function ActionName(a: Action): string {
    match a
    case BUY => "BUY"
    case SELL => "SELL"
    case HOLD => "HOLD"
  }

  predicate StrongBuy(p: Scores) {
    p.delta > 0.7 && p.oi > 0.6 && p.volume > 0.5 && p.momentum > 0.6
  }

  predicate ModerateBuy(p: Scores) {
    p.delta > 0.5 && p.oi > 0.4 && (p.volume > 0.4 || p.momentum > 0.5)
  }

  predicate ExitCondition(p: Scores) {
    p.delta < 0.3 || p.momentum < 0.3 || p.iv < 0.2
  }

  /** `determine_action`; the option type takes no part. */
  function DetermineAction(p: Scores, optionType: string, confidence: real): (a: Action)
    ensures a == BUY <==> StrongBuy(p) || (ModerateBuy(p) && confidence > 0.7)
    ensures a == SELL <==> !(StrongBuy(p) || (ModerateBuy(p) && confidence > 0.7))
                           && ExitCondition(p) && confidence > 0.5
  {
    if StrongBuy(p) || (ModerateBuy(p) && confidence > 0.7) then BUY
    else if ExitCondition(p) && confidence > 0.5 then SELL
    else HOLD
  }

  /** For scored rows the IV clause of the exit condition never fires (the
      lowest IV score is 0.2), so only a weak delta or weak momentum can
      trigger a SELL.  A strong buy needs the top momentum bucket. */
  lemma ActionOnScoredRows(row: ChainRow, underlying: real, confidence: real)
    requires underlying != 0.0
    ensures var p := RowScores(row, underlying);
      && (ExitCondition(p) <==> p.delta < 0.3 || p.momentum < 0.3)
      && (DetermineAction(p, row.optionType, confidence) == SELL ==> p.delta == 0.2 || p.momentum == 0.2)
      && (StrongBuy(p) ==> p.delta == 0.9 && p.momentum == 0.8 && p.oi >= 0.7)
  {
  }

  /** Under the initial weights a BUY always comes from the strong-buy
      condition: the moderate path needs confidence above 0.7. */
  lemma InitialBuyIsStrong(row: ChainRow, underlying: real)
    requires underlying != 0.0
    ensures var p := RowScores(row, underlying);
      DetermineAction(p, row.optionType, Confidence(p, InitialWeights)) == BUY ==> StrongBuy(p)
  {
    InitialConfidenceRange(row, underlying);
  }

  // ------------------------------------------------------------- reasoning

  function Remark(score: real, strong: string, weak: string): seq<string> {
    if score > 0.7 then [strong] else if score < 0.3 then [weak] else []
  }

  /** The list `generate_reasoning` builds: one remark per strong (> 0.7) or
      weak (< 0.3) score among delta, OI, volume, momentum, IV and spread. */
  function Reasons(p: Scores): (r: seq<string>)
    ensures |r| <= 6
    ensures "Strong Delta indicating good directional bias" in r <==> p.delta > 0.7
    ensures "Weak Delta suggesting limited directional exposure" in r <==> p.delta < 0.3
  {
    Remark(p.delta, "Strong Delta indicating good directional bias",
                    "Weak Delta suggesting limited directional exposure")
    + Remark(p.oi, "Significant OI buildup indicating institutional interest", "Limited OI activity")
    + Remark(p.volume, "High volume confirming market participation",
                       "Low volume suggesting limited interest")
    + Remark(p.momentum, "Favorable price momentum", "Unfavorable price momentum")
    + Remark(p.iv, "Optimal IV levels for entry", "Suboptimal IV levels")
    + Remark(p.spread, "Tight bid-ask spread ensuring good execution", "Wide spread may impact execution")
  }

  /** `sep.join(parts)`. */
  function Join(parts: seq<string>, sep: string): (r: string)
    ensures |parts| == 1 ==> r == parts[0]
  {
    if parts == [] then []
    else if |parts| == 1 then parts[0]
    else parts[0] + sep + Join(parts[1..], sep)
  }

  /** `generate_reasoning`. */
  function Reasoning(p: Scores): (r: string)
    ensures Reasons(p) == [] ==> r == "Mixed signals across parameters"
    ensures Reasons(p) != [] ==> r == Join(Reasons(p), "; ")
  {
    var reasons := Reasons(p);
    if reasons == [] then "Mixed signals across parameters" else Join(reasons, "; ")
  }

  /** Three remarks can never appear for a scored row: the OI and volume
      scores never fall below 0.3 and the IV score never exceeds 0.7. */
  lemma UnreachableRemarks(row: ChainRow, underlying: real)
    requires underlying != 0.0
    ensures var r := Reasons(RowScores(row, underlying));
      && "Limited OI activity" !in r
      && "Low volume suggesting limited interest" !in r
      && "Optimal IV levels for entry" !in r
  {
    var p := RowScores(row, underlying);
    assert p.oi >= 0.3 && p.volume >= 0.3 && p.iv <= 0.7;
    LimitedOiAbsent(p);
    LowVolumeAbsent(p);
    OptimalIvAbsent(p);
  }

  lemma LimitedOiAbsent(p: Scores)
    requires p.oi >= 0.3
    ensures "Limited OI activity" !in Reasons(p)
  {
    var x := "Limited OI activity";
    NotInRemark(p.delta, "Strong Delta indicating good directional bias",
                "Weak Delta suggesting limited directional exposure", x);
    NotInRemark(p.oi, "Significant OI buildup indicating institutional interest", x, x);
    NotInRemark(p.volume, "High volume confirming market participation", "Low volume suggesting limited interest", x);
    NotInRemark(p.momentum, "Favorable price momentum", "Unfavorable price momentum", x);
    NotInRemark(p.iv, "Optimal IV levels for entry", "Suboptimal IV levels", x);
    NotInRemark(p.spread, "Tight bid-ask spread ensuring good execution", "Wide spread may impact execution", x);
  }

  lemma LowVolumeAbsent(p: Scores)
    requires p.volume >= 0.3
    ensures "Low volume suggesting limited interest" !in Reasons(p)
  {
    var x := "Low volume suggesting limited interest";
    NotInRemark(p.delta, "Strong Delta indicating good directional bias",
                "Weak Delta suggesting limited directional exposure", x);
    NotInRemark(p.oi, "Significant OI buildup indicating institutional interest", "Limited OI activity", x);
    NotInRemark(p.volume, "High volume confirming market participation", x, x);
    NotInRemark(p.momentum, "Favorable price momentum", "Unfavorable price momentum", x);
    NotInRemark(p.iv, "Optimal IV levels for entry", "Suboptimal IV levels", x);
    NotInRemark(p.spread, "Tight bid-ask spread ensuring good execution", "Wide spread may impact execution", x);
  }

  lemma OptimalIvAbsent(p: Scores)
    requires p.iv <= 0.7
    ensures "Optimal IV levels for entry" !in Reasons(p)
  {
    var x := "Optimal IV levels for entry";
    NotInRemark(p.delta, "Strong Delta indicating good directional bias",
                "Weak Delta suggesting limited directional exposure", x);
    NotInRemark(p.oi, "Significant OI buildup indicating institutional interest", "Limited OI activity", x);
    NotInRemark(p.volume, "High volume confirming market participation", "Low volume suggesting limited interest", x);
    NotInRemark(p.momentum, "Favorable price momentum", "Unfavorable price momentum", x);
    NotInRemark(p.iv, x, "Suboptimal IV levels", x);
    NotInRemark(p.spread, "Tight bid-ask spread ensuring good execution", "Wide spread may impact execution", x);
  }

  /** A text is absent from a remark unless it is the strong one and the
      score is above 0.7, or the weak one and the score below 0.3. */
  lemma NotInRemark(score: real, strong: string, weak: string, x: string)
    requires x == strong ==> score <= 0.7
    requires x == weak ==> score >= 0.3
    ensures x !in Remark(score, strong, weak)
  {
  }

  // ---------------------------------------------------------- market hours

  const MarketOpen: int := (9 * 60 + 15) * 60 * 1000000
  const MarketClose: int := (15 * 60 + 30) * 60 * 1000000

  /** Microseconds since midnight. */
  function TimeOfDay(t: DateTime): int {
    ((t.hour * 60 + t.minute) * 60 + t.second) * 1000000 + t.micro
  }

  /** `is_trading_time`: 09:15:00 to 15:30:00 inclusive, Monday to Friday. */
  predicate IsTradingTime(now: DateTime) {
    MarketOpen <= TimeOfDay(now) <= MarketClose && Weekday(now.day) < 5
  }

  /** Within trading time the helpers' session bucket is the regular session,
      but not conversely: the bucket covers the whole minute 15:30 and weekends. */
  lemma TradingTimeIsRegularSession(now: DateTime)
    requires ValidDateTime(now)
    ensures IsTradingTime(now) ==> Helpers.TradingSession(now) == Helpers.Regular
    ensures !IsTradingTime(DateTime(now.day, 15, 30, 0, 1))
    ensures Helpers.TradingSession(DateTime(now.day, 15, 30, 0, 1)) == Helpers.Regular
  {
    if IsTradingTime(now) {
      assert 915 <= now.hour * 100 + now.minute <= 1530;
    }
  }

  // -------------------------------------------------------------- analysis

  /** One value of the `analysis` dictionary, keyed by type and strike. */
  datatype Entry = Entry(
    optionType: string, strike: real, parameters: Scores,
    confidence: real, reasoning: string, row: ChainRow)

  function EntryFor(row: ChainRow, underlying: real, w: map<string, real>): (e: Entry)
    requires underlying != 0.0
    ensures e.optionType == row.optionType && e.strike == row.strike && e.row == row
  {
    var p := RowScores(row, underlying);
    Entry(row.optionType, row.strike, p, Confidence(p, w), Reasoning(p), row)
  }

  predicate SameKey(a: Entry, b: Entry) {
    a.optionType == b.optionType && a.strike == b.strike
  }

  /** The position of the entry with the same key as `e`, or -1. */
  function KeyIndex(es: seq<Entry>, e: Entry): (k: int)
    ensures -1 <= k < |es|
    ensures k >= 0 ==> SameKey(es[k], e)
    ensures k == -1 ==> forall i :: 0 <= i < |es| ==> !SameKey(es[i], e)
  {
    if es == [] then -1
    else if SameKey(es[0], e) then 0
    else
      var k := KeyIndex(es[1..], e);
      assert forall i :: 1 <= i < |es| ==> es[i] == es[1..][i - 1];
      if k == -1 then -1 else k + 1
  }

  /** Dictionary assignment: an existing key keeps its place and takes the new
      value, a new key goes last. */
  function Upsert(es: seq<Entry>, e: Entry): (r: seq<Entry>)
    ensures |r| == |es| || |r| == |es| + 1
  {
    var k := KeyIndex(es, e);
    if k >= 0 then es[k := e] else es + [e]
  }

  /** The analysis entries of the rows, one per row, in chain order. */
  function Entries(chain: seq<ChainRow>, underlying: real, w: map<string, real>): (es: seq<Entry>)
    requires chain == [] || underlying != 0.0
    ensures |es| == |chain|
    ensures forall j :: 0 <= j < |chain| ==> es[j] == EntryFor(chain[j], underlying, w)
  {
    seq(|chain|, j requires 0 <= j < |chain| => EntryFor(chain[j], underlying, w))
  }

  /** Assigning the entries one after another into an initially empty dictionary. */
  function Fold(es: seq<Entry>): seq<Entry> {
    if es == [] then [] else Upsert(Fold(es[..|es| - 1]), es[|es| - 1])
  }

  /** `analyze_market_parameters`: the rows in chain order, later rows with the
      same type and strike overwriting earlier ones. */
  function Analyze(chain: seq<ChainRow>, underlying: real, w: map<string, real>): seq<Entry>
    requires chain == [] || underlying != 0.0
  {
    Fold(Entries(chain, underlying, w))
  }

  predicate DistinctKeys(es: seq<Entry>) {
    forall i, j :: 0 <= i < j < |es| ==> !SameKey(es[i], es[j])
  }

  lemma UpsertDistinct(es: seq<Entry>, e: Entry)
    requires DistinctKeys(es)
    ensures DistinctKeys(Upsert(es, e))
  {
  }

  /** After an assignment the new entry is present, and every other entry is
      an old one with a different key; old entries with other keys stay. */
  lemma UpsertContents(es: seq<Entry>, e: Entry)
    requires DistinctKeys(es)
    ensures e in Upsert(es, e)
    ensures forall x :: x in Upsert(es, e) ==> x == e || (x in es && !SameKey(x, e))
    ensures forall x :: x in es && !SameKey(x, e) ==> x in Upsert(es, e)
  {
    var k := KeyIndex(es, e);
    var r := Upsert(es, e);
    if k >= 0 {
      assert r[k] == e;
      forall x | x in r ensures x == e || (x in es && !SameKey(x, e)) {
        var i :| 0 <= i < |r| && r[i] == x;
        if i != k {
          assert x == es[i];
          assert !SameKey(es[i], es[k]) || !SameKey(es[k], es[i]);
        }
      }
      forall x | x in es && !SameKey(x, e) ensures x in r {
        var i :| 0 <= i < |es| && es[i] == x;
        assert i != k && r[i] == x;
      }
    } else {
      assert r[|es|] == e;
    }
  }

  lemma {:induction false} FoldDistinct(es: seq<Entry>)
    ensures DistinctKeys(Fold(es)) && |Fold(es)| <= |es|
  {
    if es != [] {
      FoldDistinct(es[..|es| - 1]);
      UpsertDistinct(Fold(es[..|es| - 1]), es[|es| - 1]);
    }
  }

  /** Every entry of the result is the last of the assigned entries with its key. */
  lemma {:induction false} FoldLastWins(es: seq<Entry>)
    ensures forall x :: x in Fold(es) ==>
      exists j :: 0 <= j < |es| && x == es[j] && forall k :: j < k < |es| ==> !SameKey(es[k], x)
  {
    if es != [] {
      var n := |es| - 1;
      var pre := es[..n];
      FoldLastWins(pre);
      FoldDistinct(pre);
      UpsertContents(Fold(pre), es[n]);
      forall x | x in Fold(es)
        ensures exists j :: 0 <= j < |es| && x == es[j] && forall k :: j < k < |es| ==> !SameKey(es[k], x)
      {
        if x == es[n] {
          assert x == es[n];
        } else {
          assert x in Fold(pre) && !SameKey(x, es[n]);
          var j :| 0 <= j < |pre| && x == pre[j] && forall k :: j < k < |pre| ==> !SameKey(pre[k], x);
          assert es[j] == pre[j];
          forall k | j < k < |es| ensures !SameKey(es[k], x) {
            if k < n {
              assert pre[k] == es[k];
            }
          }
        }
      }
    }
  }

  /** Every assigned key is present in the result. */
  predicate HasKeyOf(a: seq<Entry>, e: Entry) {
    exists x :: x in a && SameKey(e, x)
  }

  lemma {:induction false} FoldCovers(es: seq<Entry>)
    ensures forall j :: 0 <= j < |es| ==> HasKeyOf(Fold(es), es[j])
  {
    if es != [] {
      var n := |es| - 1;
      var pre := es[..n];
      FoldCovers(pre);
      FoldDistinct(pre);
      UpsertContents(Fold(pre), es[n]);
      assert Fold(es) == Upsert(Fold(pre), es[n]);
      forall j | 0 <= j < |es| ensures HasKeyOf(Fold(es), es[j]) {
        if j == n || SameKey(es[j], es[n]) {
          assert es[n] in Fold(es) && SameKey(es[j], es[n]);
        } else {
          assert pre[j] == es[j];
          assert HasKeyOf(Fold(pre), pre[j]);
          var x :| x in Fold(pre) && SameKey(pre[j], x);
          assert !SameKey(x, es[n]);
          assert x in Fold(es);
        }
      }
    }
  }

  predicate RowHasKey(row: ChainRow, x: Entry) {
    row.optionType == x.optionType && row.strike == x.strike
  }

  /** The analysis has distinct keys and at most one entry per row. */
  lemma AnalyzeDistinct(chain: seq<ChainRow>, underlying: real, w: map<string, real>)
    requires chain == [] || underlying != 0.0
    ensures DistinctKeys(Analyze(chain, underlying, w))
    ensures |Analyze(chain, underlying, w)| <= |chain|
  {
    FoldDistinct(Entries(chain, underlying, w));
  }

  /** Each entry of the analysis is computed from the last row of the chain
      with its type and strike. */
  lemma AnalyzeLastRowWins(chain: seq<ChainRow>, underlying: real, w: map<string, real>)
    requires underlying != 0.0
    ensures forall x :: x in Analyze(chain, underlying, w) ==>
      exists j :: 0 <= j < |chain| && x == EntryFor(chain[j], underlying, w)
                  && forall k :: j < k < |chain| ==> !RowHasKey(chain[k], x)
  {
    var es := Entries(chain, underlying, w);
    FoldLastWins(es);
    assert Analyze(chain, underlying, w) == Fold(es);
    forall x | x in Fold(es)
      ensures exists j :: 0 <= j < |chain| && x == EntryFor(chain[j], underlying, w)
                          && forall k :: j < k < |chain| ==> !RowHasKey(chain[k], x)
    {
      var j :| 0 <= j < |es| && x == es[j] && forall k :: j < k < |es| ==> !SameKey(es[k], x);
      assert x == EntryFor(chain[j], underlying, w);
      forall k | j < k < |chain| ensures !RowHasKey(chain[k], x) {
        assert !SameKey(es[k], x);
        assert es[k].optionType == chain[k].optionType && es[k].strike == chain[k].strike;
      }
    }
  }

  /** Every row's type and strike has an entry in the analysis. */
  lemma AnalyzeCoversRows(chain: seq<ChainRow>, underlying: real, w: map<string, real>)
    requires chain == [] || underlying != 0.0
    ensures forall j :: 0 <= j < |chain| ==> exists x :: x in Analyze(chain, underlying, w) && RowHasKey(chain[j], x)
  {
    var es := Entries(chain, underlying, w);
    FoldCovers(es);
    assert Analyze(chain, underlying, w) == Fold(es);
    forall j | 0 <= j < |chain| ensures exists x :: x in Fold(es) && RowHasKey(chain[j], x) {
      assert HasKeyOf(Fold(es), es[j]);
      var x :| x in Fold(es) && SameKey(es[j], x);
      assert es[j] == EntryFor(chain[j], underlying, w);
      assert RowHasKey(chain[j], x);
    }
  }

  // -------------------------------------------------------------- emission

  /** One element of the list `generate_signals` returns and stores. */
  datatype Signal = Signal(
    id: string, symbol: string, strike: real, optionType: string, action: Action,
    confidence: real, reasoning: string, timestamp: DateTime, price: real,
    parameters: Scores, underlyingPrice: real)

  function SignalConfidence(s: Signal): real {
    s.confidence
  }

  /** An analysis entry becomes a signal when its confidence reaches the
      threshold and the decision table does not say HOLD. */
  predicate Qualifies(e: Entry, threshold: real) {
    e.confidence >= threshold && DetermineAction(e.parameters, e.row.optionType, e.confidence) != HOLD
  }

  function SignalFor(e: Entry, symbol: string, underlying: real, now: DateTime, id: string): Signal {
    Signal(id, symbol, e.row.strike, e.row.optionType,
           DetermineAction(e.parameters, e.row.optionType, e.confidence),
           e.confidence * 100.0, e.reasoning, now, e.row.ltp, e.parameters, underlying)
  }

  /** The signals emitted for the entries, in entry order; the k-th emitted
      signal takes the identifier `ids(k)` (the source draws a fresh UUID). */
  function Emitted(es: seq<Entry>, threshold: real, symbol: string, underlying: real,
                   now: DateTime, ids: nat -> string): (r: seq<Signal>)
    ensures |r| <= |es|
  {
    if es == [] then []
    else
      var prev := Emitted(es[..|es| - 1], threshold, symbol, underlying, now, ids);
      var e := es[|es| - 1];
      if Qualifies(e, threshold) then prev + [SignalFor(e, symbol, underlying, now, ids(|prev|))]
      else prev
  }

  function CountQualifying(es: seq<Entry>, threshold: real): nat {
    if es == [] then 0
    else CountQualifying(es[..|es| - 1], threshold) + (if Qualifies(es[|es| - 1], threshold) then 1 else 0)
  }

  /** Every emitted signal comes from a qualifying entry: it is never HOLD, its
      stored confidence is the raw confidence times 100 and reaches the
      threshold, and exactly one signal is emitted per qualifying entry. */
  lemma {:induction false} EmittedProperties(es: seq<Entry>, threshold: real, symbol: string,
                                             underlying: real, now: DateTime, ids: nat -> string)
    ensures var r := Emitted(es, threshold, symbol, underlying, now, ids);
      && |r| == CountQualifying(es, threshold)
      && forall s :: s in r ==>
           && s.action != HOLD
           && s.confidence / 100.0 >= threshold
           && s.symbol == symbol && s.timestamp == now && s.underlyingPrice == underlying
           && exists e :: e in es && Qualifies(e, threshold) && s.confidence == e.confidence * 100.0
                          && s.strike == e.row.strike && s.optionType == e.row.optionType && s.price == e.row.ltp
  {
    if es != [] {
      var pre := es[..|es| - 1];
      EmittedProperties(pre, threshold, symbol, underlying, now, ids);
      forall e | e in pre ensures e in es {
      }
    }
  }

  /** `signals[-n:]` for a list that may be shorter than `n`. */
  function LastN<T>(s: seq<T>, n: nat): (r: seq<T>)
    ensures |r| == if |s| > n then n else |s|
    ensures |s| <= n ==> r == s
    ensures r == s[|s| - |r|..]
  {
    if |s| > n then s[|s| - n..] else s
  }

  /** `generate_signals` as a function of the old history: the returned list
      and the new history. */
  function GenerateSignalsSpec(history: seq<Signal>, threshold: real, w: map<string, real>,
                               symbol: string, chain: seq<ChainRow>, underlying: real,
                               now: DateTime, ids: nat -> string): (seq<Signal>, seq<Signal>)
    requires chain == [] || underlying != 0.0
  {
    if chain == [] || !IsTradingTime(now) then ([], history)
    else
      var emitted := Emitted(Analyze(chain, underlying, w), threshold, symbol, underlying, now, ids);
      (SortDesc(emitted, SignalConfidence), LastN(history + emitted, 1000))
  }

  /** The returned signals are the emitted ones, none HOLD and each at least
      the threshold, sorted by confidence (largest first, ties in analysis
      order); outside trading time, or for an empty chain, nothing is
      returned. */
  lemma GenerateSignalsOutput(history: seq<Signal>, threshold: real, w: map<string, real>,
                              symbol: string, chain: seq<ChainRow>, underlying: real,
                              now: DateTime, ids: nat -> string)
    requires chain == [] || underlying != 0.0
    ensures var out := GenerateSignalsSpec(history, threshold, w, symbol, chain, underlying, now, ids).0;
      var emitted := Emitted(Analyze(chain, underlying, w), threshold, symbol, underlying, now, ids);
      && (chain == [] || !IsTradingTime(now) ==> out == [])
      && (chain != [] && IsTradingTime(now) ==> multiset(out) == multiset(emitted))
      && (forall s :: s in out ==> s.action != HOLD && s.confidence / 100.0 >= threshold)
      && NonIncreasing(out, SignalConfidence)
      && (chain != [] && IsTradingTime(now) ==>
            forall c :: WithKey(out, SignalConfidence, c) == WithKey(emitted, SignalConfidence, c))
  {
    if chain != [] && IsTradingTime(now) {
      var emitted := Emitted(Analyze(chain, underlying, w), threshold, symbol, underlying, now, ids);
      EmittedProperties(Analyze(chain, underlying, w), threshold, symbol, underlying, now, ids);
      SortDescSorted(emitted, SignalConfidence);
      forall c ensures WithKey(SortDesc(emitted, SignalConfidence), SignalConfidence, c)
                    == WithKey(emitted, SignalConfidence, c) {
        SortDescStable(emitted, SignalConfidence, c);
      }
      var out := SortDesc(emitted, SignalConfidence);
      forall s | s in out ensures s.action != HOLD && s.confidence / 100.0 >= threshold {
        assert s in multiset(emitted);
      }
    }
  }

  /** The new history is the most recent at most 1000 signals of the old
      history followed by the emitted ones; outside trading time, or for an
      empty chain, it is unchanged. */
  lemma GenerateSignalsHistory(history: seq<Signal>, threshold: real, w: map<string, real>,
                               symbol: string, chain: seq<ChainRow>, underlying: real,
                               now: DateTime, ids: nat -> string)
    requires chain == [] || underlying != 0.0
    ensures var h := GenerateSignalsSpec(history, threshold, w, symbol, chain, underlying, now, ids).1;
      var all := history + Emitted(Analyze(chain, underlying, w), threshold, symbol, underlying, now, ids);
      && (chain == [] || !IsTradingTime(now) ==> h == history)
      && (chain != [] && IsTradingTime(now) ==>
            && |h| == (if |all| > 1000 then 1000 else |all|)
            && h == all[|all| - |h|..])
  {
  }

  /** A worked row: a call with delta 0.75, OI change 25% of OI, volume 0.6 of
      OI, the underlying 4% above the strike, IV 20 and a 1% two-sided spread.
      Every component is in its best bucket, the action is BUY, and the
      confidence under the initial weights is 0.68, below 0.7. */
  lemma StrongCallExample()
    ensures var row := ChainRow(24000.0, "CE", 100.0, 0.75, Some(2500.0), Some(10000.0), Some(6000.0),
                                Some(20.0), Some(99.5), Some(100.5));
      var p := RowScores(row, 25000.0);
      && p == Scores(0.9, 0.9, 0.9, 0.8, 0.7, 0.9, 0.8)
      && Confidence(p, InitialWeights) == 0.68
      && DetermineAction(p, "CE", Confidence(p, InitialWeights)) == BUY
  {
    var p := Scores(0.9, 0.9, 0.9, 0.8, 0.7, 0.9, 0.8);
    OiIsNoWeightName();
    ConfidenceFormula(p, InitialWeights);
  }
}
