/** The exit-signal rule of the dashboard (`app.py`, the "Exit Signals"
    panel): for each open paper position, the first matching row of its
    option chain is scored against five exit conditions, and the position is
    flagged when the combined confidence reaches 0.3. */
module ExitRule {
  import opened Common
  import PaperTrade

  /** The columns of an option-chain row that the rule reads; theta, IV and
      volume are read with a default of 0. */
  datatype QuoteRow = QuoteRow(
    strike: real, optionType: string, ltp: real,
    theta: Option<real>, iv: Option<real>, volume: Option<real>)

  /** A floating-point percentage: the quote is a numpy scalar, so dividing
      by a zero entry price gives an infinity or NaN instead of raising. */
  datatype Percent = Finite(value: real) | PosInfinity | NegInfinity | NaN

  /** IEEE `>=` and `<=` against a number: an infinity compares as the
      extreme value, and NaN compares false. */
  predicate AtLeast(x: Percent, c: real) {
    match x
    case Finite(v) => v >= c
    case PosInfinity => true
    case NegInfinity => false
    case NaN => false
  }

  predicate AtMost(x: Percent, c: real) {
    match x
    case Finite(v) => v <= c
    case PosInfinity => false
    case NegInfinity => true
    case NaN => false
  }

  /** `(current_ltp - entry_price) / entry_price * 100`. A zero entry price
      leaves `current_ltp / 0`: plus or minus infinity by the sign of the
      quote, NaN for a zero quote. */
  function PnlPercent(ltp: real, entry: real): (r: Percent)
    ensures r.Finite? <==> entry != 0.0
    ensures entry == 0.0 ==> (HitsTarget(r) <==> ltp > 0.0) && (HitsStop(r) <==> ltp < 0.0)
  {
    if entry != 0.0 then Finite((ltp - entry) / entry * 100.0)
    else if ltp > 0.0 then PosInfinity
    else if ltp < 0.0 then NegInfinity
    else NaN
  }

  /** For a positive entry price, the 20% profit target is a price 1.2 times
      the entry, and the 10% stop a price 0.9 times the entry. */
  lemma PercentThresholds(ltp: real, entry: real)
    requires entry > 0.0
    ensures HitsTarget(PnlPercent(ltp, entry)) <==> ltp >= 1.2 * entry
    ensures HitsStop(PnlPercent(ltp, entry)) <==> ltp <= 0.9 * entry
  {
    var q := (ltp - entry) / entry;
    var pct := PnlPercent(ltp, entry);
    assert pct == Finite(q * 100.0);
    assert HitsTarget(pct) <==> 0.2 <= q;
    assert HitsStop(pct) <==> q <= -0.1;
    RatioAtLeast(ltp - entry, entry, 0.2);
    RatioAtMost(ltp - entry, entry, -0.1);
  }

  datatype ExitReason =
    | ProfitTarget
    | StopLoss
    | HighTimeDecay(theta: real)
    | LowIv(iv: real)
    | LowLiquidity(volume: real)

  predicate HitsTarget(pct: Percent) { AtLeast(pct, 20.0) }
  predicate HitsStop(pct: Percent) { AtMost(pct, -10.0) }
  predicate HighTheta(row: QuoteRow) { Abs(row.theta.GetOr(0.0)) > 5.0 }
  predicate LowIvRow(row: QuoteRow) { row.iv.GetOr(0.0) < 15.0 }
  predicate LowVolume(row: QuoteRow) { row.volume.GetOr(0.0) < 100.0 }

  /** The reasons that apply, in the order the rule checks them. */
  function Reasons(pct: Percent, row: QuoteRow): seq<ExitReason> {
    (if HitsTarget(pct) then [ProfitTarget] else [])
    + (if HitsStop(pct) then [StopLoss] else [])
    + (if HighTheta(row) then [HighTimeDecay(row.theta.GetOr(0.0))] else [])
    + (if LowIvRow(row) then [LowIv(row.iv.GetOr(0.0))] else [])
    + (if LowVolume(row) then [LowLiquidity(row.volume.GetOr(0.0))] else [])
  }

  function Weight(reason: ExitReason): real {
    match reason
    case ProfitTarget => 0.4
    case StopLoss => 0.5
    case HighTimeDecay(_) => 0.2
    case LowIv(_) => 0.15
    case LowLiquidity(_) => 0.1
  }

  /** The exit confidence: the weights of the reasons that apply. */
  function Confidence(reasons: seq<ExitReason>): real {
    if reasons == [] then 0.0 else Confidence(reasons[..|reasons| - 1]) + Weight(reasons[|reasons| - 1])
  }

  /** A flagged position, with the confidence reported as a percentage. */
  datatype ExitSignal = ExitSignal(
    symbol: string, strike: real, optionType: string, entryPrice: real,
    currentPrice: real, pnl: real, pnlPercent: Percent, quantity: real,
    exitConfidence: real, reasons: seq<ExitReason>, positionId: string)

  /** The unrealised P&L that `get_current_positions` attaches. */
  function PositionPnl(p: PaperTrade.PaperPosition): real {
    PaperTrade.Value(p) - PaperTrade.Cost(p)
  }

  predicate Emits(reasons: seq<ExitReason>) {
    reasons != [] && Confidence(reasons) >= 0.3
  }

  datatype Decision = Flagged(signal: ExitSignal) | NotFlagged

  /** The decision for one position and its chain row. */
  function ExitFor(p: PaperTrade.PaperPosition, row: QuoteRow): Decision {
    var pct := PnlPercent(row.ltp, p.entryPrice);
    var reasons := Reasons(pct, row);
    if Emits(reasons) then
      Flagged(ExitSignal(p.symbol, p.strike, p.optionType, p.entryPrice, row.ltp, PositionPnl(p), pct,
        p.quantity, Confidence(reasons) * 100.0, reasons, p.id))
    else NotFlagged
  }

  // ------------------------------------------------------------ properties

  lemma ConfidencePrefix(reasons: seq<ExitReason>, r: ExitReason)
    ensures Confidence(reasons + [r]) == Confidence(reasons) + Weight(r)
  {
    assert (reasons + [r])[..|reasons|] == reasons;
  }

  /** The confidence adds up the weight of each condition that holds. */
  lemma ConfidenceOfReasons(pct: Percent, row: QuoteRow)
    ensures Confidence(Reasons(pct, row))
         == (if HitsTarget(pct) then 0.4 else 0.0) + (if HitsStop(pct) then 0.5 else 0.0)
          + (if HighTheta(row) then 0.2 else 0.0) + (if LowIvRow(row) then 0.15 else 0.0)
          + (if LowVolume(row) then 0.1 else 0.0)
  {
    var s1 := AppendIf([], HitsTarget(pct), ProfitTarget);
    var s2 := AppendIf(s1, HitsStop(pct), StopLoss);
    var s3 := AppendIf(s2, HighTheta(row), HighTimeDecay(row.theta.GetOr(0.0)));
    var s4 := AppendIf(s3, LowIvRow(row), LowIv(row.iv.GetOr(0.0)));
    var s5 := AppendIf(s4, LowVolume(row), LowLiquidity(row.volume.GetOr(0.0)));
    assert s5 == Reasons(pct, row);
  }

  /** Appending a reason when its condition holds adds its weight, and
      nothing otherwise. */
  lemma AppendIf(front: seq<ExitReason>, cond: bool, r: ExitReason) returns (s: seq<ExitReason>)
    ensures s == front + if cond then [r] else []
    ensures Confidence(s) == Confidence(front) + (if cond then Weight(r) else 0.0)
  {
    if cond {
      s := front + [r];
      ConfidencePrefix(front, r);
    } else {
      s := front;
      assert front + [] == front;
    }
  }

  /** The profit target and the stop cannot both hold, so the confidence
      never exceeds 0.95. */
  lemma TargetAndStopExclusive(pct: Percent)
    ensures !(HitsTarget(pct) && HitsStop(pct))
  {
  }

  lemma ConfidenceBounds(pct: Percent, row: QuoteRow)
    ensures 0.0 <= Confidence(Reasons(pct, row)) <= 0.95
  {
    ConfidenceOfReasons(pct, row);
  }

  /** Every condition met contributes at least 0.1, so a confidence that
      reaches 0.3 always comes with a reason: the emptiness test never
      decides anything. */
  lemma EmitsIffConfident(pct: Percent, row: QuoteRow)
    ensures Emits(Reasons(pct, row)) <==> Confidence(Reasons(pct, row)) >= 0.3
  {
    ConfidenceOfReasons(pct, row);
  }

  /** A position at its profit target or its stop is always flagged. */
  lemma PriceTriggerExits(pct: Percent, row: QuoteRow)
    requires HitsTarget(pct) || HitsStop(pct)
    ensures Emits(Reasons(pct, row))
  {
    ConfidenceOfReasons(pct, row);
  }

  /** Without a price trigger, the position is flagged exactly when high time
      decay comes with low IV or low volume: none of the three conditions on
      its own is enough, nor are low IV and low volume together. */
  lemma NoPriceTriggerExits(pct: Percent, row: QuoteRow)
    requires !HitsTarget(pct) && !HitsStop(pct)
    ensures Emits(Reasons(pct, row)) <==> HighTheta(row) && (LowIvRow(row) || LowVolume(row))
  {
    ConfidenceOfReasons(pct, row);
  }

  /** A position is flagged exactly when its confidence reaches 0.3; a
      flagged position reports a confidence between 30 and 95 per cent and
      carries its reasons. */
  lemma ExitForProperties(p: PaperTrade.PaperPosition, row: QuoteRow)
    ensures var pct := PnlPercent(row.ltp, p.entryPrice);
      && (ExitFor(p, row).Flagged? <==> Confidence(Reasons(pct, row)) >= 0.3)
      && (ExitFor(p, row).Flagged? ==>
            && 30.0 <= ExitFor(p, row).signal.exitConfidence <= 95.0
            && ExitFor(p, row).signal.reasons == Reasons(pct, row) != []
            && ExitFor(p, row).signal.pnlPercent == pct
            && ExitFor(p, row).signal.positionId == p.id
            && ExitFor(p, row).signal.symbol == p.symbol)
  {
    var pct := PnlPercent(row.ltp, p.entryPrice);
    EmitsIffConfident(pct, row);
    ConfidenceBounds(pct, row);
  }

  /** A zero entry price does not stop the rule: a positive quote is an
      infinite gain and always flags a profit-target exit, a negative one an
      infinite loss that flags a stop, and a zero quote (NaN) meets neither
      price condition, leaving the decision to theta, IV and volume. */
  lemma ZeroEntryExits(p: PaperTrade.PaperPosition, row: QuoteRow)
    requires p.entryPrice == 0.0
    ensures row.ltp > 0.0 ==> ExitFor(p, row).Flagged? && ExitFor(p, row).signal.reasons[0] == ProfitTarget
    ensures row.ltp < 0.0 ==> ExitFor(p, row).Flagged? && ExitFor(p, row).signal.reasons[0] == StopLoss
    ensures row.ltp == 0.0 ==>
      (ExitFor(p, row).Flagged? <==> HighTheta(row) && (LowIvRow(row) || LowVolume(row)))
  {
    var pct := PnlPercent(row.ltp, p.entryPrice);
    if row.ltp != 0.0 {
      PriceTriggerExits(pct, row);
    } else {
      NoPriceTriggerExits(pct, row);
    }
  }

  // ----------------------------------------------------------------- panel

  /** `get_current_positions`: the open positions. */
  function CurrentPositions(ps: seq<PaperTrade.PaperPosition>): (r: seq<PaperTrade.PaperPosition>)
    ensures forall p :: p in r <==> p in ps && p.status.Open?
  {
    if ps == [] then []
    else CurrentPositions(ps[..|ps| - 1]) + (if ps[|ps| - 1].status.Open? then [ps[|ps| - 1]] else [])
  }

  /** `row` sits at some index of the chain before which no row has the
      given strike and type. */
  ghost predicate FirstMatchAt(chain: seq<QuoteRow>, strike: real, optionType: string, row: QuoteRow) {
    exists i :: 0 <= i < |chain| && chain[i] == row
      && forall j :: 0 <= j < i ==> !(chain[j].strike == strike && chain[j].optionType == optionType)
  }

  /** The first row of the chain for the position's strike and type. */
  function MatchingRow(chain: seq<QuoteRow>, strike: real, optionType: string): (r: Option<QuoteRow>)
    ensures r.Some? ==> r.value in chain && r.value.strike == strike && r.value.optionType == optionType
    ensures r.None? ==> forall row :: row in chain ==> !(row.strike == strike && row.optionType == optionType)
    ensures r.Some? ==> FirstMatchAt(chain, strike, optionType, r.value)
  {
    if chain == [] then None
    else if chain[0].strike == strike && chain[0].optionType == optionType then Some(chain[0])
    else MatchingRow(chain[1..], strike, optionType)
  }

  /** The row a position is scored against, if its chain lists one. */
  function QuoteFor(p: PaperTrade.PaperPosition, chainFor: string -> seq<QuoteRow>): Option<QuoteRow> {
    MatchingRow(chainFor(p.symbol), p.strike, p.optionType)
  }

  /** The exit signals for a list of open positions, `chainFor` giving the
      option chain fetched for a symbol. */
  function ExitSignalsOf(open: seq<PaperTrade.PaperPosition>, chainFor: string -> seq<QuoteRow>)
    : seq<ExitSignal>
  {
    if open == [] then []
    else
      var p := open[|open| - 1];
      var before := ExitSignalsOf(open[..|open| - 1], chainFor);
      match QuoteFor(p, chainFor)
      case None => before
      case Some(row) =>
        match ExitFor(p, row)
        case NotFlagged => before
        case Flagged(e) => before + [e]
  }

  /** Each signal is a genuine exit decision for one of the positions, at
      most one per position, and every position whose quote flags it has its
      signal in the list, whatever its entry price. */
  lemma ExitSignalsSound(open: seq<PaperTrade.PaperPosition>, chainFor: string -> seq<QuoteRow>)
    ensures var signals := ExitSignalsOf(open, chainFor);
      && |signals| <= |open|
      && forall e :: e in signals ==>
           30.0 <= e.exitConfidence <= 95.0 && e.reasons != []
           && exists p :: p in open && p.id == e.positionId && p.symbol == e.symbol
    ensures forall i :: 0 <= i < |open| && QuoteFor(open[i], chainFor).Some?
                        && ExitFor(open[i], QuoteFor(open[i], chainFor).value).Flagged?
              ==> ExitFor(open[i], QuoteFor(open[i], chainFor).value).signal in ExitSignalsOf(open, chainFor)
  {
    ExitSignalsValid(open, chainFor);
    ExitSignalsComplete(open, chainFor);
  }

  lemma {:induction false} ExitSignalsComplete(open: seq<PaperTrade.PaperPosition>, chainFor: string -> seq<QuoteRow>)
    ensures forall i :: 0 <= i < |open| && QuoteFor(open[i], chainFor).Some?
                        && ExitFor(open[i], QuoteFor(open[i], chainFor).value).Flagged?
              ==> ExitFor(open[i], QuoteFor(open[i], chainFor).value).signal in ExitSignalsOf(open, chainFor)
  {
    if open != [] {
      var init := open[..|open| - 1];
      ExitSignalsComplete(init, chainFor);
      var before := ExitSignalsOf(init, chainFor);
      var signals := ExitSignalsOf(open, chainFor);
      assert forall e :: e in before ==> e in signals;
      forall i | 0 <= i < |open| && QuoteFor(open[i], chainFor).Some?
                 && ExitFor(open[i], QuoteFor(open[i], chainFor).value).Flagged?
        ensures ExitFor(open[i], QuoteFor(open[i], chainFor).value).signal in signals
      {
        if i < |init| {
          assert open[i] == init[i];
        }
      }
    }
  }

  lemma {:induction false} ExitSignalsValid(open: seq<PaperTrade.PaperPosition>, chainFor: string -> seq<QuoteRow>)
    ensures var signals := ExitSignalsOf(open, chainFor);
      && |signals| <= |open|
      && forall e :: e in signals ==>
           30.0 <= e.exitConfidence <= 95.0 && e.reasons != []
           && exists p :: p in open && p.id == e.positionId && p.symbol == e.symbol
  {
    if open != [] {
      var init := open[..|open| - 1];
      var p := open[|open| - 1];
      ExitSignalsValid(init, chainFor);
      var before := ExitSignalsOf(init, chainFor);
      var signals := ExitSignalsOf(open, chainFor);
      if signals != before {
        var row := QuoteFor(p, chainFor).value;
        ExitForProperties(p, row);
        assert signals == before + [ExitFor(p, row).signal];
      }
      forall e | e in signals
        ensures 30.0 <= e.exitConfidence <= 95.0 && e.reasons != []
        ensures exists q :: q in open && q.id == e.positionId && q.symbol == e.symbol
      {
        if e in before {
          var q :| q in init && q.id == e.positionId && q.symbol == e.symbol;
          assert q in open;
        } else {
          assert p in open;
        }
      }
    }
  }

  /** The reasons gathered one condition at a time are `Reasons`. */
  lemma ReasonsInSteps(pct: Percent, row: QuoteRow, a: seq<ExitReason>, b: seq<ExitReason>,
                       c: seq<ExitReason>, d: seq<ExitReason>, e: seq<ExitReason>)
    requires a == if HitsTarget(pct) then [ProfitTarget] else []
    requires b == a + if HitsStop(pct) then [StopLoss] else []
    requires c == b + if HighTheta(row) then [HighTimeDecay(row.theta.GetOr(0.0))] else []
    requires d == c + if LowIvRow(row) then [LowIv(row.iv.GetOr(0.0))] else []
    requires e == d + if LowVolume(row) then [LowLiquidity(row.volume.GetOr(0.0))] else []
    ensures e == Reasons(pct, row)
  {
  }

  /** The flagging for one position. */
  method EvaluateExit(p: PaperTrade.PaperPosition, row: QuoteRow) returns (decision: Decision)
    ensures decision == ExitFor(p, row)
  {
    var currentLtp := row.ltp;
    var entryPrice := p.entryPrice;
    var pnlPercent := PnlPercent(currentLtp, entryPrice);
    var exitReason, exitConfidence := ScoreExit(pnlPercent, row);
    if exitReason != [] && exitConfidence >= 0.3 {
      decision := Flagged(ExitSignal(p.symbol, p.strike, p.optionType, entryPrice, currentLtp,
        PositionPnl(p), pnlPercent, p.quantity, exitConfidence * 100.0, exitReason, p.id));
    } else {
      decision := NotFlagged;
    }
  }

  /** The five checks in turn, each adding its reason and its weight. */
  method ScoreExit(pnlPercent: Percent, row: QuoteRow) returns (exitReason: seq<ExitReason>, exitConfidence: real)
    ensures exitReason == Reasons(pnlPercent, row)
    ensures exitConfidence == Confidence(exitReason)
  {
    exitReason := [];
    exitConfidence := 0.0;
    if AtLeast(pnlPercent, 20.0) {
      exitReason := exitReason + [ProfitTarget];
      exitConfidence := exitConfidence + 0.4;
    }
    ghost var a, wa := exitReason, exitConfidence;
    assert a == if HitsTarget(pnlPercent) then [ProfitTarget] else [];
    assert wa == if HitsTarget(pnlPercent) then 0.4 else 0.0;
    if AtMost(pnlPercent, -10.0) {
      exitReason := exitReason + [StopLoss];
      exitConfidence := exitConfidence + 0.5;
    }
    ghost var b, wb := exitReason, exitConfidence;
    assert b == a + if HitsStop(pnlPercent) then [StopLoss] else [];
    assert wb == wa + if HitsStop(pnlPercent) then 0.5 else 0.0;
    var theta := row.theta.GetOr(0.0);
    if Abs(theta) > 5.0 {
      exitReason := exitReason + [HighTimeDecay(theta)];
      exitConfidence := exitConfidence + 0.2;
    }
    ghost var c, wc := exitReason, exitConfidence;
    assert c == b + if HighTheta(row) then [HighTimeDecay(row.theta.GetOr(0.0))] else [];
    assert wc == wb + if HighTheta(row) then 0.2 else 0.0;
    var iv := row.iv.GetOr(0.0);
    if iv < 15.0 {
      exitReason := exitReason + [LowIv(iv)];
      exitConfidence := exitConfidence + 0.15;
    }
    ghost var d, wd := exitReason, exitConfidence;
    assert d == c + if LowIvRow(row) then [LowIv(row.iv.GetOr(0.0))] else [];
    assert wd == wc + if LowIvRow(row) then 0.15 else 0.0;
    var volume := row.volume.GetOr(0.0);
    if volume < 100.0 {
      exitReason := exitReason + [LowLiquidity(volume)];
      exitConfidence := exitConfidence + 0.1;
    }
    assert exitReason == d + if LowVolume(row) then [LowLiquidity(row.volume.GetOr(0.0))] else [];
    assert exitConfidence == wd + if LowVolume(row) then 0.1 else 0.0;
    ReasonsInSteps(pnlPercent, row, a, b, c, d, exitReason);
    ConfidenceOfReasons(pnlPercent, row);
  }

  /** The panel's loop over the open positions. */
  method ExitSignals(positions: seq<PaperTrade.PaperPosition>, chainFor: string -> seq<QuoteRow>)
    returns (exitSignals: seq<ExitSignal>)
    ensures exitSignals == ExitSignalsOf(CurrentPositions(positions), chainFor)
  {
    var open := CurrentPositions(positions);
    exitSignals := [];
    for i := 0 to |open|
      invariant ExitSignalsOf(open[..i], chainFor) == exitSignals
    {
      assert open[..i + 1][..i] == open[..i];
      var pos := open[i];
      var optionChain := chainFor(pos.symbol);
      if optionChain != [] {
        var matching := MatchingRow(optionChain, pos.strike, pos.optionType);
        if matching.Some? {
          var decision := EvaluateExit(pos, matching.value);
          if decision.Flagged? {
            exitSignals := exitSignals + [decision.signal];
          }
        }
      }
    }
    assert open[..|open|] == open;
  }
}
