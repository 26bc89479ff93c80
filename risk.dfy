/** The risk gate of `core/risk.py`: seven independent checks on a proposed
    trade, position sizing, stop-loss and take-profit levels, and a tracked
    list of positions that `RiskManager` adds to, removes from and reprices.
    The limits are the defaults the constructor sets. */
module Risk {
  import opened Common
  import opened Calendar
  import Helpers
  import SignalScoring

  const MaxLossPerTrade: real := 5000.0
  const MaxDailyLoss: real := 15000.0
  const MaxPortfolioRisk: real := 50000.0
  const MaxPositionsPerSymbol: nat := 3
  const MaxTotalPositions: nat := 10
  const StopLossPercent: real := 0.10
  const TakeProfitPercent: real := 0.20
  const PositionSizePercent: real := 0.02
  const MinVolume: real := 1000.0
  const MaxBidAskSpread: real := 0.05
  const MinOpenInterest: real := 5000.0
  const DefaultLotSize: real := 75.0
  const DefaultIv: real := 20.0

  /** The keys of a trade request that the checks read; each may be missing. */
  datatype TradeRequest = TradeRequest(
    symbol: string, strike: real, price: Option<real>, quantity: Option<real>,
    volume: Option<real>, openInterest: Option<real>, bid: Option<real>, ask: Option<real>,
    iv: Option<real>, lotSize: Option<real>)

  /** A tracked position. `current_value` and `delta` are keys the checks and
      the summary read but that `add_position` never writes. */
  datatype Position = Position(
    id: Option<string>, symbol: string, strike: real, optionType: string, quantity: real,
    entryPrice: real, entryTime: DateTime, stopLoss: real, takeProfit: real,
    currentPrice: real, unrealizedPnl: real, status: string,
    currentValue: Option<real>, delta: Option<real>)

  // ------------------------------------------------------------ the checks

  /** `(hour, minute) >= (h, m)` on Python tuples. */
  predicate NotBefore(hour: int, minute: int, h: int, m: int) {
    hour > h || (hour == h && minute >= m)
  }

  /** `(hour, minute) <= (h, m)`. */
  predicate NotAfter(hour: int, minute: int, h: int, m: int) {
    hour < h || (hour == h && minute <= m)
  }

  /** `validate_trading_time`: inside market hours 9:15-15:30, outside the
      no-trade buffers before 9:20 and after 15:15, on a weekday. */
  predicate TimeOk(now: DateTime) {
    && NotBefore(now.hour, now.minute, 9, 15) && NotAfter(now.hour, now.minute, 15, 30)
    && NotBefore(now.hour, now.minute, 9, 20)
    && NotAfter(now.hour, now.minute, 15, 15)
    && Weekday(now.day) < 5
  }

  function CountSymbol(ps: seq<Position>, symbol: string): (n: nat)
    ensures n <= |ps|
  {
    if ps == [] then 0
    else CountSymbol(ps[..|ps| - 1], symbol) + (if ps[|ps| - 1].symbol == symbol then 1 else 0)
  }

  /** `validate_position_limits`: every tracked entry counts, whatever its status. */
  predicate PositionLimitsOk(ps: seq<Position>, symbol: string) {
    CountSymbol(ps, symbol) < MaxPositionsPerSymbol && |ps| < MaxTotalPositions
  }

  function TradeValue(req: TradeRequest): real {
    req.price.GetOr(0.0) * req.quantity.GetOr(1.0)
  }

  function SumCurrentValue(ps: seq<Position>): real {
    if ps == [] then 0.0 else SumCurrentValue(ps[..|ps| - 1]) + ps[|ps| - 1].currentValue.GetOr(0.0)
  }

  /** `validate_risk_limits`. */
  predicate RiskLimitsOk(ps: seq<Position>, req: TradeRequest) {
    TradeValue(req) <= MaxLossPerTrade && SumCurrentValue(ps) + TradeValue(req) <= MaxPortfolioRisk
  }

  /** `validate_daily_loss_limit`: the absolute value, so a large gain also fails. */
  predicate DailyLossOk(dailyPnl: real) {
    Abs(dailyPnl) < MaxDailyLoss
  }

  /** `validate_liquidity`: missing volume or open interest count as 0. */
  predicate LiquidityOk(req: TradeRequest) {
    req.volume.GetOr(0.0) >= MinVolume && req.openInterest.GetOr(0.0) >= MinOpenInterest
  }

  /** `validate_spread`: the spread relative to the price, at most 5%. */
  predicate SpreadOk(req: TradeRequest) {
    var bid := req.bid.GetOr(0.0);
    var ask := req.ask.GetOr(0.0);
    var ltp := req.price.GetOr(0.0);
    if ltp == 0.0 || ask <= bid then false else (ask - bid) / ltp <= MaxBidAskSpread
  }

  /** `validate_volatility`: the implied volatility in percent, 20 when missing. */
  predicate VolatilityOk(req: TradeRequest) {
    var iv := req.iv.GetOr(DefaultIv) / 100.0;
    !(iv > 0.50) && !(iv < 0.05)
  }

  datatype Check = TimeCheck | PositionLimitCheck | RiskLimitCheck | LiquidityCheck
                 | SpreadCheck | VolatilityCheck | DailyLossCheck

  /** The order of `validation_results`. */
  const CheckOrder: seq<Check> :=
    [TimeCheck, PositionLimitCheck, RiskLimitCheck, LiquidityCheck, SpreadCheck, VolatilityCheck, DailyLossCheck]

  predicate Passes(c: Check, ps: seq<Position>, dailyPnl: real, req: TradeRequest, now: DateTime) {
    match c
    case TimeCheck => TimeOk(now)
    case PositionLimitCheck => PositionLimitsOk(ps, req.symbol)
    case RiskLimitCheck => RiskLimitsOk(ps, req)
    case LiquidityCheck => LiquidityOk(req)
    case SpreadCheck => SpreadOk(req)
    case VolatilityCheck => VolatilityOk(req)
    case DailyLossCheck => DailyLossOk(dailyPnl)
  }

  function FailedAmong(cs: seq<Check>, ps: seq<Position>, dailyPnl: real, req: TradeRequest, now: DateTime): (r: seq<Check>)
    ensures forall c :: c in r <==> c in cs && !Passes(c, ps, dailyPnl, req, now)
  {
    if cs == [] then []
    else (if Passes(cs[0], ps, dailyPnl, req, now) then [] else [cs[0]]) + FailedAmong(cs[1..], ps, dailyPnl, req, now)
  }

  /** `failed_checks` of `log_validation`, in check order. */
  function FailedChecks(ps: seq<Position>, dailyPnl: real, req: TradeRequest, now: DateTime): seq<Check> {
    FailedAmong(CheckOrder, ps, dailyPnl, req, now)
  }

  /** `validate_trade`: everything passes while risk management is disabled;
      otherwise all seven checks must pass. */
  predicate TradeAllowed(enabled: bool, ps: seq<Position>, dailyPnl: real, req: TradeRequest, now: DateTime) {
    !enabled
    || (TimeOk(now) && PositionLimitsOk(ps, req.symbol) && RiskLimitsOk(ps, req) && LiquidityOk(req)
        && SpreadOk(req) && VolatilityOk(req) && DailyLossOk(dailyPnl))
  }

  /** A trade is allowed exactly when the gate is off or no check failed, and a
      check is logged as failed exactly when it returned false. */
  lemma TradeAllowedIffNoFailure(enabled: bool, ps: seq<Position>, dailyPnl: real, req: TradeRequest, now: DateTime)
    ensures !enabled ==> TradeAllowed(enabled, ps, dailyPnl, req, now)
    ensures enabled ==> (TradeAllowed(enabled, ps, dailyPnl, req, now) <==> FailedChecks(ps, dailyPnl, req, now) == [])
    ensures forall c :: c in FailedChecks(ps, dailyPnl, req, now) <==> !Passes(c, ps, dailyPnl, req, now)
  {
    var f := FailedChecks(ps, dailyPnl, req, now);
    forall c ensures c in CheckOrder {
      match c
      case TimeCheck => assert CheckOrder[0] == c;
      case PositionLimitCheck => assert CheckOrder[1] == c;
      case RiskLimitCheck => assert CheckOrder[2] == c;
      case LiquidityCheck => assert CheckOrder[3] == c;
      case SpreadCheck => assert CheckOrder[4] == c;
      case VolatilityCheck => assert CheckOrder[5] == c;
      case DailyLossCheck => assert CheckOrder[6] == c;
    }
    if enabled {
      if f == [] {
        assert Passes(TimeCheck, ps, dailyPnl, req, now) && Passes(PositionLimitCheck, ps, dailyPnl, req, now);
        assert Passes(RiskLimitCheck, ps, dailyPnl, req, now) && Passes(LiquidityCheck, ps, dailyPnl, req, now);
        assert Passes(SpreadCheck, ps, dailyPnl, req, now) && Passes(VolatilityCheck, ps, dailyPnl, req, now);
        assert Passes(DailyLossCheck, ps, dailyPnl, req, now);
      } else {
        assert !Passes(f[0], ps, dailyPnl, req, now);
        match f[0]
        case TimeCheck =>
        case PositionLimitCheck =>
        case RiskLimitCheck =>
        case LiquidityCheck =>
        case SpreadCheck =>
        case VolatilityCheck =>
        case DailyLossCheck =>
      }
    }
  }

  /** The time check is the window 9:20-15:15 on a weekday, the buffers being
      inside market hours, and that window lies inside the signal engine's
      trading time. */
  lemma TimeOkWindow(now: DateTime)
    requires ValidDateTime(now)
    ensures TimeOk(now) <==> 920 <= now.hour * 100 + now.minute <= 1515 && Weekday(now.day) < 5
    ensures TimeOk(now) ==> SignalScoring.IsTradingTime(now)
  {
  }

  /** The position limits, with every tracked entry counted. */
  lemma PositionLimitsCount(ps: seq<Position>, symbol: string)
    ensures |ps| >= MaxTotalPositions ==> !PositionLimitsOk(ps, symbol)
    ensures CountSymbol(ps, symbol) == 0 && |ps| < MaxTotalPositions ==> PositionLimitsOk(ps, symbol)
  {
  }

  /** The daily-loss check fails on large gains as well as on large losses. */
  lemma DailyLossSymmetric(dailyPnl: real)
    ensures DailyLossOk(dailyPnl) <==> DailyLossOk(-dailyPnl)
    ensures DailyLossOk(dailyPnl) <==> -MaxDailyLoss < dailyPnl < MaxDailyLoss
  {
  }

  /** The volatility check is the band 5 <= iv <= 50, the default 20 passing. */
  lemma VolatilityBand(req: TradeRequest)
    ensures VolatilityOk(req) <==> 5.0 <= req.iv.GetOr(DefaultIv) <= 50.0
    ensures req.iv.None? ==> VolatilityOk(req)
  {
  }

  /** The spread check: a zero price or a crossed or empty book fails; a
      positive price passes exactly when the spread is at most 5% of it. */
  lemma SpreadBand(req: TradeRequest)
    ensures req.price.GetOr(0.0) == 0.0 || req.ask.GetOr(0.0) <= req.bid.GetOr(0.0) ==> !SpreadOk(req)
    ensures req.price.GetOr(0.0) > 0.0 && req.ask.GetOr(0.0) > req.bid.GetOr(0.0) ==>
              (SpreadOk(req) <==> req.ask.GetOr(0.0) - req.bid.GetOr(0.0) <= MaxBidAskSpread * req.price.GetOr(0.0))
  {
    var ltp := req.price.GetOr(0.0);
    var d := req.ask.GetOr(0.0) - req.bid.GetOr(0.0);
    if ltp > 0.0 && d > 0.0 {
      RatioAtMost(d, ltp, MaxBidAskSpread);
    }
  }

  /** The request the gate sees for a signal of the signal engine: the signal
      has a price but no quantity, volume, open interest, bid, ask, implied
      volatility or lot size. */
  function RequestOf(s: SignalScoring.Signal): TradeRequest {
    TradeRequest(s.symbol, s.strike, Some(s.price), None, None, None, None, None, None, None)
  }

  /** With the gate on, a signal of the signal engine is always rejected: its
      missing volume and open interest fail the liquidity check, and its
      missing bid and ask fail the spread check. */
  lemma EngineSignalsRejected(s: SignalScoring.Signal, ps: seq<Position>, dailyPnl: real, now: DateTime)
    ensures !TradeAllowed(true, ps, dailyPnl, RequestOf(s), now)
    ensures LiquidityCheck in FailedChecks(ps, dailyPnl, RequestOf(s), now)
    ensures SpreadCheck in FailedChecks(ps, dailyPnl, RequestOf(s), now)
  {
    assert CheckOrder[3] == LiquidityCheck && CheckOrder[4] == SpreadCheck;
  }

  // --------------------------------------------------- sizing and levels

  function PricePerLot(req: TradeRequest): real {
    req.price.GetOr(0.0) * req.lotSize.GetOr(DefaultLotSize)
  }

  /** The amount one position may put at risk: 2% of the capital, at most the
      per-trade limit. */
  function RiskBudget(capital: real): real {
    Min(capital * PositionSizePercent, MaxLossPerTrade)
  }

  /** `calculate_position_size`, in lots. */
  function PositionSize(req: TradeRequest, capital: real): (n: int)
    ensures capital <= 0.0 ==> n == 0
    ensures capital > 0.0 ==> n >= 1
    ensures capital > 0.0 && PricePerLot(req) <= 0.0 ==> n == 1
  {
    if capital <= 0.0 then 0
    else
      var pricePerLot := PricePerLot(req);
      if pricePerLot <= 0.0 then 1
      else
        var lots := Trunc(RiskBudget(capital) / pricePerLot);
        if lots >= 1 then lots else 1
  }

  lemma QuotientBounds(n: int, budget: real, unit: real)
    requires unit > 0.0 && n >= 0
    requires n as real <= budget / unit < n as real + 1.0
    ensures n as real * unit <= budget < (n as real + 1.0) * unit
  {
    var x := budget / unit;
    assert x * unit == budget;
    ScaleMonotone(n as real, x, unit);
    ScaleMonotone(x, n as real + 1.0, unit);
    assert n as real * unit <= budget;
    assert budget < (n as real + 1.0) * unit;
  }

  /** With a positive capital and price, the size is the largest number of
      lots whose cost fits the risk budget, but never less than one lot. */
  lemma PositionSizeFitsBudget(req: TradeRequest, capital: real)
    requires capital > 0.0 && PricePerLot(req) > 0.0
    ensures var n := PositionSize(req, capital);
      && (n == 1 || n as real * PricePerLot(req) <= RiskBudget(capital))
      && RiskBudget(capital) < (n as real + 1.0) * PricePerLot(req)
  {
    var unit := PricePerLot(req);
    var budget := RiskBudget(capital);
    var lots := Trunc(budget / unit);
    assert budget > 0.0;
    assert budget / unit > 0.0;
    QuotientBounds(lots, budget, unit);
    if lots < 1 {
      assert lots == 0;
      assert budget < 1.0 * unit;
    }
  }

  /** `calculate_stop_loss`: 10% below the entry, the same for calls and puts. */
  function StopLoss(entryPrice: real, optionType: string): real {
    if Helpers.IsCall(optionType) then entryPrice * (1.0 - StopLossPercent)
    else entryPrice * (1.0 - StopLossPercent)
  }

  /** `calculate_take_profit`: 20% above the entry. */
  function TakeProfit(entryPrice: real, optionType: string): real {
    entryPrice * (1.0 + TakeProfitPercent)
  }

  /** For a positive entry price the stop is below it and the target above,
      whatever the option type. */
  lemma LevelsBracketEntry(entryPrice: real, optionType: string, otherType: string)
    requires entryPrice > 0.0
    ensures StopLoss(entryPrice, optionType) < entryPrice < TakeProfit(entryPrice, optionType)
    ensures StopLoss(entryPrice, optionType) == StopLoss(entryPrice, otherType)
    ensures StopLoss(entryPrice, optionType) == 0.9 * entryPrice
    ensures TakeProfit(entryPrice, optionType) == 1.2 * entryPrice
  {
  }

  // ------------------------------------------------------------- positions

  /** The fields of `trade_data` that `add_position` reads. */
  datatype TradeData = TradeData(
    id: Option<string>, symbol: string, strike: real, optionType: string,
    quantity: Option<real>, entryPrice: real, entryTime: Option<DateTime>)

  /** The position `add_position` appends. */
  function NewPosition(t: TradeData, now: DateTime): (p: Position)
    ensures p.currentPrice == p.entryPrice == t.entryPrice && p.unrealizedPnl == 0.0 && p.status == "open"
    ensures p.currentValue.None? && p.delta.None?
  {
    Position(t.id, t.symbol, t.strike, t.optionType, t.quantity.GetOr(1.0), t.entryPrice,
             t.entryTime.GetOr(now), StopLoss(t.entryPrice, t.optionType),
             TakeProfit(t.entryPrice, t.optionType), t.entryPrice, 0.0, "open", None, None)
  }

  /** `remove_position`: the entries with another identifier, in order. */
  function WithoutId(ps: seq<Position>, id: string): (r: seq<Position>)
    ensures |r| <= |ps|
  {
    if ps == [] then []
    else (if ps[0].id != Some(id) then [ps[0]] else []) + WithoutId(ps[1..], id)
  }

  /** Exactly the entries with another identifier remain. */
  lemma {:induction false} WithoutIdMembers(ps: seq<Position>, id: string)
    ensures forall p :: p in WithoutId(ps, id) <==> p in ps && p.id != Some(id)
  {
    if ps != [] {
      WithoutIdMembers(ps[1..], id);
      assert ps == [ps[0]] + ps[1..];
    }
  }

  /** Removal keeps the order of the rest: it distributes over concatenation. */
  lemma {:induction false} WithoutIdDistributes(a: seq<Position>, b: seq<Position>, id: string)
    ensures WithoutId(a + b, id) == WithoutId(a, id) + WithoutId(b, id)
  {
    if a != [] {
      WithoutIdDistributes(a[1..], b, id);
      assert (a + b)[0] == a[0];
      assert (a + b)[1..] == a[1..] + b;
      var x := if a[0].id != Some(id) then [a[0]] else [];
      assert WithoutId(a + b, id) == x + WithoutId(a[1..] + b, id);
      assert WithoutId(a, id) == x + WithoutId(a[1..], id);
    } else {
      assert a + b == b;
    }
  }

  /** Removal changes nothing when no entry has the identifier, so a second
      removal changes nothing. */
  lemma {:induction false} WithoutIdUnchanged(a: seq<Position>, id: string)
    ensures (forall p :: p in a ==> p.id != Some(id)) ==> WithoutId(a, id) == a
    ensures WithoutId(WithoutId(a, id), id) == WithoutId(a, id)
    decreases |a|
  {
    if a != [] {
      WithoutIdUnchanged(a[1..], id);
      assert a == [a[0]] + a[1..];
    }
    var r := WithoutId(a, id);
    WithoutIdMembers(a, id);
    if r != [] {
      WithoutIdUnchanged(r[1..], id);
      assert r == [r[0]] + r[1..];
      assert r[0] in r;
      forall p | p in r[1..] ensures p in r {
      }
    }
  }

  /** The key `f"{symbol}_{type}_{strike}"` of the price updates. */
  datatype PositionKey = PositionKey(symbol: string, optionType: string, strike: real)

  function KeyOf(p: Position): PositionKey {
    PositionKey(p.symbol, p.optionType, p.strike)
  }

  /** One position after `update_position_prices`. */
  function Repriced(p: Position, updates: map<PositionKey, real>): Position {
    if KeyOf(p) in updates then
      var newPrice := updates[KeyOf(p)];
      p.(currentPrice := newPrice, unrealizedPnl := (newPrice - p.entryPrice) * p.quantity)
    else p
  }

  function RepriceAll(ps: seq<Position>, updates: map<PositionKey, real>): (r: seq<Position>)
    ensures |r| == |ps|
    ensures forall i :: 0 <= i < |ps| ==> r[i] == Repriced(ps[i], updates)
  {
    seq(|ps|, i requires 0 <= i < |ps| => Repriced(ps[i], updates))
  }

  /** Repricing touches only positions whose key has an update, and there only
      the current price and the unrealised profit; repricing twice with the
      same updates is repricing once. */
  lemma RepriceProperties(ps: seq<Position>, updates: map<PositionKey, real>)
    ensures forall i :: 0 <= i < |ps| && KeyOf(ps[i]) !in updates ==> RepriceAll(ps, updates)[i] == ps[i]
    ensures forall i :: 0 <= i < |ps| && KeyOf(ps[i]) in updates ==>
              var q := RepriceAll(ps, updates)[i];
              && q.currentPrice == updates[KeyOf(ps[i])]
              && q.unrealizedPnl == (q.currentPrice - ps[i].entryPrice) * ps[i].quantity
              && q == ps[i].(currentPrice := q.currentPrice, unrealizedPnl := q.unrealizedPnl)
    ensures RepriceAll(RepriceAll(ps, updates), updates) == RepriceAll(ps, updates)
  {
    var once := RepriceAll(ps, updates);
    forall i | 0 <= i < |ps| ensures Repriced(once[i], updates) == once[i] {
      assert KeyOf(once[i]) == KeyOf(ps[i]);
    }
  }

  // ----------------------------------------------------------------- alerts

  datatype AlertKind = StopLossHit | TakeProfitHit

  datatype Alert = Alert(kind: AlertKind, position: Position)

  /** The stop is tested first, so a position yields at most one alert. */
  function AlertFor(p: Position): Option<AlertKind> {
    if p.currentPrice <= p.stopLoss then Some(StopLossHit)
    else if p.currentPrice >= p.takeProfit then Some(TakeProfitHit)
    else None
  }

  /** `check_stop_loss_take_profit` in position order. */
  function AlertsOf(ps: seq<Position>): (r: seq<Alert>)
    ensures |r| <= |ps|
  {
    if ps == [] then []
    else
      var p := ps[|ps| - 1];
      AlertsOf(ps[..|ps| - 1]) + (match AlertFor(p) case Some(k) => [Alert(k, p)] case None => [])
  }

  /** Every alert belongs to a tracked position and names the level it
      crossed: a stop-loss alert has the price at or below the stop, a
      take-profit alert has it above the stop and at or above the target. */
  lemma {:induction false} AlertsSound(ps: seq<Position>)
    ensures forall a :: a in AlertsOf(ps) ==>
      && a.position in ps
      && (a.kind == StopLossHit ==> a.position.currentPrice <= a.position.stopLoss)
      && (a.kind == TakeProfitHit ==>
            a.position.stopLoss < a.position.currentPrice && a.position.currentPrice >= a.position.takeProfit)
  {
    if ps != [] {
      AlertsSound(ps[..|ps| - 1]);
      forall p | p in ps[..|ps| - 1] ensures p in ps {
      }
    }
  }

  /** Every position whose price reached a level gets its alert, and there
      are as many alerts as such positions. */
  function CountAlerting(ps: seq<Position>): nat {
    if ps == [] then 0 else CountAlerting(ps[..|ps| - 1]) + (if AlertFor(ps[|ps| - 1]).Some? then 1 else 0)
  }

  lemma {:induction false} AlertsComplete(ps: seq<Position>)
    ensures |AlertsOf(ps)| == CountAlerting(ps)
    ensures forall p :: p in ps && AlertFor(p).Some? ==> Alert(AlertFor(p).value, p) in AlertsOf(ps)
  {
    if ps != [] {
      var init, last := ps[..|ps| - 1], ps[|ps| - 1];
      AlertsComplete(init);
      assert ps == init + [last];
      forall p | p in ps && AlertFor(p).Some? ensures Alert(AlertFor(p).value, p) in AlertsOf(ps) {
        if p != last {
          assert p in init;
        }
      }
    }
  }

  /** A freshly added position with a positive entry price raises no alert. */
  lemma NewPositionQuiet(t: TradeData, now: DateTime)
    requires t.entryPrice > 0.0
    ensures AlertFor(NewPosition(t, now)).None?
  {
    LevelsBracketEntry(t.entryPrice, t.optionType, t.optionType);
  }

  // -------------------------------------------------------------- summary

  datatype PortfolioSummary = PortfolioSummary(
    totalPositions: nat, totalInvestment: real, unrealizedPnl: real, dailyPnl: real,
    portfolioDelta: real, riskUtilization: real, dailyLossUtilization: real)

  function SumUnrealized(ps: seq<Position>): real {
    if ps == [] then 0.0 else SumUnrealized(ps[..|ps| - 1]) + ps[|ps| - 1].unrealizedPnl
  }

  function SumInvestment(ps: seq<Position>): real {
    if ps == [] then 0.0 else SumInvestment(ps[..|ps| - 1]) + ps[|ps| - 1].entryPrice * ps[|ps| - 1].quantity
  }

  function SumDelta(ps: seq<Position>): real {
    if ps == [] then 0.0 else SumDelta(ps[..|ps| - 1]) + ps[|ps| - 1].delta.GetOr(0.0) * ps[|ps| - 1].quantity
  }

  /** `get_portfolio_summary`. */
  function Summary(ps: seq<Position>, dailyPnl: real): PortfolioSummary {
    var investment := SumInvestment(ps);
    PortfolioSummary(|ps|, investment, SumUnrealized(ps), dailyPnl, SumDelta(ps),
                     investment / MaxPortfolioRisk * 100.0, Abs(dailyPnl) / MaxDailyLoss * 100.0)
  }

  /** Adding a position raises the count by one and the investment by its
      cost, and leaves the unrealised profit and the delta as they were. */
  lemma SummaryAfterAdd(ps: seq<Position>, dailyPnl: real, t: TradeData, now: DateTime)
    ensures var before := Summary(ps, dailyPnl);
      var after := Summary(ps + [NewPosition(t, now)], dailyPnl);
      && after.totalPositions == before.totalPositions + 1
      && after.totalInvestment == before.totalInvestment + t.entryPrice * t.quantity.GetOr(1.0)
      && after.unrealizedPnl == before.unrealizedPnl
      && after.portfolioDelta == before.portfolioDelta
  {
    assert (ps + [NewPosition(t, now)])[..|ps|] == ps;
  }

  /** The daily loss utilisation is below 100 exactly when the daily-loss
      check passes. */
  lemma DailyUtilizationMatchesCheck(ps: seq<Position>, dailyPnl: real)
    ensures Summary(ps, dailyPnl).dailyLossUtilization < 100.0 <==> DailyLossOk(dailyPnl)
  {
  }

  /** Positions as `add_position` creates them carry no current value and no delta. */
  predicate Untouched(ps: seq<Position>) {
    forall i :: 0 <= i < |ps| ==> ps[i].currentValue.None? && ps[i].delta.None?
  }

  /** Over such positions the portfolio value the risk check adds is always 0,
      so the check reduces to the per-trade limit, and the summary delta is 0. */
  lemma {:induction false} UntouchedPortfolio(ps: seq<Position>, req: TradeRequest)
    requires Untouched(ps)
    ensures SumCurrentValue(ps) == 0.0 && SumDelta(ps) == 0.0
    ensures RiskLimitsOk(ps, req) <==> TradeValue(req) <= MaxLossPerTrade
  {
    if ps != [] {
      UntouchedPortfolio(ps[..|ps| - 1], req);
    }
  }

  lemma RepriceKeepsUntouched(ps: seq<Position>, updates: map<PositionKey, real>)
    requires Untouched(ps)
    ensures Untouched(RepriceAll(ps, updates))
  {
  }

  lemma {:induction false} WithoutIdKeepsUntouched(ps: seq<Position>, id: string)
    requires Untouched(ps)
    ensures Untouched(WithoutId(ps, id))
  {
    var r := WithoutId(ps, id);
    WithoutIdMembers(ps, id);
    forall i | 0 <= i < |r| ensures r[i].currentValue.None? && r[i].delta.None? {
      assert r[i] in ps;
    }
  }

  // ---------------------------------------------------------- the manager

  class RiskManager {
    var enabled: bool
    var dailyPnl: real
    var currentPositions: seq<Position>

    /** Every tracked position was created by `add_position`. */
    ghost predicate Valid()
      reads this
    {
      Untouched(currentPositions)
    }

    constructor ()
      ensures Valid()
      ensures enabled && dailyPnl == 0.0 && currentPositions == []
    {
      enabled := true;
      dailyPnl := 0.0;
      currentPositions := [];
    }

    /** `validate_trade`, with the list of failed checks it logs (none while
        the gate is off). */
    method ValidateTrade(req: TradeRequest, now: DateTime) returns (allPassed: bool, failed: seq<Check>)
      ensures allPassed == TradeAllowed(enabled, currentPositions, dailyPnl, req, now)
      ensures failed == (if enabled then FailedChecks(currentPositions, dailyPnl, req, now) else [])
      ensures allPassed <==> failed == []
    {
      if !enabled {
        return true, [];
      }
      TradeAllowedIffNoFailure(enabled, currentPositions, dailyPnl, req, now);
      failed := FailedChecks(currentPositions, dailyPnl, req, now);
      allPassed := TimeOk(now) && PositionLimitsOk(currentPositions, req.symbol)
        && RiskLimitsOk(currentPositions, req) && LiquidityOk(req) && SpreadOk(req)
        && VolatilityOk(req) && DailyLossOk(dailyPnl);
    }

    method AddPosition(t: TradeData, now: DateTime)
      requires Valid()
      modifies this`currentPositions
      ensures Valid()
      ensures currentPositions == old(currentPositions) + [NewPosition(t, now)]
    {
      currentPositions := currentPositions + [NewPosition(t, now)];
    }

    method RemovePosition(positionId: string)
      requires Valid()
      modifies this`currentPositions
      ensures Valid()
      ensures currentPositions == WithoutId(old(currentPositions), positionId)
    {
      WithoutIdKeepsUntouched(currentPositions, positionId);
      currentPositions := WithoutId(currentPositions, positionId);
    }

    /** `update_position_prices`: each position with an update in turn. */
    method UpdatePositionPrices(updates: map<PositionKey, real>)
      requires Valid()
      modifies this`currentPositions
      ensures Valid()
      ensures currentPositions == RepriceAll(old(currentPositions), updates)
    {
      ghost var original := currentPositions;
      for i := 0 to |currentPositions|
        invariant |currentPositions| == |original|
        invariant forall k :: 0 <= k < i ==> currentPositions[k] == Repriced(original[k], updates)
        invariant forall k :: i <= k < |original| ==> currentPositions[k] == original[k]
      {
        var position := currentPositions[i];
        var key := KeyOf(position);
        if key in updates {
          var newPrice := updates[key];
          var pnl := (newPrice - position.entryPrice) * position.quantity;
          currentPositions := currentPositions[i := position.(currentPrice := newPrice, unrealizedPnl := pnl)];
        }
      }
      RepriceKeepsUntouched(original, updates);
    }

    /** `check_stop_loss_take_profit`. */
    method CheckStopLossTakeProfit() returns (alerts: seq<Alert>)
      ensures alerts == AlertsOf(currentPositions)
    {
      alerts := [];
      for i := 0 to |currentPositions|
        invariant alerts == AlertsOf(currentPositions[..i])
      {
        assert currentPositions[..i + 1][..i] == currentPositions[..i];
        var position := currentPositions[i];
        if position.currentPrice <= position.stopLoss {
          alerts := alerts + [Alert(StopLossHit, position)];
        } else if position.currentPrice >= position.takeProfit {
          alerts := alerts + [Alert(TakeProfitHit, position)];
        }
      }
      assert currentPositions[..|currentPositions|] == currentPositions;
    }
  }
}
