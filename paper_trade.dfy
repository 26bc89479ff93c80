/** The paper-trading account of `core/paper_trade.py`: a simulated cash balance,
    opening and first-in-first-out closing of option positions, automatic
    stop-loss / take-profit exits and a performance summary.

    The account's state is a `Ledger` value; each operation is a function from
    the old ledger to an outcome and the new one, and the class
    `PaperTradingEngine` performs the same steps on its fields, proved equal to
    those functions. */
module PaperTrade {
  import opened Common
  import opened Calendar
  import Risk
  import opened Stats

  const StartingBalance: real := 100000.0
  const MaxDailyTrades: nat := 5
  const DefaultLotSize: real := 75.0
  const StopLossFactor: real := 0.9
  const TakeProfitFactor: real := 1.2

  /** An order: an engine signal or a hand-made close order. Keys that `dict.get`
      may miss are options; the others the source indexes directly. */
  datatype PaperSignal = PaperSignal(
    id: Option<string>, symbol: string, strike: real, optionType: string, action: string,
    price: Option<real>, quantity: Option<real>, lotSize: Option<real>,
    confidence: real, reasoning: string)

  /** An open position, or a closed one with its exit. */
  datatype Status = Open | Closed(exitPrice: real, exitTime: DateTime, realizedPnl: real)

  datatype PaperPosition = PaperPosition(
    id: string, signalId: Option<string>, symbol: string, strike: real, optionType: string,
    action: string, quantity: real, lotSize: real, entryPrice: real, currentPrice: real,
    entryTime: DateTime, tradeType: string, status: Status, confidence: real,
    reasoning: string, unrealizedPnl: real, stopLoss: real, takeProfit: real)

  datatype RecordAction = OpenRecord | CloseRecord

  /** One line of the trade history. */
  datatype TradeRecord = TradeRecord(
    id: string, positionId: string, symbol: string, strike: real, optionType: string,
    action: RecordAction, quantity: real, price: Option<real>, timestamp: DateTime,
    tradeType: string, confidence: real, reasoning: string, pnl: real)

  datatype Ledger = Ledger(
    portfolioValue: real, availableBalance: real, positions: seq<PaperPosition>,
    tradeHistory: seq<TradeRecord>, dailyPnl: real, totalPnl: real, tradesToday: nat)

  /** The account as the constructor sets it up. */
  const InitialLedger: Ledger := Ledger(StartingBalance, StartingBalance, [], [], 0.0, 0.0, 0)

  datatype Failure =
    | InsufficientBalance(required: real, available: real)
    | DailyLimitReached(limit: nat)
    | NoOpenPosition
    | InvalidAction

  datatype Outcome =
    | Opened(position: PaperPosition)
    | ClosedOut(pnl: real, position: PaperPosition)
    | Failed(failure: Failure)

  // ------------------------------------------------------------ valuations

  /** What a position cost to open, and what it is worth at its current price. */
  function Cost(p: PaperPosition): real {
    p.entryPrice * p.quantity * p.lotSize
  }

  function Value(p: PaperPosition): real {
    p.currentPrice * p.quantity * p.lotSize
  }

  function OpenCostOf(p: PaperPosition): real {
    if p.status.Open? then Cost(p) else 0.0
  }

  function OpenValueOf(p: PaperPosition): real {
    if p.status.Open? then Value(p) else 0.0
  }

  /** Cash tied up in the open positions. */
  function OpenCost(ps: seq<PaperPosition>): real {
    if ps == [] then 0.0 else OpenCost(ps[..|ps| - 1]) + OpenCostOf(ps[|ps| - 1])
  }

  /** The open positions at their current prices. */
  function OpenValue(ps: seq<PaperPosition>): real {
    if ps == [] then 0.0 else OpenValue(ps[..|ps| - 1]) + OpenValueOf(ps[|ps| - 1])
  }

  /** The account keeps its money: cash plus what the open positions cost equals
      the starting balance plus the realised profit. */
  ghost predicate Conserved(l: Ledger, start: real) {
    l.availableBalance + OpenCost(l.positions) == start + l.totalPnl
  }

  lemma {:induction false} OpenCostReplace(ps: seq<PaperPosition>, i: nat, q: PaperPosition)
    requires i < |ps|
    ensures OpenCost(ps[i := q]) == OpenCost(ps) - OpenCostOf(ps[i]) + OpenCostOf(q)
    decreases |ps|
  {
    var n := |ps|;
    if i == n - 1 {
      assert ps[i := q][..n - 1] == ps[..n - 1];
    } else {
      assert ps[i := q][..n - 1] == ps[..n - 1][i := q];
      OpenCostReplace(ps[..n - 1], i, q);
    }
  }

  /** Two lists whose positions tie up the same cash one by one tie up the same
      cash in all. */
  lemma {:induction false} OpenCostPointwise(a: seq<PaperPosition>, b: seq<PaperPosition>)
    requires |a| == |b|
    requires forall i :: 0 <= i < |a| ==> OpenCostOf(a[i]) == OpenCostOf(b[i])
    ensures OpenCost(a) == OpenCost(b)
    decreases |a|
  {
    if a != [] {
      var n := |a|;
      assert forall i :: 0 <= i < n - 1 ==> a[..n - 1][i] == a[i] && b[..n - 1][i] == b[i];
      OpenCostPointwise(a[..n - 1], b[..n - 1]);
    }
  }

  // ------------------------------------------------------------ opening

  function EntryPrice(s: PaperSignal): real { s.price.GetOr(0.0) }
  function OrderQuantity(s: PaperSignal): real { s.quantity.GetOr(1.0) }
  function OrderLotSize(s: PaperSignal): real { s.lotSize.GetOr(DefaultLotSize) }

  function OrderCost(s: PaperSignal): real {
    EntryPrice(s) * OrderQuantity(s) * OrderLotSize(s)
  }

  /** The position `open_position` creates: priced at entry, with a stop 10%
      below and a target 20% above the entry price. */
  function NewPaperPosition(s: PaperSignal, tradeType: string, now: DateTime, positionId: string): (p: PaperPosition)
    ensures p.status.Open? && Cost(p) == OrderCost(s)
    ensures p.stopLoss == 0.9 * p.entryPrice && p.takeProfit == 1.2 * p.entryPrice
  {
    var price := EntryPrice(s);
    PaperPosition(positionId, s.id, s.symbol, s.strike, s.optionType, s.action,
      OrderQuantity(s), OrderLotSize(s), price, price, now, tradeType, Open,
      s.confidence, s.reasoning, 0.0, price * StopLossFactor, price * TakeProfitFactor)
  }

  /** `record_trade`: an OPEN line carries the entry price and no P&L, a CLOSE
      line the exit price and the realised P&L. */
  function RecordOf(p: PaperPosition, action: RecordAction, recordId: string, now: DateTime): TradeRecord {
    var price := if action == OpenRecord then Some(p.entryPrice)
                 else if p.status.Closed? then Some(p.status.exitPrice) else None;
    var pnl := if action == CloseRecord && p.status.Closed? then p.status.realizedPnl else 0.0;
    TradeRecord(recordId, p.id, p.symbol, p.strike, p.optionType, action, p.quantity, price,
      now, p.tradeType, p.confidence, p.reasoning, pnl)
  }

  /** `open_position`: the balance check first, the daily limit (paper trades
      only) second. */
  function OpenOn(l: Ledger, s: PaperSignal, tradeType: string, now: DateTime,
                  positionId: string, recordId: string): (Outcome, Ledger)
  {
    var cost := OrderCost(s);
    if cost > l.availableBalance then
      (Failed(InsufficientBalance(cost, l.availableBalance)), l)
    else if l.tradesToday >= MaxDailyTrades && tradeType == "paper" then
      (Failed(DailyLimitReached(MaxDailyTrades)), l)
    else
      var p := NewPaperPosition(s, tradeType, now, positionId);
      (Opened(p), l.(availableBalance := l.availableBalance - cost,
                     positions := l.positions + [p],
                     tradeHistory := l.tradeHistory + [RecordOf(p, OpenRecord, recordId, now)],
                     tradesToday := if tradeType == "paper" then l.tradesToday + 1 else l.tradesToday))
  }

  lemma OpenProperties(l: Ledger, s: PaperSignal, tradeType: string, now: DateTime,
                       positionId: string, recordId: string)
    ensures var (outcome, l1) := OpenOn(l, s, tradeType, now, positionId, recordId);
      && (outcome.Failed? <==> OrderCost(s) > l.availableBalance
                               || (l.tradesToday >= MaxDailyTrades && tradeType == "paper"))
      && (OrderCost(s) > l.availableBalance ==> outcome.Failed? && outcome.failure.InsufficientBalance?)
      && (outcome.Failed? ==> l1 == l)
      && (outcome.Opened? ==>
            && l1.availableBalance == l.availableBalance - OrderCost(s)
            && l1.positions == l.positions + [outcome.position]
            && outcome.position.status.Open?
            && outcome.position.entryPrice == outcome.position.currentPrice == EntryPrice(s)
            && outcome.position.stopLoss == 0.9 * EntryPrice(s)
            && outcome.position.takeProfit == 1.2 * EntryPrice(s)
            && |l1.tradeHistory| == |l.tradeHistory| + 1
            && l1.tradeHistory[..|l.tradeHistory|] == l.tradeHistory
            && l1.tradeHistory[|l.tradeHistory|].action == OpenRecord
            && l1.tradesToday == (if tradeType == "paper" then l.tradesToday + 1 else l.tradesToday)
            && l1.dailyPnl == l.dailyPnl && l1.totalPnl == l.totalPnl
            && l1.portfolioValue == l.portfolioValue)
  {
    var (outcome, l1) := OpenOn(l, s, tradeType, now, positionId, recordId);
    if outcome.Opened? {
      assert l1.tradeHistory[..|l.tradeHistory|] == l.tradeHistory;
    }
  }

  lemma OpenConserves(l: Ledger, s: PaperSignal, tradeType: string, now: DateTime,
                      positionId: string, recordId: string, start: real)
    requires Conserved(l, start)
    ensures Conserved(OpenOn(l, s, tradeType, now, positionId, recordId).1, start)
  {
    var l1 := OpenOn(l, s, tradeType, now, positionId, recordId).1;
    if l1 != l {
      var ps := l1.positions;
      assert ps[..|ps| - 1] == l.positions;
    }
  }

  // ------------------------------------------------------------ closing

  predicate IsOpenMatch(p: PaperPosition, symbol: string, strike: real, optionType: string) {
    p.symbol == symbol && p.strike == strike && p.optionType == optionType && p.status.Open?
  }

  /** The first open position, in list order, with this symbol, strike and type. */
  function FirstOpenMatch(ps: seq<PaperPosition>, symbol: string, strike: real, optionType: string): (r: Option<nat>)
    ensures r.Some? ==> r.value < |ps| && IsOpenMatch(ps[r.value], symbol, strike, optionType)
    ensures r.Some? ==> forall j :: 0 <= j < r.value ==> !IsOpenMatch(ps[j], symbol, strike, optionType)
    ensures r.None? <==> forall j :: 0 <= j < |ps| ==> !IsOpenMatch(ps[j], symbol, strike, optionType)
  {
    if ps == [] then None
    else if IsOpenMatch(ps[0], symbol, strike, optionType) then Some(0)
    else
      match FirstOpenMatch(ps[1..], symbol, strike, optionType)
      case None => None
      case Some(j) => Some(j + 1)
  }

  /** What a position is worth at `price`. */
  function ValueAt(p: PaperPosition, price: real): real {
    price * p.quantity * p.lotSize
  }

  /** Closing the position at index `i` at `exitPrice`. */
  function CloseAt(l: Ledger, i: nat, exitPrice: real, now: DateTime, recordId: string): (Outcome, Ledger)
    requires i < |l.positions|
  {
    var p := l.positions[i];
    var exitValue := ValueAt(p, exitPrice);
    var pnl := exitValue - Cost(p);
    var closed := p.(status := Closed(exitPrice, now, pnl));
    var positions := l.positions[i := closed];
    var balance := l.availableBalance + exitValue;
    (ClosedOut(pnl, closed),
     l.(portfolioValue := balance + OpenValue(positions),
        availableBalance := balance,
        positions := positions,
        tradeHistory := l.tradeHistory + [RecordOf(closed, CloseRecord, recordId, now)],
        dailyPnl := l.dailyPnl + pnl,
        totalPnl := l.totalPnl + pnl))
  }

  /** `close_position`: the first open match is closed at the given price, or
      at its current price when the order has none. */
  function CloseOn(l: Ledger, symbol: string, strike: real, optionType: string,
                   price: Option<real>, now: DateTime, recordId: string): (Outcome, Ledger)
  {
    match FirstOpenMatch(l.positions, symbol, strike, optionType)
    case None => (Failed(NoOpenPosition), l)
    case Some(i) => CloseAt(l, i, price.GetOr(l.positions[i].currentPrice), now, recordId)
  }

  /** The trade's result is the price move times the position's size. */
  lemma PnlIsPriceMove(p: PaperPosition, exitPrice: real)
    ensures ValueAt(p, exitPrice) - Cost(p) == (exitPrice - p.entryPrice) * p.quantity * p.lotSize
  {
  }

  /** Closing fails, and changes nothing, exactly when there is no open
      match; otherwise the first open match is closed at the order's price (its
      current price by default) and the cash, the day's and the total P&L move
      by the trade's result. */
  lemma CloseProperties(l: Ledger, symbol: string, strike: real, optionType: string,
                        price: Option<real>, now: DateTime, recordId: string)
    ensures var (outcome, l1) := CloseOn(l, symbol, strike, optionType, price, now, recordId);
      var m := FirstOpenMatch(l.positions, symbol, strike, optionType);
      && (outcome.Failed? <==> m.None?)
      && (outcome.Failed? ==> outcome.failure == NoOpenPosition && l1 == l)
      && (m.Some? ==>
            var p := l.positions[m.value];
            var exitPrice := price.GetOr(p.currentPrice);
            && outcome.ClosedOut?
            && outcome.pnl == (exitPrice - p.entryPrice) * p.quantity * p.lotSize
            && l1.positions == l.positions[m.value := p.(status := Closed(exitPrice, now, outcome.pnl))]
            && l1.availableBalance == l.availableBalance + exitPrice * p.quantity * p.lotSize
            && l1.dailyPnl == l.dailyPnl + outcome.pnl
            && l1.totalPnl == l.totalPnl + outcome.pnl
            && l1.portfolioValue == l1.availableBalance + OpenValue(l1.positions)
            && l1.tradeHistory == l.tradeHistory + [RecordOf(l1.positions[m.value], CloseRecord, recordId, now)]
            && l1.tradesToday == l.tradesToday)
  {
    var m := FirstOpenMatch(l.positions, symbol, strike, optionType);
    if m.Some? {
      var i := m.value;
      var p := l.positions[i];
      var exitPrice := price.GetOr(p.currentPrice);
      var (outcome, l1) := CloseAt(l, i, exitPrice, now, recordId);
      assert CloseOn(l, symbol, strike, optionType, price, now, recordId) == (outcome, l1);
      PnlIsPriceMove(p, exitPrice);
      assert outcome.pnl == ValueAt(p, exitPrice) - Cost(p);
      assert l1.positions[i] == p.(status := Closed(exitPrice, now, outcome.pnl));
    }
  }

  lemma CloseAtConserves(l: Ledger, i: nat, exitPrice: real, now: DateTime, recordId: string, start: real)
    requires i < |l.positions| && l.positions[i].status.Open? && Conserved(l, start)
    ensures Conserved(CloseAt(l, i, exitPrice, now, recordId).1, start)
  {
    var p := l.positions[i];
    OpenCostReplace(l.positions, i, p.(status := Closed(exitPrice, now, ValueAt(p, exitPrice) - Cost(p))));
  }

  lemma CloseConserves(l: Ledger, symbol: string, strike: real, optionType: string,
                       price: Option<real>, now: DateTime, recordId: string, start: real)
    requires Conserved(l, start)
    ensures Conserved(CloseOn(l, symbol, strike, optionType, price, now, recordId).1, start)
  {
    var m := FirstOpenMatch(l.positions, symbol, strike, optionType);
    if m.Some? {
      var i := m.value;
      CloseAtConserves(l, i, price.GetOr(l.positions[i].currentPrice), now, recordId, start);
    }
  }

  /** `execute_trade`: BUY opens, SELL closes, anything else is refused. */
  function ExecuteOn(l: Ledger, s: PaperSignal, tradeType: string, now: DateTime,
                     positionId: string, recordId: string): (Outcome, Ledger)
  {
    if s.action == "BUY" then OpenOn(l, s, tradeType, now, positionId, recordId)
    else if s.action == "SELL" then CloseOn(l, s.symbol, s.strike, s.optionType, s.price, now, recordId)
    else (Failed(InvalidAction), l)
  }

  lemma ExecuteProperties(l: Ledger, s: PaperSignal, tradeType: string, now: DateTime,
                          positionId: string, recordId: string, start: real)
    ensures var (outcome, l1) := ExecuteOn(l, s, tradeType, now, positionId, recordId);
      && (s.action != "BUY" && s.action != "SELL" ==> outcome == Failed(InvalidAction) && l1 == l)
      && (outcome.Opened? ==> s.action == "BUY")
      && (outcome.ClosedOut? ==> s.action == "SELL")
      && (outcome.Failed? ==> l1 == l)
      && (Conserved(l, start) ==> Conserved(l1, start))
  {
    OpenProperties(l, s, tradeType, now, positionId, recordId);
    CloseProperties(l, s.symbol, s.strike, s.optionType, s.price, now, recordId);
    if Conserved(l, start) {
      OpenConserves(l, s, tradeType, now, positionId, recordId, start);
      CloseConserves(l, s.symbol, s.strike, s.optionType, s.price, now, recordId, start);
    }
  }

  // ------------------------------------------------------------ prices and exits

  /** `update_position_prices` on one position: an open position whose
      "symbol_type_strike" key has a new price takes it and its unrealised P&L. */
  function Repriced(p: PaperPosition, updates: map<Risk.PositionKey, real>): PaperPosition {
    var key := Risk.PositionKey(p.symbol, p.optionType, p.strike);
    if p.status.Open? && key in updates then
      var newPrice := updates[key];
      p.(currentPrice := newPrice, unrealizedPnl := newPrice * p.quantity * p.lotSize - Cost(p))
    else p
  }

  function RepriceAll(ps: seq<PaperPosition>, updates: map<Risk.PositionKey, real>): seq<PaperPosition> {
    seq(|ps|, i requires 0 <= i < |ps| => Repriced(ps[i], updates))
  }

  /** Repricing changes only the current price and unrealised P&L of open
      positions with an update, and so never the cash they tie up. */
  lemma RepriceProperties(ps: seq<PaperPosition>, updates: map<Risk.PositionKey, real>)
    ensures |RepriceAll(ps, updates)| == |ps|
    ensures forall i :: 0 <= i < |ps| ==>
      var q := RepriceAll(ps, updates)[i];
      && q == ps[i].(currentPrice := q.currentPrice, unrealizedPnl := q.unrealizedPnl)
      && (q != ps[i] ==> ps[i].status.Open? && Risk.PositionKey(ps[i].symbol, ps[i].optionType, ps[i].strike) in updates)
      && (q.unrealizedPnl == ps[i].unrealizedPnl || q.unrealizedPnl == (q.currentPrice - q.entryPrice) * q.quantity * q.lotSize)
    ensures OpenCost(RepriceAll(ps, updates)) == OpenCost(ps)
  {
    var r := RepriceAll(ps, updates);
    forall i | 0 <= i < |ps|
      ensures r[i].unrealizedPnl == ps[i].unrealizedPnl
           || r[i].unrealizedPnl == (r[i].currentPrice - r[i].entryPrice) * r[i].quantity * r[i].lotSize
    {
      var p := ps[i];
      assert r[i] == Repriced(p, updates);
      assert r[i].currentPrice * p.quantity * p.lotSize - Cost(p)
          == (r[i].currentPrice - p.entryPrice) * p.quantity * p.lotSize;
    }
    RepriceKeepsCost(ps, updates);
  }

  /** Repricing never changes the cash tied up in open positions. */
  lemma RepriceKeepsCost(ps: seq<PaperPosition>, updates: map<Risk.PositionKey, real>)
    ensures OpenCost(RepriceAll(ps, updates)) == OpenCost(ps)
  {
    OpenCostPointwise(RepriceAll(ps, updates), ps);
  }

  datatype ExitReason = StopLossExit | TakeProfitExit

  /** A position `check_auto_exits` flags, with the price it names for the exit. */
  datatype ExitFlag = ExitFlag(symbol: string, strike: real, optionType: string,
                               reason: ExitReason, exitPrice: real)

  /** The flag an open position raises: at its stop when the price has fallen to
      it, otherwise at its target when the price has risen to it. */
  function FlagOf(p: PaperPosition): Option<ExitFlag> {
    if !p.status.Open? then None
    else if p.currentPrice <= p.stopLoss then Some(ExitFlag(p.symbol, p.strike, p.optionType, StopLossExit, p.stopLoss))
    else if p.currentPrice >= p.takeProfit then Some(ExitFlag(p.symbol, p.strike, p.optionType, TakeProfitExit, p.takeProfit))
    else None
  }

  function FlagsOf(o: Option<ExitFlag>): seq<ExitFlag> {
    if o.Some? then [o.value] else []
  }

  /** The first loop of `check_auto_exits`: the flags, in position order. */
  function ExitFlags(ps: seq<PaperPosition>): (r: seq<ExitFlag>)
    ensures |r| <= |ps|
  {
    if ps == [] then [] else ExitFlags(ps[..|ps| - 1]) + FlagsOf(FlagOf(ps[|ps| - 1]))
  }

  /** Every flag comes from an open position at or beyond one of its levels,
      and every such position raises one. */
  lemma {:induction false} ExitFlagsExactly(ps: seq<PaperPosition>)
    ensures forall f :: f in ExitFlags(ps) ==> exists i :: 0 <= i < |ps| && FlagOf(ps[i]) == Some(f)
    ensures forall i :: 0 <= i < |ps| && FlagOf(ps[i]).Some? ==> FlagOf(ps[i]).value in ExitFlags(ps)
  {
    if ps != [] {
      var n := |ps|;
      var init := ps[..n - 1];
      ExitFlagsExactly(init);
      forall f | f in ExitFlags(ps) ensures exists i :: 0 <= i < n && FlagOf(ps[i]) == Some(f) {
        if f in ExitFlags(init) {
          var i :| 0 <= i < |init| && FlagOf(init[i]) == Some(f);
          assert ps[i] == init[i];
        } else {
          assert FlagOf(ps[n - 1]) == Some(f);
        }
      }
      forall i | 0 <= i < n && FlagOf(ps[i]).Some? ensures FlagOf(ps[i]).value in ExitFlags(ps) {
        if i < n - 1 {
          assert ps[i] == init[i];
        }
      }
    }
  }

  /** A flag holds exactly one reason: with a stop below the target, the stop
      exit and the target exit exclude each other. */
  lemma FlagReasons(p: PaperPosition)
    ensures FlagOf(p).Some? <==> p.status.Open? && (p.currentPrice <= p.stopLoss || p.currentPrice >= p.takeProfit)
    ensures FlagOf(p).Some? && FlagOf(p).value.reason == TakeProfitExit ==> p.stopLoss < p.currentPrice
  {
  }

  /** `auto_close_position` for each flag in turn: a close order for the flag's
      symbol, strike and type at the flag's price. */
  function AutoExitsOn(l: Ledger, flags: seq<ExitFlag>, now: DateTime, ids: nat -> string): Ledger {
    if flags == [] then l
    else
      var f := flags[|flags| - 1];
      CloseOn(AutoExitsOn(l, flags[..|flags| - 1], now, ids), f.symbol, f.strike, f.optionType,
              Some(f.exitPrice), now, ids(|flags| - 1)).1
  }

  /** `check_auto_exits`. */
  function CheckAutoExitsOn(l: Ledger, now: DateTime, ids: nat -> string): Ledger {
    AutoExitsOn(l, ExitFlags(l.positions), now, ids)
  }

  lemma {:induction false} AutoExitsConserve(l: Ledger, flags: seq<ExitFlag>, now: DateTime,
                                             ids: nat -> string, start: real)
    requires Conserved(l, start)
    ensures Conserved(AutoExitsOn(l, flags, now, ids), start)
    ensures AutoExitsOn(l, flags, now, ids).tradesToday == l.tradesToday
  {
    if flags != [] {
      var f := flags[|flags| - 1];
      var before := AutoExitsOn(l, flags[..|flags| - 1], now, ids);
      AutoExitsConserve(l, flags[..|flags| - 1], now, ids, start);
      CloseConserves(before, f.symbol, f.strike, f.optionType, Some(f.exitPrice), now, ids(|flags| - 1), start);
      CloseProperties(before, f.symbol, f.strike, f.optionType, Some(f.exitPrice), now, ids(|flags| - 1));
    }
  }

  /** FIFO closing means an automatic exit can close a different position from
      the one that raised the flag: here the second position reaches its stop,
      and the first, which has not, is the one closed. */
  lemma AutoExitClosesFirstMatch(now: DateTime, ids: nat -> string)
    ensures
      var first := PaperPosition("a", None, "NIFTY", 20000.0, "CE", "BUY", 1.0, 75.0, 100.0, 100.0,
                                 now, "paper", Open, 0.7, "", 0.0, 90.0, 120.0);
      var second := first.(id := "b", entryPrice := 200.0, unrealizedPnl := -7500.0,
                           stopLoss := 180.0, takeProfit := 240.0);
      var l := Ledger(StartingBalance, StartingBalance, [first, second], [], 0.0, 0.0, 2);
      var l1 := CheckAutoExitsOn(l, now, ids);
      && |l1.positions| == 2
      && ExitFlags(l.positions) == [ExitFlag("NIFTY", 20000.0, "CE", StopLossExit, 180.0)]
      && l1.positions[0].status.Closed? && l1.positions[0].status.exitPrice == 180.0
      && l1.positions[1] == second
  {
    var first := PaperPosition("a", None, "NIFTY", 20000.0, "CE", "BUY", 1.0, 75.0, 100.0, 100.0,
                               now, "paper", Open, 0.7, "", 0.0, 90.0, 120.0);
    var second := first.(id := "b", entryPrice := 200.0, unrealizedPnl := -7500.0,
                         stopLoss := 180.0, takeProfit := 240.0);
    var ps := [first, second];
    var l := Ledger(StartingBalance, StartingBalance, ps, [], 0.0, 0.0, 2);
    assert ps[..1] == [first] && [first][..0] == [];
    var flag := ExitFlag("NIFTY", 20000.0, "CE", StopLossExit, 180.0);
    assert ExitFlags(ps) == [flag];
    assert [flag][..0] == [];
    assert AutoExitsOn(l, [flag], now, ids) == CloseOn(l, "NIFTY", 20000.0, "CE", Some(180.0), now, ids(0)).1;
    assert FirstOpenMatch(ps, "NIFTY", 20000.0, "CE") == Some(0);
    var closed := first.(status := Closed(180.0, now, 180.0 * 1.0 * 75.0 - Cost(first)));
    assert CloseOn(l, "NIFTY", 20000.0, "CE", Some(180.0), now, ids(0)).1.positions == ps[0 := closed];
  }

  /** `update_position_prices`: reprice, revalue the portfolio, then run the
      automatic exits. */
  function UpdatePricesOn(l: Ledger, updates: map<Risk.PositionKey, real>, now: DateTime,
                          ids: nat -> string): Ledger {
    var positions := RepriceAll(l.positions, updates);
    CheckAutoExitsOn(l.(positions := positions, portfolioValue := l.availableBalance + OpenValue(positions)), now, ids)
  }

  lemma UpdatePricesConserve(l: Ledger, updates: map<Risk.PositionKey, real>, now: DateTime,
                             ids: nat -> string, start: real)
    requires Conserved(l, start)
    ensures Conserved(UpdatePricesOn(l, updates, now, ids), start)
    ensures UpdatePricesOn(l, updates, now, ids).tradesToday == l.tradesToday
  {
    var positions := RepriceAll(l.positions, updates);
    var repriced := l.(positions := positions, portfolioValue := l.availableBalance + OpenValue(positions));
    RepriceProperties(l.positions, updates);
    AutoExitsConserve(repriced, ExitFlags(positions), now, ids, start);
  }

  /** `reset_daily_counters`: only the trade counter and the day's P&L. */
  function ResetOn(l: Ledger): (r: Ledger)
    ensures r.tradesToday == 0 && r.dailyPnl == 0.0
    ensures r.(tradesToday := l.tradesToday, dailyPnl := l.dailyPnl) == l
  {
    l.(tradesToday := 0, dailyPnl := 0.0)
  }

  // ------------------------------------------------------------ today's P&L

  /** `get_daily_pnl`: the sum of the P&L of the CLOSE lines of the trade
      history stamped on day `today`.  It does not read the `daily_pnl` field. */
  function DailyPnlOf(history: seq<TradeRecord>, today: int): real {
    if history == [] then 0.0
    else
      var r := history[|history| - 1];
      DailyPnlOf(history[..|history| - 1], today)
        + (if r.action == CloseRecord && r.timestamp.day == today then r.pnl else 0.0)
  }

  /** The `daily_pnl` field and what `get_daily_pnl` reports are the same. */
  predicate DailyAgrees(l: Ledger, today: int) {
    l.dailyPnl == DailyPnlOf(l.tradeHistory, today)
  }

  lemma DailyPnlAppend(history: seq<TradeRecord>, r: TradeRecord, today: int)
    ensures DailyPnlOf(history + [r], today)
         == DailyPnlOf(history, today) + (if r.action == CloseRecord && r.timestamp.day == today then r.pnl else 0.0)
  {
    assert (history + [r])[..|history|] == history;
  }

  /** Opening adds an OPEN line, which `get_daily_pnl` skips, and leaves
      `daily_pnl` alone. */
  lemma OpenKeepsDailyAgreement(l: Ledger, s: PaperSignal, tradeType: string, now: DateTime,
                                positionId: string, recordId: string)
    requires DailyAgrees(l, now.day)
    ensures DailyAgrees(OpenOn(l, s, tradeType, now, positionId, recordId).1, now.day)
  {
    var (outcome, l1) := OpenOn(l, s, tradeType, now, positionId, recordId);
    if outcome.Opened? {
      DailyPnlAppend(l.tradeHistory, RecordOf(outcome.position, OpenRecord, recordId, now), now.day);
    }
  }

  /** Closing adds a CLOSE line stamped today whose P&L is exactly what is
      added to `daily_pnl`. */
  lemma CloseKeepsDailyAgreement(l: Ledger, symbol: string, strike: real, optionType: string,
                                 price: Option<real>, now: DateTime, recordId: string)
    requires DailyAgrees(l, now.day)
    ensures DailyAgrees(CloseOn(l, symbol, strike, optionType, price, now, recordId).1, now.day)
  {
    var m := FirstOpenMatch(l.positions, symbol, strike, optionType);
    if m.Some? {
      var i := m.value;
      var p := l.positions[i];
      var exitPrice := price.GetOr(p.currentPrice);
      var pnl := ValueAt(p, exitPrice) - Cost(p);
      var closed := p.(status := Closed(exitPrice, now, pnl));
      var l1 := CloseAt(l, i, exitPrice, now, recordId).1;
      assert CloseOn(l, symbol, strike, optionType, price, now, recordId).1 == l1;
      assert RecordOf(closed, CloseRecord, recordId, now).pnl == pnl;
      DailyPnlAppend(l.tradeHistory, RecordOf(closed, CloseRecord, recordId, now), now.day);
    }
  }

  lemma ExecuteKeepsDailyAgreement(l: Ledger, s: PaperSignal, tradeType: string, now: DateTime,
                                   positionId: string, recordId: string)
    requires DailyAgrees(l, now.day)
    ensures DailyAgrees(ExecuteOn(l, s, tradeType, now, positionId, recordId).1, now.day)
  {
    OpenKeepsDailyAgreement(l, s, tradeType, now, positionId, recordId);
    CloseKeepsDailyAgreement(l, s.symbol, s.strike, s.optionType, s.price, now, recordId);
  }

  lemma {:induction false} AutoExitsKeepDailyAgreement(l: Ledger, flags: seq<ExitFlag>, now: DateTime,
                                                       ids: nat -> string)
    requires DailyAgrees(l, now.day)
    ensures DailyAgrees(AutoExitsOn(l, flags, now, ids), now.day)
  {
    if flags != [] {
      var f := flags[|flags| - 1];
      AutoExitsKeepDailyAgreement(l, flags[..|flags| - 1], now, ids);
      CloseKeepsDailyAgreement(AutoExitsOn(l, flags[..|flags| - 1], now, ids), f.symbol, f.strike,
                               f.optionType, Some(f.exitPrice), now, ids(|flags| - 1));
    }
  }

  /** As long as every operation happens on the same day, `daily_pnl` and
      `get_daily_pnl` report the same amount; repricing writes no history. */
  lemma UpdatePricesKeepDailyAgreement(l: Ledger, updates: map<Risk.PositionKey, real>, now: DateTime,
                                       ids: nat -> string)
    requires DailyAgrees(l, now.day)
    ensures DailyAgrees(UpdatePricesOn(l, updates, now, ids), now.day)
  {
    var positions := RepriceAll(l.positions, updates);
    var repriced := l.(positions := positions, portfolioValue := l.availableBalance + OpenValue(positions));
    AutoExitsKeepDailyAgreement(repriced, ExitFlags(positions), now, ids);
  }

  /** A reset clears `daily_pnl` but not the history, so after a profitable
      or losing close earlier the same day the two figures part. */
  lemma ResetSeparatesDailyFigures(l: Ledger, today: int)
    requires DailyPnlOf(l.tradeHistory, today) != 0.0
    ensures ResetOn(l).dailyPnl == 0.0
    ensures DailyPnlOf(ResetOn(l).tradeHistory, today) == DailyPnlOf(l.tradeHistory, today)
    ensures !DailyAgrees(ResetOn(l), today)
  {
  }

  /** Lines stamped on another day do not count towards today's P&L. */
  lemma {:induction false} DailyPnlOfOtherDays(history: seq<TradeRecord>, today: int)
    requires forall k :: 0 <= k < |history| ==> history[k].timestamp.day != today
    ensures DailyPnlOf(history, today) == 0.0
  {
    if history != [] {
      DailyPnlOfOtherDays(history[..|history| - 1], today);
    }
  }

  // ------------------------------------------------------------ performance

  datatype PerformanceSummary = PerformanceSummary(
    totalTrades: nat, winningTrades: nat, losingTrades: nat, winRate: real, totalPnl: real,
    averageWin: real, averageLoss: real, profitFactor: ProfitFactor, maxWin: real, maxLoss: real)

  /** The realised P&L of each closed position, in order. */
  function RealizedPnls(ps: seq<PaperPosition>): (r: seq<real>)
    ensures |r| <= |ps|
  {
    if ps == [] then []
    else (if ps[0].status.Closed? then [ps[0].status.realizedPnl] else []) + RealizedPnls(ps[1..])
  }

  /** `get_performance_summary`; the profit factor is 0 when nothing has
      closed. */
  function PerformanceOf(ps: seq<PaperPosition>, totalPnl: real): PerformanceSummary {
    var pnls := RealizedPnls(ps);
    if pnls == [] then PerformanceSummary(0, 0, 0, 0.0, totalPnl, 0.0, 0.0, Finite(0.0), 0.0, 0.0)
    else
      var wins := Positives(pnls);
      var losses := Negatives(pnls);
      PerformanceSummary(
        |pnls|, |wins|, |losses|, |wins| as real / |pnls| as real * 100.0, totalPnl,
        if wins == [] then 0.0 else Sum(wins) / |wins| as real,
        if losses == [] then 0.0 else Abs(Sum(losses)) / |losses| as real,
        ProfitFactorOf(pnls),
        if wins == [] then 0.0 else MaxOf(wins),
        if losses == [] then 0.0 else MinOf(losses))
  }

  /** The summary's counts and rates: wins and losses among the closed trades,
      a win rate in [0, 100], and an infinite profit factor exactly when there
      are closed trades and none of them lost. */
  lemma PerformanceCounts(ps: seq<PaperPosition>, totalPnl: real)
    ensures var s := PerformanceOf(ps, totalPnl);
      && s.totalTrades == |RealizedPnls(ps)|
      && s.winningTrades + s.losingTrades <= s.totalTrades
      && 0.0 <= s.winRate <= 100.0
      && s.totalPnl == totalPnl
      && (s.profitFactor == Infinite <==> s.totalTrades > 0 && s.losingTrades == 0)
  {
    var pnls := RealizedPnls(ps);
    if pnls != [] {
      SignsPartition(pnls);
      RatioInUnit(|Positives(pnls)|, |pnls|);
      ProfitFactorInfinite(pnls);
    }
  }

  /** The average win is positive and at most the largest win. */
  lemma AverageWinBounds(ps: seq<PaperPosition>, totalPnl: real)
    ensures var s := PerformanceOf(ps, totalPnl);
      s.winningTrades > 0 ==> 0.0 < s.averageWin <= s.maxWin
  {
    var pnls := RealizedPnls(ps);
    var wins := Positives(pnls);
    if pnls != [] && wins != [] {
      var s := PerformanceOf(ps, totalPnl);
      assert s.averageWin == Sum(wins) / |wins| as real && s.maxWin == MaxOf(wins);
      SumOfGains(wins);
      MeanBounds(wins);
    }
  }

  /** The average loss, negated, lies between the deepest loss and zero. */
  lemma AverageLossBounds(ps: seq<PaperPosition>, totalPnl: real)
    ensures var s := PerformanceOf(ps, totalPnl);
      s.losingTrades > 0 ==> s.maxLoss <= -s.averageLoss < 0.0
  {
    var pnls := RealizedPnls(ps);
    var losses := Negatives(pnls);
    if pnls != [] && losses != [] {
      var s := PerformanceOf(ps, totalPnl);
      assert s.averageLoss == Abs(Sum(losses)) / |losses| as real && s.maxLoss == MinOf(losses);
      LossMeanBounds(losses);
    }
  }

  // ------------------------------------------------------------ the engine

  /** The repricing loop of `update_position_prices`: each open position
      with a quote gets the new price and its unrealised P&L. */
  method RepriceLoop(positions: seq<PaperPosition>, updates: map<Risk.PositionKey, real>)
    returns (repriced: seq<PaperPosition>)
    ensures repriced == RepriceAll(positions, updates)
  {
    repriced := positions;
    for i := 0 to |repriced|
      invariant |repriced| == |positions|
      invariant forall k :: 0 <= k < i ==> repriced[k] == Repriced(positions[k], updates)
      invariant forall k :: i <= k < |positions| ==> repriced[k] == positions[k]
    {
      var position := repriced[i];
      if position.status.Open? {
        var key := Risk.PositionKey(position.symbol, position.optionType, position.strike);
        if key in updates {
          var newPrice := updates[key];
          var entryCost := position.entryPrice * position.quantity * position.lotSize;
          var currentValue := newPrice * position.quantity * position.lotSize;
          repriced := repriced[i := position.(currentPrice := newPrice, unrealizedPnl := currentValue - entryCost)];
        }
      }
    }
    assert repriced == RepriceAll(positions, updates);
  }

  class PaperTradingEngine {
    var portfolioValue: real
    var availableBalance: real
    var positions: seq<PaperPosition>
    var tradeHistory: seq<TradeRecord>
    var dailyPnl: real
    var totalPnl: real
    var tradesToday: nat

    function State(): Ledger
      reads this
    {
      Ledger(portfolioValue, availableBalance, positions, tradeHistory, dailyPnl, totalPnl, tradesToday)
    }

    ghost predicate Valid()
      reads this
    {
      Conserved(State(), StartingBalance)
    }

    /** A new account; existing state saved to files is not loaded. */
    constructor ()
      ensures Valid() && State() == InitialLedger
    {
      portfolioValue := StartingBalance;
      availableBalance := StartingBalance;
      positions := [];
      tradeHistory := [];
      dailyPnl := 0.0;
      totalPnl := 0.0;
      tradesToday := 0;
    }

    method RecordTrade(position: PaperPosition, action: RecordAction, recordId: string, now: DateTime)
      modifies this`tradeHistory
      ensures tradeHistory == old(tradeHistory) + [RecordOf(position, action, recordId, now)]
    {
      var price := if action == OpenRecord then Some(position.entryPrice)
                   else if position.status.Closed? then Some(position.status.exitPrice) else None;
      var pnl := if action == CloseRecord && position.status.Closed? then position.status.realizedPnl else 0.0;
      tradeHistory := tradeHistory + [TradeRecord(recordId, position.id, position.symbol, position.strike,
        position.optionType, action, position.quantity, price, now, position.tradeType,
        position.confidence, position.reasoning, pnl)];
    }

    method OpenPosition(s: PaperSignal, tradeType: string, now: DateTime, positionId: string, recordId: string)
      returns (outcome: Outcome)
      requires Valid()
      modifies this`availableBalance, this`positions, this`tradeHistory, this`tradesToday
      ensures Valid()
      ensures (outcome, State()) == OpenOn(old(State()), s, tradeType, now, positionId, recordId)
    {
      OpenConserves(State(), s, tradeType, now, positionId, recordId, StartingBalance);
      var entryPrice := s.price.GetOr(0.0);
      var quantity := s.quantity.GetOr(1.0);
      var lotSize := s.lotSize.GetOr(DefaultLotSize);
      var totalCost := entryPrice * quantity * lotSize;
      if totalCost > availableBalance {
        return Failed(InsufficientBalance(totalCost, availableBalance));
      }
      if tradesToday >= MaxDailyTrades && tradeType == "paper" {
        return Failed(DailyLimitReached(MaxDailyTrades));
      }
      var position := PaperPosition(positionId, s.id, s.symbol, s.strike, s.optionType, s.action,
        quantity, lotSize, entryPrice, entryPrice, now, tradeType, Open, s.confidence, s.reasoning,
        0.0, entryPrice * StopLossFactor, entryPrice * TakeProfitFactor);
      availableBalance := availableBalance - totalCost;
      positions := positions + [position];
      RecordTrade(position, OpenRecord, recordId, now);
      if tradeType == "paper" {
        tradesToday := tradesToday + 1;
      }
      outcome := Opened(position);
    }

    method ClosePosition(symbol: string, strike: real, optionType: string, price: Option<real>,
                         now: DateTime, recordId: string) returns (outcome: Outcome)
      requires Valid()
      modifies this`portfolioValue, this`availableBalance, this`positions, this`tradeHistory,
               this`dailyPnl, this`totalPnl
      ensures Valid()
      ensures (outcome, State()) == CloseOn(old(State()), symbol, strike, optionType, price, now, recordId)
    {
      CloseConserves(State(), symbol, strike, optionType, price, now, recordId, StartingBalance);
      ghost var before := State();
      var found := FirstOpenMatch(positions, symbol, strike, optionType);
      if found.None? {
        return Failed(NoOpenPosition);
      }
      var i := found.value;
      assert found == Some(i);
      var position := positions[i];
      var exitPrice := price.GetOr(position.currentPrice);
      var entryCost := position.entryPrice * position.quantity * position.lotSize;
      var exitValue := exitPrice * position.quantity * position.lotSize;
      var pnl := exitValue - entryCost;
      var closed := position.(status := Closed(exitPrice, now, pnl));
      positions := positions[i := closed];
      availableBalance := availableBalance + exitValue;
      dailyPnl := dailyPnl + pnl;
      totalPnl := totalPnl + pnl;
      portfolioValue := availableBalance + OpenValue(positions);
      RecordTrade(closed, CloseRecord, recordId, now);
      outcome := ClosedOut(pnl, closed);
      ghost var after := CloseAt(before, i, exitPrice, now, recordId);
      assert outcome == after.0;
      assert positions == after.1.positions;
      assert availableBalance == after.1.availableBalance;
      assert portfolioValue == after.1.portfolioValue;
      assert tradeHistory == after.1.tradeHistory;
      assert dailyPnl == after.1.dailyPnl;
      assert totalPnl == after.1.totalPnl;
      assert (outcome, State()) == CloseAt(before, i, exitPrice, now, recordId);
    }

    method ExecuteTrade(s: PaperSignal, tradeType: string, now: DateTime, positionId: string, recordId: string)
      returns (outcome: Outcome)
      requires Valid()
      modifies this`portfolioValue, this`availableBalance, this`positions, this`tradeHistory,
               this`dailyPnl, this`totalPnl, this`tradesToday
      ensures Valid()
      ensures (outcome, State()) == ExecuteOn(old(State()), s, tradeType, now, positionId, recordId)
    {
      if s.action == "BUY" {
        outcome := OpenPosition(s, tradeType, now, positionId, recordId);
      } else if s.action == "SELL" {
        outcome := ClosePosition(s.symbol, s.strike, s.optionType, s.price, now, recordId);
      } else {
        outcome := Failed(InvalidAction);
      }
    }

    /** `auto_close_position`: the flag becomes a SELL order at the flag's price. */
    method AutoClosePosition(flag: ExitFlag, now: DateTime, recordId: string)
      requires Valid()
      modifies this`portfolioValue, this`availableBalance, this`positions, this`tradeHistory,
               this`dailyPnl, this`totalPnl
      ensures Valid()
      ensures State() == CloseOn(old(State()), flag.symbol, flag.strike, flag.optionType,
                                 Some(flag.exitPrice), now, recordId).1
    {
      var _ := ClosePosition(flag.symbol, flag.strike, flag.optionType, Some(flag.exitPrice), now, recordId);
    }

    /** `check_auto_exits`: collect the flags first, then close one order per
        flag; the `k`-th close uses record id `ids(k)`. */
    method CheckAutoExits(now: DateTime, ids: nat -> string)
      requires Valid()
      modifies this`portfolioValue, this`availableBalance, this`positions, this`tradeHistory,
               this`dailyPnl, this`totalPnl
      ensures Valid()
      ensures State() == CheckAutoExitsOn(old(State()), now, ids)
    {
      var flags: seq<ExitFlag> := [];
      for i := 0 to |positions|
        invariant flags == ExitFlags(positions[..i])
      {
        assert positions[..i + 1][..i] == positions[..i];
        var position := positions[i];
        if position.status.Open? {
          if position.currentPrice <= position.stopLoss {
            flags := flags + [ExitFlag(position.symbol, position.strike, position.optionType,
                                       StopLossExit, position.stopLoss)];
          } else if position.currentPrice >= position.takeProfit {
            flags := flags + [ExitFlag(position.symbol, position.strike, position.optionType,
                                       TakeProfitExit, position.takeProfit)];
          }
        }
      }
      assert positions[..|positions|] == positions;
      ghost var start := State();
      for k := 0 to |flags|
        invariant Valid()
        invariant State() == AutoExitsOn(start, flags[..k], now, ids)
      {
        assert flags[..k + 1][..k] == flags[..k];
        AutoClosePosition(flags[k], now, ids(k));
      }
      assert flags[..|flags|] == flags;
    }

    method UpdatePositionPrices(updates: map<Risk.PositionKey, real>, now: DateTime, ids: nat -> string)
      requires Valid()
      modifies this`portfolioValue, this`availableBalance, this`positions, this`tradeHistory,
               this`dailyPnl, this`totalPnl
      ensures Valid()
      ensures State() == UpdatePricesOn(old(State()), updates, now, ids)
    {
      ghost var before := State();
      var repriced := RepriceLoop(positions, updates);
      RepriceKeepsCost(positions, updates);
      positions := repriced;
      portfolioValue := availableBalance + OpenValue(positions);
      assert State() == before.(positions := repriced, portfolioValue := before.availableBalance + OpenValue(repriced));
      CheckAutoExits(now, ids);
    }

    method ResetDailyCounters()
      requires Valid()
      modifies this`tradesToday, this`dailyPnl
      ensures Valid()
      ensures State() == ResetOn(old(State()))
    {
      tradesToday := 0;
      dailyPnl := 0.0;
    }
  }
}
