/** The live-trading gate of `core/live_trade.py`: an on/off switch in front
    of an abstract broker, and the ordered checks that every live order passes
    before it reaches the broker.  The broker's answer and the risk manager's
    verdict are inputs, as are the clock and the generated ids. */
module LiveTrade {
  import opened Common
  import opened Calendar
  import opened Text

  /** The broker behind the engine, as far as the gate looks at it: its name,
      its `authenticated` flag and its access token. */
  datatype Broker = Broker(name: string, authenticated: bool, accessToken: Option<string>)

  /** `BrokerInterface.is_authenticated`: the flag is set and the token is a
      non-empty string. */
  predicate IsAuthenticated(b: Broker) {
    b.authenticated && b.accessToken.Some? && b.accessToken.value != ""
  }

  /** `self.broker and self.broker.is_authenticated()`. */
  predicate Authenticated(broker: Option<Broker>) {
    broker.Some? && IsAuthenticated(broker.value)
  }

  /** A live signal: the four fields read with `[]`, and the optional ones read
      with `.get` and a default. */
  datatype LiveSignal = LiveSignal(
    symbol: string, strike: real, optionType: string, action: string,
    quantity: Option<real>, price: Option<real>, confidence: Option<real>,
    reasoning: Option<string>)

  /** The order handed to `place_order`.  The strike and the option type are
      optional because a closing order copies them from a position that may
      lack them. */
  datatype OrderParams = OrderParams(
    symbol: string, strike: Option<real>, optionType: Option<string>,
    action: string, quantity: real, orderType: string, product: string,
    exchange: string)

  /** What `place_order` reports: success with the order data (which may lack
      an order id), or failure with the broker's own message. */
  datatype BrokerReply = OrderPlaced(orderId: Option<string>) | OrderFailed(message: string)

  datatype LiveRecord = LiveRecord(
    id: string, orderId: string, symbol: string, strike: real, optionType: string,
    action: string, quantity: real, price: real, timestamp: DateTime,
    tradeType: string, confidence: real, reasoning: string, status: string,
    broker: string)

  datatype Rejection = NotEnabled | NotAuthenticated | RiskRejected | BrokerFailed(reply: BrokerReply)

  datatype TradeResult = Executed(orderId: string, trade: LiveRecord) | TradeRejected(why: Rejection)

  datatype CloseResult = PositionClosed(orderId: Option<string>) | CloseRejected(why: Rejection)

  /** A broker position to be closed; every field is read with a default. */
  datatype LivePosition = LivePosition(
    symbol: string, strike: Option<real>, optionType: Option<string>,
    quantity: Option<real>, product: Option<string>, exchange: Option<string>)

  /** The engine's fields. */
  datatype LiveState = LiveState(broker: Option<Broker>, tradeHistory: seq<LiveRecord>, enabled: bool)

  // ------------------------------------------------------------ the switch

  /** `enable_live_trading`: switches on only with an authenticated broker. */
  function EnableOn(st: LiveState): (bool, LiveState) {
    if !Authenticated(st.broker) then (false, st)
    else (true, st.(enabled := true))
  }

  /** `disable_live_trading`: always succeeds. */
  function DisableOn(st: LiveState): (bool, LiveState) {
    (true, st.(enabled := false))
  }

  /** `is_enabled`: switched on and the broker is still authenticated. */
  predicate IsEnabledIn(st: LiveState) {
    st.enabled && Authenticated(st.broker)
  }

  /** Enabling succeeds exactly when the broker is authenticated; a failure
      leaves the engine as it was, and after a success the engine reports
      itself enabled.  Nothing but the switch ever changes. */
  lemma EnableProperties(st: LiveState)
    ensures EnableOn(st).0 <==> Authenticated(st.broker)
    ensures !EnableOn(st).0 ==> EnableOn(st).1 == st
    ensures EnableOn(st).0 ==> IsEnabledIn(EnableOn(st).1)
    ensures EnableOn(st).1.broker == st.broker && EnableOn(st).1.tradeHistory == st.tradeHistory
  {
  }

  /** After disabling, the engine reports itself disabled whatever the broker. */
  lemma DisableProperties(st: LiveState)
    ensures DisableOn(st).0 && !IsEnabledIn(DisableOn(st).1)
    ensures DisableOn(st).1 == st.(enabled := false)
  {
  }

  // ------------------------------------------------------------ live orders

  /** The market order placed for a signal. */
  function OrderFor(s: LiveSignal): OrderParams {
    OrderParams(s.symbol, Some(s.strike), Some(s.optionType), Upper(s.action),
      s.quantity.GetOr(1.0), "MARKET", "MIS", "NFO")
  }

  /** The record kept for an executed order. */
  function RecordFor(s: LiveSignal, orderId: string, brokerName: string, now: DateTime, recordId: string): LiveRecord {
    LiveRecord(recordId, orderId, s.symbol, s.strike, s.optionType, s.action,
      s.quantity.GetOr(1.0), s.price.GetOr(0.0), now, "live", s.confidence.GetOr(0.0),
      s.reasoning.GetOr(""), "executed", brokerName)
  }

  /** `execute_live_trade`: the result, the order sent to the broker (if any)
      and the new state. */
  function ExecuteOn(st: LiveState, s: LiveSignal, riskApproved: bool, reply: BrokerReply,
                     now: DateTime, recordId: string, fallbackOrderId: string)
    : (TradeResult, Option<OrderParams>, LiveState)
  {
    if !st.enabled then (TradeRejected(NotEnabled), None, st)
    else if !Authenticated(st.broker) then (TradeRejected(NotAuthenticated), None, st)
    else if !riskApproved then (TradeRejected(RiskRejected), None, st)
    else
      match reply
      case OrderFailed(_) => (TradeRejected(BrokerFailed(reply)), Some(OrderFor(s)), st)
      case OrderPlaced(orderId) =>
        var record := RecordFor(s, orderId.GetOr(fallbackOrderId), st.broker.value.name, now, recordId);
        (Executed(record.orderId, record), Some(OrderFor(s)), st.(tradeHistory := st.tradeHistory + [record]))
  }

  /** The checks run in order: switched off, then broker not authenticated,
      then risk rejection; each of them refuses the trade without contacting
      the broker and without changing anything. */
  lemma ExecuteRejectionOrder(st: LiveState, s: LiveSignal, riskApproved: bool, reply: BrokerReply,
                              now: DateTime, recordId: string, fallbackOrderId: string)
    ensures var (result, sent, st') := ExecuteOn(st, s, riskApproved, reply, now, recordId, fallbackOrderId);
      && (!st.enabled ==> result == TradeRejected(NotEnabled))
      && (st.enabled && !Authenticated(st.broker) ==> result == TradeRejected(NotAuthenticated))
      && (st.enabled && Authenticated(st.broker) && !riskApproved ==> result == TradeRejected(RiskRejected))
      && (sent == None <==> !(st.enabled && Authenticated(st.broker) && riskApproved))
      && (sent.Some? ==> sent == Some(OrderFor(s)))
      && (sent == None ==> st' == st)
  {
  }

  /** The history grows by exactly one record when, and only when, the broker
      reports success; that record is a live, executed trade carrying the
      broker's order id (or the fallback id).  On a broker failure the
      broker's answer is what the caller gets back. */
  lemma ExecuteHistory(st: LiveState, s: LiveSignal, riskApproved: bool, reply: BrokerReply,
                       now: DateTime, recordId: string, fallbackOrderId: string)
    ensures var (result, sent, st') := ExecuteOn(st, s, riskApproved, reply, now, recordId, fallbackOrderId);
      && st'.enabled == st.enabled && st'.broker == st.broker
      && (result.Executed? <==> sent.Some? && reply.OrderPlaced?)
      && (result.Executed? ==>
            && st'.tradeHistory == st.tradeHistory + [result.trade]
            && result.trade.tradeType == "live" && result.trade.status == "executed"
            && result.trade.orderId == result.orderId == reply.orderId.GetOr(fallbackOrderId)
            && result.trade.broker == st.broker.value.name)
      && (!result.Executed? ==> st'.tradeHistory == st.tradeHistory)
      && (sent.Some? && reply.OrderFailed? ==> result == TradeRejected(BrokerFailed(reply)))
  {
  }

  /** The order itself: upper-cased action, one lot unless a quantity is given,
      an intraday market order on the derivatives exchange. */
  lemma OrderForProperties(s: LiveSignal)
    ensures OrderFor(s).action == Upper(s.action)
    ensures s.quantity.None? ==> OrderFor(s).quantity == 1.0
    ensures s.quantity.Some? ==> OrderFor(s).quantity == s.quantity.value
    ensures OrderFor(s).orderType == "MARKET" && OrderFor(s).product == "MIS" && OrderFor(s).exchange == "NFO"
  {
  }

  // --------------------------------------------------------- closing orders

  /** The reversing order for a position: a long position (positive quantity)
      is sold, anything else is bought, for the absolute quantity.  A missing
      quantity counts as 0 for the side but as 1 for the size. */
  function CloseOrder(p: LivePosition): (o: OrderParams)
    ensures o.action == "SELL" <==> p.quantity.GetOr(0.0) > 0.0
    ensures o.action == "SELL" || o.action == "BUY"
    ensures o.quantity == Abs(p.quantity.GetOr(1.0)) && o.quantity >= 0.0
    ensures o.product == p.product.GetOr("MIS") && o.exchange == p.exchange.GetOr("NFO")
  {
    var action := if p.quantity.GetOr(0.0) > 0.0 then "SELL" else "BUY";
    OrderParams(p.symbol, p.strike, p.optionType, action, Abs(p.quantity.GetOr(1.0)), "MARKET",
      p.product.GetOr("MIS"), p.exchange.GetOr("NFO"))
  }

  /** `close_position`: the same two gates as a live trade (no risk check),
      then the reversing order. */
  function CloseOn(st: LiveState, p: LivePosition, reply: BrokerReply): (CloseResult, Option<OrderParams>) {
    if !st.enabled then (CloseRejected(NotEnabled), None)
    else if !Authenticated(st.broker) then (CloseRejected(NotAuthenticated), None)
    else
      match reply
      case OrderPlaced(orderId) => (PositionClosed(orderId), Some(CloseOrder(p)))
      case OrderFailed(_) => (CloseRejected(BrokerFailed(reply)), Some(CloseOrder(p)))
  }

  /** A position is only ever closed through the broker, only while trading is
      enabled with an authenticated broker, and then with the reversing order. */
  lemma CloseProperties(st: LiveState, p: LivePosition, reply: BrokerReply)
    ensures var (result, sent) := CloseOn(st, p, reply);
      && (!st.enabled ==> result == CloseRejected(NotEnabled))
      && (st.enabled && !Authenticated(st.broker) ==> result == CloseRejected(NotAuthenticated))
      && (sent.Some? <==> st.enabled && Authenticated(st.broker))
      && (sent.Some? ==> sent == Some(CloseOrder(p)))
      && (result.PositionClosed? <==> sent.Some? && reply.OrderPlaced?)
  {
  }

  /** A long position of 2 lots is closed by selling 2; a short one of -3 by
      buying 3. */
  lemma CloseOrderExamples()
    ensures CloseOrder(LivePosition("NIFTY", Some(22000.0), Some("CE"), Some(2.0), None, None)).action == "SELL"
    ensures CloseOrder(LivePosition("NIFTY", Some(22000.0), Some("PE"), Some(-3.0), None, None)).quantity == 3.0
    ensures CloseOrder(LivePosition("NIFTY", None, None, None, None, None)).action == "BUY"
  {
  }

  // ---------------------------------------------------------------- engine

  class LiveTradingEngine {
    var broker: Option<Broker>
    var tradeHistory: seq<LiveRecord>
    var enabled: bool

    function State(): LiveState
      reads this
    {
      LiveState(broker, tradeHistory, enabled)
    }

    /** A new engine starts switched off with an empty history (the saved
        history is not loaded). */
    constructor (broker: Option<Broker>)
      ensures State() == LiveState(broker, [], false)
    {
      this.broker := broker;
      tradeHistory := [];
      enabled := false;
    }

    method SetBroker(broker: Option<Broker>)
      modifies this`broker
      ensures State() == old(State()).(broker := broker)
    {
      this.broker := broker;
    }

    method EnableLiveTrading() returns (success: bool)
      modifies this`enabled
      ensures (success, State()) == EnableOn(old(State()))
    {
      if !Authenticated(broker) {
        return false;
      }
      enabled := true;
      return true;
    }

    method DisableLiveTrading() returns (success: bool)
      modifies this`enabled
      ensures (success, State()) == DisableOn(old(State()))
    {
      enabled := false;
      return true;
    }

    method ExecuteLiveTrade(s: LiveSignal, riskApproved: bool, reply: BrokerReply,
                            now: DateTime, recordId: string, fallbackOrderId: string)
      returns (result: TradeResult, sent: Option<OrderParams>)
      modifies this`tradeHistory
      ensures (result, sent, State()) == ExecuteOn(old(State()), s, riskApproved, reply, now, recordId, fallbackOrderId)
    {
      if !enabled {
        return TradeRejected(NotEnabled), None;
      }
      if !Authenticated(broker) {
        return TradeRejected(NotAuthenticated), None;
      }
      if !riskApproved {
        return TradeRejected(RiskRejected), None;
      }
      sent := Some(OrderFor(s));
      if reply.OrderPlaced? {
        var record := RecordFor(s, reply.orderId.GetOr(fallbackOrderId), broker.value.name, now, recordId);
        tradeHistory := tradeHistory + [record];
        result := Executed(record.orderId, record);
      } else {
        result := TradeRejected(BrokerFailed(reply));
      }
    }

    method ClosePosition(p: LivePosition, reply: BrokerReply) returns (result: CloseResult, sent: Option<OrderParams>)
      ensures (result, sent) == CloseOn(State(), p, reply)
    {
      if !enabled {
        return CloseRejected(NotEnabled), None;
      }
      if !Authenticated(broker) {
        return CloseRejected(NotAuthenticated), None;
      }
      sent := Some(CloseOrder(p));
      if reply.OrderPlaced? {
        result := PositionClosed(reply.orderId);
      } else {
        result := CloseRejected(BrokerFailed(reply));
      }
    }

    /** `is_enabled`. */
    function IsEnabled(): (r: bool)
      reads this
      ensures r <==> IsEnabledIn(State())
    {
      enabled && Authenticated(broker)
    }
  }
}
