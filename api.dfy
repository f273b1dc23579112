/** The caller-facing API of the client: every public, private and
    subscription method, described by the JSON-RPC method it calls and the
    parameters it builds. */
module Api {
  import opened Wrappers
  import opened JsonModel
  import opened Rpc

  /** One call of the client's API, with the arguments its method takes. */
  datatype Request =
    | GetTime
    | GetInstruments(currency: string, kind: string)
    | GetCurrencies
    | GetOrderbook(instrumentName: string, depth: int)
    | GetTradingviewChartData(instrumentName: string, startTimestamp: string, endTimestamp: string, resolution: string)
    | GetAccountSummary(currency: string)
    | GetPositions(currency: string)
    | PlaceBuyOrder(instrumentName: string, amount: Decimal, price: Decimal, orderType: string)
    | PlaceSellOrder(instrumentName: string, amount: Decimal, price: Decimal, orderType: string)
    | CancelOrder(orderId: string)
    | CancelAllOrders
    | ModifyOrder(orderId: string, amount: Decimal, price: Decimal)
    | GetOpenOrders(instrumentName: string)
    | GetOrderHistory(instrumentName: string)
    | SubscribeToOrderbook(instrumentName: string)
    | SubscribeToTrades(instrumentName: string)
    | SubscribeToInstrument(instrumentName: string)

  const PublicPrefix: string := "public/"
  const PrivatePrefix: string := "private/"

  /** The method names of the private (authenticated) part of the API. */
  predicate IsPrivateMethod(m: string) {
    |m| >= |PrivatePrefix| && m[..|PrivatePrefix|] == PrivatePrefix
  }

  /** The methods that call `checkAuthentication` and `sendPrivateRequest`. */
  predicate IsPrivate(r: Request) {
    || r.GetAccountSummary? || r.GetPositions?
    || r.PlaceBuyOrder? || r.PlaceSellOrder?
    || r.CancelOrder? || r.CancelAllOrders? || r.ModifyOrder?
    || r.GetOpenOrders? || r.GetOrderHistory?
  }

  /** The JSON-RPC method a request calls; exactly the private requests call
      a "private/" method. */
  function RpcMethod(r: Request): (m: string)
    ensures IsPrivate(r) <==> IsPrivateMethod(m)
  {
    var m := match r
      case GetTime => PublicPrefix + "get_time"
      case GetInstruments(_, _) => PublicPrefix + "get_instruments"
      case GetCurrencies => PublicPrefix + "get_currencies"
      case GetOrderbook(_, _) => PublicPrefix + "get_order_book"
      case GetTradingviewChartData(_, _, _, _) => PublicPrefix + "get_tradingview_chart_data"
      case GetAccountSummary(_) => PrivatePrefix + "get_account_summary"
      case GetPositions(_) => PrivatePrefix + "get_positions"
      case PlaceBuyOrder(_, _, _, _) => PrivatePrefix + "buy"
      case PlaceSellOrder(_, _, _, _) => PrivatePrefix + "sell"
      case CancelOrder(_) => PrivatePrefix + "cancel"
      case CancelAllOrders => PrivatePrefix + "cancel_all"
      case ModifyOrder(_, _, _) => PrivatePrefix + "edit"
      case GetOpenOrders(_) => PrivatePrefix + "get_open_orders_by_instrument"
      case GetOrderHistory(_) => PrivatePrefix + "get_order_history_by_instrument"
      case SubscribeToOrderbook(_) => PublicPrefix + "subscribe"
      case SubscribeToTrades(_) => PublicPrefix + "subscribe"
      case SubscribeToInstrument(_) => PublicPrefix + "subscribe";
    assert IsPrivate(r) ==> m[..|PrivatePrefix|] == PrivatePrefix;
    assert !IsPrivate(r) ==> m[1] == PublicPrefix[1] != PrivatePrefix[1];
    m
  }

  const MarketType: string := "market"

  /** The parameters of `placeBuyOrder` and `placeSellOrder`. Every type
      other than "market" places a good-til-cancelled limit order. */
  function OrderParams(instrumentName: string, amount: Decimal, price: Decimal, orderType: string): (p: Json)
    ensures p.Obj? && Contains(p, "type")
    ensures Contains(p, "instrument_name") && Get(p, "instrument_name") == Str(instrumentName)
    ensures Contains(p, "amount") && Get(p, "amount") == Num(amount)
    ensures orderType == MarketType ==>
      && p.fields.Keys == {"instrument_name", "amount", "type"}
      && Get(p, "type") == Str("market")
    ensures orderType != MarketType ==>
      && p.fields.Keys == {"instrument_name", "amount", "type", "price", "time_in_force", "post_only", "reduce_only"}
      && Get(p, "type") == Str("limit")
      && Get(p, "price") == Num(price)
      && Get(p, "time_in_force") == Str("good_til_cancelled")
      && Get(p, "post_only") == Bool(false)
      && Get(p, "reduce_only") == Bool(false)
  {
    var base := map["instrument_name" := Str(instrumentName), "amount" := Num(amount)];
    if orderType == MarketType then
      Obj(base["type" := Str("market")])
    else
      Obj(base["type" := Str("limit")]["price" := Num(price)]["time_in_force" := Str("good_til_cancelled")]
              ["post_only" := Bool(false)]["reduce_only" := Bool(false)])
  }

  /** The parameters of `getOpenOrders` and `getOrderHistory`: the
      instrument filter is present exactly when the name is non-empty, and
      otherwise the parameters stay a null value. */
  function InstrumentFilter(instrumentName: string): (p: Json)
    ensures p.Obj? || p.Null?
    ensures Contains(p, "instrument_name") <==> instrumentName != ""
    ensures Contains(p, "instrument_name") ==> Get(p, "instrument_name") == Str(instrumentName)
    ensures Members(p).Keys <= {"instrument_name"}
  {
    if instrumentName != "" then Obj(map["instrument_name" := Str(instrumentName)]) else Null
  }

  /** The parameters of `authenticate`: the client-credentials grant. */
  function AuthParams(clientId: string, clientSecret: string): (p: Json)
    ensures p.Obj? && p.fields.Keys == {"grant_type", "client_id", "client_secret"}
    ensures Get(p, "grant_type") == Str("client_credentials")
    ensures Get(p, "client_id") == Str(clientId) && Get(p, "client_secret") == Str(clientSecret)
  {
    Obj(map["grant_type" := Str("client_credentials"), "client_id" := Str(clientId), "client_secret" := Str(clientSecret)])
  }

  const AuthMethod: string := PublicPrefix + "auth"

  const BookPrefix: string := "book."
  const TradesPrefix: string := "trades."
  const TickerPrefix: string := "ticker."
  const ChannelSuffix: string := ".100ms"

  /** The name of a 100 ms channel of an instrument. */
  function ChannelName(prefix: string, instrumentName: string): string {
    prefix + instrumentName + ChannelSuffix
  }

  /** The instrument a channel name with the given prefix is about, if it
      is one. */
  function InstrumentOf(prefix: string, channel: string): Option<string> {
    if && |channel| >= |prefix| + |ChannelSuffix|
       && channel[..|prefix|] == prefix
       && channel[|channel| - |ChannelSuffix|..] == ChannelSuffix
    then Some(channel[|prefix|..|channel| - |ChannelSuffix|])
    else None
  }

  /** The instrument is recovered from the channel name built for it. */
  lemma InstrumentOfChannelName(prefix: string, instrumentName: string)
    ensures InstrumentOf(prefix, ChannelName(prefix, instrumentName)) == Some(instrumentName)
  {
  }

  /** A channel name that yields an instrument is the channel name of that
      instrument, so channel names and instruments correspond one to one. */
  lemma ChannelNameOfInstrument(prefix: string, channel: string, instrumentName: string)
    requires InstrumentOf(prefix, channel) == Some(instrumentName)
    ensures ChannelName(prefix, instrumentName) == channel
  {
  }

  /** The parameters of a subscribe call: a one-element channel list. */
  function SubscribeParams(channel: string): (p: Json)
    ensures p.Obj? && p.fields.Keys == {"channels"}
    ensures Get(p, "channels").Arr? && Get(p, "channels").items == [Str(channel)]
  {
    Obj(map["channels" := Arr([Str(channel)])])
  }

  /** The channel a subscription request asks for. */
  function SubscribedChannel(r: Request): Option<string> {
    match r
    case SubscribeToOrderbook(name) => Some(ChannelName(BookPrefix, name))
    case SubscribeToTrades(name) => Some(ChannelName(TradesPrefix, name))
    case SubscribeToInstrument(name) => Some(ChannelName(TickerPrefix, name))
    case _ => None
  }

  /** The channel a request records in the subscription registry once it is
      sent: the trades and ticker subscriptions record the channel they ask
      for, and the order-book subscription records nothing. */
  function RegisteredChannel(r: Request): (c: Option<string>)
    ensures c.Some? ==> SubscribedChannel(r) == c
    ensures c.Some? <==> r.SubscribeToTrades? || r.SubscribeToInstrument?
  {
    if r.SubscribeToTrades? || r.SubscribeToInstrument? then SubscribedChannel(r) else None
  }

  /** The parameters each API method builds, before any token is added. */
  function Params(r: Request): (p: Json)
    ensures p.Obj? || p.Null?
    ensures p.Null? ==> (r.GetOpenOrders? || r.GetOrderHistory?) && r.instrumentName == ""
    ensures !Contains(p, AccessTokenKey)
    ensures SubscribedChannel(r).Some? ==> p == SubscribeParams(SubscribedChannel(r).value)
  {
    match r
    case GetTime => Obj(map[])
    case GetInstruments(currency, kind) => Obj(map["currency" := Str(currency), "kind" := Str(kind)])
    case GetCurrencies => Obj(map[])
    case GetOrderbook(name, depth) => Obj(map["instrument_name" := Str(name), "depth" := Int(depth)])
    case GetTradingviewChartData(name, start, end, resolution) =>
      Obj(map["instrument_name" := Str(name), "start_timestamp" := Str(start),
              "end_timestamp" := Str(end), "resolution" := Str(resolution)])
    case GetAccountSummary(currency) => Obj(map["currency" := Str(currency)])
    case GetPositions(currency) => Obj(map["currency" := Str(currency)])
    case PlaceBuyOrder(name, amount, price, orderType) => OrderParams(name, amount, price, orderType)
    case PlaceSellOrder(name, amount, price, orderType) => OrderParams(name, amount, price, orderType)
    case CancelOrder(orderId) => Obj(map["order_id" := Str(orderId)])
    case CancelAllOrders => Obj(map[])
    case ModifyOrder(orderId, amount, price) =>
      Obj(map["order_id" := Str(orderId), "amount" := Num(amount), "price" := Num(price)])
    case GetOpenOrders(name) => InstrumentFilter(name)
    case GetOrderHistory(name) => InstrumentFilter(name)
    case SubscribeToOrderbook(name) => SubscribeParams(ChannelName(BookPrefix, name))
    case SubscribeToTrades(name) => SubscribeParams(ChannelName(TradesPrefix, name))
    case SubscribeToInstrument(name) => SubscribeParams(ChannelName(TickerPrefix, name))
  }

  /** The parameters that go on the wire for a request: a private request
      carries the session's token on top of its own parameters, a public one
      goes unchanged. */
  function SentParams(r: Request, token: string): (p: Json)
    ensures Contains(p, AccessTokenKey) <==> IsPrivate(r)
    ensures IsPrivate(r) ==> Get(p, AccessTokenKey) == Str(token)
    ensures forall k :: k in Members(Params(r)) ==> Contains(p, k) && Get(p, k) == Members(Params(r))[k]
    ensures Members(p).Keys == Members(Params(r)).Keys + (if IsPrivate(r) then {AccessTokenKey} else {})
  {
    if IsPrivate(r) then WithToken(Params(r), token) else Params(r)
  }
}
