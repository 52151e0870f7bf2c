/**
 * The manual-order handler: the order record and its dictionary form, the
 * tracked positions with their stop-loss and take-profit triggers, opening
 * and closing against the exchange client, one tick of the position monitor
 * and one scan of the order file.
 *
 * The exchange client is reached through method names. The handler asks the
 * client for `get_ticker`, `get_account` and `create_order`; a name the
 * client does not define raises `AttributeError`, which `ClientMethods` and
 * `Invoke` make explicit.
 */
module ManualOrders {
  import opened Wrappers
  import opened Json
  import Text
  import Trader

  datatype Side = Long | Short

  datatype Source = Api | WebSocket | FileQueue | Cli

  /** The enumeration values written by `to_dict`. */
  function SideValue(s: Side): string {
    match s
    case Long => "LONG"
    case Short => "SHORT"
  }

  function SourceValue(s: Source): string {
    match s
    case Api => "API"
    case WebSocket => "WS"
    case FileQueue => "FILE"
    case Cli => "CLI"
  }

  /** Lookup by member name (`OrderSide[name]`). */
  function SideByName(name: string): (r: Option<Side>)
    ensures r.Some? <==> name in {"LONG", "SHORT"}
    ensures r.Some? ==> SideValue(r.value) == name
  {
    if name == "LONG" then Some(Long) else if name == "SHORT" then Some(Short) else None
  }

  /** Lookup by member name (`OrderSource[name]`); the member names are not the values. */
  function SourceByName(name: string): (r: Option<Source>)
    ensures r.Some? <==> name in {"API", "WEBSOCKET", "FILE", "CLI"}
  {
    if name == "API" then Some(Api)
    else if name == "WEBSOCKET" then Some(WebSocket)
    else if name == "FILE" then Some(FileQueue)
    else if name == "CLI" then Some(Cli)
    else None
  }

  /** A manual trading instruction; `timestamp` is its ISO-8601 text. */
  datatype ManualOrder = ManualOrder(
    symbol: string, side: Side, quantity: Option<real>, leverage: Option<int>,
    stopLossPercent: Option<real>, takeProfitPercent: Option<real>,
    note: Option<string>, source: Source, timestamp: string)

  /** Python truthiness of an optional number. */
  predicate Set(x: Option<real>) {
    x.Some? && x.value != 0.0
  }

  function RealJson(x: Option<real>): Json {
    if x.Some? then JReal(x.value) else JNull
  }

  function IntJson(x: Option<int>): Json {
    if x.Some? then JInt(x.value) else JNull
  }

  function StrJson(x: Option<string>): Json {
    if x.Some? then JStr(x.value) else JNull
  }

  /** `ManualOrder.to_dict`. */
  function ToDict(o: ManualOrder): (d: Object)
    ensures d.Keys == {"symbol", "side", "quantity", "leverage", "stop_loss_percent",
                       "take_profit_percent", "note", "source", "timestamp"}
    ensures d["side"] == JStr(SideValue(o.side)) && d["source"] == JStr(SourceValue(o.source))
  {
    map["symbol" := JStr(o.symbol), "side" := JStr(SideValue(o.side)),
        "quantity" := RealJson(o.quantity), "leverage" := IntJson(o.leverage),
        "stop_loss_percent" := RealJson(o.stopLossPercent),
        "take_profit_percent" := RealJson(o.takeProfitPercent),
        "note" := StrJson(o.note), "source" := JStr(SourceValue(o.source)),
        "timestamp" := JStr(o.timestamp)]
  }

  /** An optional number field: null, a number, or a type the model rejects. */
  function RealField(j: Json): (r: Attempt<Option<real>>)
    ensures r == Ok(None) <==> j == JNull
    ensures IsNumber(j) ==> r == Ok(Some(NumberValue(j)))
  {
    if j == JNull then Ok(None) else if IsNumber(j) then Ok(Some(NumberValue(j))) else Raised
  }

  function IntField(j: Json): (r: Attempt<Option<int>>)
    ensures r == Ok(None) <==> j == JNull
    ensures j.JInt? ==> r == Ok(Some(j.i))
  {
    match j
    case JNull => Ok(None)
    case JInt(i) => Ok(Some(i))
    case JBool(b) => Ok(Some(if b then 1 else 0))
    case _ => Raised
  }

  function StrField(j: Json): (r: Attempt<Option<string>>)
    ensures r == Ok(None) <==> j == JNull
    ensures j.JStr? ==> r == Ok(Some(j.s))
  {
    match j
    case JNull => Ok(None)
    case JStr(s) => Ok(Some(s))
    case _ => Raised
  }

  /** The side named by a JSON value: a string whose upper-case form is LONG or SHORT. */
  function SideOf(j: Json): Option<Side> {
    if j.JStr? then SideByName(Text.Upper(j.s)) else None
  }

  /**
   * `ManualOrder.from_dict`: `symbol` and `side` are required, `source` is
   * looked up by member name (default API), a present `timestamp` must be
   * ISO text (`isIso`) and an absent one becomes `now`.
   */
  function FromDict(data: Object, now: string, isIso: string -> bool): (r: Attempt<ManualOrder>)
    ensures "symbol" !in data || "side" !in data ==> r.Raised?
    ensures r.Ok? ==> SideOf(data["side"]) == Some(r.value.side)
    ensures r.Ok? ==> data["symbol"] == JStr(r.value.symbol)
    ensures r.Ok? && "timestamp" !in data ==> r.value.timestamp == now
  {
    if "symbol" !in data || !data["symbol"].JStr? || "side" !in data || SideOf(data["side"]).None? then Raised
    else
      var source := Get(data, "source", JStr("API"));
      match (RealField(Get(data, "quantity", JNull)), IntField(Get(data, "leverage", JNull)),
             RealField(Get(data, "stop_loss_percent", JNull)), RealField(Get(data, "take_profit_percent", JNull)),
             StrField(Get(data, "note", JNull)))
      case (Ok(q), Ok(lev), Ok(sl), Ok(tp), Ok(note)) =>
        if !source.JStr? || SourceByName(source.s).None? then Raised
        else if "timestamp" in data && !(data["timestamp"].JStr? && isIso(data["timestamp"].s)) then Raised
        else
          var stamp := if "timestamp" in data then data["timestamp"].s else now;
          Ok(ManualOrder(data["symbol"].s, SideOf(data["side"]).value, q, lev, sl, tp, note,
                         SourceByName(source.s).value, stamp))
      case _ => Raised
  }

  lemma UpperOfSideValue(s: Side)
    ensures Text.Upper(SideValue(s)) == SideValue(s)
  {
    var v := SideValue(s);
    var u := Text.Upper(v);
    assert forall i :: 0 <= i < |v| ==> u[i] == v[i];
  }

  /**
   * `from_dict(to_dict(o))` gives back `o` for the sources API, FILE and CLI;
   * a WEBSOCKET order is written as "WS", which is no member name, so reading
   * it back raises.
   */
  lemma DictRoundTrip(o: ManualOrder, now: string, isIso: string -> bool)
    requires isIso(o.timestamp)
    ensures o.source != WebSocket ==> FromDict(ToDict(o), now, isIso) == Ok(o)
    ensures o.source == WebSocket ==> FromDict(ToDict(o), now, isIso).Raised?
  {
    UpperOfSideValue(o.side);
    var d := ToDict(o);
    assert SideOf(d["side"]) == Some(o.side);
  }

  /** A position opened by a manual order and tracked until it closes. */
  datatype ManualPosition = ManualPosition(
    orderId: Json, symbol: string, side: Side, entryPrice: real, quantity: real,
    leverage: int, stopLoss: Option<real>, takeProfit: Option<real>, note: Option<string>)

  /** `calculate_pnl_percent`; a zero entry price divides by zero. */
  function PnlPercent(p: ManualPosition, price: real): (r: Attempt<real>)
    ensures r.Ok? <==> p.entryPrice != 0.0
  {
    if p.entryPrice == 0.0 then Raised
    else if p.side == Long then Ok((price - p.entryPrice) / p.entryPrice * 100.0)
    else Ok((p.entryPrice - price) / p.entryPrice * 100.0)
  }

  /** The two sides see opposite returns; a long gains exactly when the price rises above a positive entry. */
  lemma PnlMirror(p: ManualPosition, price: real)
    requires p.entryPrice != 0.0
    ensures PnlPercent(p.(side := Long), price).value == -PnlPercent(p.(side := Short), price).value
    ensures p.entryPrice > 0.0 ==> (PnlPercent(p.(side := Long), price).value > 0.0 <==> price > p.entryPrice)
  {
    var e := p.entryPrice;
    assert (e - price) / e == -((price - e) / e);
    if e > 0.0 {
      if price > e {
        DivPositive(price - e, e);
      } else {
        DivNonPositive(price - e, e);
      }
    }
  }

  lemma DivPositive(x: real, y: real)
    requires x > 0.0 && y > 0.0
    ensures x / y * 100.0 > 0.0
  {
  }

  lemma DivNonPositive(x: real, y: real)
    requires x <= 0.0 && y > 0.0
    ensures x / y * 100.0 <= 0.0
  {
  }

  /** `should_close`: a set stop-loss or take-profit that the price has reached. */
  predicate ShouldClose(p: ManualPosition, price: real)
    ensures ShouldClose(p, price) ==> Set(p.stopLoss) || Set(p.takeProfit)
    ensures p.side == Long && Set(p.stopLoss) && price <= p.stopLoss.value ==> ShouldClose(p, price)
    ensures p.side == Short && Set(p.stopLoss) && price >= p.stopLoss.value ==> ShouldClose(p, price)
    ensures p.side == Long && Set(p.takeProfit) && price >= p.takeProfit.value ==> ShouldClose(p, price)
    ensures p.side == Short && Set(p.takeProfit) && price <= p.takeProfit.value ==> ShouldClose(p, price)
  {
    (Set(p.stopLoss) && ((p.side == Long && price <= p.stopLoss.value) || (p.side == Short && price >= p.stopLoss.value)))
    || (Set(p.takeProfit) && ((p.side == Long && price >= p.takeProfit.value) || (p.side == Short && price <= p.takeProfit.value)))
  }

  /** The stop-loss and take-profit prices computed at opening from the order's percentages. */
  function Thresholds(side: Side, price: real, slPercent: Option<real>, tpPercent: Option<real>): (r: (Option<real>, Option<real>))
    ensures r.0.Some? <==> Set(slPercent)
    ensures r.1.Some? <==> Set(tpPercent)
  {
    var sl := if !Set(slPercent) then None
      else if side == Long then Some(price * (1.0 - slPercent.value / 100.0))
      else Some(price * (1.0 + slPercent.value / 100.0));
    var tp := if !Set(tpPercent) then None
      else if side == Long then Some(price * (1.0 + tpPercent.value / 100.0))
      else Some(price * (1.0 - tpPercent.value / 100.0));
    (sl, tp)
  }

  /** LONG at 50000 with 2% and 5% gives 49000 and 52500; SHORT mirrors them. */
  lemma ThresholdsExample()
    ensures Thresholds(Long, 50000.0, Some(2.0), Some(5.0)) == (Some(49000.0), Some(52500.0))
    ensures Thresholds(Short, 50000.0, Some(2.0), Some(5.0)) == (Some(51000.0), Some(47500.0))
    ensures Thresholds(Long, 50000.0, Some(0.0), None) == (None, None)
  {
  }

  /**
   * Thresholds from positive percentages at a positive entry price never
   * fire at the entry price itself, and each fires once the price moves
   * past it in the losing or the winning direction.
   */
  lemma ThresholdsStartQuiet(p: ManualPosition, slPercent: Option<real>, tpPercent: Option<real>)
    requires p.entryPrice > 0.0
    requires slPercent.Some? ==> 0.0 < slPercent.value < 100.0
    requires tpPercent.Some? ==> 0.0 < tpPercent.value < 100.0
    requires (p.stopLoss, p.takeProfit) == Thresholds(p.side, p.entryPrice, slPercent, tpPercent)
    ensures !ShouldClose(p, p.entryPrice)
  {
    var e := p.entryPrice;
    if Set(slPercent) {
      var f := slPercent.value / 100.0;
      assert 0.0 < f;
      MulStrictBelow(e, 1.0 - f);
      MulStrictAbove(e, 1.0 + f);
    }
    if Set(tpPercent) {
      var f := tpPercent.value / 100.0;
      assert 0.0 < f;
      MulStrictBelow(e, 1.0 - f);
      MulStrictAbove(e, 1.0 + f);
    }
  }

  lemma MulStrictBelow(e: real, k: real)
    requires e > 0.0 && k < 1.0
    ensures e * k < e
  {
  }

  lemma MulStrictAbove(e: real, k: real)
    requires e > 0.0 && k > 1.0
    ensures e * k > e
  {
  }

  /** Once a long position's trigger fires at some price, it fires at every lower stop or higher target price too. */
  lemma ShouldCloseMonotone(p: ManualPosition, price: real, further: real)
    requires p.side == Long && ShouldClose(p, price)
    requires Set(p.stopLoss) && price <= p.stopLoss.value && further <= price
    ensures ShouldClose(p, further)
  {
  }

  /** The handler's settings: `default_leverage` and `default_position_percent`. */
  datatype HandlerConfig = HandlerConfig(defaultLeverage: int, defaultPositionPercent: real)

  /** The methods the AsterDex client class defines. */
  const ClientMethods: set<string> := {
    "ping", "get_server_time", "get_exchange_info", "get_klines", "get_ticker_price",
    "get_mark_price", "get_account_info", "get_balance", "get_position_info", "place_order",
    "cancel_order", "cancel_all_orders", "get_open_orders", "change_leverage", "change_margin_type"}

  /**
   * The client methods the handler calls for the price, the account and an
   * order, and the key of the price in the ticker answer.
   */
  datatype ClientNames = ClientNames(ticker: string, account: string, create: string, priceKey: string)

  /** The names the handler uses, reading `lastPrice` from the ticker. */
  const AsWrittenNames := ClientNames("get_ticker", "get_account", "create_order", "lastPrice")

  /**
   * The client methods that answer those three requests; `get_ticker_price`
   * answers the symbol's latest price under `price`, as the trader reads it.
   */
  const IntendedNames := ClientNames("get_ticker_price", "get_account_info", "place_order", "price")

  /** A method call on the client: a name it does not define raises. */
  function Invoke(name: string, answer: Attempt<Json>): (r: Attempt<Json>)
    ensures name !in ClientMethods ==> r.Raised?
    ensures name in ClientMethods ==> r == answer
  {
    if name in ClientMethods then answer else Raised
  }

  /** The arguments of the handler's order call. */
  datatype Request = Request(symbol: string, side: string, orderType: string, quantity: real, reduceOnly: bool)

  /** What the exchange answers (or that it raises), per call. */
  datatype Venue = Venue(
    ticker: string -> Attempt<Json>, setupLeverage: Attempt<Json>, changeLeverage: Attempt<Json>,
    account: Attempt<Json>, create: Request -> Attempt<Json>)

  /** The handler: its tracked positions, the trader it shares (for symbol information), its settings. */
  datatype Handler = Handler(
    positions: map<Json, ManualPosition>, trader: Trader.TraderState,
    config: HandlerConfig, client: ClientNames)

  /** `float(ticker['lastPrice'])` from the ticker call (the key is the client's price key). */
  function LastPrice(h: Handler, venue: Venue, symbol: string, parse: string -> Option<real>): (r: Attempt<real>)
    ensures h.client.ticker !in ClientMethods ==> r.Raised?
    ensures h.client.ticker in ClientMethods ==>
      (r.Ok? <==> venue.ticker(symbol).Ok? && venue.ticker(symbol).value.JObj?
                  && h.client.priceKey in venue.ticker(symbol).value.fields
                  && Float(venue.ticker(symbol).value.fields[h.client.priceKey], parse).Some?)
    ensures r.Ok? ==> r.value == Float(venue.ticker(symbol).value.fields[h.client.priceKey], parse).value
  {
    match Invoke(h.client.ticker, venue.ticker(symbol))
    case Raised => Raised
    case Ok(t) =>
      if t.JObj? && h.client.priceKey in t.fields then Trader.FloatOr(t.fields[h.client.priceKey], parse) else Raised
  }

  /** The leverage of a new position: the order's when set, else the default. */
  function LeverageOf(h: Handler, o: ManualOrder): (r: int)
    ensures o.leverage.Some? && o.leverage.value != 0 ==> r == o.leverage.value
    ensures o.leverage.None? || o.leverage.value == 0 ==> r == h.config.defaultLeverage
  {
    if o.leverage.Some? && o.leverage.value != 0 then o.leverage.value else h.config.defaultLeverage
  }

  /** The unrounded quantity: the order's when set, else the default share of the available balance. */
  function RawQuantity(h: Handler, venue: Venue, o: ManualOrder, price: real, parse: string -> Option<real>): (r: Attempt<real>)
    ensures Set(o.quantity) ==> r == Ok(o.quantity.value)
  {
    if Set(o.quantity) then Ok(o.quantity.value)
    else match Invoke(h.client.account, venue.account)
      case Raised => Raised
      case Ok(account) =>
        if !account.JObj? || "availableBalance" !in account.fields || price == 0.0 then Raised
        else match Trader.FloatOr(account.fields["availableBalance"], parse)
          case Raised => Raised
          case Ok(available) =>
            Ok(available * h.config.defaultPositionPercent / 100.0 * (LeverageOf(h, o) as real) / price)
  }

  /** The default size spends the configured share of the balance as margin at the chosen leverage. */
  lemma DefaultQuantitySpendsShare(h: Handler, venue: Venue, o: ManualOrder, price: real, parse: string -> Option<real>)
    requires !Set(o.quantity) && RawQuantity(h, venue, o, price, parse).Ok?
    ensures price != 0.0
    ensures var q := RawQuantity(h, venue, o, price, parse).value;
      var available := Trader.FloatOr(Invoke(h.client.account, venue.account).value.fields["availableBalance"], parse).value;
      q * price == available * h.config.defaultPositionPercent / 100.0 * (LeverageOf(h, o) as real)
  {
  }

  function Pow10(n: nat): (r: int)
    ensures r >= 1
  {
    if n == 0 then 1 else 10 * Pow10(n - 1)
  }

  /** The scale `10 ** n` for any integer `n`. */
  function Scale(n: int): (r: real)
    ensures r > 0.0
  {
    if n >= 0 then Pow10(n) as real else 1.0 / (Pow10(-n) as real)
  }

  /** Round half to even to an integer. */
  function RoundHalfEven(y: real): (k: int)
    ensures -0.5 <= k as real - y <= 0.5
  {
    var f := y.Floor;
    var d := y - f as real;
    if d < 0.5 then f else if d > 0.5 then f + 1 else if f % 2 == 0 then f else f + 1
  }

  /** Rounding to the nearest multiple of `1 / s`, ties to even. */
  function RoundTo(x: real, s: real): real
    requires s > 0.0
  {
    (RoundHalfEven(x * s) as real) / s
  }

  /** `round(x, n)` over the reals, ties to even. */
  function Round(x: real, n: int): (r: real)
    ensures -0.5 / Scale(n) <= r - x <= 0.5 / Scale(n)
  {
    RoundToWithin(x, Scale(n));
    RoundTo(x, Scale(n))
  }

  /** Rounding to `n` places moves a value by at most half a unit in the last place. */
  lemma RoundWithin(x: real, n: int)
    ensures -0.5 / Scale(n) <= Round(x, n) - x <= 0.5 / Scale(n)
  {
    RoundToWithin(x, Scale(n));
  }

  lemma RoundToWithin(x: real, s: real)
    requires s > 0.0
    ensures -0.5 / s <= RoundTo(x, s) - x <= 0.5 / s
  {
    var k := RoundHalfEven(x * s);
    DivideBounds(k as real - x * s, s);
    ShiftDivide(k as real, x, s);
  }

  lemma ShiftDivide(a: real, x: real, s: real)
    requires s > 0.0
    ensures a / s - x == (a - x * s) / s
  {
    assert x == (x * s) / s;
  }

  lemma DivideBounds(d: real, s: real)
    requires s > 0.0 && -0.5 <= d <= 0.5
    ensures -0.5 / s <= d / s <= 0.5 / s
  {
    assert d / s - (-0.5) / s == (d + 0.5) / s;
    assert 0.5 / s - d / s == (0.5 - d) / s;
    assert (d + 0.5) / s >= 0.0 && (0.5 - d) / s >= 0.0;
  }

  /** The symbol information's `quantityPrecision` applied with `round` (default 3). */
  function Rounded(q: real, info: Json): Attempt<real> {
    if !info.JObj? then Raised
    else match Get(info.fields, "quantityPrecision", JInt(3))
      case JInt(n) => Ok(Round(q, n))
      case JBool(b) => Ok(Round(q, if b then 1 else 0))
      case JNull => Ok(Round(q, 0))
      case _ => Raised
  }

  /** The quantity to open and the trader's cache afterwards. */
  datatype Sized = Sized(quantity: real, cache: map<string, Json>)

  /** The quantity `execute_manual_order` opens: sized, then rounded to the symbol's precision when its information is known. */
  function OpenQuantity(h: Handler, venue: Venue, o: ManualOrder, price: real, parse: string -> Option<real>): (r: Attempt<Sized>)
    ensures r.Ok? ==> RawQuantity(h, venue, o, price, parse).Ok?
  {
    match RawQuantity(h, venue, o, price, parse)
    case Raised => Raised
    case Ok(q) =>
      match Trader.GetSymbolInfo(h.trader, o.symbol)
      case Raised => Raised
      case Ok(lookup) =>
        if lookup.info.None? || !Truthy(lookup.info.value) then Ok(Sized(q, lookup.cache))
        else match Rounded(q, lookup.info.value)
          case Raised => Raised
          case Ok(rq) => Ok(Sized(rq, lookup.cache))
  }

  /** The outcome of `execute_manual_order`: the order id returned, the handler after, the order call made. */
  datatype Executed = Executed(orderId: Option<Json>, handler: Handler, placed: Option<Request>)

  /** The exchange side of an opening order. */
  function OpenSide(s: Side): string {
    if s == Long then "BUY" else "SELL"
  }

  /** The steps of `execute_manual_order` up to the order call. */
  datatype Prepared = Prepared(price: real, leverage: int, sized: Sized)

  function Prepare(h: Handler, venue: Venue, o: ManualOrder, parse: string -> Option<real>): (r: Attempt<Prepared>)
    ensures r.Ok? ==> r.value.leverage == LeverageOf(h, o)
    ensures r.Ok? ==> LastPrice(h, venue, o.symbol, parse) == Ok(r.value.price)
    ensures r.Ok? ==> venue.setupLeverage.Ok?
    ensures h.client.ticker !in ClientMethods ==> r.Raised?
  {
    match LastPrice(h, venue, o.symbol, parse)
    case Raised => Raised
    case Ok(price) =>
      if venue.setupLeverage.Raised? then Raised
      else if o.leverage.Some? && o.leverage.value != 0 && venue.changeLeverage.Raised? then Raised
      else match OpenQuantity(h, venue, o, price, parse)
        case Raised => Raised
        case Ok(sized) => Ok(Prepared(price, LeverageOf(h, o), sized))
  }

  /**
   * `execute_manual_order`: a MARKET order on the order's side; the position
   * is tracked under the returned `orderId` only when that id is truthy.
   * Every exception yields no id. One raised before the order is sent
   * returns the handler unchanged, including the trader's symbol cache.
   */
  function Execute(h: Handler, venue: Venue, o: ManualOrder, parse: string -> Option<real>): (r: Executed)
    ensures r.orderId.None? ==> r.handler.positions == h.positions
    ensures r.orderId.Some? ==> (Truthy(r.orderId.value) && r.placed.Some?
      && r.handler.positions.Keys == h.positions.Keys + {r.orderId.value}
      && (forall k :: k in h.positions && k != r.orderId.value ==> r.handler.positions[k] == h.positions[k]))
    ensures r.orderId.Some? ==> var p := r.handler.positions[r.orderId.value];
      && p.symbol == o.symbol && p.side == o.side && p.leverage == LeverageOf(h, o)
      && p.quantity == r.placed.value.quantity && p.note == o.note
      && LastPrice(h, venue, o.symbol, parse) == Ok(p.entryPrice)
      && (p.stopLoss, p.takeProfit) == Thresholds(o.side, p.entryPrice, o.stopLossPercent, o.takeProfitPercent)
    ensures r.placed.Some? ==> (r.placed.value.side == OpenSide(o.side) && !r.placed.value.reduceOnly
      && r.placed.value.symbol == o.symbol && r.placed.value.orderType == "MARKET")
    ensures r.handler.config == h.config && r.handler.client == h.client
  {
    match Prepare(h, venue, o, parse)
    case Raised => Executed(None, h, None)
    case Ok(prep) =>
      var h1 := h.(trader := h.trader.(cache := prep.sized.cache));
      var request := Request(o.symbol, OpenSide(o.side), "MARKET", prep.sized.quantity, false);
      match Invoke(h.client.create, venue.create(request))
      case Raised => Executed(None, h1, Some(request))
      case Ok(result) =>
        if !result.JObj? || !Truthy(Get(result.fields, "orderId", JNull)) then Executed(None, h1, Some(request))
        else
          var id := result.fields["orderId"];
          var (sl, tp) := Thresholds(o.side, prep.price, o.stopLossPercent, o.takeProfitPercent);
          var p := ManualPosition(id, o.symbol, o.side, prep.price, prep.sized.quantity, prep.leverage, sl, tp, o.note);
          Executed(Some(id), h1.(positions := h.positions[id := p]), Some(request))
  }

  /** The client method names the handler uses do not exist, so no manual order ever opens. */
  lemma AsWrittenNeverOpens(h: Handler, venue: Venue, o: ManualOrder, parse: string -> Option<real>)
    requires h.client == AsWrittenNames
    ensures Execute(h, venue, o, parse) == Executed(None, h, None)
  {
  }

  /**
   * With the client's own method names, an exchange that prices the symbol,
   * accepts the setup and answers the order with an id opens and tracks a
   * position under that id.
   */
  lemma IntendedOpens(h: Handler, venue: Venue, o: ManualOrder, parse: string -> Option<real>, id: int)
    requires h.client == IntendedNames
    requires Prepare(h, venue, o, parse).Ok?
    requires var prep := Prepare(h, venue, o, parse).value;
      venue.create(Request(o.symbol, OpenSide(o.side), "MARKET", prep.sized.quantity, false))
        == Ok(JObj(map["orderId" := JInt(id)]))
    requires id != 0
    ensures Execute(h, venue, o, parse).orderId == Some(JInt(id))
    ensures JInt(id) in Execute(h, venue, o, parse).handler.positions
  {
    assert "place_order" in ClientMethods;
  }

  /** With the client's own names, a ticker in the exchange's `{symbol, price}` shape is priced. */
  lemma IntendedReadsTicker(h: Handler, venue: Venue, symbol: string, s: string, x: real, parse: string -> Option<real>)
    requires h.client == IntendedNames
    requires venue.ticker(symbol) == Ok(JObj(map["symbol" := JStr(symbol), "price" := JStr(s)]))
    requires parse(s) == Some(x)
    ensures LastPrice(h, venue, symbol, parse) == Ok(x)
  {
    assert "get_ticker_price" in ClientMethods;
  }

  /** The reduce-only order that closes a position: the opposite side, the whole quantity. */
  function CloseRequest(p: ManualPosition): (r: Request)
    ensures r.reduceOnly && r.quantity == p.quantity && r.symbol == p.symbol
    ensures r.side != OpenSide(p.side)
  {
    Request(p.symbol, if p.side == Long then "SELL" else "BUY", "MARKET", p.quantity, true)
  }

  /** `_close_manual_position` succeeds: the order call answers an object and the profit can be computed. */
  predicate CloseSucceeds(h: Handler, venue: Venue, p: ManualPosition) {
    var answer := Invoke(h.client.create, venue.create(CloseRequest(p)));
    answer.Ok? && answer.value.JObj? && p.entryPrice != 0.0
  }

  /** `_close_manual_position`: the entry is removed only after a successful order call; errors are swallowed. */
  function CloseManual(h: Handler, venue: Venue, id: Json): (r: Handler)
    requires id in h.positions
    ensures CloseSucceeds(h, venue, h.positions[id]) ==> r.positions == h.positions - {id}
    ensures !CloseSucceeds(h, venue, h.positions[id]) ==> r == h
    ensures r.config == h.config && r.client == h.client && r.trader == h.trader
  {
    if CloseSucceeds(h, venue, h.positions[id]) then h.(positions := h.positions - {id}) else h
  }

  /**
   * `close_position_by_id`: an unknown id answers false and changes nothing;
   * a known id whose price can be read answers true, even when the closing
   * order itself fails.
   */
  function CloseById(h: Handler, venue: Venue, id: Json, parse: string -> Option<real>): (r: (bool, Handler))
    ensures id !in h.positions ==> r == (false, h)
    ensures r.0 <==> id in h.positions && LastPrice(h, venue, h.positions[id].symbol, parse).Ok?
    ensures r.0 ==> r.1 == CloseManual(h, venue, id)
    ensures !r.0 ==> r.1 == h
  {
    if id !in h.positions then (false, h)
    else match LastPrice(h, venue, h.positions[id].symbol, parse)
      case Raised => (false, h)
      case Ok(_) => (true, CloseManual(h, venue, id))
  }

  /** Position ids from the exchange are integers, so a lookup by the URL's text id never finds one. */
  lemma TextIdNeverFound(h: Handler, venue: Venue, id: string, parse: string -> Option<real>)
    requires forall k :: k in h.positions ==> k.JInt?
    ensures CloseById(h, venue, JStr(id), parse) == (false, h)
  {
  }

  /** The price and profit of one tracked position, as the monitor computes them. */
  function Priced(h: Handler, venue: Venue, id: Json, parse: string -> Option<real>): (r: Attempt<real>)
    requires id in h.positions
    ensures r.Ok? ==> h.positions[id].entryPrice != 0.0
  {
    match LastPrice(h, venue, h.positions[id].symbol, parse)
    case Raised => Raised
    case Ok(price) => if PnlPercent(h.positions[id], price).Raised? then Raised else Ok(price)
  }

  /** The monitor's first pass completes only if every position can be priced. */
  predicate TickRuns(h: Handler, venue: Venue, parse: string -> Option<real>) {
    forall id :: id in h.positions ==> Priced(h, venue, id, parse).Ok?
  }

  /** A position the tick closes: its trigger fired and its closing order went through. */
  predicate ClosedByTick(h: Handler, venue: Venue, id: Json, parse: string -> Option<real>)
    requires id in h.positions && Priced(h, venue, id, parse).Ok?
  {
    ShouldClose(h.positions[id], Priced(h, venue, id, parse).value) && CloseSucceeds(h, venue, h.positions[id])
  }

  /**
   * One tick of `_monitor_positions`: price every position (any failure
   * abandons the whole tick), then close each one whose trigger fired.
   */
  function MonitorTick(h: Handler, venue: Venue, parse: string -> Option<real>): (r: Handler)
    ensures !TickRuns(h, venue, parse) ==> r == h
    ensures r.positions.Keys <= h.positions.Keys
    ensures forall id :: id in r.positions ==> r.positions[id] == h.positions[id]
    ensures TickRuns(h, venue, parse) ==> forall id :: id in h.positions ==>
      (id !in r.positions <==> ClosedByTick(h, venue, id, parse))
    ensures r.config == h.config && r.client == h.client && r.trader == h.trader
  {
    if !TickRuns(h, venue, parse) then h
    else h.(positions := map id | id in h.positions && !ClosedByTick(h, venue, id, parse) :: h.positions[id])
  }

  /** A position whose price has not reached either threshold survives the tick. */
  lemma QuietPositionSurvives(h: Handler, venue: Venue, parse: string -> Option<real>, id: Json)
    requires id in h.positions && Priced(h, venue, id, parse).Ok?
    requires !ShouldClose(h.positions[id], Priced(h, venue, id, parse).value)
    ensures id in MonitorTick(h, venue, parse).positions
  {
  }

  /** What `get_manual_positions` lists: each position that can be priced, with its price and profit. */
  datatype PositionView = PositionView(position: ManualPosition, currentPrice: real, pnlPercent: real)

  function ManualPositions(h: Handler, venue: Venue, parse: string -> Option<real>): (r: map<Json, PositionView>)
    ensures r.Keys <= h.positions.Keys
    ensures forall id :: id in r ==> (r[id].position == h.positions[id]
      && PnlPercent(h.positions[id], r[id].currentPrice) == Ok(r[id].pnlPercent))
    ensures TickRuns(h, venue, parse) ==> r.Keys == h.positions.Keys
  {
    map id | id in h.positions && Priced(h, venue, id, parse).Ok? ::
      PositionView(h.positions[id], Priced(h, venue, id, parse).value,
                   PnlPercent(h.positions[id], Priced(h, venue, id, parse).value).value)
  }

  /** The outcome of scanning the entries of the order file. */
  datatype ScanStep = ScanStep(handler: Handler, executed: seq<ManualOrder>, marked: Option<seq<Json>>)

  /** An entry that a scan skips. */
  predicate Processed(e: Json) {
    e.JObj? && Truthy(Get(e.fields, "processed", JBool(false)))
  }

  /** An entry a scan will never execute: processed, or not decodable as an order. */
  predicate Settled(e: Json, now: string, isIso: string -> bool) {
    Processed(e) || !e.JObj? || FromDict(e.fields, now, isIso).Raised?
  }

  function Mark(e: Json): (r: Json)
    requires e.JObj?
    ensures Processed(r)
  {
    JObj(e.fields["processed" := JBool(true)])
  }

  /**
   * `marked` is what a scan writes back for `entries`: each entry settled,
   * either left as it was or marked processed, and, when `strict`, every
   * entry an object.
   */
  predicate MarkedFrom(marked: seq<Json>, entries: seq<Json>, now: string, isIso: string -> bool, strict: bool) {
    && |marked| == |entries|
    && forall i :: 0 <= i < |entries| ==>
      && Settled(marked[i], now, isIso)
      && (marked[i] == entries[i] || (entries[i].JObj? && marked[i] == Mark(entries[i])))
      && (strict ==> entries[i].JObj?)
  }

  lemma MarkedCons(m: Json, e: Json, marked: seq<Json>, entries: seq<Json>, now: string, isIso: string -> bool, strict: bool)
    requires Settled(m, now, isIso) && (m == e || (e.JObj? && m == Mark(e))) && (strict ==> e.JObj?)
    requires MarkedFrom(marked, entries, now, isIso, strict)
    ensures MarkedFrom([m] + marked, [e] + entries, now, isIso, strict)
  {
    var ms, es := [m] + marked, [e] + entries;
    forall i | 1 <= i < |es|
      ensures Settled(ms[i], now, isIso)
      ensures ms[i] == es[i] || (es[i].JObj? && ms[i] == Mark(es[i]))
      ensures strict ==> es[i].JObj?
    {
      assert ms[i] == marked[i - 1] && es[i] == entries[i - 1];
    }
  }

  /**
   * The loop of `_watch_order_file` over the entries: skip processed ones,
   * execute the rest as FILE orders and mark them processed. As written
   * (`recover` false) an entry that is not an object or cannot be decoded
   * raises and abandons the scan, orders already executed included; with
   * `recover` it is left as it is and the scan goes on.
   */
  function ScanEntries(
    h: Handler, venue: Venue, entries: seq<Json>, parse: string -> Option<real>,
    now: string, isIso: string -> bool, recover: bool): (r: ScanStep)
    ensures |r.executed| <= |entries|
    ensures forall i :: 0 <= i < |r.executed| ==> r.executed[i].source == FileQueue
    ensures r.marked.Some? ==> MarkedFrom(r.marked.value, entries, now, isIso, !recover)
    ensures recover ==> r.marked.Some?
    decreases |entries|
  {
    if |entries| == 0 then ScanStep(h, [], Some([]))
    else
      var e := entries[0];
      assert entries == [e] + entries[1..];
      if Processed(e) then
        var rest := ScanEntries(h, venue, entries[1..], parse, now, isIso, recover);
        if rest.marked.Some? then
          MarkedCons(e, e, rest.marked.value, entries[1..], now, isIso, !recover);
          ScanStep(rest.handler, rest.executed, Some([e] + rest.marked.value))
        else ScanStep(rest.handler, rest.executed, None)
      else if !e.JObj? || FromDict(e.fields, now, isIso).Raised? then
        if !recover then ScanStep(h, [], None)
        else
          var rest := ScanEntries(h, venue, entries[1..], parse, now, isIso, recover);
          MarkedCons(e, e, rest.marked.value, entries[1..], now, isIso, !recover);
          ScanStep(rest.handler, rest.executed, Some([e] + rest.marked.value))
      else
        var order := FromDict(e.fields, now, isIso).value.(source := FileQueue);
        var x := Execute(h, venue, order, parse);
        var rest := ScanEntries(x.handler, venue, entries[1..], parse, now, isIso, recover);
        if rest.marked.Some? then
          MarkedCons(Mark(e), e, rest.marked.value, entries[1..], now, isIso, !recover);
          ScanStep(rest.handler, [order] + rest.executed, Some([Mark(e)] + rest.marked.value))
        else ScanStep(rest.handler, [order] + rest.executed, None)
  }

  /**
   * The outcome of one file scan: the handler after it, the orders executed,
   * the document written back (if any), and whether the file was emptied
   * without anything being written to it.
   */
  datatype Scan = Scan(handler: Handler, executed: seq<ManualOrder>, written: Option<Json>, truncated: bool)

  /** The entries of a file: its list, or the single document. */
  function Entries(data: Json): seq<Json> {
    if data.JArr? then data.items else [data]
  }

  /**
   * One scan of the order file. When the entry loop completes, the file is
   * opened for writing and receives the marked entries: as a list when there
   * is more than one, as the single entry otherwise. An empty list has no
   * first entry: the file has already been emptied when that raises.
   */
  function ScanFile(
    h: Handler, venue: Venue, data: Json, parse: string -> Option<real>,
    now: string, isIso: string -> bool, recover: bool): (r: Scan)
    ensures r.written.Some? ==> |Entries(data)| > 0
    ensures r.written.Some? && |Entries(data)| > 1 ==> r.written.value.JArr?
    ensures recover && |Entries(data)| > 0 ==> r.written.Some?
    ensures r.truncated <==> data == JArr([])
    ensures r.truncated ==> r.written.None? && r.executed == [] && r.handler == h
    ensures var s := ScanEntries(h, venue, Entries(data), parse, now, isIso, recover);
      && (r.written.Some? <==> s.marked.Some? && |Entries(data)| > 0)
      && (r.written.Some? && |Entries(data)| > 1 ==> r.written.value == JArr(s.marked.value))
      && (r.written.Some? && |Entries(data)| == 1 ==> r.written.value == s.marked.value[0])
  {
    var s := ScanEntries(h, venue, Entries(data), parse, now, isIso, recover);
    if s.marked.None? then Scan(s.handler, s.executed, None, false)
    else if |s.marked.value| == 0 then Scan(s.handler, s.executed, None, true)
    else if |s.marked.value| > 1 then Scan(s.handler, s.executed, Some(JArr(s.marked.value)), false)
    else Scan(s.handler, s.executed, Some(s.marked.value[0]), false)
  }

  /**
   * A settled file executes nothing: every entry is processed or cannot be
   * decoded, so a scan skips or (as written) stops at each one.
   */
  lemma {:induction false} SettledScanIdle(
    h: Handler, venue: Venue, entries: seq<Json>, parse: string -> Option<real>,
    now: string, isIso: string -> bool, recover: bool)
    requires forall i :: 0 <= i < |entries| ==> Settled(entries[i], now, isIso)
    ensures ScanEntries(h, venue, entries, parse, now, isIso, recover).executed == []
    ensures ScanEntries(h, venue, entries, parse, now, isIso, recover).handler == h
    decreases |entries|
  {
    if |entries| > 0 {
      assert Settled(entries[0], now, isIso);
      assert forall i :: 0 <= i < |entries| - 1 ==> entries[1..][i] == entries[i + 1];
      SettledScanIdle(h, venue, entries[1..], parse, now, isIso, recover);
    }
  }

  /**
   * A rewritten file is settled: scanning it again, with any handler,
   * executes nothing. With `recover`, an entry that is itself a list is
   * excluded, since a one-entry file is written back as that entry.
   */
  lemma RescanExecutesNothing(
    h: Handler, h2: Handler, venue: Venue, data: Json, parse: string -> Option<real>,
    now: string, isIso: string -> bool, recover: bool)
    requires ScanFile(h, venue, data, parse, now, isIso, recover).written.Some?
    requires recover ==> forall i :: 0 <= i < |Entries(data)| ==> !Entries(data)[i].JArr?
    ensures var w := ScanFile(h, venue, data, parse, now, isIso, recover).written.value;
      ScanFile(h2, venue, w, parse, now, isIso, recover).executed == []
  {
    var entries := Entries(data);
    var s := ScanEntries(h, venue, entries, parse, now, isIso, recover);
    var marked := s.marked.value;
    var w := ScanFile(h, venue, data, parse, now, isIso, recover).written.value;
    if |marked| == 1 {
      assert marked[0] == entries[0] || (entries[0].JObj? && marked[0] == Mark(entries[0]));
      if !recover {
        assert entries[0].JObj?;
      }
      assert Entries(w) == marked;
    } else {
      assert Entries(w) == marked;
    }
    SettledScanIdle(h2, venue, marked, parse, now, isIso, recover);
  }

  /**
   * As written, a file holding a new order followed by an entry that cannot
   * be decoded executes the order and then abandons the scan without
   * rewriting the file: the order stays unmarked and the next scan executes
   * it again.
   */
  lemma ScanAbortReexecutes(
    h: Handler, h2: Handler, venue: Venue, good: Object, parse: string -> Option<real>,
    now: string, isIso: string -> bool)
    requires FromDict(good, now, isIso).Ok? && !Processed(JObj(good))
    ensures var data := JArr([JObj(good), JObj(map[])]);
      var first := ScanFile(h, venue, data, parse, now, isIso, false);
      var again := ScanFile(h2, venue, data, parse, now, isIso, false);
      first.written.None? && |first.executed| == 1 && |again.executed| == 1
  {
    var data := JArr([JObj(good), JObj(map[])]);
    OrderThenBadEntry(h, venue, good, parse, now, isIso, false);
    OrderThenBadEntry(h2, venue, good, parse, now, isIso, false);
  }

  /** How a scan of [a new order, an undecodable entry] unfolds. */
  lemma OrderThenBadEntry(
    h: Handler, venue: Venue, good: Object, parse: string -> Option<real>,
    now: string, isIso: string -> bool, recover: bool)
    requires FromDict(good, now, isIso).Ok? && !Processed(JObj(good))
    ensures var s := ScanEntries(h, venue, [JObj(good), JObj(map[])], parse, now, isIso, recover);
      |s.executed| == 1 && (s.marked.Some? <==> recover)
      && (recover ==> s.marked.value == [Mark(JObj(good)), JObj(map[])])
  {
    var entries := [JObj(good), JObj(map[])];
    var order := FromDict(good, now, isIso).value.(source := FileQueue);
    var x := Execute(h, venue, order, parse);
    assert entries[1..] == [JObj(map[])];
    assert FromDict(map[], now, isIso).Raised?;
    var rest := ScanEntries(x.handler, venue, entries[1..], parse, now, isIso, recover);
    assert [JObj(map[])][1..] == [];
    assert rest.executed == [];
    assert rest.marked.Some? <==> recover;
  }

  /** With `recover`, the same file is rewritten with the order marked, and a rescan executes nothing. */
  lemma RecoveringScanSettles(
    h: Handler, h2: Handler, venue: Venue, good: Object, parse: string -> Option<real>,
    now: string, isIso: string -> bool)
    requires FromDict(good, now, isIso).Ok? && !Processed(JObj(good))
    ensures var data := JArr([JObj(good), JObj(map[])]);
      var first := ScanFile(h, venue, data, parse, now, isIso, true);
      first.written.Some? && |first.executed| == 1
      && ScanFile(h2, venue, first.written.value, parse, now, isIso, true).executed == []
  {
    var data := JArr([JObj(good), JObj(map[])]);
    OrderThenBadEntry(h, venue, good, parse, now, isIso, true);
    RescanExecutesNothing(h, h2, venue, data, parse, now, isIso, true);
  }
}
