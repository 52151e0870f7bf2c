/**
 * The trader's execution gate: what `execute_signal` does with a strategy
 * signal, which exchange and AI calls it makes, and which order (if any) it
 * places. The exchange and the AI service are oracles: each call's outcome
 * is given up front, and the model records the calls in the order made.
 */
module Trader {
  import opened Wrappers
  import opened Json
  import opened Risk
  import opened DeepSeek
  import DoubleMa

  type Action = DoubleMa.Action

  /** The arguments of one `place_order` call. */
  datatype OrderRequest = OrderRequest(
    symbol: string, side: string, orderType: string, quantity: real,
    positionSide: string, reduceOnly: bool)

  /** One call into the exchange or the AI service. */
  datatype Call =
    | GetBalance
    | GetPositions(symbol: string)
    | AskSentiment(symbol: string)
    | AskSignal(symbol: string)
    | GetTicker(symbol: string)
    | PlaceOrder(request: OrderRequest)

  /** What each exchange call would answer (or that it raises). */
  datatype Exchange = Exchange(
    balance: Attempt<Json>, positions: Attempt<seq<Json>>,
    ticker: Attempt<Json>, placed: Attempt<Json>)

  /** What the AI client's two calls would answer (or that they raise). */
  datatype AiReplies = AiReplies(sentiment: Attempt<SentimentReport>, signal: Attempt<AiSignal>)

  /** The trader's configuration and its symbol-information cache. */
  datatype TraderState = TraderState(
    risk: RiskConfig, leverage: int, exchangeInfo: Json, cache: map<string, Json>)

  /** The result of a trader operation: the order answer, the calls made, the cache afterwards. */
  datatype Execution = Execution(order: Option<Json>, calls: seq<Call>, cache: map<string, Json>)

  /** A balance entry for USDT. */
  predicate IsUsdt(j: Json) {
    j.JObj? && Get(j.fields, "asset", JNull) == JStr("USDT")
  }

  /** `float(x)` as an attempt. */
  function FloatOr(j: Json, parse: string -> Option<real>): (r: Attempt<real>)
    ensures r.Ok? <==> Float(j, parse).Some?
    ensures r.Ok? ==> r.value == Float(j, parse).value
  {
    match Float(j, parse)
    case Some(x) => Ok(x)
    case None => Raised
  }

  /** The available USDT balance in a list of balance entries: the first USDT entry's, else 0. */
  function UsdtBalance(items: seq<Json>, parse: string -> Option<real>): (r: Attempt<real>)
    ensures (forall i :: 0 <= i < |items| ==> items[i].JObj? && !IsUsdt(items[i])) ==> r == Ok(0.0)
    ensures forall k :: (0 <= k < |items| && IsUsdt(items[k])
                         && (forall j :: 0 <= j < k ==> items[j].JObj? && !IsUsdt(items[j]))) ==>
      r == FloatOr(Get(items[k].fields, "availableBalance", JInt(0)), parse)
  {
    if |items| == 0 then Ok(0.0)
    else if !items[0].JObj? then Raised
    else if IsUsdt(items[0]) then FloatOr(Get(items[0].fields, "availableBalance", JInt(0)), parse)
    else
      assert forall i :: 0 <= i < |items| - 1 ==> items[1..][i] == items[i + 1];
      UsdtBalance(items[1..], parse)
  }

  /**
   * `_get_available_balance`: for a list, the `availableBalance` of its first
   * USDT entry, or 0 when no entry is for USDT; 0 for an answer that is not a list.
   */
  function AvailableBalance(info: Json, parse: string -> Option<real>): (r: Attempt<real>)
    ensures !info.JArr? ==> r == Ok(0.0)
    ensures info.JArr? && (forall i :: 0 <= i < |info.items| ==> info.items[i].JObj? && !IsUsdt(info.items[i])) ==>
      r == Ok(0.0)
    ensures info.JArr? ==> forall k :: (0 <= k < |info.items| && IsUsdt(info.items[k])
                         && (forall j :: 0 <= j < k ==> info.items[j].JObj? && !IsUsdt(info.items[j]))) ==>
      r == FloatOr(Get(info.items[k].fields, "availableBalance", JInt(0)), parse)
  {
    if info.JArr? then UsdtBalance(info.items, parse) else Ok(0.0)
  }

  /** The position `_get_current_position` reports. */
  datatype Held = Held(amount: real, entryPrice: real, unrealizedProfit: real, leverage: real, positionSide: Json)

  /** An exchange position entry for `symbol`. */
  predicate ForSymbol(j: Json, symbol: string) {
    j.JObj? && Get(j.fields, "symbol", JNull) == JStr(symbol)
  }

  /** The position an entry describes, when its amount, entry price, profit and leverage all convert. */
  function HeldOf(pos: Json, parse: string -> Option<real>): Attempt<Held> {
    if !pos.JObj? then Raised
    else match (FloatOr(Get(pos.fields, "positionAmt", JInt(0)), parse),
                FloatOr(Get(pos.fields, "entryPrice", JInt(0)), parse),
                FloatOr(Get(pos.fields, "unRealizedProfit", JInt(0)), parse),
                FloatOr(Get(pos.fields, "leverage", JInt(1)), parse))
      case (Ok(a), Ok(e), Ok(u), Ok(l)) => Ok(Held(a, e, u, l, Get(pos.fields, "positionSide", JStr("BOTH"))))
      case _ => Raised
  }

  /** An entry for the symbol whose amount converts to a non-zero number. */
  predicate HoldsSymbol(p: Json, symbol: string, parse: string -> Option<real>) {
    ForSymbol(p, symbol) && Float(Get(p.fields, "positionAmt", JInt(0)), parse).Some?
    && Float(Get(p.fields, "positionAmt", JInt(0)), parse).value != 0.0
  }

  /** An entry the search walks past: an object for another symbol, or for this one with a zero amount. */
  predicate PassedOver(p: Json, symbol: string, parse: string -> Option<real>) {
    p.JObj? && (!ForSymbol(p, symbol) || Float(Get(p.fields, "positionAmt", JInt(0)), parse) == Some(0.0))
  }

  /**
   * `_get_current_position`: the position of the first entry for the symbol
   * with a non-zero amount (raising when one of its fields does not convert),
   * and none exactly when every entry is walked past.
   */
  function CurrentPosition(positions: seq<Json>, symbol: string, parse: string -> Option<real>): (r: Attempt<Option<Held>>)
    ensures r.Ok? && r.value.Some? ==> r.value.value.amount != 0.0
    ensures r == Ok(None) <==> forall i :: 0 <= i < |positions| ==> PassedOver(positions[i], symbol, parse)
    ensures forall k :: 0 <= k < |positions| && HoldsSymbol(positions[k], symbol, parse)
                        && (forall j :: 0 <= j < k ==> PassedOver(positions[j], symbol, parse)) ==>
      && (HeldOf(positions[k], parse).Ok? ==> r == Ok(Some(HeldOf(positions[k], parse).value)))
      && (HeldOf(positions[k], parse).Raised? ==> r == Raised)
    ensures r.Ok? && r.value.Some? ==>
      exists k :: (0 <= k < |positions| && HoldsSymbol(positions[k], symbol, parse)
        && (forall j :: 0 <= j < k ==> PassedOver(positions[j], symbol, parse))
        && HeldOf(positions[k], parse) == Ok(r.value.value))
  {
    if |positions| == 0 then Ok(None)
    else
      var pos := positions[0];
      assert forall i :: 0 <= i < |positions| - 1 ==> positions[1..][i] == positions[i + 1];
      if !pos.JObj? then Raised
      else if !ForSymbol(pos, symbol) then CurrentPosition(positions[1..], symbol, parse)
      else match FloatOr(Get(pos.fields, "positionAmt", JInt(0)), parse)
        case Raised => Raised
        case Ok(amt) =>
          if amt == 0.0 then CurrentPosition(positions[1..], symbol, parse)
          else match HeldOf(pos, parse)
            case Ok(h) => Ok(Some(h))
            case Raised => Raised
  }

  /** The first listed symbol entry whose `symbol` matches; an entry that is not an object raises. */
  function FindSymbol(symbols: seq<Json>, symbol: string): (r: Attempt<Option<Json>>)
    ensures r.Ok? && r.value.Some? ==> ForSymbol(r.value.value, symbol) && r.value.value in symbols
    ensures forall k :: 0 <= k < |symbols| && ForSymbol(symbols[k], symbol)
                        && (forall j :: 0 <= j < k ==> symbols[j].JObj? && !ForSymbol(symbols[j], symbol)) ==>
      r == Ok(Some(symbols[k]))
    ensures r == Ok(None) <==> forall i :: 0 <= i < |symbols| ==> symbols[i].JObj? && !ForSymbol(symbols[i], symbol)
  {
    if |symbols| == 0 then Ok(None)
    else if !symbols[0].JObj? then Raised
    else if ForSymbol(symbols[0], symbol) then Ok(Some(symbols[0]))
    else
      assert forall i :: 0 <= i < |symbols| - 1 ==> symbols[1..][i] == symbols[i + 1];
      FindSymbol(symbols[1..], symbol)
  }

  /** The search raises exactly when it meets an entry that is not an object before any match. */
  lemma {:induction false} FindSymbolRaises(symbols: seq<Json>, symbol: string)
    ensures FindSymbol(symbols, symbol).Raised? <==>
      exists k :: 0 <= k < |symbols| && !symbols[k].JObj?
        && (forall j :: 0 <= j < k ==> symbols[j].JObj? && !ForSymbol(symbols[j], symbol))
    decreases |symbols|
  {
    if |symbols| > 0 && symbols[0].JObj? && !ForSymbol(symbols[0], symbol) {
      FindSymbolRaises(symbols[1..], symbol);
      if FindSymbol(symbols, symbol).Raised? {
        var k :| 0 <= k < |symbols[1..]| && !symbols[1..][k].JObj?
          && (forall j :: 0 <= j < k ==> symbols[1..][j].JObj? && !ForSymbol(symbols[1..][j], symbol));
        assert forall j :: 0 <= j < k + 1 ==> symbols[j].JObj? && !ForSymbol(symbols[j], symbol) by {
          forall j | 0 <= j < k + 1 ensures symbols[j].JObj? && !ForSymbol(symbols[j], symbol) {
            if j > 0 { assert symbols[j] == symbols[1..][j - 1]; }
          }
        }
        assert !symbols[k + 1].JObj?;
      } else {
        forall k | 0 <= k < |symbols| && !symbols[k].JObj?
          ensures !(forall j :: 0 <= j < k ==> symbols[j].JObj? && !ForSymbol(symbols[j], symbol))
        {
          if forall j :: 0 <= j < k ==> symbols[j].JObj? && !ForSymbol(symbols[j], symbol) {
            assert k > 0;
            assert symbols[1..][k - 1] == symbols[k];
            assert forall j :: 0 <= j < k - 1 ==> symbols[1..][j] == symbols[j + 1];
          }
        }
      }
    } else if |symbols| > 0 && !symbols[0].JObj? {
      assert !symbols[0].JObj?;
    }
  }

  /** The outcome of `get_symbol_info`: the entry found (if any) and the cache afterwards. */
  datatype Lookup = Lookup(info: Option<Json>, cache: map<string, Json>)

  /** `get_symbol_info`: the cache first, then the exchange information, caching what is found. */
  function GetSymbolInfo(t: TraderState, symbol: string): (r: Attempt<Lookup>)
    ensures symbol in t.cache ==> r == Ok(Lookup(Some(t.cache[symbol]), t.cache))
    ensures r.Ok? && r.value.info.Some? ==> symbol in r.value.cache && r.value.cache[symbol] == r.value.info.value
    ensures r.Ok? ==> (t.cache.Keys <= r.value.cache.Keys
      && forall s :: s in t.cache ==> r.value.cache[s] == t.cache[s])
    ensures r.Ok? && r.value.info.None? ==> r.value.cache == t.cache
  {
    if symbol in t.cache then Ok(Lookup(Some(t.cache[symbol]), t.cache))
    else if !Truthy(t.exchangeInfo) then Ok(Lookup(None, t.cache))
    else if !t.exchangeInfo.JObj? then Raised
    else match Get(t.exchangeInfo.fields, "symbols", JArr([]))
      case JArr(items) =>
        (match FindSymbol(items, symbol)
         case Raised => Raised
         case Ok(None) => Ok(Lookup(None, t.cache))
         case Ok(Some(s)) => Ok(Lookup(Some(s), t.cache[symbol := s])))
      case j => if !Truthy(j) && (j.JObj? || j.JStr?) then Ok(Lookup(None, t.cache)) else Raised
  }

  /** Once cached, a symbol's information no longer depends on the exchange information. */
  lemma CachedInfoWins(t: TraderState, symbol: string, info: Json)
    requires symbol in t.cache
    ensures GetSymbolInfo(t.(exchangeInfo := info), symbol) == GetSymbolInfo(t, symbol)
  {
  }

  /** `ticker['price']` converted with `float`; anything else raises. */
  function TickerPrice(ticker: Json, parse: string -> Option<real>): (r: Attempt<real>)
    ensures r.Ok? <==> ticker.JObj? && "price" in ticker.fields && Float(ticker.fields["price"], parse).Some?
    ensures r.Ok? ==> r.value == Float(ticker.fields["price"], parse).value
  {
    if ticker.JObj? && "price" in ticker.fields then FloatOr(ticker.fields["price"], parse) else Raised
  }

  /** The actions that open a position. */
  predicate Opens(a: Action) {
    a.Buy? || a.Sell?
  }

  /** The side string the exchange expects for an opening action. */
  function SideName(a: Action): string {
    if a == DoubleMa.Buy then "BUY" else "SELL"
  }

  /** What `_open_position` learned before placing: price, filters and size. */
  datatype Plan = Plan(price: real, filters: seq<Filter>, sizing: Sizing)

  /** Everything `_open_position` computes before calling `place_order`; `None` means it returns None first. */
  function OpenPlan(t: TraderState, symbol: string, available: real, ex: Exchange, parse: string -> Option<real>): (r: Attempt<(Plan, map<string, Json>)>)
    ensures r.Ok? ==> ValidateOrder(r.value.0.filters, r.value.0.sizing.quantity, r.value.0.price).Valid?
    ensures r.Ok? ==> ex.ticker.Ok? && TickerPrice(ex.ticker.value, parse) == Ok(r.value.0.price)
    ensures r.Ok? ==> r.value.0.sizing.leverage <= t.risk.maxLeverage
  {
    if ex.ticker.Raised? then Raised
    else match TickerPrice(ex.ticker.value, parse)
      case Raised => Raised
      case Ok(price) =>
        match GetSymbolInfo(t, symbol)
        case Raised => Raised
        case Ok(lookup) =>
          if lookup.info.None? || !Truthy(lookup.info.value) || !lookup.info.value.JObj? then Raised
          else match FiltersOf(lookup.info.value.fields, parse)
            case Raised => Raised
            case Ok(fs) =>
              match CalculatePositionSize(t.risk, available, price, t.leverage, fs)
              case Raised => Raised
              case Ok(sizing) =>
                if ValidateOrder(fs, sizing.quantity, price).Invalid? then Raised
                else Ok((Plan(price, fs, sizing), lookup.cache))
  }

  /** The cache after `_open_position` ran: a found symbol stays cached even if a later step failed. */
  function CacheAfterOpen(t: TraderState, symbol: string, ex: Exchange, parse: string -> Option<real>): map<string, Json> {
    if ex.ticker.Raised? || TickerPrice(ex.ticker.value, parse).Raised? then t.cache
    else match GetSymbolInfo(t, symbol)
      case Raised => t.cache
      case Ok(lookup) => lookup.cache
  }

  /** `_open_position`: a MARKET order for the sized quantity with position side BOTH, never reduce-only. */
  function OpenPosition(t: TraderState, symbol: string, side: string, available: real, ex: Exchange, parse: string -> Option<real>): (r: Execution)
    ensures |r.calls| >= 1 && r.calls[0] == GetTicker(symbol)
    ensures r.cache == CacheAfterOpen(t, symbol, ex, parse)
    ensures |r.calls| <= 2
    ensures |r.calls| == 2 <==> OpenPlan(t, symbol, available, ex, parse).Ok?
    ensures |r.calls| == 2 ==> r.calls[1] == PlaceOrder(OrderRequest(
      symbol, side, "MARKET", OpenPlan(t, symbol, available, ex, parse).value.0.sizing.quantity, "BOTH", false))
    ensures r.order.Some? <==> |r.calls| == 2 && ex.placed.Ok?
  {
    var cache := CacheAfterOpen(t, symbol, ex, parse);
    match OpenPlan(t, symbol, available, ex, parse)
    case Raised => Execution(None, [GetTicker(symbol)], cache)
    case Ok((plan, _)) =>
      var request := OrderRequest(symbol, side, "MARKET", plan.sizing.quantity, "BOTH", false);
      var order := if ex.placed.Ok? then Some(ex.placed.value) else None;
      Execution(order, [GetTicker(symbol), PlaceOrder(request)], cache)
  }

  /** `_close_position`: the opposite side for the whole amount, reduce-only. */
  function ClosePosition(symbol: string, held: Held, ex: Exchange): (r: Execution)
    ensures |r.calls| == 1 && r.calls[0].PlaceOrder?
    ensures var req := r.calls[0].request;
      && req.reduceOnly && req.positionSide == "BOTH" && req.orderType == "MARKET"
      && (req.side == "SELL" <==> held.amount > 0.0)
      && (req.side == "BUY" <==> held.amount <= 0.0)
      && req.quantity >= 0.0 && (req.quantity == held.amount || req.quantity == -held.amount)
    ensures r.order.Some? <==> ex.placed.Ok?
  {
    var side := if held.amount > 0.0 then "SELL" else "BUY";
    var quantity := if held.amount < 0.0 then -held.amount else held.amount;
    var order := if ex.placed.Ok? then Some(ex.placed.value) else None;
    Execution(order, [PlaceOrder(OrderRequest(symbol, side, "MARKET", quantity, "BOTH", true))], map[])
  }

  /**
   * `_get_ai_confirmation` as seen by `execute_signal`: the AI's action, or
   * the local one when either AI call raises, and the calls it made.
   */
  function AiConfirmation(symbol: string, local: Action, ai: AiReplies): (r: (Json, seq<Call>))
    ensures ai.sentiment.Raised? ==> r == (JStr(SideName(local)), [AskSentiment(symbol)])
    ensures ai.sentiment.Ok? && ai.signal.Raised? ==> r == (JStr(SideName(local)), [AskSentiment(symbol), AskSignal(symbol)])
    ensures ai.sentiment.Ok? && ai.signal.Ok? ==> r == (ai.signal.value.action, [AskSentiment(symbol), AskSignal(symbol)])
  {
    match ai.sentiment
    case Raised => (JStr(SideName(local)), [AskSentiment(symbol)])
    case Ok(_) =>
      match ai.signal
      case Raised => (JStr(SideName(local)), [AskSentiment(symbol), AskSignal(symbol)])
      case Ok(s) => (s.action, [AskSentiment(symbol), AskSignal(symbol)])
  }

  /** The AI check `execute_signal` runs before opening: only with an AI client and below confidence 90. */
  function AiGate(symbol: string, local: Action, confidence: int, ai: Option<AiReplies>): (r: (Json, seq<Call>))
    ensures AskSentiment(symbol) in r.1 ==> ai.Some? && confidence < 90
    ensures ai.None? || confidence >= 90 ==> r == (JStr(SideName(local)), [])
    ensures forall c :: c in r.1 ==> c in {AskSentiment(symbol), AskSignal(symbol)}
  {
    if ai.Some? && confidence < 90 then AiConfirmation(symbol, local, ai.value) else (JStr(SideName(local)), [])
  }

  /** The state the exchange reports before any decision: balance, current position, risk grade. */
  datatype Account = Account(available: real, current: Option<Held>, report: RiskReport)

  /** The account facts `execute_signal` gathers; `Raised` when any of those steps raises. */
  function AccountOf(symbol: string, ex: Exchange, parse: string -> Option<real>): (r: Attempt<Account>)
    ensures r.Ok? && r.value.current.Some? ==> r.value.current.value.amount != 0.0
    ensures r.Ok? <==> (ex.balance.Ok? && ex.positions.Ok? && AvailableBalance(ex.balance.value, parse).Ok?
      && CurrentPosition(ex.positions.value, symbol, parse).Ok?
      && CheckPositionRisk(ex.positions.value, AvailableBalance(ex.balance.value, parse).value, parse).Ok?)
    ensures r.Ok? ==>
      && r.value.available == AvailableBalance(ex.balance.value, parse).value
      && r.value.current == CurrentPosition(ex.positions.value, symbol, parse).value
      && r.value.report == CheckPositionRisk(ex.positions.value, r.value.available, parse).value
  {
    if ex.balance.Raised? || ex.positions.Raised? then Raised
    else match (AvailableBalance(ex.balance.value, parse))
      case Raised => Raised
      case Ok(available) =>
        match (CurrentPosition(ex.positions.value, symbol, parse), CheckPositionRisk(ex.positions.value, available, parse))
        case (Ok(current), Ok(report)) => Ok(Account(available, current, report))
        case _ => Raised
  }

  /** The calls made while gathering the account facts. */
  function AccountCalls(symbol: string, ex: Exchange, parse: string -> Option<real>): (r: seq<Call>)
    ensures forall c :: c in r ==> c in {GetBalance, GetPositions(symbol)}
    ensures forall c :: c in r ==> !c.PlaceOrder?
    ensures AskSentiment(symbol) !in r
  {
    if ex.balance.Raised? || AvailableBalance(ex.balance.value, parse).Raised? then [GetBalance]
    else [GetBalance, GetPositions(symbol)]
  }

  /** A BUY or SELL once the account allows it: the AI gate, then `_open_position`. */
  function Opening(
    t: TraderState, symbol: string, action: Action, confidence: int,
    ai: Option<AiReplies>, ex: Exchange, parse: string -> Option<real>, available: real): (r: Execution)
    requires Opens(action)
    ensures forall i :: 0 <= i < |r.calls| && r.calls[i].PlaceOrder? ==> i == |r.calls| - 1
    ensures r.order.Some? ==> |r.calls| > 0 && r.calls[|r.calls| - 1].PlaceOrder? && ex.placed.Ok?
    ensures AskSentiment(symbol) in r.calls ==> ai.Some? && confidence < 90
  {
    var gate := AiGate(symbol, action, confidence, ai);
    if gate.0 == JStr("HOLD") then Execution(None, gate.1, t.cache)
    else
      var o := OpenPosition(t, symbol, SideName(action), available, ex, parse);
      assert AskSentiment(symbol) !in o.calls;
      Execution(o.order, gate.1 + o.calls, o.cache)
  }

  /** What `execute_signal` does with the account facts in hand. */
  function Decide(
    t: TraderState, symbol: string, action: Action, confidence: int,
    ai: Option<AiReplies>, ex: Exchange, parse: string -> Option<real>, account: Account): (r: Execution)
    requires action != DoubleMa.Hold
    ensures forall i :: 0 <= i < |r.calls| && r.calls[i].PlaceOrder? ==> i == |r.calls| - 1
    ensures r.order.Some? ==> |r.calls| > 0 && r.calls[|r.calls| - 1].PlaceOrder? && ex.placed.Ok?
    ensures AskSentiment(symbol) in r.calls ==>
      ai.Some? && confidence < 90 && Opens(action)
  {
    if action == DoubleMa.Close then
      if account.current.Some? then
        var c := ClosePosition(symbol, account.current.value, ex);
        Execution(c.order, c.calls, t.cache)
      else Execution(None, [], t.cache)
    else if account.current.Some? || account.report.riskLevel == High then Execution(None, [], t.cache)
    else Opening(t, symbol, action, confidence, ai, ex, parse, account.available)
  }

  /** `execute_signal`; every exception inside it yields no order. */
  function ExecuteSignal(
    t: TraderState, symbol: string, action: Action, confidence: int,
    ai: Option<AiReplies>, ex: Exchange, parse: string -> Option<real>): (r: Execution)
    ensures action == DoubleMa.Hold ==> r == Execution(None, [], t.cache)
    ensures forall i :: 0 <= i < |r.calls| && r.calls[i].PlaceOrder? ==> i == |r.calls| - 1
    ensures r.order.Some? ==> |r.calls| > 0 && r.calls[|r.calls| - 1].PlaceOrder? && ex.placed.Ok?
    ensures AskSentiment(symbol) in r.calls ==>
      ai.Some? && confidence < 90 && Opens(action)
  {
    if action == DoubleMa.Hold then Execution(None, [], t.cache)
    else
      var pre := AccountCalls(symbol, ex, parse);
      match AccountOf(symbol, ex, parse)
      case Raised => Execution(None, pre, t.cache)
      case Ok(account) =>
        var d := Decide(t, symbol, action, confidence, ai, ex, parse, account);
        assert AskSentiment(symbol) in pre + d.calls ==> AskSentiment(symbol) in d.calls;
        Execution(d.order, pre + d.calls, d.cache)
  }

  /** The order request placed by an execution, if any. */
  function Placed(r: Execution): Option<OrderRequest> {
    if |r.calls| > 0 && r.calls[|r.calls| - 1].PlaceOrder? then Some(r.calls[|r.calls| - 1].request) else None
  }

  /**
   * A CLOSE places an order only for an existing non-zero position: the
   * opposite side, the whole amount, reduce-only. Without a position it
   * places nothing.
   */
  lemma CloseRule(
    t: TraderState, symbol: string, confidence: int,
    ai: Option<AiReplies>, ex: Exchange, parse: string -> Option<real>)
    ensures var r := ExecuteSignal(t, symbol, DoubleMa.Close, confidence, ai, ex, parse);
      && (Placed(r).Some? <==> AccountOf(symbol, ex, parse).Ok? && AccountOf(symbol, ex, parse).value.current.Some?)
      && (Placed(r).Some? ==>
            var held := AccountOf(symbol, ex, parse).value.current.value;
            var req := Placed(r).value;
            && req.reduceOnly && req.symbol == symbol
            && (req.side == "SELL" <==> held.amount > 0.0)
            && (req.quantity == held.amount || req.quantity == -held.amount) && req.quantity > 0.0)
  {
  }

  /**
   * An opening order is placed only when no position is held, the risk grade
   * is not HIGH, the AI (if asked) did not answer HOLD, and the sized
   * quantity passed every exchange filter at the ticker price; it is a
   * MARKET order on the signal's side and never reduce-only.
   */
  lemma OpenRule(
    t: TraderState, symbol: string, action: Action, confidence: int,
    ai: Option<AiReplies>, ex: Exchange, parse: string -> Option<real>)
    requires Opens(action)
    ensures var r := ExecuteSignal(t, symbol, action, confidence, ai, ex, parse);
      Placed(r).Some? ==>
        var account := AccountOf(symbol, ex, parse).value;
        var req := Placed(r).value;
        && AccountOf(symbol, ex, parse).Ok?
        && account.current.None? && account.report.riskLevel != High
        && !req.reduceOnly && req.side == SideName(action) && req.orderType == "MARKET"
        && OpenPlan(t, symbol, account.available, ex, parse).Ok?
        && var plan := OpenPlan(t, symbol, account.available, ex, parse).value.0;
           req.quantity == plan.sizing.quantity
           && ValidateOrder(plan.filters, req.quantity, plan.price).Valid?
  {
    var r := ExecuteSignal(t, symbol, action, confidence, ai, ex, parse);
    var pre := AccountCalls(symbol, ex, parse);
    if Placed(r).Some? {
      assert AccountOf(symbol, ex, parse).Ok?;
      var account := AccountOf(symbol, ex, parse).value;
      var d := Decide(t, symbol, action, confidence, ai, ex, parse, account);
      assert r == Execution(d.order, pre + d.calls, d.cache);
      PlacedAfter(pre, d);
      assert account.current.None? && account.report.riskLevel != High;
      assert d == Opening(t, symbol, action, confidence, ai, ex, parse, account.available);
      OpeningPlaces(t, symbol, action, confidence, ai, ex, parse, account.available);
    }
  }

  /**
   * Conversely, with no position held, a risk grade below HIGH, an AI gate
   * that did not answer HOLD and a plan that passed every step, the MARKET
   * order for the sized quantity on the signal's side is placed.
   */
  lemma OpenRuleConverse(
    t: TraderState, symbol: string, action: Action, confidence: int,
    ai: Option<AiReplies>, ex: Exchange, parse: string -> Option<real>)
    requires Opens(action)
    requires AccountOf(symbol, ex, parse).Ok?
    requires AccountOf(symbol, ex, parse).value.current.None?
    requires AccountOf(symbol, ex, parse).value.report.riskLevel != High
    requires AiGate(symbol, action, confidence, ai).0 != JStr("HOLD")
    requires OpenPlan(t, symbol, AccountOf(symbol, ex, parse).value.available, ex, parse).Ok?
    ensures var r := ExecuteSignal(t, symbol, action, confidence, ai, ex, parse);
      var plan := OpenPlan(t, symbol, AccountOf(symbol, ex, parse).value.available, ex, parse).value.0;
      && Placed(r) == Some(OrderRequest(symbol, SideName(action), "MARKET", plan.sizing.quantity, "BOTH", false))
      && (r.order.Some? <==> ex.placed.Ok?)
  {
    var account := AccountOf(symbol, ex, parse).value;
    var pre := AccountCalls(symbol, ex, parse);
    var d := Decide(t, symbol, action, confidence, ai, ex, parse, account);
    var gate := AiGate(symbol, action, confidence, ai);
    var o := OpenPosition(t, symbol, SideName(action), account.available, ex, parse);
    assert d == Opening(t, symbol, action, confidence, ai, ex, parse, account.available);
    assert d.calls == gate.1 + o.calls;
    assert d.calls[|d.calls| - 1] == o.calls[1];
    PlacedAfter(pre, d);
  }

  /** `OpenRule` once the account allows opening. */
  lemma OpeningPlaces(
    t: TraderState, symbol: string, action: Action, confidence: int,
    ai: Option<AiReplies>, ex: Exchange, parse: string -> Option<real>, available: real)
    requires Opens(action)
    ensures var r := Opening(t, symbol, action, confidence, ai, ex, parse, available);
      Placed(r).Some? ==>
        var req := Placed(r).value;
        && !req.reduceOnly && req.side == SideName(action) && req.orderType == "MARKET"
        && OpenPlan(t, symbol, available, ex, parse).Ok?
        && req.quantity == OpenPlan(t, symbol, available, ex, parse).value.0.sizing.quantity
  {
    var gate := AiGate(symbol, action, confidence, ai);
    var r := Opening(t, symbol, action, confidence, ai, ex, parse, available);
    if Placed(r).Some? {
      if gate.0 != JStr("HOLD") {
        var o := OpenPosition(t, symbol, SideName(action), available, ex, parse);
        assert r.calls == gate.1 + o.calls;
        assert r.calls[|r.calls| - 1] == o.calls[|o.calls| - 1];
        assert |o.calls| == 2;
      }
    }
  }

  /** A signal at confidence 90 or more never consults the AI. */
  lemma HighConfidenceSkipsAi(
    t: TraderState, symbol: string, action: Action, confidence: int,
    ai: Option<AiReplies>, ex: Exchange, parse: string -> Option<real>)
    requires confidence >= 90
    ensures ExecuteSignal(t, symbol, action, confidence, ai, ex, parse)
         == ExecuteSignal(t, symbol, action, confidence, None, ex, parse)
    ensures AskSentiment(symbol) !in ExecuteSignal(t, symbol, action, confidence, ai, ex, parse).calls
  {
  }

  /**
   * When either AI call raises, the local action is kept: the order placed
   * and the resulting cache are those of a trader without AI.
   */
  lemma AiFailureFallsBack(
    t: TraderState, symbol: string, action: Action, confidence: int,
    ai: AiReplies, ex: Exchange, parse: string -> Option<real>)
    requires ai.sentiment.Raised? || ai.signal.Raised?
    ensures var with := ExecuteSignal(t, symbol, action, confidence, Some(ai), ex, parse);
      var without := ExecuteSignal(t, symbol, action, confidence, None, ex, parse);
      with.order == without.order && with.cache == without.cache && Placed(with) == Placed(without)
  {
    if action != DoubleMa.Hold && AccountOf(symbol, ex, parse).Ok? {
      var account := AccountOf(symbol, ex, parse).value;
      var pre := AccountCalls(symbol, ex, parse);
      var d1 := Decide(t, symbol, action, confidence, Some(ai), ex, parse, account);
      var d2 := Decide(t, symbol, action, confidence, None, ex, parse, account);
      DecideFallsBack(t, symbol, action, confidence, ai, ex, parse, account);
      PlacedAfter(pre, d1);
      PlacedAfter(pre, d2);
    }
  }

  /** A prefix of non-order calls does not change which order was placed. */
  lemma PlacedAfter(pre: seq<Call>, d: Execution)
    requires forall c :: c in pre ==> !c.PlaceOrder?
    ensures Placed(Execution(d.order, pre + d.calls, d.cache)) == Placed(d)
  {
    if |d.calls| == 0 {
      assert pre + d.calls == pre;
      if |pre| > 0 {
        assert pre[|pre| - 1] in pre;
      }
    } else {
      assert (pre + d.calls)[|pre + d.calls| - 1] == d.calls[|d.calls| - 1];
    }
  }

  /** `AiFailureFallsBack` once the account facts are known. */
  lemma DecideFallsBack(
    t: TraderState, symbol: string, action: Action, confidence: int,
    ai: AiReplies, ex: Exchange, parse: string -> Option<real>, account: Account)
    requires action != DoubleMa.Hold
    requires ai.sentiment.Raised? || ai.signal.Raised?
    ensures var with := Decide(t, symbol, action, confidence, Some(ai), ex, parse, account);
      var without := Decide(t, symbol, action, confidence, None, ex, parse, account);
      with.order == without.order && with.cache == without.cache && Placed(with) == Placed(without)
  {
    if Opens(action) && account.current.None? && account.report.riskLevel != High {
      OpeningFallsBack(t, symbol, action, confidence, ai, ex, parse, account.available);
    }
  }

  /** `AiFailureFallsBack` for the opening step alone. */
  lemma OpeningFallsBack(
    t: TraderState, symbol: string, action: Action, confidence: int,
    ai: AiReplies, ex: Exchange, parse: string -> Option<real>, available: real)
    requires Opens(action)
    requires ai.sentiment.Raised? || ai.signal.Raised?
    ensures var with := Opening(t, symbol, action, confidence, Some(ai), ex, parse, available);
      var without := Opening(t, symbol, action, confidence, None, ex, parse, available);
      with.order == without.order && with.cache == without.cache
      && (|with.calls| > 0 <==> |without.calls| > 0)
      && (|with.calls| > 0 ==> with.calls[|with.calls| - 1] == without.calls[|without.calls| - 1])
  {
    var o := OpenPosition(t, symbol, SideName(action), available, ex, parse);
    assert SideName(action) != "HOLD";
  }

  /** An AI answer of HOLD on a low-confidence open places nothing. */
  lemma AiHoldVetoes(
    t: TraderState, symbol: string, action: Action, confidence: int,
    ai: AiReplies, ex: Exchange, parse: string -> Option<real>)
    requires Opens(action) && confidence < 90
    requires ai.sentiment.Ok? && ai.signal.Ok? && ai.signal.value.action == JStr("HOLD")
    ensures ExecuteSignal(t, symbol, action, confidence, Some(ai), ex, parse).order.None?
    ensures Placed(ExecuteSignal(t, symbol, action, confidence, Some(ai), ex, parse)).None?
  {
  }

  /** The strategy only emits BUY or SELL at confidence 90, so its opens never reach the AI. */
  lemma StrategyOpensSkipAi(
    p: DoubleMa.Params, states: map<string, DoubleMa.SymbolState>, symbol: string,
    closes: seq<real>, interval: string, now: real,
    t: TraderState, ai: Option<AiReplies>, ex: Exchange, parse: string -> Option<real>)
    ensures var s := DoubleMa.Analyze(p, states, symbol, closes, interval, now).signal;
      AskSentiment(symbol) !in ExecuteSignal(t, symbol, s.action, s.confidence, ai, ex, parse).calls
  {
    var s := DoubleMa.Analyze(p, states, symbol, closes, interval, now).signal;
    if DoubleMa.Evaluated(p, closes) && Opens(s.action) {
      if s.action == DoubleMa.Buy {
        DoubleMa.BuyIff(p, states, symbol, closes, interval, now);
      } else {
        DoubleMa.SellIff(p, states, symbol, closes, interval, now);
      }
      HighConfidenceSkipsAi(t, symbol, s.action, s.confidence, ai, ex, parse);
    }
  }

  /**
   * As written, the DeepSeek client answers a failed call with HOLD, so a
   * low-confidence open is dropped whenever the AI service is down.
   */
  lemma DeepSeekOutageBlocksOpen(
    t: TraderState, symbol: string, action: Action, confidence: int,
    ex: Exchange, parse: string -> Option<real>, loads: string -> Option<Json>)
    requires Opens(action) && confidence < 90
    ensures var ai := AiReplies(Ok(GetMarketSentiment(Raised)), Ok(AnalyzeTradingSignal(Raised, loads)));
      Placed(ExecuteSignal(t, symbol, action, confidence, Some(ai), ex, parse)).None?
  {
  }

  /**
   * With the client that raises on a failed call, an outage leaves the
   * trader exactly where it would be without AI: the local signal is used.
   */
  lemma DeepSeekOutageFallsBack(
    t: TraderState, symbol: string, action: Action, confidence: int,
    ex: Exchange, parse: string -> Option<real>, loads: string -> Option<Json>)
    ensures var ai := AiReplies(Ok(GetMarketSentiment(Raised)), AnalyzeTradingSignalOrRaise(Raised, loads));
      var with := ExecuteSignal(t, symbol, action, confidence, Some(ai), ex, parse);
      var without := ExecuteSignal(t, symbol, action, confidence, None, ex, parse);
      with.order == without.order && Placed(with) == Placed(without)
  {
    var ai := AiReplies(Ok(GetMarketSentiment(Raised)), AnalyzeTradingSignalOrRaise(Raised, loads));
    AiFailureFallsBack(t, symbol, action, confidence, ai, ex, parse);
  }
}
