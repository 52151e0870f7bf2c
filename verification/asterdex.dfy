/**
 * Request-parameter preparation of the AsterDEX futures client: the
 * per-endpoint parameter sets and the signed form of a parameter map.
 * Serialisation (`json.dumps`, `str`) and the cryptography (ABI encoding,
 * Keccak-256, Ethereum message signing) are parameters of the model.
 */
module AsterDex {
  import opened Wrappers
  import opened Json
  import Text

  /** The serialisers: `json.dumps`, `json.dumps(..., sort_keys=True)` and `str` of a non-string scalar. */
  datatype Codec = Codec(dumps: Json -> string, dumpsSorted: Json -> string, show: Json -> string)

  /** ABI encoding of (message, user, signer, nonce), Keccak-256 as hex, and signing a hash with a private key (hex). */
  datatype Crypto = Crypto(
    encode: (string, string, string, int) -> string,
    keccak: string -> string,
    sign: (string, string) -> string)

  /** The client's identity and receive window. */
  datatype Client = Client(user: string, signer: string, privateKey: string, recvWindow: int)

  const DefaultRecvWindow := 50000

  function NewClient(user: string, signer: string, privateKey: string): (c: Client)
    ensures c.recvWindow == 50000 && c.user == user && c.signer == signer
  {
    Client(user, signer, privateKey, DefaultRecvWindow)
  }

  /** Python's `str(v)`: a string is itself, anything else goes through the codec. */
  function ToStr(c: Codec, v: Json): string {
    if v.JStr? then v.s else c.show(v)
  }

  /** Every value of the map is a string. */
  predicate Stringified(m: Object) {
    forall k :: k in m ==> m[k].JStr?
  }

  /**
   * `_trim_dict`: every value becomes a string. A dictionary becomes the JSON
   * of its own trimmed form; a list becomes the JSON of the list of its
   * items, dictionaries trimmed and dumped, everything else `str`'d.
   */
  function Trim(c: Codec, m: Object): (r: Object)
    decreases JObj(m), 1
    ensures r.Keys == m.Keys
    ensures Stringified(r)
    ensures forall k :: k in m && m[k].JStr? ==> r[k] == m[k]
  {
    map k | k in m :: JStr(Flatten(c, m[k]))
  }

  /** The string `_trim_dict` stores for one value. */
  function Flatten(c: Codec, v: Json): string
    decreases v, 2
  {
    match v
    case JArr(xs) => c.dumps(JArr(seq(|xs|, i requires 0 <= i < |xs| => JStr(ItemString(c, xs[i])))))
    case JObj(fs) => c.dumps(JObj(Trim(c, fs)))
    case _ => ToStr(c, v)
  }

  /** One list item: a dictionary is trimmed and dumped, anything else `str`'d. */
  function ItemString(c: Codec, x: Json): string
    decreases x, 3
  {
    if x.JObj? then c.dumps(JObj(Trim(c, x.fields))) else ToStr(c, x)
  }

  /**
   * What the caller's map holds after trimming its shallow copy: top-level
   * values stay as they were, but dictionaries reached through them (a
   * dictionary value, or a dictionary item of a list) are trimmed in place.
   */
  function InPlace(c: Codec, v: Json): (r: Json)
    ensures !v.JObj? && !v.JArr? ==> r == v
    ensures v.JObj? ==> r.JObj? && Stringified(r.fields) && r.fields.Keys == v.fields.Keys
    ensures v.JArr? ==> r.JArr? && |r.items| == |v.items|
  {
    match v
    case JObj(fs) => JObj(Trim(c, fs))
    case JArr(xs) => JArr(seq(|xs|, i requires 0 <= i < |xs| => if xs[i].JObj? then JObj(Trim(c, xs[i].fields)) else xs[i]))
    case _ => v
  }

  /** The parameters with `None` values dropped. */
  function WithoutNone(params: Object): (r: Object)
    ensures forall k :: k in r <==> k in params && !params[k].JNull?
    ensures forall k :: k in r ==> r[k] == params[k]
  {
    map k | k in params && !params[k].JNull? :: params[k]
  }

  /** The parameters before signing: `None`s dropped, `recvWindow` and `timestamp` set over any caller value. */
  function Stamped(client: Client, params: Object, timestamp: int): (r: Object)
    ensures r.Keys == WithoutNone(params).Keys + {"recvWindow", "timestamp"}
    ensures r["recvWindow"] == JInt(client.recvWindow) && r["timestamp"] == JInt(timestamp)
    ensures forall k :: k in r ==> !r[k].JNull?
  {
    WithoutNone(params)["recvWindow" := JInt(client.recvWindow)]["timestamp" := JInt(timestamp)]
  }

  /** The message signed: the key-sorted JSON of the trimmed parameters, spaces removed and `'` replaced by `\"`. */
  function SigningString(c: Codec, trimmed: Object): (s: string)
    ensures ' ' !in s
    ensures '\'' !in s
    ensures var d := c.dumpsSorted(JObj(trimmed));
      ' ' !in d && '\'' !in d ==> s == d
    ensures var d := c.dumpsSorted(JObj(trimmed));
      forall x :: x in d && x != ' ' && x != '\'' ==> x in s
  {
    var noSpaces := Text.Replace(c.dumpsSorted(JObj(trimmed)), ' ', "");
    Text.Replace(noSpaces, '\'', "\\\"")
  }

  /** The names `_sign_request` sets itself. */
  const Reserved: set<string> := {"recvWindow", "timestamp", "nonce", "user", "signer", "signature"}

  /** The hex signature of a signing string. */
  function Signature(client: Client, crypto: Crypto, message: string, nonce: int): (sig: string)
    ensures Text.StartsWith(sig, "0x")
  {
    "0x" + crypto.sign(crypto.keccak(crypto.encode(message, client.user, client.signer, nonce)), client.privateKey)
  }

  /** The second half of `_sign_request`: sign the stamped map and add the signing fields. */
  function SignStamped(client: Client, c: Codec, crypto: Crypto, stamped: Object, nonce: int): (r: Object)
    ensures r.Keys == stamped.Keys + {"nonce", "user", "signer", "signature"}
    ensures r["nonce"] == JInt(nonce) && r["user"] == JStr(client.user) && r["signer"] == JStr(client.signer)
    ensures r["signature"] == JStr(Signature(client, crypto, SigningString(c, Trim(c, stamped)), nonce))
    ensures forall k :: k in stamped && k !in {"nonce", "user", "signer", "signature"} ==> r[k] == InPlace(c, stamped[k])
  {
    var message := SigningString(c, Trim(c, stamped));
    var kept := map k | k in stamped :: InPlace(c, stamped[k]);
    kept["nonce" := JInt(nonce)]["user" := JStr(client.user)]["signer" := JStr(client.signer)]
      ["signature" := JStr(Signature(client, crypto, message, nonce))]
  }

  /**
   * `_sign_request`, with the clock readings `nonce` (microseconds) and
   * `timestamp` (milliseconds) as inputs. The result is the stamped map as
   * the trimming of its copy left it, plus nonce, user, signer and signature.
   */
  function SignRequest(client: Client, c: Codec, crypto: Crypto, params: Object, nonce: int, timestamp: int): (r: Object)
    ensures r.Keys == WithoutNone(params).Keys + Reserved
    ensures r["recvWindow"] == JInt(client.recvWindow) && r["timestamp"] == JInt(timestamp)
    ensures r["nonce"] == JInt(nonce) && r["user"] == JStr(client.user) && r["signer"] == JStr(client.signer)
    ensures r["signature"].JStr? && Text.StartsWith(r["signature"].s, "0x")
    ensures forall k :: k in params && !params[k].JNull? && k !in Reserved ==> r[k] == InPlace(c, params[k])
  {
    var stamped := Stamped(client, params, timestamp);
    assert stamped.Keys + {"nonce", "user", "signer", "signature"} == WithoutNone(params).Keys + Reserved;
    assert forall k :: k in params && !params[k].JNull? && k !in Reserved ==> k in stamped && stamped[k] == params[k];
    SignStamped(client, c, crypto, stamped, nonce)
  }

  /** The signature `SignRequest` attaches, written through the signing string it signs. */
  lemma SignsTrimmedStamp(client: Client, c: Codec, crypto: Crypto, params: Object, nonce: int, timestamp: int)
    ensures SignRequest(client, c, crypto, params, nonce, timestamp)["signature"]
      == JStr(Signature(client, crypto, SigningString(c, Trim(c, Stamped(client, params, timestamp))), nonce))
  {
  }

  /** Trimming an already trimmed map changes nothing. */
  lemma TrimIdempotent(c: Codec, m: Object)
    ensures Trim(c, Trim(c, m)) == Trim(c, m)
  {
    var t := Trim(c, m);
    forall k | k in t
      ensures Trim(c, t)[k] == t[k]
    {
      assert t[k].JStr?;
    }
  }

  /** Two parameter maps that agree once `None`s are dropped are signed alike: a `None` value is the same as no entry. */
  lemma {:induction false} NoneIsAbsent(client: Client, c: Codec, crypto: Crypto, params: Object, k: string, nonce: int, timestamp: int)
    ensures SignRequest(client, c, crypto, params[k := JNull], nonce, timestamp)
         == SignRequest(client, c, crypto, params - {k}, nonce, timestamp)
  {
    assert WithoutNone(params[k := JNull]) == WithoutNone(params - {k});
    assert Stamped(client, params[k := JNull], timestamp) == Stamped(client, params - {k}, timestamp);
  }

  /** Without dictionaries or lists among the values, the caller's values come back unchanged. */
  lemma ScalarsKept(client: Client, c: Codec, crypto: Crypto, params: Object, nonce: int, timestamp: int)
    requires forall k :: k in params ==> !params[k].JObj? && !params[k].JArr?
    ensures var r := SignRequest(client, c, crypto, params, nonce, timestamp);
      forall k :: k in params && !params[k].JNull? && k !in Reserved ==> r[k] == params[k]
  {
  }

  /** A dictionary value comes back trimmed in place: every one of its values is now a string. */
  lemma NestedTrimmedInPlace(client: Client, c: Codec, crypto: Crypto, params: Object, k: string, nonce: int, timestamp: int)
    requires k in params && params[k].JObj? && k !in Reserved
    ensures var r := SignRequest(client, c, crypto, params, nonce, timestamp);
      r[k].JObj? && Stringified(r[k].fields) && r[k].fields.Keys == params[k].fields.Keys
  {
  }

  /** `x` is truthy (an optional integer: present and nonzero). */
  predicate GivenInt(x: Option<int>) {
    x.Some? && x.value != 0
  }

  /** An optional string is truthy: present and non-empty. */
  predicate GivenStr(x: Option<string>) {
    x.Some? && |x.value| > 0
  }

  /** `get_klines`: symbol, interval and limit; start and end times only when truthy. */
  function KlinesParams(symbol: string, interval: string, startTime: Option<int>, endTime: Option<int>, limit: int): (r: Object)
    ensures r.Keys == {"symbol", "interval", "limit"}
      + (if GivenInt(startTime) then {"startTime"} else {})
      + (if GivenInt(endTime) then {"endTime"} else {})
    ensures r["symbol"] == JStr(symbol) && r["interval"] == JStr(interval) && r["limit"] == JInt(limit)
    ensures GivenInt(startTime) ==> r["startTime"] == JInt(startTime.value)
    ensures GivenInt(endTime) ==> r["endTime"] == JInt(endTime.value)
  {
    var base := map["symbol" := JStr(symbol), "interval" := JStr(interval), "limit" := JInt(limit)];
    var withStart := if GivenInt(startTime) then base["startTime" := JInt(startTime.value)] else base;
    if GivenInt(endTime) then withStart["endTime" := JInt(endTime.value)] else withStart
  }

  const DefaultKlinesLimit := 500

  /** `get_ticker_price` and `get_position_info`: the symbol only when given and non-empty. */
  function SymbolParams(symbol: Option<string>): (r: Object)
    ensures "symbol" in r <==> GivenStr(symbol)
    ensures r.Keys <= {"symbol"}
    ensures "symbol" in r ==> r["symbol"] == JStr(symbol.value)
  {
    if GivenStr(symbol) then map["symbol" := JStr(symbol.value)] else map[]
  }

  /** The arguments of `place_order`; position side `BOTH`, time in force `GTC` and not reduce-only by default. */
  datatype OrderArgs = OrderArgs(
    symbol: string, side: string, orderType: string, quantity: string, price: Option<string>,
    positionSide: string, timeInForce: string, reduceOnly: bool)

  function MarketOrder(symbol: string, side: string, quantity: string): (a: OrderArgs)
    ensures a.positionSide == "BOTH" && a.timeInForce == "GTC" && !a.reduceOnly && a.price.None?
  {
    OrderArgs(symbol, side, "MARKET", quantity, None, "BOTH", "GTC", false)
  }

  /** `place_order`: `positionSide` and `reduceOnly` always, `price` only when truthy, `timeInForce` only for LIMIT. */
  function OrderParams(a: OrderArgs): (r: Object)
    ensures {"symbol", "side", "type", "quantity", "positionSide", "reduceOnly"} <= r.Keys
    ensures "price" in r <==> GivenStr(a.price)
    ensures "timeInForce" in r <==> a.orderType == "LIMIT"
    ensures r.Keys <= {"symbol", "side", "type", "quantity", "positionSide", "reduceOnly", "price", "timeInForce"}
    ensures r["reduceOnly"] == JBool(a.reduceOnly) && r["positionSide"] == JStr(a.positionSide)
    ensures r["type"] == JStr(a.orderType) && r["quantity"] == JStr(a.quantity) && r["side"] == JStr(a.side)
    ensures "price" in r ==> r["price"] == JStr(a.price.value)
    ensures "timeInForce" in r ==> r["timeInForce"] == JStr(a.timeInForce)
  {
    var base := map["symbol" := JStr(a.symbol), "side" := JStr(a.side), "type" := JStr(a.orderType),
      "quantity" := JStr(a.quantity), "positionSide" := JStr(a.positionSide), "reduceOnly" := JBool(a.reduceOnly)];
    var priced := if GivenStr(a.price) then base["price" := JStr(a.price.value)] else base;
    if a.orderType == "LIMIT" then priced["timeInForce" := JStr(a.timeInForce)] else priced
  }

  /** Every `place_order` value is present, so signing keeps all of its keys. */
  lemma OrderParamsPresent(a: OrderArgs)
    ensures WithoutNone(OrderParams(a)).Keys == OrderParams(a).Keys
  {
  }

  /** A signed order carries the order fields exactly as `place_order` set them, plus the signing fields. */
  lemma SignedOrder(client: Client, c: Codec, crypto: Crypto, a: OrderArgs, nonce: int, timestamp: int)
    ensures SignRequest(client, c, crypto, OrderParams(a), nonce, timestamp).Keys == OrderParams(a).Keys + Reserved
    ensures SignRequest(client, c, crypto, OrderParams(a), nonce, timestamp)["reduceOnly"] == JBool(a.reduceOnly)
    ensures SignRequest(client, c, crypto, OrderParams(a), nonce, timestamp)["positionSide"] == JStr(a.positionSide)
  {
    OrderParamsPresent(a);
    assert "reduceOnly" !in Reserved && "positionSide" !in Reserved;
  }

  /** A signed market order never carries a price or a time in force. */
  lemma SignedMarketOrder(client: Client, c: Codec, crypto: Crypto, symbol: string, side: string, quantity: string, nonce: int, timestamp: int)
    ensures var r := SignRequest(client, c, crypto, OrderParams(MarketOrder(symbol, side, quantity)), nonce, timestamp);
      "price" !in r && "timeInForce" !in r && r["reduceOnly"] == JBool(false)
  {
    assert "price" !in Reserved && "timeInForce" !in Reserved;
    SignedOrder(client, c, crypto, MarketOrder(symbol, side, quantity), nonce, timestamp);
  }
}
