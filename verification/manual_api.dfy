/**
 * The manual-order HTTP API: request routing, body parsing, and the status
 * code and JSON answer of each endpoint. The server holds an optional
 * manual-order handler; POST requests may change it.
 */
module ManualApi {
  import opened Wrappers
  import opened Json
  import Text
  import opened ManualOrders

  datatype Header = Header(name: string, value: string)

  /** A response: status, headers, and the JSON document sent (none for the HTML page and OPTIONS). */
  datatype Response = Response(status: int, headers: seq<Header>, body: Option<Json>)

  const AllowOrigin := Header("Access-Control-Allow-Origin", "*")

  /** `_send_json_response`. */
  function JsonResponse(status: int, fields: Object): (r: Response)
    ensures r.status == status && r.body == Some(JObj(fields))
    ensures AllowOrigin in r.headers
  {
    Response(status, [Header("Content-type", "application/json"), AllowOrigin], Some(JObj(fields)))
  }

  /** The value of a top-level field of the response document, if there is one. */
  function Field(r: Response, key: string): Option<Json> {
    if r.body.Some? && r.body.value.JObj? && key in r.body.value.fields then Some(r.body.value.fields[key]) else None
  }

  function Failure(status: int, error: string): Response {
    JsonResponse(status, map["success" := JBool(false), "error" := JStr(error)])
  }

  /** `do_OPTIONS`: the CORS pre-flight answer. */
  const Options := Response(200, [AllowOrigin,
    Header("Access-Control-Allow-Methods", "GET, POST, OPTIONS"),
    Header("Access-Control-Allow-Headers", "Content-Type")], None)

  /** `_handle_index`: the HTML documentation page (no CORS header). */
  const Index := Response(200, [Header("Content-type", "text/html; charset=utf-8")], None)

  /** What the server needs besides the handler: the exchange answers and the parsers. */
  datatype Env = Env(
    venue: Venue, parse: string -> Option<real>, parseInt: string -> Option<int>,
    loads: string -> Option<Json>, now: string)

  /** `_handle_health`: always 200, with the number of tracked positions. */
  function Health(server: Option<Handler>): (r: Response)
    ensures r.status == 200
    ensures Field(r, "manual_positions") == Some(JInt(if server.Some? then |server.value.positions| else 0))
  {
    JsonResponse(200, map["success" := JBool(true), "status" := JStr("running"),
      "manual_positions" := JInt(if server.Some? then |server.value.positions| else 0)])
  }

  /** `_handle_get_positions`: 503 without a handler, else 200 with the count of positions that could be priced. */
  function Positions(server: Option<Handler>, env: Env): (r: Response)
    ensures server.None? <==> r.status == 503
    ensures server.Some? ==>
      (r.status == 200 && Field(r, "count") == Some(JInt(|ManualPositions(server.value, env.venue, env.parse)|)))
  {
    if server.None? then Failure(503, "Order handler not initialized")
    else
      JsonResponse(200, map["success" := JBool(true),
        "count" := JInt(|ManualPositions(server.value, env.venue, env.parse)|)])
  }

  /** `do_GET`. */
  function DoGet(path: string, server: Option<Handler>, env: Env): (r: Response)
    ensures r.status == 404 <==> path !in {"/", "/health", "/positions"}
    ensures path == "/" ==> r == Index
    ensures r.body.Some? ==> AllowOrigin in r.headers
  {
    if path == "/" then Index
    else if path == "/health" then Health(server)
    else if path == "/positions" then Positions(server, env)
    else Failure(404, "Not Found")
  }

  /** The request body's size header and the bytes read. */
  datatype HttpRequest = HttpRequest(contentLength: Option<string>, body: string)

  /**
   * `_parse_request_body`: a zero length means `{}`; otherwise the body is
   * JSON. `Raised` stands for the `ValueError`s of `int` and `json.loads`.
   */
  function ParseBody(req: HttpRequest, env: Env): (r: Attempt<Json>)
    ensures req.contentLength.None? ==> r == Ok(JObj(map[]))
  {
    var n := if req.contentLength.None? then Some(0) else env.parseInt(req.contentLength.value);
    if n.None? then Raised
    else if n.value == 0 then Ok(JObj(map[]))
    else match env.loads(req.body)
      case None => Raised
      case Some(j) => Ok(j)
  }

  /** Python's `key in data` for a decoded body; numbers, booleans and null raise `TypeError`. */
  function HasKey(data: Json, key: string): (r: Attempt<bool>)
    ensures data.JObj? ==> r == Ok(key in data.fields)
  {
    match data
    case JObj(m) => Ok(key in m)
    case JArr(xs) => Ok(JStr(key) in xs)
    case JStr(s) => Ok(Text.Contains(s, key))
    case _ => Raised
  }

  /**
   * The order an API request describes; a field of a type the model does not
   * carry gives none. Absent and null fields are unset; the order comes from
   * the API and is stamped `now`.
   */
  function OrderOf(data: Object, side: Side, now: string): (r: Option<ManualOrder>)
    requires "symbol" in data
    ensures r.Some? <==>
      (&& data["symbol"].JStr?
       && RealField(Get(data, "quantity", JNull)).Ok? && IntField(Get(data, "leverage", JNull)).Ok?
       && RealField(Get(data, "stop_loss_percent", JNull)).Ok? && RealField(Get(data, "take_profit_percent", JNull)).Ok?
       && StrField(Get(data, "note", JNull)).Ok?)
    ensures r.Some? ==>
      && r.value.symbol == data["symbol"].s && r.value.side == side
      && r.value.source == Api && r.value.timestamp == now
      && ("quantity" !in data ==> r.value.quantity.None?)
      && ("quantity" in data && IsNumber(data["quantity"]) ==> r.value.quantity == Some(NumberValue(data["quantity"])))
      && ("leverage" !in data ==> r.value.leverage.None?)
      && ("leverage" in data && data["leverage"].JInt? ==> r.value.leverage == Some(data["leverage"].i))
      && ("stop_loss_percent" !in data ==> r.value.stopLossPercent.None?)
      && ("stop_loss_percent" in data && IsNumber(data["stop_loss_percent"])
          ==> r.value.stopLossPercent == Some(NumberValue(data["stop_loss_percent"])))
      && ("take_profit_percent" !in data ==> r.value.takeProfitPercent.None?)
      && ("take_profit_percent" in data && IsNumber(data["take_profit_percent"])
          ==> r.value.takeProfitPercent == Some(NumberValue(data["take_profit_percent"])))
      && ("note" !in data ==> r.value.note.None?)
      && ("note" in data && data["note"].JStr? ==> r.value.note == Some(data["note"].s))
  {
    match (data["symbol"], RealField(Get(data, "quantity", JNull)), IntField(Get(data, "leverage", JNull)),
           RealField(Get(data, "stop_loss_percent", JNull)), RealField(Get(data, "take_profit_percent", JNull)),
           StrField(Get(data, "note", JNull)))
    case (JStr(symbol), Ok(q), Ok(lev), Ok(sl), Ok(tp), Ok(note)) =>
      Some(ManualOrder(symbol, side, q, lev, sl, tp, note, Api, now))
    case _ => None
  }

  /** The validation steps of `_handle_create_order` before an order is built. */
  datatype Checked = Rejected(response: Response) | Accepted(data: Object, side: Side)

  function CheckOrder(req: HttpRequest, env: Env): (r: Checked)
    ensures r.Rejected? ==> r.response.status in {400, 500}
    ensures r.Accepted? ==> "symbol" in r.data && "side" in r.data && SideOf(r.data["side"]) == Some(r.side)
    ensures ParseBody(req, env).Raised? ==> r == Rejected(Failure(400, "Invalid parameter"))
  {
    match ParseBody(req, env)
    case Raised => Rejected(Failure(400, "Invalid parameter"))
    case Ok(data) =>
      match (HasKey(data, "symbol"), HasKey(data, "side"))
      case (Raised, _) => Rejected(Failure(500, "TypeError"))
      case (Ok(false), _) => Rejected(Failure(400, "Missing required field: symbol"))
      case (Ok(true), Raised) => Rejected(Failure(500, "TypeError"))
      case (Ok(true), Ok(false)) => Rejected(Failure(400, "Missing required field: side"))
      case (Ok(true), Ok(true)) =>
        if !data.JObj? || !data.fields["side"].JStr? then Rejected(Failure(500, "TypeError"))
        else if SideOf(data.fields["side"]).None? then Rejected(Failure(400, "Invalid side, must be LONG or SHORT"))
        else Accepted(data.fields, SideOf(data.fields["side"]).value)
  }

  /**
   * `_handle_create_order`: 503 without a handler; 400 for a malformed body,
   * a missing symbol or side, or a side that is neither LONG nor SHORT; then
   * the order is executed: 200 with its id, else 500.
   */
  function CreateOrder(server: Option<Handler>, req: HttpRequest, env: Env): (r: (Response, Option<Handler>))
    ensures server.None? ==> r == (Failure(503, "Order handler not initialized"), server)
    ensures r.0.status in {200, 400, 500, 503}
    ensures r.0.status != 200 && server.Some? ==> r.1.Some? && r.1.value.positions == server.value.positions
    ensures r.0.status == 200 ==>
      (server.Some? && r.1.Some? && Field(r.0, "order_id").Some?
       && r.1.value.positions.Keys == server.value.positions.Keys + {Field(r.0, "order_id").value})
  {
    if server.None? then (Failure(503, "Order handler not initialized"), server)
    else
      var h := server.value;
      match CheckOrder(req, env)
      case Rejected(response) => (response, server)
      case Accepted(data, side) =>
        match OrderOf(data, side, env.now)
        case None => (Failure(500, "Failed to create order"), server)
        case Some(order) =>
          var x := Execute(h, env.venue, order, env.parse);
          if x.orderId.None? then (Failure(500, "Failed to create order"), Some(x.handler))
          else
            (JsonResponse(200, map["success" := JBool(true), "message" := JStr("Order created successfully"),
               "order_id" := x.orderId.value, "symbol" := JStr(order.symbol), "side" := JStr(SideValue(order.side))]),
             Some(x.handler))
  }

  /** `_handle_close_position`: 503 without a handler, 200 when the handler closed it, else 404. */
  function ClosePosition(server: Option<Handler>, id: string, env: Env): (r: (Response, Option<Handler>))
    ensures server.None? ==> r.0.status == 503 && r.1 == server
    ensures server.Some? ==>
      (r.0.status in {200, 404}
       && (r.0.status == 200 <==> CloseById(server.value, env.venue, JStr(id), env.parse).0)
       && r.1 == Some(CloseById(server.value, env.venue, JStr(id), env.parse).1))
  {
    if server.None? then (Failure(503, "Order handler not initialized"), server)
    else
      var (ok, h) := CloseById(server.value, env.venue, JStr(id), env.parse);
      if ok then (JsonResponse(200, map["success" := JBool(true)]), Some(h))
      else (Failure(404, "Position not found"), Some(h))
  }

  /** The last '/'-separated segment of a path. */
  function LastSegment(path: string): (id: string)
    ensures '/' !in id
  {
    var parts := Text.Split(path, '/');
    parts[|parts| - 1]
  }

  /** `do_POST`: `/order`, any path under `/close/`, else 404 with the server unchanged. */
  function Post(path: string, req: HttpRequest, server: Option<Handler>, env: Env): (r: (Response, Option<Handler>))
    ensures path != "/order" && !Text.StartsWith(path, "/close/") ==> r == (Failure(404, "Not Found"), server)
    ensures path == "/order" ==> r == CreateOrder(server, req, env)
    ensures Text.StartsWith(path, "/close/") ==> r == ClosePosition(server, LastSegment(path), env)
    ensures r.0.body.Some? ==> AllowOrigin in r.0.headers
  {
    if path == "/order" then CreateOrder(server, req, env)
    else if Text.StartsWith(path, "/close/") then ClosePosition(server, LastSegment(path), env)
    else (Failure(404, "Not Found"), server)
  }

  /** The closing id is a suffix of the path: the text after its last '/'. */
  lemma {:induction false} LastSegmentIsSuffix(path: string)
    ensures var id := LastSegment(path);
      |id| <= |path| && path[|path| - |id|..] == id
    decreases |path|
  {
    var k := Text.Find(path, '/');
    if k != -1 {
      var rest := path[k + 1..];
      LastSegmentIsSuffix(rest);
      assert Text.Split(path, '/') == [path[..k]] + Text.Split(rest, '/');
      assert LastSegment(path) == LastSegment(rest);
      assert path[|path| - |LastSegment(rest)|..] == rest[|rest| - |LastSegment(rest)|..];
    }
  }

  /** A body with length 0 (or none) reaches the symbol check and is refused with 400. */
  lemma EmptyBodyMissingSymbol(h: Handler, env: Env)
    requires env.parseInt("0") == Some(0)
    ensures CreateOrder(Some(h), HttpRequest(Some("0"), ""), env).0 == Failure(400, "Missing required field: symbol")
    ensures CreateOrder(Some(h), HttpRequest(None, ""), env).0 == Failure(400, "Missing required field: symbol")
  {
  }

  /** With the client's method names as written, every well-formed order request answers 500. */
  lemma AsWrittenOrdersFail(h: Handler, req: HttpRequest, env: Env)
    requires h.client == AsWrittenNames
    requires CheckOrder(req, env).Accepted?
    ensures CreateOrder(Some(h), req, env).0.status == 500
    ensures CreateOrder(Some(h), req, env).1 == Some(h)
  {
    var c := CheckOrder(req, env);
    match OrderOf(c.data, c.side, env.now)
    case None =>
    case Some(order) => AsWrittenNeverOpens(h, env.venue, order, env.parse);
  }

  /**
   * The exchange's order ids are integers and the id in `/close/{id}` is
   * text, so closing through the API answers 404 for every tracked position.
   */
  lemma CloseByTextIdNotFound(h: Handler, id: string, env: Env)
    requires forall k :: k in h.positions ==> k.JInt?
    ensures ClosePosition(Some(h), id, env) == (Failure(404, "Position not found"), Some(h))
  {
    TextIdNeverFound(h, env.venue, id, env.parse);
  }

  /** The handler key an API id denotes: the integer a decimal id spells, else the text. */
  function KeyOf(id: string, env: Env): (k: Json)
    ensures env.parseInt(id).Some? ==> k == JInt(env.parseInt(id).value)
  {
    if env.parseInt(id).Some? then JInt(env.parseInt(id).value) else JStr(id)
  }

  /** Closing with the id read back as the exchange's integer. */
  function ClosePositionByKey(server: Option<Handler>, id: string, env: Env): (r: (Response, Option<Handler>))
    ensures server.None? ==> r.0.status == 503 && r.1 == server
    ensures server.Some? ==>
      (r.0.status in {200, 404}
       && (r.0.status == 200 <==> CloseById(server.value, env.venue, KeyOf(id, env), env.parse).0))
  {
    if server.None? then (Failure(503, "Order handler not initialized"), server)
    else
      var (ok, h) := CloseById(server.value, env.venue, KeyOf(id, env), env.parse);
      if ok then (JsonResponse(200, map["success" := JBool(true)]), Some(h))
      else (Failure(404, "Position not found"), Some(h))
  }

  /** With the id read back as an integer, the id `/order` returned closes its position. */
  lemma CloseByKeyFindsOrder(h: Handler, id: string, n: int, env: Env)
    requires JInt(n) in h.positions && env.parseInt(id) == Some(n)
    requires LastPrice(h, env.venue, h.positions[JInt(n)].symbol, env.parse).Ok?
    ensures ClosePositionByKey(Some(h), id, env).0.status == 200
    ensures ClosePositionByKey(Some(h), id, env).1 == Some(CloseManual(h, env.venue, JInt(n)))
  {
  }
}
