/**
 * Post-processing of the AI position manager: the recommendation
 * validator and its default, the per-position monitoring decision, the
 * batch filter over exchange positions, and the priority ordering of the
 * recommendations. The AI answers are inputs.
 */
module PositionManager {
  import opened Wrappers
  import opened Json

  /** The actions the validator keeps. */
  predicate ValidAction(j: Json) {
    j == JStr("HOLD") || j == JStr("PARTIAL_CLOSE") || j == JStr("FULL_CLOSE") || j == JStr("ADD")
  }

  /** The actions that carry a percentage. */
  predicate Sized(j: Json) {
    j == JStr("PARTIAL_CLOSE") || j == JStr("ADD")
  }

  const Filled: set<string> := {"action", "percentage", "reason", "stop_loss_update", "take_profit_update", "alerts"}

  /** A recommendation as the validator leaves it. */
  predicate Validated(rec: Object) {
    && Filled <= rec.Keys
    && ValidAction(rec["action"])
    && rec["percentage"].JInt?
    && (Sized(rec["action"]) ==> 10 <= rec["percentage"].i <= 100)
    && (!Sized(rec["action"]) ==> rec["percentage"] == JInt(0))
    && rec["alerts"].JArr?
  }

  /** The percentage the validator writes for a (valid) action. */
  function Percentage(rec: Object, action: Json): (r: Json)
    ensures Sized(action) && ("percentage" !in rec || !IsNumber(rec["percentage"])) ==> r == JInt(50)
    ensures Sized(action) && "percentage" in rec && IsNumber(rec["percentage"])
      ==> r == JInt(ClampInt(10, 100, IntOf(rec["percentage"])))
    ensures !Sized(action) ==> r == JInt(0)
  {
    if !Sized(action) then JInt(0)
    else if "percentage" !in rec || !IsNumber(rec["percentage"]) then JInt(50)
    else JInt(ClampInt(10, 100, IntOf(rec["percentage"])))
  }

  /** `m` with `key` set to `v` when it is missing. */
  function Fill(m: Object, key: string, v: Json): (r: Object)
    ensures r.Keys == m.Keys + {key}
    ensures forall k :: k in m ==> r[k] == m[k]
    ensures key !in m ==> r[key] == v
  {
    if key in m then m else m[key := v]
  }

  /** The action (HOLD unless valid) and the percentage it implies. */
  function WithAction(rec: Object): (r: Object)
    ensures r.Keys == rec.Keys + {"action", "percentage"}
    ensures forall k :: k in rec && k !in {"action", "percentage"} ==> r[k] == rec[k]
    ensures r["action"] == (if "action" in rec && ValidAction(rec["action"]) then rec["action"] else JStr("HOLD"))
    ensures r["percentage"] == Percentage(rec, r["action"])
  {
    var action := if "action" in rec && ValidAction(rec["action"]) then rec["action"] else JStr("HOLD");
    rec["action" := action]["percentage" := Percentage(rec, action)]
  }

  const NoStopUpdate := JObj(map["suggested" := JBool(false), "reason" := JStr("no adjustment suggested")])
  const NoTargetUpdate := JObj(map["suggested" := JBool(false), "targets" := JArr([])])

  /** The reason and the stop and target updates, each filled in when missing. */
  function FillDetails(r1: Object): (r: Object)
    ensures r.Keys == r1.Keys + {"reason", "stop_loss_update", "take_profit_update"}
    ensures forall k :: k in r1 ==> r[k] == r1[k]
    ensures "stop_loss_update" !in r1 ==> r["stop_loss_update"] == NoStopUpdate
    ensures "take_profit_update" !in r1 ==> r["take_profit_update"] == NoTargetUpdate
  {
    Fill(Fill(Fill(r1, "reason", JStr("no specific reason")), "stop_loss_update", NoStopUpdate),
      "take_profit_update", NoTargetUpdate)
  }

  /** Alerts: kept when a list, else the empty list. */
  function FixAlerts(r4: Object): (r: Object)
    ensures r.Keys == r4.Keys + {"alerts"}
    ensures forall k :: k in r4 && k != "alerts" ==> r[k] == r4[k]
    ensures r["alerts"].JArr?
    ensures "alerts" in r4 && r4["alerts"].JArr? ==> r["alerts"] == r4["alerts"]
  {
    if "alerts" !in r4 || !r4["alerts"].JArr? then r4["alerts" := JArr([])] else r4
  }

  /**
   * `_validate_recommendation`: an unknown or missing action becomes HOLD;
   * the percentage is fixed by the action; the reason, the stop and target
   * updates and a list of alerts are filled in when missing.
   */
  function ValidateRecommendation(rec: Object): (r: Object)
    ensures Validated(r)
    ensures r["action"] == (if "action" in rec && ValidAction(rec["action"]) then rec["action"] else JStr("HOLD"))
  {
    var r1 := WithAction(rec);
    var r4 := FillDetails(r1);
    assert r4["action"] == r1["action"] && r4["percentage"] == r1["percentage"];
    FixAlerts(r4)
  }

  /**
   * What the validator keeps and fills: the keys it adds, every other field
   * untouched, the default updates for missing ones, a list of alerts kept.
   */
  lemma ValidateKeeps(rec: Object)
    ensures var r := ValidateRecommendation(rec);
      && r.Keys == rec.Keys + Filled
      && (forall k :: k in rec && k !in Filled ==> r[k] == rec[k])
  {
  }

  /** The default stop and target updates fill in missing ones, and a list of alerts is kept. */
  lemma ValidateFills(rec: Object)
    ensures var r := ValidateRecommendation(rec);
      && ("stop_loss_update" !in rec ==> r["stop_loss_update"] == NoStopUpdate)
      && ("take_profit_update" !in rec ==> r["take_profit_update"] == NoTargetUpdate)
      && ("alerts" in rec && rec["alerts"].JArr? ==> r["alerts"] == rec["alerts"])
  {
    var r1 := WithAction(rec);
    var r4 := FillDetails(r1);
    assert "stop_loss_update" !in rec ==> "stop_loss_update" !in r1;
    assert "take_profit_update" !in rec ==> "take_profit_update" !in r1;
    assert "alerts" in rec ==> r4["alerts"] == rec["alerts"];
  }

  /** A validated recommendation passes the validator unchanged. */
  lemma ValidatedIsFixed(rec: Object)
    requires Validated(rec)
    ensures ValidateRecommendation(rec) == rec
  {
    var r1 := WithAction(rec);
    assert Percentage(rec, rec["action"]) == rec["percentage"];
    assert r1 == rec;
    var r4 := FillDetails(r1);
    assert r4 == rec;
  }

  /** `_validate_recommendation` is idempotent. */
  lemma ValidateIdempotent(rec: Object)
    ensures ValidateRecommendation(ValidateRecommendation(rec)) == ValidateRecommendation(rec)
  {
    ValidatedIsFixed(ValidateRecommendation(rec));
  }

  /** `_get_default_recommendation`: hold, with one alert asking for manual monitoring. */
  function Default(): (r: Object)
    ensures Validated(r)
    ensures r["action"] == JStr("HOLD") && r["percentage"] == JInt(0)
    ensures |r["alerts"].items| == 1
  {
    map[
      "action" := JStr("HOLD"), "percentage" := JInt(0),
      "reason" := JStr("AI analysis failed, keep holding and monitor manually"),
      "stop_loss_update" := JObj(map["suggested" := JBool(false), "reason" := JStr("AI unavailable")]),
      "take_profit_update" := JObj(map["suggested" := JBool(false), "targets" := JArr([])]),
      "alerts" := Strings(["AI position management unavailable, monitor manually"])]
  }

  /**
   * Which position keys the monitoring prompt reads: as written it reads
   * `entry_price` and `position_amt` and uses them as numbers; the exchange
   * reports `entryPrice` and `positionAmt`, as text.
   */
  datatype Reading = AsWritten | FromExchange

  /** Whether building the monitoring prompt succeeds (it raises otherwise, and the default is returned). */
  predicate PromptBuilds(position: Object, reading: Reading, parse: string -> Option<real>) {
    && "symbol" in position
    && match reading
       case AsWritten =>
         && "entry_price" in position && "position_amt" in position
         && IsNumber(position["entry_price"]) && IsNumber(position["position_amt"])
         && NumberValue(position["entry_price"]) != 0.0
       case FromExchange =>
         && Float(Get(position, "entryPrice", JNull), parse).Some?
         && Float(Get(position, "entryPrice", JNull), parse).value != 0.0
         && Float(Get(position, "positionAmt", JNull), parse).Some?
  }

  /**
   * `monitor_position` given the AI answer: the default when the prompt
   * cannot be built, the call raised, or the answer is not a dictionary or
   * carries `error`; otherwise the validated answer.
   */
  function MonitorPosition(position: Object, reply: Attempt<Json>, reading: Reading, parse: string -> Option<real>): (r: Object)
    ensures Validated(r)
    ensures !PromptBuilds(position, reading, parse) ==> r == Default()
    ensures r != Default() ==>
      (PromptBuilds(position, reading, parse) && reply.Ok? && reply.value.JObj?
       && r == ValidateRecommendation(reply.value.fields))
    ensures PromptBuilds(position, reading, parse) && reply.Ok? && reply.value.JObj? ==>
      r == (if "error" in reply.value.fields then Default() else ValidateRecommendation(reply.value.fields))
    ensures reply.Raised? || (reply.Ok? && !reply.value.JObj?) ==> r == Default()
  {
    if !PromptBuilds(position, reading, parse) then Default()
    else match reply
      case Ok(JObj(m)) => if "error" in m then Default() else ValidateRecommendation(m)
      case _ => Default()
  }

  /** A recommendation the validator already produced is returned as the AI gave it. */
  lemma MonitorValidatedAnswer(position: Object, reading: Reading, parse: string -> Option<real>, answer: Object)
    requires PromptBuilds(position, reading, parse)
    requires Validated(answer) && "error" !in answer
    ensures MonitorPosition(position, Ok(JObj(answer)), reading, parse) == answer
  {
    ValidatedIsFixed(answer);
  }

  /** `float(position.get('positionAmt', 0))`, or None when it raises. */
  function Amount(position: Object, parse: string -> Option<real>): (a: Option<real>)
    ensures "positionAmt" !in position ==> a == Some(0.0)
    ensures "positionAmt" in position ==> a == Float(position["positionAmt"], parse)
  {
    Float(Get(position, "positionAmt", JInt(0)), parse)
  }

  /** What the batch loop does with one position. */
  datatype Visit = Fails | Skip | Watch(symbol: string)

  /**
   * One iteration of `batch_monitor_positions` before the monitoring call:
   * reading `symbol` from a non-dictionary or a missing key raises, as do an
   * unconvertible `positionAmt` and an unhashable symbol; a zero amount or a
   * missing or zero price skips the position.
   */
  function VisitOf(p: Json, prices: map<string, real>, parse: string -> Option<real>): (v: Visit)
    ensures v.Watch? ==>
      (p.JObj? && "symbol" in p.fields && p.fields["symbol"] == JStr(v.symbol) && v.symbol in prices && prices[v.symbol] != 0.0)
    ensures v.Watch? <==>
      (&& p.JObj? && "symbol" in p.fields && p.fields["symbol"].JStr?
       && Amount(p.fields, parse).Some? && Amount(p.fields, parse).value != 0.0
       && p.fields["symbol"].s in prices && prices[p.fields["symbol"].s] != 0.0)
    ensures p.JObj? && "symbol" in p.fields && Amount(p.fields, parse) == Some(0.0) ==> v == Skip
    ensures v == Fails <==>
      (|| !p.JObj? || "symbol" !in p.fields || Amount(p.fields, parse).None?
       || (Amount(p.fields, parse).value != 0.0 && (p.fields["symbol"].JArr? || p.fields["symbol"].JObj?)))
  {
    if !p.JObj? || "symbol" !in p.fields then Fails
    else
      var amount := Amount(p.fields, parse);
      if amount.None? then Fails
      else if amount.value == 0.0 then Skip
      else match p.fields["symbol"]
        case JArr(_) => Fails
        case JObj(_) => Fails
        case JStr(s) => if s in prices && prices[s] != 0.0 then Watch(s) else Skip
        case _ => Skip
  }

  /**
   * `batch_monitor_positions`: every position that is not skipped is
   * monitored and its recommendation stored under its symbol, a later
   * position of the same symbol replacing an earlier one. `replies` gives
   * the AI answer for each symbol.
   */
  function Batch(ps: seq<Json>, prices: map<string, real>, replies: string -> Attempt<Json>,
                 reading: Reading, parse: string -> Option<real>): (r: Attempt<map<string, Object>>)
    ensures |ps| == 0 ==> r == Ok(map[])
    decreases |ps|
  {
    if |ps| == 0 then Ok(map[])
    else
      var v := VisitOf(ps[0], prices, parse);
      var rest := Batch(ps[1..], prices, replies, reading, parse);
      if v.Fails? || rest.Raised? then Raised
      else if v.Watch? && v.symbol !in rest.value then
        Ok(rest.value[v.symbol := MonitorPosition(ps[0].fields, replies(v.symbol), reading, parse)])
      else Ok(rest.value)
  }

  /** Every recommendation the batch stores is a validated one. */
  lemma {:induction false} BatchValidated(ps: seq<Json>, prices: map<string, real>, replies: string -> Attempt<Json>,
                                          reading: Reading, parse: string -> Option<real>)
    requires Batch(ps, prices, replies, reading, parse).Ok?
    ensures forall s :: s in Batch(ps, prices, replies, reading, parse).value ==>
      Validated(Batch(ps, prices, replies, reading, parse).value[s])
    decreases |ps|
  {
    if |ps| > 0 {
      BatchValidated(ps[1..], prices, replies, reading, parse);
    }
  }

  /** The batch raises exactly when some position cannot be read. */
  lemma {:induction false} BatchRaises(ps: seq<Json>, prices: map<string, real>, replies: string -> Attempt<Json>,
                                       reading: Reading, parse: string -> Option<real>)
    ensures Batch(ps, prices, replies, reading, parse).Raised?
        <==> exists i :: 0 <= i < |ps| && VisitOf(ps[i], prices, parse).Fails?
    decreases |ps|
  {
    if |ps| > 0 {
      BatchRaises(ps[1..], prices, replies, reading, parse);
      if Batch(ps, prices, replies, reading, parse).Raised? {
        if !VisitOf(ps[0], prices, parse).Fails? {
          var j :| 0 <= j < |ps[1..]| && VisitOf(ps[1..][j], prices, parse).Fails?;
          assert ps[j + 1] == ps[1..][j];
        }
      } else {
        forall i | 1 <= i < |ps| ensures !VisitOf(ps[i], prices, parse).Fails? {
          assert ps[i] == ps[1..][i - 1];
        }
      }
    }
  }

  /** The batch holds a recommendation for exactly the symbols of the positions it watches. */
  lemma {:induction false} BatchKeys(ps: seq<Json>, prices: map<string, real>, replies: string -> Attempt<Json>,
                                     reading: Reading, parse: string -> Option<real>, s: string)
    requires Batch(ps, prices, replies, reading, parse).Ok?
    ensures s in Batch(ps, prices, replies, reading, parse).value
        <==> exists i :: 0 <= i < |ps| && VisitOf(ps[i], prices, parse) == Watch(s)
    decreases |ps|
  {
    if |ps| > 0 {
      var rest := Batch(ps[1..], prices, replies, reading, parse);
      var b := Batch(ps, prices, replies, reading, parse);
      BatchKeys(ps[1..], prices, replies, reading, parse, s);
      if s in b.value {
        if s in rest.value {
          var j :| 0 <= j < |ps[1..]| && VisitOf(ps[1..][j], prices, parse) == Watch(s);
          assert ps[j + 1] == ps[1..][j];
        } else {
          assert VisitOf(ps[0], prices, parse) == Watch(s);
        }
      }
      if exists i :: 0 <= i < |ps| && VisitOf(ps[i], prices, parse) == Watch(s) {
        var i :| 0 <= i < |ps| && VisitOf(ps[i], prices, parse) == Watch(s);
        if i > 0 {
          assert ps[1..][i - 1] == ps[i];
          assert s in rest.value;
        }
      }
    }
  }

  /** The batch's recommendation for a symbol comes from the last position that has it. */
  lemma {:induction false} BatchLastWins(ps: seq<Json>, prices: map<string, real>, replies: string -> Attempt<Json>,
                                         reading: Reading, parse: string -> Option<real>, i: nat)
    requires Batch(ps, prices, replies, reading, parse).Ok?
    requires i < |ps| && VisitOf(ps[i], prices, parse).Watch?
    requires forall j :: i < j < |ps| ==> VisitOf(ps[j], prices, parse) != VisitOf(ps[i], prices, parse)
    ensures var s := VisitOf(ps[i], prices, parse).symbol;
      && s in Batch(ps, prices, replies, reading, parse).value
      && Batch(ps, prices, replies, reading, parse).value[s] == MonitorPosition(ps[i].fields, replies(s), reading, parse)
    decreases |ps|
  {
    var s := VisitOf(ps[i], prices, parse).symbol;
    var rest := Batch(ps[1..], prices, replies, reading, parse);
    BatchKeys(ps[1..], prices, replies, reading, parse, s);
    if i == 0 {
      forall j | 0 <= j < |ps[1..]| ensures VisitOf(ps[1..][j], prices, parse) != Watch(s) {
        assert ps[1..][j] == ps[j + 1];
      }
      assert s !in rest.value;
    } else {
      assert ps[1..][i - 1] == ps[i];
      forall j | i - 1 < j < |ps[1..]| ensures VisitOf(ps[1..][j], prices, parse) != VisitOf(ps[1..][i - 1], prices, parse) {
        assert ps[1..][j] == ps[j + 1];
      }
      BatchLastWins(ps[1..], prices, replies, reading, parse, i - 1);
      assert s in rest.value;
    }
  }

  /**
   * As written, a position in the exchange's own shape (`positionAmt`,
   * `entryPrice`, no `entry_price`) that the batch keeps is never shown to
   * the AI: its recommendation is always the default.
   */
  lemma ExchangePositionGetsDefault(ps: seq<Json>, prices: map<string, real>, replies: string -> Attempt<Json>,
                                    parse: string -> Option<real>, i: nat)
    requires Batch(ps, prices, replies, AsWritten, parse).Ok?
    requires i < |ps| && VisitOf(ps[i], prices, parse).Watch?
    requires forall j :: i < j < |ps| ==> VisitOf(ps[j], prices, parse) != VisitOf(ps[i], prices, parse)
    requires "entry_price" !in ps[i].fields
    ensures VisitOf(ps[i], prices, parse).symbol in Batch(ps, prices, replies, AsWritten, parse).value
    ensures Batch(ps, prices, replies, AsWritten, parse).value[VisitOf(ps[i], prices, parse).symbol] == Default()
  {
    BatchLastWins(ps, prices, replies, AsWritten, parse, i);
  }

  /**
   * Reading the exchange's keys, such a position gets the AI's validated
   * answer whenever the answer is a dictionary without `error`.
   */
  lemma ExchangePositionMonitored(ps: seq<Json>, prices: map<string, real>, replies: string -> Attempt<Json>,
                                  parse: string -> Option<real>, i: nat, answer: Object)
    requires Batch(ps, prices, replies, FromExchange, parse).Ok?
    requires i < |ps| && VisitOf(ps[i], prices, parse).Watch?
    requires forall j :: i < j < |ps| ==> VisitOf(ps[j], prices, parse) != VisitOf(ps[i], prices, parse)
    requires PromptBuilds(ps[i].fields, FromExchange, parse)
    requires replies(VisitOf(ps[i], prices, parse).symbol) == Ok(JObj(answer)) && "error" !in answer
    ensures VisitOf(ps[i], prices, parse).symbol in Batch(ps, prices, replies, FromExchange, parse).value
    ensures Batch(ps, prices, replies, FromExchange, parse).value[VisitOf(ps[i], prices, parse).symbol]
      == ValidateRecommendation(answer)
  {
    BatchLastWins(ps, prices, replies, FromExchange, parse, i);
  }

  /** One entry of the prioritised list. */
  datatype Ranked = Ranked(symbol: string, action: Json, recommendation: Object, priority: int)

  /** FULL_CLOSE 10, PARTIAL_CLOSE 8, ADD 5, anything else 1; two more when there are alerts. */
  function Rank(symbol: string, rec: Object): (r: Ranked)
    ensures r.action == Get(rec, "action", JStr("HOLD"))
    ensures !Truthy(Get(rec, "alerts", JNull)) ==> r.priority in {1, 5, 8, 10}
    ensures Truthy(Get(rec, "alerts", JNull)) ==> r.priority in {3, 7, 10, 12}
    ensures r.action == JStr("FULL_CLOSE") ==> r.priority >= 10
    ensures r.action != JStr("FULL_CLOSE") && r.action != JStr("PARTIAL_CLOSE") && r.action != JStr("ADD") ==> r.priority <= 3
    ensures r.symbol == symbol && r.recommendation == rec
    ensures var bonus := if Truthy(Get(rec, "alerts", JNull)) then 2 else 0;
      && (r.action == JStr("FULL_CLOSE") ==> r.priority == 10 + bonus)
      && (r.action == JStr("PARTIAL_CLOSE") ==> r.priority == 8 + bonus)
      && (r.action == JStr("ADD") ==> r.priority == 5 + bonus)
      && (r.action !in {JStr("FULL_CLOSE"), JStr("PARTIAL_CLOSE"), JStr("ADD")} ==> r.priority == 1 + bonus)
  {
    var action := Get(rec, "action", JStr("HOLD"));
    var base :=
      if action == JStr("FULL_CLOSE") then 10
      else if action == JStr("PARTIAL_CLOSE") then 8
      else if action == JStr("ADD") then 5
      else 1;
    Ranked(symbol, action, rec, if Truthy(Get(rec, "alerts", JNull)) then base + 2 else base)
  }

  /** Non-increasing priority. */
  predicate SortedDesc(xs: seq<Ranked>) {
    forall i, j :: 0 <= i < j < |xs| ==> xs[i].priority >= xs[j].priority
  }

  /** The entries of one priority, in their order. */
  function WithPriority(xs: seq<Ranked>, p: int): seq<Ranked> {
    if |xs| == 0 then []
    else (if xs[0].priority == p then [xs[0]] else []) + WithPriority(xs[1..], p)
  }

  /** `x` placed before the first entry of priority not above its own. */
  function Insert(x: Ranked, ys: seq<Ranked>): (r: seq<Ranked>)
    ensures |r| == |ys| + 1
    ensures multiset(r) == multiset{x} + multiset(ys)
    ensures forall z :: z in r ==> z == x || z in ys
  {
    if |ys| == 0 || x.priority >= ys[0].priority then [x] + ys
    else
      assert ys == [ys[0]] + ys[1..];
      [ys[0]] + Insert(x, ys[1..])
  }

  /** Insertion keeps a list sorted. */
  lemma {:induction false} InsertSorted(x: Ranked, ys: seq<Ranked>)
    requires SortedDesc(ys)
    ensures SortedDesc(Insert(x, ys))
    decreases |ys|
  {
    if |ys| > 0 && x.priority < ys[0].priority {
      var tail := Insert(x, ys[1..]);
      InsertSorted(x, ys[1..]) by {
        assert SortedDesc(ys[1..]) by {
          forall i, j | 0 <= i < j < |ys[1..]| ensures ys[1..][i].priority >= ys[1..][j].priority {
            assert ys[1..][i] == ys[i + 1] && ys[1..][j] == ys[j + 1];
          }
        }
      }
      forall z | z in tail ensures z.priority <= ys[0].priority {
        if z != x {
          var i :| 0 <= i < |ys[1..]| && ys[1..][i] == z;
          assert z == ys[i + 1];
        }
      }
      ConsSorted(ys[0], tail);
    }
  }

  /** An entry at least as high as every entry of a sorted list can go in front of it. */
  lemma ConsSorted(y: Ranked, tail: seq<Ranked>)
    requires SortedDesc(tail)
    requires forall z :: z in tail ==> z.priority <= y.priority
    ensures SortedDesc([y] + tail)
  {
    var r := [y] + tail;
    forall i, j | 0 <= i < j < |r| ensures r[i].priority >= r[j].priority {
      assert r[j] == tail[j - 1];
      if i > 0 {
        assert r[i] == tail[i - 1];
      } else {
        assert tail[j - 1] in tail;
      }
    }
  }

  lemma WithPriorityCons(x: Ranked, ys: seq<Ranked>, p: int)
    ensures WithPriority([x] + ys, p) == (if x.priority == p then [x] else []) + WithPriority(ys, p)
  {
    assert ([x] + ys)[1..] == ys;
  }

  /** Inserting into a sorted list adds `x` in front of the entries of its own priority. */
  lemma {:induction false} InsertKeepsOrder(x: Ranked, ys: seq<Ranked>, p: int)
    requires SortedDesc(ys)
    ensures WithPriority(Insert(x, ys), p) == (if x.priority == p then [x] else []) + WithPriority(ys, p)
    decreases |ys|
  {
    if |ys| == 0 || x.priority >= ys[0].priority {
      WithPriorityCons(x, ys, p);
    } else {
      var y, tail := ys[0], ys[1..];
      assert ys == [y] + tail;
      assert SortedDesc(tail) by {
        forall i, j | 0 <= i < j < |tail| ensures tail[i].priority >= tail[j].priority {
          assert tail[i] == ys[i + 1] && tail[j] == ys[j + 1];
        }
      }
      assert Insert(x, ys) == [y] + Insert(x, tail);
      InsertKeepsOrder(x, tail, p);
      WithPriorityCons(y, Insert(x, tail), p);
      WithPriorityCons(y, tail, p);
      var hx: seq<Ranked> := if x.priority == p then [x] else [];
      var hy: seq<Ranked> := if y.priority == p then [y] else [];
      // `y` ranks strictly above `x`, so at most one of them has priority `p`.
      assert hy + hx == hx + hy by {
        if x.priority == p { assert hy == []; } else { assert hx == []; }
      }
      assert WithPriority(Insert(x, ys), p) == hy + (hx + WithPriority(tail, p));
      assert (hy + hx) + WithPriority(tail, p) == hx + (hy + WithPriority(tail, p));
    }
  }

  /** The stable sort `list.sort(key=priority, reverse=True)`. */
  function SortByPriority(xs: seq<Ranked>): (r: seq<Ranked>)
    ensures |r| == |xs|
    ensures SortedDesc(r)
    ensures multiset(r) == multiset(xs)
  {
    if |xs| == 0 then []
    else
      assert xs == [xs[0]] + xs[1..];
      InsertSorted(xs[0], SortByPriority(xs[1..]));
      Insert(xs[0], SortByPriority(xs[1..]))
  }

  /** Stability: the entries of each priority keep their input order. */
  lemma {:induction false} SortIsStable(xs: seq<Ranked>, p: int)
    ensures WithPriority(SortByPriority(xs), p) == WithPriority(xs, p)
    decreases |xs|
  {
    if |xs| > 0 {
      SortIsStable(xs[1..], p);
      InsertKeepsOrder(xs[0], SortByPriority(xs[1..]), p);
    }
  }

  /** Every recommendation ranked, in the given order. */
  function Ranking(items: seq<(string, Object)>): (r: seq<Ranked>)
    ensures |r| == |items|
    ensures forall i :: 0 <= i < |items| ==> r[i] == Rank(items[i].0, items[i].1)
  {
    seq(|items|, i requires 0 <= i < |items| => Rank(items[i].0, items[i].1))
  }

  /**
   * `prioritize_actions`, over the recommendations in their dictionary
   * order: every entry ranked, highest priority first, ties in input order.
   */
  function PrioritizeActions(items: seq<(string, Object)>): (r: seq<Ranked>)
    ensures |r| == |items|
    ensures SortedDesc(r)
    ensures multiset(r) == multiset(Ranking(items))
  {
    SortByPriority(Ranking(items))
  }

  /** Entries of equal priority come out in the order the recommendations were given. */
  lemma PrioritizeIsStable(items: seq<(string, Object)>, p: int)
    ensures WithPriority(PrioritizeActions(items), p)
         == WithPriority(Ranking(items), p)
  {
    SortIsStable(Ranking(items), p);
  }

  /** A full close with alerts outranks everything else. */
  lemma FullCloseWithAlertsFirst(items: seq<(string, Object)>, k: nat)
    requires k < |items| && Get(items[k].1, "action", JNull) == JStr("FULL_CLOSE")
    requires Truthy(Get(items[k].1, "alerts", JNull))
    ensures PrioritizeActions(items)[0].priority == 12
  {
    var ranked := Ranking(items);
    var r := PrioritizeActions(items);
    assert ranked[k].priority == 12;
    assert r[0].priority >= 12 by {
      assert ranked[k] in multiset(r);
      var j :| 0 <= j < |r| && r[j] == ranked[k];
      if j > 0 {
        assert r[0].priority >= r[j].priority;
      }
    }
    assert r[0].priority <= 12 by {
      assert r[0] in multiset(ranked);
      var i :| 0 <= i < |ranked| && ranked[i] == r[0];
      assert r[0].priority in {1, 5, 8, 10, 3, 7, 12};
    }
  }
}
