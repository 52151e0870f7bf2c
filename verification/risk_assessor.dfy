/**
 * Post-processing of the AI risk assessment: the validator that clamps and
 * fills in the assessment document, and the conservative assessment used
 * whenever the AI answer is unusable. The AI call itself is an input.
 */
module RiskAssessor {
  import opened Wrappers
  import opened Json

  const Overall := "overall_risk"
  const Adjustment := "position_adjustment"
  const Recommendation := "recommendation"

  /** The recommendation actions the validator keeps. */
  predicate ValidAction(j: Json) {
    j == JStr("PROCEED") || j == JStr("PROCEED_WITH_CAUTION") || j == JStr("SKIP")
  }

  /** The adjustment block the validator inserts when there is none. */
  const DefaultAdjustment: Object :=
    map["size_multiplier" := JReal(1.0), "leverage_suggestion" := JInt(5), "stop_loss_adjustment" := JReal(1.0)]

  /** The recommendation block the validator inserts when there is none. */
  const DefaultRecommendation: Object :=
    map["action" := JStr("PROCEED_WITH_CAUTION"), "reason" := JStr("incomplete assessment, proceed with caution"),
        "conditions" := JArr([])]

  /** A value in [lo, hi] of the JSON type the validator writes. */
  predicate RealIn(j: Json, lo: real, hi: real) {
    j.JReal? && lo <= j.r <= hi
  }

  predicate IntIn(j: Json, lo: int, hi: int) {
    j.JInt? && lo <= j.i <= hi
  }

  /** An adjustment block as the validator leaves it. */
  predicate AdjustmentValid(m: Object) {
    && "size_multiplier" in m && RealIn(m["size_multiplier"], 0.3, 1.5)
    && "leverage_suggestion" in m && IntIn(m["leverage_suggestion"], 1, 10)
    && "stop_loss_adjustment" in m && RealIn(m["stop_loss_adjustment"], 0.5, 2.0)
  }

  /** A recommendation block as the validator leaves it. */
  predicate RecommendationValid(m: Object) {
    "action" in m && ValidAction(m["action"]) && "reason" in m && "conditions" in m
  }

  /** An assessment as the validator leaves it. */
  predicate Validated(a: Object) {
    && (Overall in a ==> IntIn(a[Overall], 1, 10))
    && Adjustment in a && a[Adjustment].JObj? && AdjustmentValid(a[Adjustment].fields)
    && Recommendation in a && a[Recommendation].JObj? && RecommendationValid(a[Recommendation].fields)
  }

  /** `overall_risk`: 5 when not a number, else `int` of it clamped to [1, 10]. */
  function OverallRisk(v: Json): (r: Json)
    ensures IntIn(r, 1, 10)
    ensures !IsNumber(v) ==> r == JInt(5)
    ensures IsNumber(v) ==> r == JInt(ClampInt(1, 10, IntOf(v)))
  {
    if IsNumber(v) then JInt(ClampInt(1, 10, IntOf(v))) else JInt(5)
  }

  /** A float field clamped to [lo, hi]; missing or not a number gives `default`. */
  function RealField(m: Object, key: string, lo: real, hi: real, default: real): (r: Json)
    requires lo <= default <= hi
    ensures RealIn(r, lo, hi)
    ensures key in m && RealIn(m[key], lo, hi) ==> r == m[key]
    ensures key !in m || !IsNumber(m[key]) ==> r == JReal(default)
    ensures key in m && IsNumber(m[key]) && lo <= NumberValue(m[key]) <= hi ==> r == JReal(NumberValue(m[key]))
    ensures key in m && IsNumber(m[key]) && NumberValue(m[key]) < lo ==> r == JReal(lo)
    ensures key in m && IsNumber(m[key]) && hi < NumberValue(m[key]) ==> r == JReal(hi)
  {
    if key in m && IsNumber(m[key]) then JReal(ClampReal(lo, hi, NumberValue(m[key]))) else JReal(default)
  }

  /** An integer field clamped to [lo, hi]; missing or not a number gives `default`. */
  function IntField(m: Object, key: string, lo: int, hi: int, default: int): (r: Json)
    requires lo <= default <= hi
    ensures IntIn(r, lo, hi)
    ensures key in m && IntIn(m[key], lo, hi) ==> r == m[key]
    ensures key !in m || !IsNumber(m[key]) ==> r == JInt(default)
    ensures key in m && IsNumber(m[key]) && lo <= IntOf(m[key]) <= hi ==> r == JInt(IntOf(m[key]))
    ensures key in m && IsNumber(m[key]) && IntOf(m[key]) < lo ==> r == JInt(lo)
    ensures key in m && IsNumber(m[key]) && hi < IntOf(m[key]) ==> r == JInt(hi)
  {
    if key in m && IsNumber(m[key]) then JInt(ClampInt(lo, hi, IntOf(m[key]))) else JInt(default)
  }

  /**
   * The existing adjustment block, corrected in place. Anything but a
   * dictionary makes the validator raise (`in` or item assignment fails).
   */
  function FixAdjustment(adj: Json): (r: Attempt<Json>)
    ensures r.Ok? <==> adj.JObj?
    ensures r.Ok? ==>
      (r.value.JObj? && AdjustmentValid(r.value.fields) && r.value.fields.Keys == adj.fields.Keys + DefaultAdjustment.Keys)
  {
    if !adj.JObj? then Raised
    else
      var m := adj.fields;
      Ok(JObj(m["size_multiplier" := RealField(m, "size_multiplier", 0.3, 1.5, 1.0)]
               ["leverage_suggestion" := IntField(m, "leverage_suggestion", 1, 10, 5)]
               ["stop_loss_adjustment" := RealField(m, "stop_loss_adjustment", 0.5, 2.0, 1.0)]))
  }

  /** The existing recommendation block, corrected in place; anything but a dictionary raises. */
  function FixRecommendation(rec: Json): (r: Attempt<Json>)
    ensures r.Ok? <==> rec.JObj?
    ensures r.Ok? ==>
      (r.value.JObj? && RecommendationValid(r.value.fields)
       && r.value.fields.Keys == rec.fields.Keys + {"action", "reason", "conditions"})
    ensures r.Ok? && "action" in rec.fields && ValidAction(rec.fields["action"])
      ==> r.value.fields["action"] == rec.fields["action"]
  {
    if !rec.JObj? then Raised
    else
      var m := rec.fields;
      var m1 := if "action" !in m || !ValidAction(m["action"]) then m["action" := JStr("PROCEED_WITH_CAUTION")] else m;
      var m2 := if "reason" !in m1 then m1["reason" := JStr("no specific reason")] else m1;
      var m3 := if "conditions" !in m2 then m2["conditions" := JArr([])] else m2;
      Ok(JObj(m3))
  }

  /**
   * `_validate_assessment`. `Raised` stands for the `TypeError` a
   * non-dictionary adjustment or recommendation block causes.
   */
  function ValidateAssessment(a: Object): (r: Attempt<Object>)
    ensures r.Ok? <==> (Adjustment in a ==> a[Adjustment].JObj?) && (Recommendation in a ==> a[Recommendation].JObj?)
    ensures r.Ok? ==> Validated(r.value)
    ensures r.Ok? ==> r.value.Keys == a.Keys + {Adjustment, Recommendation}
    ensures r.Ok? ==> forall k :: k in a && k !in {Overall, Adjustment, Recommendation} ==> r.value[k] == a[k]
    ensures r.Ok? && Overall in a && IntIn(a[Overall], 1, 10) ==> r.value[Overall] == a[Overall]
  {
    var a1 := WithOverall(a);
    var adj := if Adjustment !in a then Ok(JObj(DefaultAdjustment)) else FixAdjustment(a[Adjustment]);
    var rec := if Recommendation !in a then Ok(JObj(DefaultRecommendation)) else FixRecommendation(a[Recommendation]);
    if adj.Raised? || rec.Raised? then Raised
    else Ok(WithBlocks(a1, adj.value, rec.value))
  }

  /** The assessment with `overall_risk`, when present, replaced by its corrected value. */
  function WithOverall(a: Object): (r: Object)
    ensures r.Keys == a.Keys
    ensures Overall in r ==> IntIn(r[Overall], 1, 10)
    ensures forall k :: k in a && k != Overall ==> r[k] == a[k]
    ensures Overall in a && IntIn(a[Overall], 1, 10) ==> r[Overall] == a[Overall]
  {
    if Overall in a then a[Overall := OverallRisk(a[Overall])] else a
  }

  /** The assessment with corrected adjustment and recommendation blocks stored. */
  function WithBlocks(a: Object, adj: Json, rec: Json): (r: Object)
    requires Overall in a ==> IntIn(a[Overall], 1, 10)
    requires adj.JObj? && AdjustmentValid(adj.fields)
    requires rec.JObj? && RecommendationValid(rec.fields)
    ensures Validated(r)
    ensures r.Keys == a.Keys + {Adjustment, Recommendation}
    ensures forall k :: k in a && k !in {Adjustment, Recommendation} ==> r[k] == a[k]
  {
    a[Adjustment := adj][Recommendation := rec]
  }

  /** A validated assessment passes the validator unchanged. */
  lemma ValidatedIsFixed(a: Object)
    requires Validated(a)
    ensures ValidateAssessment(a) == Ok(a)
  {
    var r := ValidateAssessment(a).value;
    var adj := a[Adjustment].fields;
    var rec := a[Recommendation].fields;
    assert WithOverall(a) == a by {
      if Overall in a {
        assert OverallRisk(a[Overall]) == a[Overall];
      }
    }
    assert FixAdjustment(a[Adjustment]) == Ok(a[Adjustment]) by {
      assert adj["size_multiplier" := adj["size_multiplier"]]["leverage_suggestion" := adj["leverage_suggestion"]]
        ["stop_loss_adjustment" := adj["stop_loss_adjustment"]] == adj;
    }
    assert FixRecommendation(a[Recommendation]) == Ok(a[Recommendation]);
    assert r.Keys == a.Keys;
    assert forall k :: k in a ==> r[k] == a[k];
    assert r == a;
  }

  /** `_validate_assessment` is idempotent. */
  lemma ValidateIdempotent(a: Object)
    requires ValidateAssessment(a).Ok?
    ensures ValidateAssessment(ValidateAssessment(a).value) == ValidateAssessment(a)
  {
    ValidatedIsFixed(ValidateAssessment(a).value);
  }

  /**
   * `_get_conservative_assessment`: risk 7, proceed with caution, 70% of the
   * position at leverage 3 and the standard stop.
   */
  function Conservative(): (r: Object)
    ensures Validated(r)
    ensures Overall in r && r[Overall] == JInt(7)
    ensures r[Recommendation].fields["action"] == JStr("PROCEED_WITH_CAUTION")
    ensures r[Adjustment].fields["size_multiplier"] == JReal(0.7)
    ensures r[Adjustment].fields["leverage_suggestion"] == JInt(3)
    ensures r[Adjustment].fields["stop_loss_adjustment"] == JReal(1.0)
  {
    map[
      Overall := JInt(7),
      "risk_breakdown" := JObj(map[
        "market_risk" := Score(7, "AI assessment unavailable, conservative score"),
        "liquidity_risk" := Score(5, "unknown"),
        "event_risk" := Score(7, "unknown"),
        "technical_risk" := Score(6, "local strategy only")]),
      Adjustment := JObj(map[
        "size_multiplier" := JReal(0.7), "leverage_suggestion" := JInt(3), "stop_loss_adjustment" := JReal(1.0)]),
      Recommendation := JObj(map[
        "action" := JStr("PROCEED_WITH_CAUTION"),
        "reason" := JStr("AI risk assessment failed, continuing conservatively"),
        "conditions" := Strings(["monitor the position closely", "close at once if the market moves fast"])])]
  }

  function Score(score: int, reason: string): Json {
    JObj(map["score" := JInt(score), "reason" := JStr(reason)])
  }

  /**
   * `assess_trading_risk` after the AI call: the conservative assessment when
   * the call raised, the answer is not a dictionary, carries `error`, lacks
   * `overall_risk` or fails validation; otherwise the validated answer.
   */
  function AssessTradingRisk(reply: Attempt<Json>): (r: Object)
    ensures Validated(r) && Overall in r
    ensures reply.Raised? ==> r == Conservative()
    ensures reply.Ok? && !reply.value.JObj? ==> r == Conservative()
    ensures reply.Ok? && reply.value.JObj? && "error" in reply.value.fields ==> r == Conservative()
    ensures reply.Ok? && reply.value.JObj? && Overall !in reply.value.fields ==> r == Conservative()
    ensures r != Conservative() ==>
      (reply.Ok? && reply.value.JObj? && ValidateAssessment(reply.value.fields) == Ok(r))
    ensures reply.Ok? && reply.value.JObj? && "error" !in reply.value.fields && Overall in reply.value.fields ==>
      (ValidateAssessment(reply.value.fields).Ok? ==> r == ValidateAssessment(reply.value.fields).value)
  {
    match reply
    case Raised => Conservative()
    case Ok(JObj(m)) =>
      if "error" in m || Overall !in m then Conservative()
      else (match ValidateAssessment(m)
        case Raised => Conservative()
        case Ok(v) => v)
    case Ok(_) => Conservative()
  }

  /** Assessing an answer the validator already produced returns that answer. */
  lemma AssessValidatedAnswer(a: Object)
    requires Validated(a) && Overall in a && "error" !in a
    ensures AssessTradingRisk(Ok(JObj(a))) == a
  {
    ValidatedIsFixed(a);
  }

  /**
   * A usable answer whose blocks the validator rejects (an adjustment or
   * recommendation that is not a dictionary) gives the conservative
   * assessment, as the `TypeError` falls into the outer handler.
   */
  lemma AssessInvalid(m: Object)
    requires "error" !in m && Overall in m
    requires ValidateAssessment(m).Raised?
    ensures AssessTradingRisk(Ok(JObj(m))) == Conservative()
    ensures (Adjustment in m && !m[Adjustment].JObj?) || (Recommendation in m && !m[Recommendation].JObj?)
  {
  }

  /** An out-of-range size multiplier is clamped to 0.3, not to the 0.5 the prompt asks for. */
  lemma SizeMultiplierFloor(a: Object, x: real)
    requires Overall in a && "error" !in a && x < 0.3
    requires Adjustment in a && a[Adjustment] == JObj(map["size_multiplier" := JReal(x)])
    requires Recommendation !in a
    ensures AssessTradingRisk(Ok(JObj(a)))[Adjustment].fields["size_multiplier"] == JReal(0.3)
  {
    var adj := FixAdjustment(a[Adjustment]).value;
    assert ClampReal(0.3, 1.5, x) == 0.3;
    assert adj.fields["size_multiplier"] == JReal(0.3);
    assert ValidateAssessment(a).value[Adjustment] == adj;
  }
}
