/**
 * Post-processing of the AI parameter optimiser: the validator that clamps
 * the suggested strategy parameters, the default optimisation kept when
 * the AI answer is unusable, and the decision whether to apply one.
 */
module ParameterOptimizer {
  import opened Wrappers
  import opened Json

  const Assessment := "strategy_assessment"
  const Triggers := "switch_triggers"

  /** The strategy recommendations the validator keeps. */
  predicate ValidRecommendation(j: Json) {
    j == JStr("KEEP_CURRENT") || j == JStr("ADJUST_PARAMS") || j == JStr("CONSIDER_ALTERNATIVE")
  }

  /** A number in [0, 1]. */
  predicate UnitNumber(j: Json) {
    IsNumber(j) && 0.0 <= NumberValue(j) <= 1.0
  }

  /** A section that keeps the current value: `current` and `suggested` both read from the current parameters. */
  function Keep(current: Object, key: string, default: Json, reason: string): (r: Json)
    ensures r.JObj? && "suggested" in r.fields && "current" in r.fields
    ensures r.fields["suggested"] == r.fields["current"] == Get(current, key, default)
  {
    JObj(map["current" := Get(current, key, default), "suggested" := Get(current, key, default), "reason" := JStr(reason)])
  }

  const KeepReason := "keep the current parameters"

  /** The answer's suggestion for a float section, read with `section.get("suggested", default)`. */
  function RealSuggestion(section: Json, default: real, parse: string -> Option<real>): Option<real> {
    if section.JObj? then Float(Get(section.fields, "suggested", JReal(default)), parse) else None
  }

  /** The answer's suggestion for an integer section. */
  function IntSuggestion(section: Json, default: int, parseInt: string -> Option<int>): Option<int> {
    if section.JObj? then Int(Get(section.fields, "suggested", JInt(default)), parseInt) else None
  }

  /** `out` is the dictionary `section` with only its suggestion replaced by `v`. */
  predicate SuggestionReplaced(out: Json, section: Json, v: Json) {
    && out.JObj? && section.JObj?
    && out.fields.Keys == section.fields.Keys + {"suggested"}
    && out.fields["suggested"] == v
    && forall k :: k in section.fields && k != "suggested" ==> out.fields[k] == section.fields[k]
  }

  /**
   * How the validator leaves one float section: kept from the current
   * parameters when the answer has none, otherwise the answer's section
   * with its suggestion clamped to [lo, hi].
   */
  predicate RealSectionAs(out: Json, opt: Object, current: Object, key: string, default: real, lo: real, hi: real,
                          parse: string -> Option<real>)
    requires lo <= hi
  {
    && (key !in opt ==> out == Keep(current, key, JReal(default), KeepReason))
    && (key in opt ==>
          RealSuggestion(opt[key], default, parse).Some?
          && SuggestionReplaced(out, opt[key], JReal(ClampReal(lo, hi, RealSuggestion(opt[key], default, parse).value))))
  }

  /** How the validator leaves one integer section. */
  predicate IntSectionAs(out: Json, opt: Object, current: Object, key: string, default: int, lo: int, hi: int,
                         parseInt: string -> Option<int>)
    requires lo <= hi
  {
    && (key !in opt ==> out == Keep(current, key, JInt(default), KeepReason))
    && (key in opt ==>
          IntSuggestion(opt[key], default, parseInt).Some?
          && SuggestionReplaced(out, opt[key], JInt(ClampInt(lo, hi, IntSuggestion(opt[key], default, parseInt).value))))
  }
  const MaPeriods := JArr([JInt(20), JInt(60), JInt(120)])

  /**
   * A float suggestion clamped to [lo, hi] in place. `section.get` raises on
   * anything but a dictionary and `float` on an unconvertible value.
   */
  function ClampedReal(section: Json, default: real, lo: real, hi: real, parse: string -> Option<real>): (r: Attempt<Json>)
    requires lo <= hi
    ensures r.Ok? <==> section.JObj? && Float(Get(section.fields, "suggested", JReal(default)), parse).Some?
    ensures r.Ok? ==>
      (r.value.JObj? && r.value.fields.Keys == section.fields.Keys + {"suggested"}
       && r.value.fields["suggested"].JReal? && lo <= r.value.fields["suggested"].r <= hi
       && forall k :: k in section.fields && k != "suggested" ==> r.value.fields[k] == section.fields[k])
    ensures r.Ok? ==> SuggestionReplaced(r.value, section, JReal(ClampReal(lo, hi, RealSuggestion(section, default, parse).value)))
  {
    if !section.JObj? then Raised
    else match Float(Get(section.fields, "suggested", JReal(default)), parse)
      case None => Raised
      case Some(x) => Ok(JObj(section.fields["suggested" := JReal(ClampReal(lo, hi, x))]))
  }

  /** An integer suggestion clamped to [lo, hi] in place; `int` of an unconvertible value raises. */
  function ClampedInt(section: Json, default: int, lo: int, hi: int, parseInt: string -> Option<int>): (r: Attempt<Json>)
    requires lo <= hi
    ensures r.Ok? <==> section.JObj? && Int(Get(section.fields, "suggested", JInt(default)), parseInt).Some?
    ensures r.Ok? ==>
      (r.value.JObj? && r.value.fields.Keys == section.fields.Keys + {"suggested"}
       && r.value.fields["suggested"].JInt? && lo <= r.value.fields["suggested"].i <= hi
       && forall k :: k in section.fields && k != "suggested" ==> r.value.fields[k] == section.fields[k])
    ensures r.Ok? ==> SuggestionReplaced(r.value, section, JInt(ClampInt(lo, hi, IntSuggestion(section, default, parseInt).value)))
  {
    if !section.JObj? then Raised
    else match Int(Get(section.fields, "suggested", JInt(default)), parseInt)
      case None => Raised
      case Some(n) => Ok(JObj(section.fields["suggested" := JInt(ClampInt(lo, hi, n))]))
  }

  /**
   * `max(0, min(1, float(x)))`: Python's `min` and `max` return the integer
   * bound on a tie or overflow, so the bounds come back as integers.
   */
  function Suitability(x: real): (r: Json)
    ensures UnitNumber(r)
    ensures 0.0 < x < 1.0 ==> r == JReal(x)
    ensures x <= 0.0 ==> r == JInt(0)
    ensures x >= 1.0 ==> r == JInt(1)
  {
    if x >= 1.0 then JInt(1) else if x <= 0.0 then JInt(0) else JReal(x)
  }

  /** The strategy assessment corrected in place; anything but a dictionary raises. */
  function FixAssessment(a: Json): (r: Attempt<Json>)
    ensures r.Ok? <==> a.JObj?
    ensures r.Ok? ==>
      (AssessmentValid(r.value) && r.value.fields.Keys == a.fields.Keys + {"suitability", "recommendation"})
    ensures r.Ok? && "recommendation" in a.fields && ValidRecommendation(a.fields["recommendation"])
      ==> r.value.fields["recommendation"] == a.fields["recommendation"]
    ensures r.Ok? && "suitability" in a.fields && !IsNumber(a.fields["suitability"])
      ==> r.value.fields["suitability"] == JReal(0.7)
    ensures r.Ok? && "suitability" !in a.fields ==> r.value.fields["suitability"] == JReal(0.7)
    ensures r.Ok? && "suitability" in a.fields && IsNumber(a.fields["suitability"])
      ==> r.value.fields["suitability"] == Suitability(NumberValue(a.fields["suitability"]))
    ensures r.Ok? && !("recommendation" in a.fields && ValidRecommendation(a.fields["recommendation"]))
      ==> r.value.fields["recommendation"] == JStr("KEEP_CURRENT")
    ensures r.Ok? ==> forall k :: k in a.fields && k !in {"suitability", "recommendation"} ==> r.value.fields[k] == a.fields[k]
  {
    if !a.JObj? then Raised
    else
      var m := a.fields;
      var s := if "suitability" in m && IsNumber(m["suitability"]) then Suitability(NumberValue(m["suitability"])) else JReal(0.7);
      var rec := if "recommendation" in m && ValidRecommendation(m["recommendation"]) then m["recommendation"] else JStr("KEEP_CURRENT");
      Ok(JObj(m["suitability" := s]["recommendation" := rec]))
  }

  /** The assessment the validator and the default put in when there is none. */
  function UnknownAssessment(reason: string): (r: Json)
    ensures AssessmentValid(r)
    ensures r.fields["recommendation"] == JStr("KEEP_CURRENT") && r.fields["suitability"] == JReal(0.7)
  {
    JObj(map["current_strategy_name" := JStr("dual moving average"), "suitability" := JReal(0.7),
      "market_type" := JStr("UNKNOWN"), "recommendation" := JStr("KEEP_CURRENT"), "reason" := JStr(reason)])
  }

  /** One numeric section: kept from the current parameters when missing, else clamped. */
  function RealSection(opt: Object, current: Object, key: string, default: real, lo: real, hi: real,
                       parse: string -> Option<real>): (r: Attempt<Json>)
    requires lo <= hi
    ensures r.Ok? <==> key !in opt || RealSuggestion(opt[key], default, parse).Some?
    ensures r.Ok? ==> RealSectionAs(r.value, opt, current, key, default, lo, hi, parse)
  {
    if key !in opt then Ok(Keep(current, key, JReal(default), KeepReason))
    else ClampedReal(opt[key], default, lo, hi, parse)
  }

  function IntSection(opt: Object, current: Object, key: string, default: int, lo: int, hi: int,
                      parseInt: string -> Option<int>): (r: Attempt<Json>)
    requires lo <= hi
    ensures r.Ok? <==> key !in opt || IntSuggestion(opt[key], default, parseInt).Some?
    ensures r.Ok? ==> IntSectionAs(r.value, opt, current, key, default, lo, hi, parseInt)
  {
    if key !in opt then Ok(Keep(current, key, JInt(default), KeepReason))
    else ClampedInt(opt[key], default, lo, hi, parseInt)
  }

  /** The sections every validated or default optimisation has. */
  const Sections: set<string> :=
    {"ma_periods", "convergence_threshold", "confirmation_period", "leverage", "position_size_pct", Assessment, Triggers}

  /** An optimisation whose assessment and triggers are as the validator leaves them. */
  predicate Validated(opt: Object) {
    Sections <= opt.Keys && AssessmentValid(opt[Assessment]) && opt[Triggers].JArr?
  }

  /** A strategy assessment as the validator leaves it. */
  predicate AssessmentValid(a: Json) {
    && a.JObj?
    && "recommendation" in a.fields && ValidRecommendation(a.fields["recommendation"])
    && "suitability" in a.fields && UnitNumber(a.fields["suitability"])
  }

  /** A section that was in the answer and holds a suggestion in [lo, hi]. */
  predicate SuggestsReal(section: Json, lo: real, hi: real) {
    section.JObj? && "suggested" in section.fields
    && section.fields["suggested"].JReal? && lo <= section.fields["suggested"].r <= hi
  }

  predicate SuggestsInt(section: Json, lo: int, hi: int) {
    section.JObj? && "suggested" in section.fields
    && section.fields["suggested"].JInt? && lo <= section.fields["suggested"].i <= hi
  }

  /** The parameter sections, each either clamped or kept. */
  datatype Clamped = Clamped(threshold: Json, period: Json, leverage: Json, size: Json)

  function ClampSections(opt: Object, current: Object, parse: string -> Option<real>,
                         parseInt: string -> Option<int>): (r: Attempt<Clamped>)
    ensures r.Ok? && "convergence_threshold" in opt ==> SuggestsReal(r.value.threshold, 0.5, 5.0)
    ensures r.Ok? && "confirmation_period" in opt ==> SuggestsInt(r.value.period, 300, 3600)
    ensures r.Ok? && "leverage" in opt ==> SuggestsInt(r.value.leverage, 1, 10)
    ensures r.Ok? && "position_size_pct" in opt ==> SuggestsInt(r.value.size, 10, 40)
    ensures r.Ok? && "leverage" !in opt ==> r.value.leverage == Keep(current, "leverage", JInt(5), KeepReason)
  {
    var t := RealSection(opt, current, "convergence_threshold", 2.0, 0.5, 5.0, parse);
    var p := IntSection(opt, current, "confirmation_period", 1800, 300, 3600, parseInt);
    var l := IntSection(opt, current, "leverage", 5, 1, 10, parseInt);
    var s := IntSection(opt, current, "position_size_pct", 30, 10, 40, parseInt);
    if t.Raised? || p.Raised? || l.Raised? || s.Raised? then Raised
    else Ok(Clamped(t.value, p.value, l.value, s.value))
  }

  /** Every answer section whose suggestion converts is available to clamp. */
  predicate SectionsReadable(opt: Object, parse: string -> Option<real>, parseInt: string -> Option<int>) {
    && ("convergence_threshold" !in opt || RealSuggestion(opt["convergence_threshold"], 2.0, parse).Some?)
    && ("confirmation_period" !in opt || IntSuggestion(opt["confirmation_period"], 1800, parseInt).Some?)
    && ("leverage" !in opt || IntSuggestion(opt["leverage"], 5, parseInt).Some?)
    && ("position_size_pct" !in opt || IntSuggestion(opt["position_size_pct"], 30, parseInt).Some?)
  }

  /**
   * The four parameter sections fail exactly when one present in the answer
   * has a suggestion that does not convert; otherwise each missing one is
   * kept from the current parameters and each present one is clamped.
   */
  lemma ClampSectionsAs(opt: Object, current: Object, parse: string -> Option<real>, parseInt: string -> Option<int>)
    ensures ClampSections(opt, current, parse, parseInt).Ok? <==> SectionsReadable(opt, parse, parseInt)
    ensures var r := ClampSections(opt, current, parse, parseInt);
      r.Ok? ==>
      && RealSectionAs(r.value.threshold, opt, current, "convergence_threshold", 2.0, 0.5, 5.0, parse)
      && IntSectionAs(r.value.period, opt, current, "confirmation_period", 1800, 300, 3600, parseInt)
      && IntSectionAs(r.value.leverage, opt, current, "leverage", 5, 1, 10, parseInt)
      && IntSectionAs(r.value.size, opt, current, "position_size_pct", 30, 10, 40, parseInt)
  {
  }

  /** The answer with its seven sections replaced. */
  function Assemble(opt: Object, ma: Json, c: Clamped, assessment: Json, triggers: Json): (r: Object)
    ensures r.Keys == opt.Keys + Sections
    ensures forall k :: k in opt && k !in Sections ==> r[k] == opt[k]
    ensures r["ma_periods"] == ma && r["convergence_threshold"] == c.threshold && r["confirmation_period"] == c.period
    ensures r["leverage"] == c.leverage && r["position_size_pct"] == c.size
    ensures r[Assessment] == assessment && r[Triggers] == triggers
    ensures AssessmentValid(assessment) && triggers.JArr? ==> Validated(r)
  {
    opt + map["ma_periods" := ma, "convergence_threshold" := c.threshold, "confirmation_period" := c.period,
      "leverage" := c.leverage, "position_size_pct" := c.size, Assessment := assessment, Triggers := triggers]
  }

  /**
   * `_validate_optimization`: a missing parameter section is filled from
   * the current parameters, a present one has its suggestion clamped
   * (threshold [0.5, 5.0], period [300, 3600], leverage [1, 10], size
   * [10, 40]); the strategy assessment and the trigger list are fixed up.
   * `Raised` stands for the exceptions a malformed section causes.
   */
  function ValidateOptimization(opt: Object, current: Object, parse: string -> Option<real>,
                                parseInt: string -> Option<int>): (r: Attempt<Object>)
    ensures r.Ok? ==> Validated(r.value)
    ensures r.Ok? ==> r.value.Keys == opt.Keys + Sections
    ensures r.Ok? ==> forall k :: k in opt && k !in Sections ==> r.value[k] == opt[k]
    ensures r.Ok? && "convergence_threshold" in opt ==> SuggestsReal(r.value["convergence_threshold"], 0.5, 5.0)
    ensures r.Ok? && "confirmation_period" in opt ==> SuggestsInt(r.value["confirmation_period"], 300, 3600)
    ensures r.Ok? && "leverage" in opt ==> SuggestsInt(r.value["leverage"], 1, 10)
    ensures r.Ok? && "position_size_pct" in opt ==> SuggestsInt(r.value["position_size_pct"], 10, 40)
    ensures r.Ok? && "leverage" !in opt ==> r.value["leverage"] == Keep(current, "leverage", JInt(5), KeepReason)
    ensures r.Ok? && Triggers in opt && opt[Triggers].JArr? ==> r.value[Triggers] == opt[Triggers]
    ensures Assessment in opt && !opt[Assessment].JObj? ==> r.Raised?
  {
    var ma := if "ma_periods" in opt then opt["ma_periods"] else Keep(current, "ma_periods", MaPeriods, KeepReason);
    var sections := ClampSections(opt, current, parse, parseInt);
    var assessment := if Assessment !in opt then Ok(UnknownAssessment("cannot assess")) else FixAssessment(opt[Assessment]);
    var triggers := if Triggers !in opt || !opt[Triggers].JArr? then JArr([]) else opt[Triggers];
    if sections.Raised? || assessment.Raised? then Raised
    else
      Ok(Assemble(opt, ma, sections.value, assessment.value, triggers))
  }

  /**
   * What `_validate_optimization` leaves in each section: it fails exactly
   * when a present parameter section does not convert or the assessment is
   * not a dictionary; a missing `ma_periods` is kept from the current
   * parameters and a present one is left alone; the parameter sections are
   * kept or clamped; the assessment is filled in or corrected; a trigger
   * list that is missing or not a list becomes empty.
   */
  lemma ValidateOptimizationAs(opt: Object, current: Object, parse: string -> Option<real>,
                               parseInt: string -> Option<int>)
    ensures ValidateOptimization(opt, current, parse, parseInt).Ok? <==>
      SectionsReadable(opt, parse, parseInt) && (Assessment !in opt || opt[Assessment].JObj?)
    ensures var r := ValidateOptimization(opt, current, parse, parseInt);
      r.Ok? ==>
      && ("ma_periods" in opt ==> r.value["ma_periods"] == opt["ma_periods"])
      && ("ma_periods" !in opt ==> r.value["ma_periods"] == Keep(current, "ma_periods", MaPeriods, KeepReason))
      && RealSectionAs(r.value["convergence_threshold"], opt, current, "convergence_threshold", 2.0, 0.5, 5.0, parse)
      && IntSectionAs(r.value["confirmation_period"], opt, current, "confirmation_period", 1800, 300, 3600, parseInt)
      && IntSectionAs(r.value["leverage"], opt, current, "leverage", 5, 1, 10, parseInt)
      && IntSectionAs(r.value["position_size_pct"], opt, current, "position_size_pct", 30, 10, 40, parseInt)
      && (Assessment !in opt ==> r.value[Assessment] == UnknownAssessment("cannot assess"))
      && (Assessment in opt ==> r.value[Assessment] == FixAssessment(opt[Assessment]).value)
      && (Triggers !in opt || !opt[Triggers].JArr? ==> r.value[Triggers] == JArr([]))
  {
    ClampSectionsAs(opt, current, parse, parseInt);
  }

  /** `_get_default_optimization`: every section keeps the current value, the strategy is kept, no triggers. */
  function DefaultOptimization(current: Object): (r: Object)
    ensures Validated(r)
  {
    var reason := "AI optimisation failed, keep the current parameters";
    map[
      "ma_periods" := Keep(current, "ma_periods", MaPeriods, reason),
      "convergence_threshold" := Keep(current, "convergence_threshold", JReal(2.0), reason),
      "confirmation_period" := Keep(current, "confirmation_period", JInt(1800), reason),
      "leverage" := Keep(current, "leverage", JInt(5), reason),
      "position_size_pct" := Keep(current, "position_size_pct", JInt(30), reason),
      Assessment := UnknownAssessment("AI optimisation unavailable, keep the current strategy"),
      Triggers := JArr([])]
  }

  /** The default has exactly the seven sections and recommends keeping the current strategy. */
  lemma DefaultShape(current: Object)
    ensures DefaultOptimization(current).Keys == Sections
    ensures DefaultOptimization(current)[Assessment].fields["recommendation"] == JStr("KEEP_CURRENT")
  {
  }

  /** The value the optimiser assumes for a parameter the caller did not pass. */
  function ParamDefault(key: string): Json {
    match key
    case "ma_periods" => MaPeriods
    case "convergence_threshold" => JReal(2.0)
    case "confirmation_period" => JInt(1800)
    case "leverage" => JInt(5)
    case _ => JInt(30)
  }

  /**
   * In the default optimisation every parameter's current value is the
   * caller's, or the parameter's own default when the caller has none, and
   * the suggestion is that same value.
   */
  lemma DefaultSuggestsCurrent(current: Object, key: string)
    requires key in Sections - {Assessment, Triggers}
    ensures key in DefaultOptimization(current)
    ensures DefaultOptimization(current)[key].JObj?
    ensures var fields := DefaultOptimization(current)[key].fields;
      "suggested" in fields && "current" in fields && fields["suggested"] == fields["current"]
    ensures DefaultOptimization(current)[key].fields["current"] == Get(current, key, ParamDefault(key))
  {
    var d := DefaultOptimization(current);
    var reason := "AI optimisation failed, keep the current parameters";
    if key == "ma_periods" {
      assert d[key] == Keep(current, key, MaPeriods, reason);
    } else if key == "convergence_threshold" {
      assert d[key] == Keep(current, key, JReal(2.0), reason);
    } else if key == "confirmation_period" {
      assert d[key] == Keep(current, key, JInt(1800), reason);
    } else if key == "leverage" {
      assert d[key] == Keep(current, key, JInt(5), reason);
    } else {
      assert d[key] == Keep(current, key, JInt(30), reason);
    }
  }

  /**
   * `optimize_parameters` after the AI call: the default when the call
   * raised, the answer is not a dictionary, carries `error` or fails
   * validation; otherwise the validated answer.
   */
  function OptimizeParameters(reply: Attempt<Json>, current: Object, parse: string -> Option<real>,
                              parseInt: string -> Option<int>): (r: Object)
    ensures Validated(r)
    ensures reply.Raised? ==> r == DefaultOptimization(current)
    ensures reply.Ok? && reply.value.JObj? && "error" in reply.value.fields ==> r == DefaultOptimization(current)
    ensures r != DefaultOptimization(current) ==>
      (reply.Ok? && reply.value.JObj? && ValidateOptimization(reply.value.fields, current, parse, parseInt) == Ok(r))
  {
    if reply.Raised? || !reply.value.JObj? || "error" in reply.value.fields then DefaultOptimization(current)
    else
      var v := ValidateOptimization(reply.value.fields, current, parse, parseInt);
      if v.Ok? then v.value else DefaultOptimization(current)
  }

  /** An answer that is not a dictionary yields the default. */
  lemma OptimizeNonObject(j: Json, current: Object, parse: string -> Option<real>, parseInt: string -> Option<int>)
    requires !j.JObj?
    ensures OptimizeParameters(Ok(j), current, parse, parseInt) == DefaultOptimization(current)
  {
  }

  /** A dictionary answer without `error` that validates yields the validated answer. */
  lemma OptimizeValidated(m: Object, current: Object, parse: string -> Option<real>, parseInt: string -> Option<int>)
    requires "error" !in m
    requires ValidateOptimization(m, current, parse, parseInt).Ok?
    ensures OptimizeParameters(Ok(JObj(m)), current, parse, parseInt) == ValidateOptimization(m, current, parse, parseInt).value
  {
    var reply: Attempt<Json> := Ok(JObj(m));
    assert reply.value.fields == m;
  }

  /** A dictionary answer whose validation raises yields the default. */
  lemma OptimizeInvalid(m: Object, current: Object, parse: string -> Option<real>, parseInt: string -> Option<int>)
    requires ValidateOptimization(m, current, parse, parseInt).Raised?
    ensures OptimizeParameters(Ok(JObj(m)), current, parse, parseInt) == DefaultOptimization(current)
  {
    var reply: Attempt<Json> := Ok(JObj(m));
    assert reply.value.fields == m;
  }

  /**
   * `should_apply_optimization`: false for CONSIDER_ALTERNATIVE and
   * KEEP_CURRENT (also the default when the recommendation is missing),
   * true for anything else. A non-dictionary assessment raises.
   */
  function ShouldApply(opt: Object): (r: Attempt<bool>)
    ensures Assessment !in opt ==> r == Ok(false)
    ensures r.Ok? <==> Get(opt, Assessment, JObj(map[])).JObj?
    ensures r == Ok(true) <==>
      (Assessment in opt && opt[Assessment].JObj? && "recommendation" in opt[Assessment].fields
       && opt[Assessment].fields["recommendation"] != JStr("CONSIDER_ALTERNATIVE")
       && opt[Assessment].fields["recommendation"] != JStr("KEEP_CURRENT"))
  {
    var assessment := Get(opt, Assessment, JObj(map[]));
    if !assessment.JObj? then Raised
    else
      var rec := Get(assessment.fields, "recommendation", JStr("KEEP_CURRENT"));
      Ok(rec != JStr("CONSIDER_ALTERNATIVE") && rec != JStr("KEEP_CURRENT"))
  }

  /** A validated optimisation is applied exactly when it recommends ADJUST_PARAMS. */
  lemma ShouldApplyValidated(opt: Object)
    requires Validated(opt)
    ensures ShouldApply(opt) == Ok(opt[Assessment].fields["recommendation"] == JStr("ADJUST_PARAMS"))
  {
  }

  /** Whatever the AI answered, the optimiser's result is never applied unless it recommends ADJUST_PARAMS. */
  lemma AppliedOnlyWhenAdjusting(reply: Attempt<Json>, current: Object, parse: string -> Option<real>,
                                 parseInt: string -> Option<int>)
    ensures var r := OptimizeParameters(reply, current, parse, parseInt);
      ShouldApply(r) == Ok(r[Assessment].fields["recommendation"] == JStr("ADJUST_PARAMS"))
    ensures reply.Raised? ==> ShouldApply(OptimizeParameters(reply, current, parse, parseInt)) == Ok(false)
  {
    ShouldApplyValidated(OptimizeParameters(reply, current, parse, parseInt));
  }
}
