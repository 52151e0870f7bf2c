/**
 * The risk manager: position sizing under the exchange's LOT_SIZE filter,
 * order validation against the symbol's filters, stop-loss and take-profit
 * prices, and the account-level risk grade.
 *
 * Quantities and prices are exact reals, as the `Decimal` arithmetic of the
 * filter code intends; `%` on decimals is the truncating remainder.
 */
module Risk {
  import opened Wrappers
  import opened Json

  /**
   * One decoded entry of a symbol's `filters` list. A field is `None` when
   * the key is absent, so the per-field defaults live in one place below.
   */
  datatype Filter =
    | LotSize(minQty: Option<real>, maxQty: Option<real>, stepSize: Option<real>)
    | PriceFilter(minPrice: Option<real>, maxPrice: Option<real>, tickSize: Option<real>)
    | MinNotional(notional: Option<real>)
    | OtherFilter

  /** Absent minimums are 0. */
  function Lower(o: Option<real>): real { o.GetOr(0.0) }

  /** Absent step and tick sizes are 0.01. */
  function Step(o: Option<real>): real { o.GetOr(0.01) }

  /** Absent maximums are `float('inf')`: nothing exceeds them. */
  predicate Exceeds(x: real, max: Option<real>) { max.Some? && x > max.value }

  /** Multiplying both sides of an inequality by a positive factor. */
  lemma MulMono(a: real, b: real, c: real)
    requires a <= b && c > 0.0
    ensures a * c <= b * c
  {
  }

  lemma MulStrict(a: real, b: real, c: real)
    requires a < b && c > 0.0
    ensures a * c < b * c
  {
  }

  /** The whole number of steps in a non-negative amount fits in it, one more does not. */
  lemma WholeSteps(x: real, y: real)
    requires y > 0.0
    ensures x >= 0.0 ==> Trunc(x / y) as real * y <= x < (Trunc(x / y) as real + 1.0) * y
  {
    if x >= 0.0 {
      var q := x / y;
      assert q * y == x;
      if q < 0.0 {
        MulStrict(q, 0.0, y);
      }
      var t := Trunc(q) as real;
      assert t <= q < t + 1.0;
      MulMono(t, q, y);
      var next := t + 1.0;
      MulStrict(q, next, y);
      assert q * y < next * y;
      assert x < next * y;
    }
  }

  /** `Decimal` remainder: the result carries the sign of the dividend. */
  function Rem(x: real, y: real): (r: real)
    requires y != 0.0
    ensures x >= 0.0 && y > 0.0 ==> 0.0 <= r < y
  {
    if y > 0.0 then WholeSteps(x, y); x - y * Trunc(x / y) as real
    else x - y * Trunc(x / y) as real
  }

  /** A multiple of the step leaves no remainder. */
  lemma RemOfMultiple(n: int, y: real)
    requires y != 0.0
    ensures Rem(n as real * y, y) == 0.0
  {
    var x := n as real * y;
    assert x / y == n as real;
    assert Trunc(x / y) == n;
    assert Rem(x, y) == x - y * n as real;
  }

  /** A zero remainder means the value is a whole number of steps. */
  lemma RemZeroIsMultiple(x: real, y: real)
    requires y != 0.0 && Rem(x, y) == 0.0
    ensures x == Trunc(x / y) as real * y
  {
  }

  /** Reads one numeric field with `float(f.get(key, ...))`; a present field that does not convert raises. */
  function Field(f: Object, key: string, parse: string -> Option<real>): (r: Attempt<Option<real>>)
    ensures key !in f ==> r == Ok(None)
    ensures key in f ==> (r.Ok? <==> Float(f[key], parse).Some?)
  {
    if key !in f then Ok(None)
    else match Float(f[key], parse)
      case Some(x) => Ok(Some(x))
      case None => Raised
  }

  /** `f.get('filterType')`. */
  function Kind(f: Object): Json {
    Get(f, "filterType", JNull)
  }

  /**
   * Decodes one filter entry by its `filterType`: the three known types read
   * their fields, any other type is kept as a filter the checks ignore.
   */
  function DecodeFilter(f: Json, parse: string -> Option<real>): (r: Attempt<Filter>)
    ensures !f.JObj? ==> r == Raised
    ensures (r.Ok? && r.value.LotSize?) <==>
      (&& f.JObj? && Kind(f.fields) == JStr("LOT_SIZE")
       && Field(f.fields, "minQty", parse).Ok? && Field(f.fields, "maxQty", parse).Ok?
       && Field(f.fields, "stepSize", parse).Ok?)
    ensures r.Ok? && r.value.LotSize? ==>
      (f.JObj? && r.value == LotSize(Field(f.fields, "minQty", parse).value, Field(f.fields, "maxQty", parse).value,
                                     Field(f.fields, "stepSize", parse).value))
    ensures (r.Ok? && r.value.PriceFilter?) <==>
      (&& f.JObj? && Kind(f.fields) == JStr("PRICE_FILTER")
       && Field(f.fields, "minPrice", parse).Ok? && Field(f.fields, "maxPrice", parse).Ok?
       && Field(f.fields, "tickSize", parse).Ok?)
    ensures r.Ok? && r.value.PriceFilter? ==>
      (f.JObj? && r.value == PriceFilter(Field(f.fields, "minPrice", parse).value, Field(f.fields, "maxPrice", parse).value,
                                         Field(f.fields, "tickSize", parse).value))
    ensures (r.Ok? && r.value.MinNotional?) <==>
      (f.JObj? && Kind(f.fields) == JStr("MIN_NOTIONAL") && Field(f.fields, "notional", parse).Ok?)
    ensures r.Ok? && r.value.MinNotional? ==>
      (f.JObj? && r.value == MinNotional(Field(f.fields, "notional", parse).value))
    ensures r == Ok(OtherFilter) <==>
      (f.JObj? && Kind(f.fields) !in {JStr("LOT_SIZE"), JStr("PRICE_FILTER"), JStr("MIN_NOTIONAL")})
  {
    if !f.JObj? then Raised
    else
      var kind := Kind(f.fields);
      if kind == JStr("LOT_SIZE") then
        match (Field(f.fields, "minQty", parse), Field(f.fields, "maxQty", parse), Field(f.fields, "stepSize", parse))
        case (Ok(a), Ok(b), Ok(c)) => Ok(LotSize(a, b, c))
        case _ => Raised
      else if kind == JStr("PRICE_FILTER") then
        match (Field(f.fields, "minPrice", parse), Field(f.fields, "maxPrice", parse), Field(f.fields, "tickSize", parse))
        case (Ok(a), Ok(b), Ok(c)) => Ok(PriceFilter(a, b, c))
        case _ => Raised
      else if kind == JStr("MIN_NOTIONAL") then
        match Field(f.fields, "notional", parse)
        case Ok(a) => Ok(MinNotional(a))
        case Raised => Raised
      else Ok(OtherFilter)
  }

  /** Decodes a list of filter entries; a malformed entry raises. */
  function DecodeFilters(items: seq<Json>, parse: string -> Option<real>): (r: Attempt<seq<Filter>>)
    ensures r.Ok? ==> |r.value| == |items|
    ensures r.Ok? ==> forall i :: 0 <= i < |items| ==> DecodeFilter(items[i], parse) == Ok(r.value[i])
    ensures r.Raised? ==> exists i :: 0 <= i < |items| && DecodeFilter(items[i], parse).Raised?
  {
    if |items| == 0 then Ok([])
    else match (DecodeFilter(items[0], parse), DecodeFilters(items[1..], parse))
      case (Ok(f), Ok(fs)) => Ok([f] + fs)
      case (Raised, _) => Raised
      case (_, Raised) =>
        assert forall i :: 0 <= i < |items| - 1 ==> items[1..][i] == items[i + 1];
        Raised
  }

  /** `symbol_info.get('filters', [])`; an empty container iterates as no filters. */
  function FiltersOf(info: Object, parse: string -> Option<real>): Attempt<seq<Filter>> {
    match Get(info, "filters", JArr([]))
    case JArr(items) => DecodeFilters(items, parse)
    case j => if !Truthy(j) && (j.JObj? || j.JStr?) then Ok([]) else Raised
  }

  /** The first LOT_SIZE filter; later ones are ignored by the sizing. */
  function FirstLot(fs: seq<Filter>): (r: Option<Filter>)
    ensures r.Some? ==> r.value.LotSize? && r.value in fs
    ensures r.None? <==> forall i :: 0 <= i < |fs| ==> !fs[i].LotSize?
    ensures r.Some? ==> exists i :: 0 <= i < |fs| && fs[i] == r.value && forall j :: 0 <= j < i ==> !fs[j].LotSize?
  {
    if |fs| == 0 then None
    else if fs[0].LotSize? then Some(fs[0])
    else
      var r := FirstLot(fs[1..]);
      assert forall i :: 0 <= i < |fs| - 1 ==> fs[1..][i] == fs[i + 1];
      r
  }

  /** The quantity clamped to `[minQty, maxQty]` as `max(min_qty, min(quantity, max_qty))` does. */
  function Clamp(q: real, lot: Filter): real
    requires lot.LotSize?
  {
    var capped := if Exceeds(q, lot.maxQty) then lot.maxQty.value else q;
    var lo := Lower(lot.minQty);
    if lo > capped then lo else capped
  }

  /** Clamps into the lot range, then rounds down to a whole number of steps. */
  function Quantize(q: real, lot: Filter): (r: real)
    requires lot.LotSize?
    ensures Step(lot.stepSize) <= 0.0 ==> r == Clamp(q, lot)
  {
    var c := Clamp(q, lot);
    var step := Step(lot.stepSize);
    if step > 0.0 then c - Rem(c, step) else c
  }

  /**
   * `_apply_lot_size_filter`: unchanged without a LOT_SIZE filter, otherwise
   * quantized by the first one.
   */
  function ApplyLotSize(q: real, fs: seq<Filter>): (r: real)
    ensures FirstLot(fs).None? ==> r == q
    ensures FirstLot(fs).Some? ==> r == Quantize(q, FirstLot(fs).value)
  {
    match FirstLot(fs)
    case None => q
    case Some(lot) => Quantize(q, lot)
  }

  /** The first LOT_SIZE filter of a concatenation: the first part's if it has one, else the second's. */
  lemma {:induction false} FirstLotAppend(fs: seq<Filter>, gs: seq<Filter>)
    ensures FirstLot(fs + gs) == if FirstLot(fs).Some? then FirstLot(fs) else FirstLot(gs)
    decreases |fs|
  {
    if |fs| == 0 {
      assert fs + gs == gs;
    } else {
      assert (fs + gs)[0] == fs[0];
      assert (fs + gs)[1..] == fs[1..] + gs;
      FirstLotAppend(fs[1..], gs);
    }
  }

  /**
   * Only the first LOT_SIZE filter shapes the quantity: filters after it
   * are ignored, and so are the filters of other types before it.
   */
  lemma LotSizeUsesFirst(q: real, fs: seq<Filter>, gs: seq<Filter>)
    ensures FirstLot(fs).Some? ==> ApplyLotSize(q, fs + gs) == ApplyLotSize(q, fs)
    ensures (forall i :: 0 <= i < |fs| ==> !fs[i].LotSize?) ==> ApplyLotSize(q, fs + gs) == ApplyLotSize(q, gs)
  {
    FirstLotAppend(fs, gs);
  }

  /** The quantized amount is the whole number of steps in the clamped amount. */
  lemma QuantizeOnGrid(q: real, lot: Filter)
    requires lot.LotSize? && Step(lot.stepSize) > 0.0
    ensures var step := Step(lot.stepSize);
      && Quantize(q, lot) == Trunc(Clamp(q, lot) / step) as real * step
      && Rem(Quantize(q, lot), step) == 0.0
  {
    var step := Step(lot.stepSize);
    var c := Clamp(q, lot);
    var n := Trunc(c / step);
    assert Rem(c, step) == c - step * n as real;
    assert Quantize(q, lot) == c - Rem(c, step);
    assert Quantize(q, lot) == n as real * step;
    RemOfMultiple(n, step);
  }

  /** An integer below a quotient stays below its truncation. */
  lemma TruncBelow(m: int, x: real)
    requires x >= 0.0 && m as real <= x
    ensures m <= Trunc(x)
  {
  }

  /** The clamp lands at or above the minimum, at or below a consistent maximum, and never raises the quantity past the minimum. */
  lemma ClampFacts(q: real, lot: Filter)
    requires lot.LotSize?
    ensures Clamp(q, lot) >= Lower(lot.minQty)
    ensures lot.maxQty.Some? && Lower(lot.minQty) <= lot.maxQty.value ==> Clamp(q, lot) <= lot.maxQty.value
    ensures q >= Lower(lot.minQty) ==> Clamp(q, lot) <= q
  {
  }

  /** Rounding down to the grid loses less than one step and stays non-negative. */
  lemma QuantizeRange(q: real, lot: Filter)
    requires lot.LotSize? && Step(lot.stepSize) > 0.0 && Lower(lot.minQty) >= 0.0
    ensures 0.0 <= Quantize(q, lot) <= Clamp(q, lot) < Quantize(q, lot) + Step(lot.stepSize)
  {
    var step := Step(lot.stepSize);
    var c := Clamp(q, lot);
    ClampFacts(q, lot);
    QuantizeOnGrid(q, lot);
    WholeSteps(c, step);
    var n := Trunc(c / step);
    if n < 0 {
      assert c / step * step == c;
      MulStrict(c / step, 0.0, step);
    }
    MulMono(0.0, n as real, step);
  }

  /** Rounding an amount down to the grid never drops it below a grid point it was above. */
  lemma GridFloorAbove(c: real, step: real, lo: real)
    requires step > 0.0 && c >= lo >= 0.0 && Rem(lo, step) == 0.0
    ensures Trunc(c / step) as real * step >= lo
  {
    RemZeroIsMultiple(lo, step);
    var m := Trunc(lo / step);
    var n := Trunc(c / step);
    var cs := c / step;
    assert cs * step == c;
    if cs < m as real {
      MulStrict(cs, m as real, step);
      assert false;
    }
    TruncBelow(m, cs);
    MulMono(m as real, n as real, step);
  }

  /** A minimum on the step grid survives the rounding down. */
  lemma QuantizeAboveMin(q: real, lot: Filter)
    requires lot.LotSize? && Step(lot.stepSize) > 0.0 && Lower(lot.minQty) >= 0.0
    requires Rem(Lower(lot.minQty), Step(lot.stepSize)) == 0.0
    ensures Quantize(q, lot) >= Lower(lot.minQty)
  {
    ClampFacts(q, lot);
    QuantizeOnGrid(q, lot);
    GridFloorAbove(Clamp(q, lot), Step(lot.stepSize), Lower(lot.minQty));
  }

  /**
   * With a positive step and a non-negative minimum the quantized amount is
   * a whole number of steps, lies in the lot range whenever the range is
   * consistent and the minimum is itself on the step grid, and loses less
   * than one step against the clamped amount.
   */
  lemma QuantizeBounds(q: real, lot: Filter)
    requires lot.LotSize? && Step(lot.stepSize) > 0.0 && Lower(lot.minQty) >= 0.0
    ensures var r := Quantize(q, lot); var step := Step(lot.stepSize);
      && Rem(r, step) == 0.0
      && 0.0 <= r <= Clamp(q, lot) < r + step
      && (lot.maxQty.Some? && Lower(lot.minQty) <= lot.maxQty.value ==> r <= lot.maxQty.value)
      && (Rem(Lower(lot.minQty), step) == 0.0 ==> r >= Lower(lot.minQty))
  {
    QuantizeOnGrid(q, lot);
    QuantizeRange(q, lot);
    ClampFacts(q, lot);
    if Rem(Lower(lot.minQty), Step(lot.stepSize)) == 0.0 {
      QuantizeAboveMin(q, lot);
    }
  }

  /** Why `validate_order` rejected an order. */
  datatype Violation =
    | PriceBelowMin(price: real, minPrice: real)
    | PriceAboveMax(price: real, maxPrice: real)
    | PriceOffTick(price: real, tickSize: real)
    | QtyBelowMin(quantity: real, minQty: real)
    | QtyAboveMax(quantity: real, maxQty: real)
    | QtyOffStep(quantity: real, stepSize: real)
    | NotionalBelowMin(notional: real, minNotional: real)

  /** The order respects one filter. */
  predicate Satisfies(f: Filter, quantity: real, price: real) {
    match f
    case PriceFilter(mn, mx, tick) =>
      price >= Lower(mn) && !Exceeds(price, mx) && (Step(tick) > 0.0 ==> Rem(price, Step(tick)) == 0.0)
    case LotSize(mn, mx, step) =>
      quantity >= Lower(mn) && !Exceeds(quantity, mx) && (Step(step) > 0.0 ==> Rem(quantity, Step(step)) == 0.0)
    case MinNotional(n) => price * quantity >= Lower(n)
    case OtherFilter => true
  }

  /** The first check of one filter that fails, in the order the code tests them. */
  function ViolationOf(f: Filter, quantity: real, price: real): (r: Option<Violation>)
    ensures r.None? <==> Satisfies(f, quantity, price)
  {
    match f
    case PriceFilter(mn, mx, tick) =>
      if price < Lower(mn) then Some(PriceBelowMin(price, Lower(mn)))
      else if Exceeds(price, mx) then Some(PriceAboveMax(price, mx.value))
      else if Step(tick) > 0.0 && Rem(price, Step(tick)) != 0.0 then Some(PriceOffTick(price, Step(tick)))
      else None
    case LotSize(mn, mx, step) =>
      if quantity < Lower(mn) then Some(QtyBelowMin(quantity, Lower(mn)))
      else if Exceeds(quantity, mx) then Some(QtyAboveMax(quantity, mx.value))
      else if Step(step) > 0.0 && Rem(quantity, Step(step)) != 0.0 then Some(QtyOffStep(quantity, Step(step)))
      else None
    case MinNotional(n) =>
      if price * quantity < Lower(n) then Some(NotionalBelowMin(price * quantity, Lower(n))) else None
    case OtherFilter => None
  }

  datatype Verdict = Valid | Invalid(violation: Violation)

  /**
   * `validate_order`: valid exactly when every filter is satisfied; otherwise
   * the reason is that of the first filter that is not.
   */
  function ValidateOrder(fs: seq<Filter>, quantity: real, price: real): (r: Verdict)
    ensures r.Valid? <==> forall i :: 0 <= i < |fs| ==> Satisfies(fs[i], quantity, price)
    ensures r.Invalid? ==> exists i :: (0 <= i < |fs|
      && (forall j :: 0 <= j < i ==> Satisfies(fs[j], quantity, price))
      && ViolationOf(fs[i], quantity, price) == Some(r.violation))
  {
    if |fs| == 0 then Valid
    else match ViolationOf(fs[0], quantity, price)
      case Some(v) => Invalid(v)
      case None =>
        var r := ValidateOrder(fs[1..], quantity, price);
        assert forall i :: 0 <= i < |fs| - 1 ==> fs[1..][i] == fs[i + 1];
        if r.Invalid? then FirstViolationShift(fs, quantity, price, r.violation); r else r
  }

  /** Shifts a first violation found in the tail to the whole list when the head is satisfied. */
  lemma FirstViolationShift(fs: seq<Filter>, quantity: real, price: real, v: Violation)
    requires |fs| > 0 && Satisfies(fs[0], quantity, price)
    requires exists i :: (0 <= i < |fs| - 1
      && (forall j :: 0 <= j < i ==> Satisfies(fs[1..][j], quantity, price))
      && ViolationOf(fs[1..][i], quantity, price) == Some(v))
    ensures exists i :: (0 <= i < |fs|
      && (forall j :: 0 <= j < i ==> Satisfies(fs[j], quantity, price))
      && ViolationOf(fs[i], quantity, price) == Some(v))
  {
    var i :| 0 <= i < |fs| - 1
      && (forall j :: 0 <= j < i ==> Satisfies(fs[1..][j], quantity, price))
      && ViolationOf(fs[1..][i], quantity, price) == Some(v);
    assert fs[i + 1] == fs[1..][i];
    forall j | 0 <= j < i + 1
      ensures Satisfies(fs[j], quantity, price)
    {
      if j > 0 {
        assert fs[j] == fs[1..][j - 1];
      }
    }
  }

  /** With a 0.001 lot step and minimum, 0.0009 is rejected as too small and 0.001 passes. */
  lemma ValidateOrderExample()
    ensures ValidateOrder([LotSize(Some(0.001), None, Some(0.001))], 0.0009, 100.0)
      == Invalid(QtyBelowMin(0.0009, 0.001))
    ensures ValidateOrder([LotSize(Some(0.001), None, Some(0.001))], 0.001, 100.0) == Valid
  {
    RemOfMultiple(1, 0.001);
  }

  /**
   * The sizing's output passes the LOT_SIZE check of the filter it was
   * quantized by, when that filter has a positive step, a consistent range
   * and a minimum on the step grid.
   */
  lemma QuantizedSatisfiesLot(q: real, lot: Filter, price: real)
    requires lot.LotSize? && Step(lot.stepSize) > 0.0 && Lower(lot.minQty) >= 0.0
    requires Rem(Lower(lot.minQty), Step(lot.stepSize)) == 0.0
    requires lot.maxQty.Some? ==> Lower(lot.minQty) <= lot.maxQty.value
    ensures Satisfies(lot, Quantize(q, lot), price)
  {
    QuantizeBounds(q, lot);
  }

  /** The manager's limits (constructor defaults 5x and 30%). */
  datatype RiskConfig = RiskConfig(maxLeverage: int, maxPositionPercent: real)

  const DefaultRiskConfig := RiskConfig(5, 30.0)

  datatype Sizing = Sizing(quantity: real, notional: real, margin: real, leverage: int)

  /** `min(leverage, max_leverage)`. */
  function EffectiveLeverage(cfg: RiskConfig, leverage: int): (l: int)
    ensures l <= cfg.maxLeverage && l <= leverage
    ensures l == leverage || l == cfg.maxLeverage
  {
    if leverage < cfg.maxLeverage then leverage else cfg.maxLeverage
  }

  /** The unfiltered quantity: the margin budget times leverage, in units of the asset. */
  function RawQuantity(cfg: RiskConfig, balance: real, price: real, leverage: int): real
    requires price != 0.0
  {
    balance * (cfg.maxPositionPercent / 100.0) * EffectiveLeverage(cfg, leverage) as real / price
  }

  /**
   * `calculate_position_size`; a zero price or zero effective leverage is a
   * division by zero and raises.
   */
  function CalculatePositionSize(cfg: RiskConfig, balance: real, price: real, leverage: int, fs: seq<Filter>): (r: Attempt<Sizing>)
    ensures r.Ok? <==> price != 0.0 && EffectiveLeverage(cfg, leverage) != 0
    ensures r.Ok? ==> r.value.leverage == EffectiveLeverage(cfg, leverage)
    ensures r.Ok? ==> r.value.quantity == ApplyLotSize(RawQuantity(cfg, balance, price, leverage), fs)
  {
    var lev := EffectiveLeverage(cfg, leverage);
    if price == 0.0 || lev == 0 then Raised
    else
      var q := ApplyLotSize(RawQuantity(cfg, balance, price, leverage), fs);
      var notional := q * price;
      Ok(Sizing(q, notional, notional / lev as real, lev))
  }

  /** The notional is the quantity at the price, and the margin times the leverage is the notional. */
  lemma SizingConsistent(cfg: RiskConfig, balance: real, price: real, leverage: int, fs: seq<Filter>)
    requires CalculatePositionSize(cfg, balance, price, leverage, fs).Ok?
    ensures var s := CalculatePositionSize(cfg, balance, price, leverage, fs).value;
      s.notional == s.quantity * price && s.margin * s.leverage as real == s.notional
  {
    var s := CalculatePositionSize(cfg, balance, price, leverage, fs).value;
    assert s.margin == s.notional / s.leverage as real;
  }

  /** Without a LOT_SIZE filter the whole margin budget is used. */
  lemma SizingSpendsBudget(cfg: RiskConfig, balance: real, price: real, leverage: int, fs: seq<Filter>)
    requires price != 0.0 && EffectiveLeverage(cfg, leverage) != 0
    requires FirstLot(fs).None?
    ensures CalculatePositionSize(cfg, balance, price, leverage, fs).value.margin
      == balance * cfg.maxPositionPercent / 100.0
  {
    var lev := EffectiveLeverage(cfg, leverage) as real;
    var budget := balance * (cfg.maxPositionPercent / 100.0);
    var q := budget * lev / price;
    assert q * price == budget * lev;
    assert q * price / lev == budget;
  }

  /**
   * With a LOT_SIZE filter (positive step, non-negative minimum no larger
   * than the raw quantity) the margin never exceeds the budget.
   */
  lemma SizingWithinBudget(cfg: RiskConfig, balance: real, price: real, leverage: int, fs: seq<Filter>)
    requires price > 0.0 && EffectiveLeverage(cfg, leverage) > 0
    requires FirstLot(fs).Some?
    requires var lot := FirstLot(fs).value;
      Step(lot.stepSize) > 0.0 && 0.0 <= Lower(lot.minQty) <= RawQuantity(cfg, balance, price, leverage)
    ensures var s := CalculatePositionSize(cfg, balance, price, leverage, fs).value;
      0.0 <= s.margin <= balance * (cfg.maxPositionPercent / 100.0)
  {
    var raw := RawQuantity(cfg, balance, price, leverage);
    var s := CalculatePositionSize(cfg, balance, price, leverage, fs).value;
    LotQuantityWithin(raw, fs);
    MarginBound(cfg, balance, price, leverage, s.quantity);
  }

  /** A quantity between zero and the unfiltered one needs a margin between zero and the budget. */
  lemma MarginBound(cfg: RiskConfig, balance: real, price: real, leverage: int, q: real)
    requires price > 0.0 && EffectiveLeverage(cfg, leverage) > 0
    requires 0.0 <= q <= RawQuantity(cfg, balance, price, leverage)
    ensures 0.0 <= q * price / EffectiveLeverage(cfg, leverage) as real <= balance * (cfg.maxPositionPercent / 100.0)
  {
    BudgetScaling(q, RawQuantity(cfg, balance, price, leverage), price, EffectiveLeverage(cfg, leverage) as real,
                  balance * (cfg.maxPositionPercent / 100.0));
  }

  /** With a usable first LOT_SIZE filter, the filtered quantity is non-negative and no larger than a quantity above the minimum. */
  lemma LotQuantityWithin(q: real, fs: seq<Filter>)
    requires FirstLot(fs).Some?
    requires var lot := FirstLot(fs).value;
      Step(lot.stepSize) > 0.0 && 0.0 <= Lower(lot.minQty) <= q
    ensures 0.0 <= ApplyLotSize(q, fs) <= q
  {
    var lot := FirstLot(fs).value;
    QuantizeRange(q, lot);
    ClampFacts(q, lot);
  }

  /** A quantity no larger than the budgeted one needs no more than the budgeted margin. */
  lemma BudgetScaling(q: real, raw: real, price: real, lev: real, budget: real)
    requires 0.0 <= q <= raw && price > 0.0 && lev > 0.0
    requires raw == budget * lev / price
    ensures 0.0 <= q * price / lev <= budget
  {
    var inv := 1.0 / lev;
    assert raw * price == budget * lev;
    MulMono(q, raw, price);
    var a := q * price;
    var b := raw * price;
    MulMono(a, b, inv);
    assert a / lev == a * inv;
    assert b / lev == b * inv;
    assert b * inv == budget;
    MulMono(0.0, q, price);
    MulMono(0.0, a, inv);
  }

  /** `calculate_stop_loss`: below the entry for "BUY", above it for anything else. */
  function StopLoss(entry: real, side: string, percent: real): (r: real)
    ensures entry > 0.0 && percent > 0.0 ==> (side == "BUY" <==> r < entry)
  {
    if side == "BUY" then entry * (1.0 - percent / 100.0) else entry * (1.0 + percent / 100.0)
  }

  /** `calculate_take_profit`: above the entry for "BUY", below it for anything else. */
  function TakeProfit(entry: real, side: string, percent: real): (r: real)
    ensures entry > 0.0 && percent > 0.0 ==> (side == "BUY" <==> r > entry)
  {
    if side == "BUY" then entry * (1.0 + percent / 100.0) else entry * (1.0 - percent / 100.0)
  }

  /**
   * The two sides mirror each other around the entry, and a long's stop is
   * a short's target at the same percentage.
   */
  lemma StopTargetMirror(entry: real, percent: real, other: string)
    requires other != "BUY"
    ensures StopLoss(entry, "BUY", percent) == TakeProfit(entry, other, percent)
    ensures TakeProfit(entry, "BUY", percent) == StopLoss(entry, other, percent)
    ensures entry - StopLoss(entry, "BUY", percent) == StopLoss(entry, other, percent) - entry
  {
  }

  datatype RiskLevel = Low | Medium | High

  /** `_assess_risk_level`. */
  function AssessRiskLevel(usage: real, count: int): (r: RiskLevel)
    ensures r == Low <==> usage <= 50.0 && count <= 2
    ensures r == High <==> usage > 70.0 || count >= 4
  {
    if usage > 70.0 || count > 3 then High
    else if usage > 50.0 || count > 2 then Medium
    else Low
  }

  function LevelRank(l: RiskLevel): int {
    match l
    case Low => 0
    case Medium => 1
    case High => 2
  }

  /** More margin in use or more open positions never lowers the grade. */
  lemma RiskLevelMonotone(u: real, c: int, u': real, c': int)
    requires u <= u' && c <= c'
    ensures LevelRank(AssessRiskLevel(u, c)) <= LevelRank(AssessRiskLevel(u', c'))
  {
  }

  /** The grade is LOW exactly for at most two positions with at most half the capital committed. */
  lemma RiskLevelLowIff(u: real, c: int)
    ensures AssessRiskLevel(u, c) == Low <==> u <= 50.0 && c <= 2
    ensures AssessRiskLevel(u, c) == High <==> u > 70.0 || c >= 4
  {
  }

  /** Open positions and the margin they tie up. */
  datatype Exposure = Exposure(count: nat, totalMargin: real)

  /** The margin of one open position: `|notional| / leverage`, or 0 for a non-positive leverage. */
  function MarginOf(notional: real, leverage: real): (m: real)
    ensures m >= 0.0
    ensures leverage > 0.0 ==> m * leverage == (if notional < 0.0 then -notional else notional)
    ensures leverage <= 0.0 ==> m == 0.0
  {
    var a := if notional < 0.0 then -notional else notional;
    if leverage > 0.0 then a / leverage else 0.0
  }

  /** Sums the positions with a non-zero amount; an entry that is not an object or does not convert raises. */
  function ExposureOf(positions: seq<Json>, parse: string -> Option<real>): (r: Attempt<Exposure>)
    ensures r.Ok? ==> r.value.count <= |positions| && r.value.totalMargin >= 0.0
  {
    if |positions| == 0 then Ok(Exposure(0, 0.0))
    else
      var pos := positions[0];
      if !pos.JObj? then Raised
      else match Float(Get(pos.fields, "positionAmt", JInt(0)), parse)
        case None => Raised
        case Some(amt) =>
          if amt == 0.0 then ExposureOf(positions[1..], parse)
          else match (Float(Get(pos.fields, "notional", JInt(0)), parse), Float(Get(pos.fields, "leverage", JInt(1)), parse))
            case (Some(n), Some(l)) =>
              (match ExposureOf(positions[1..], parse)
               case Ok(e) => Ok(Exposure(e.count + 1, e.totalMargin + MarginOf(n, l)))
               case Raised => Raised)
            case _ => Raised
  }

  /** The amount of a position entry: its `positionAmt` when it is an object and that converts. */
  function AmountOf(p: Json, parse: string -> Option<real>): Option<real> {
    if p.JObj? then Float(Get(p.fields, "positionAmt", JInt(0)), parse) else None
  }

  /** A position entry that counts as open: its amount converts and is not zero. */
  predicate IsOpen(p: Json, parse: string -> Option<real>) {
    AmountOf(p, parse).Some? && AmountOf(p, parse).value != 0.0
  }

  /** The notional and leverage of an entry, when both convert. */
  function SizeOf(p: Json, parse: string -> Option<real>): Option<(real, real)> {
    if !p.JObj? then None
    else match (Float(Get(p.fields, "notional", JInt(0)), parse), Float(Get(p.fields, "leverage", JInt(1)), parse))
      case (Some(n), Some(l)) => Some((n, l))
      case _ => None
  }

  /** An entry the loop can read without raising: an object whose amount converts, and whose size converts when open. */
  predicate Readable(p: Json, parse: string -> Option<real>) {
    AmountOf(p, parse).Some? && (IsOpen(p, parse) ==> SizeOf(p, parse).Some?)
  }

  /** The margin one entry contributes: that of its size when open and readable, otherwise none. */
  function MarginAt(p: Json, parse: string -> Option<real>): real {
    if IsOpen(p, parse) && SizeOf(p, parse).Some? then MarginOf(SizeOf(p, parse).value.0, SizeOf(p, parse).value.1) else 0.0
  }

  /** The number of open entries, counted from the back of the list. */
  function OpenCount(ps: seq<Json>, parse: string -> Option<real>): nat {
    if |ps| == 0 then 0
    else OpenCount(ps[..|ps| - 1], parse) + (if IsOpen(ps[|ps| - 1], parse) then 1 else 0)
  }

  /** The margin of all open entries, summed from the back of the list. */
  function MarginSum(ps: seq<Json>, parse: string -> Option<real>): real {
    if |ps| == 0 then 0.0
    else MarginSum(ps[..|ps| - 1], parse) + MarginAt(ps[|ps| - 1], parse)
  }

  /** Counting and summing from the front agrees with counting and summing from the back. */
  lemma {:induction false} FrontSplit(ps: seq<Json>, parse: string -> Option<real>)
    requires |ps| > 0
    ensures OpenCount(ps, parse) == (if IsOpen(ps[0], parse) then 1 else 0) + OpenCount(ps[1..], parse)
    ensures MarginSum(ps, parse) == MarginAt(ps[0], parse) + MarginSum(ps[1..], parse)
    decreases |ps|
  {
    if |ps| > 1 {
      var init := ps[..|ps| - 1];
      FrontSplit(init, parse);
      assert init[0] == ps[0];
      assert init[1..] == ps[1..][..|ps[1..]| - 1];
      assert ps[1..][|ps[1..]| - 1] == ps[|ps| - 1];
    } else {
      assert ps[1..] == [];
      assert ps[..0] == [];
    }
  }

  /**
   * The loop over positions raises exactly when some entry is unreadable;
   * otherwise it counts the open entries and sums their margins.
   */
  lemma {:induction false} ExposureCounts(ps: seq<Json>, parse: string -> Option<real>)
    ensures ExposureOf(ps, parse).Ok? <==> forall i :: 0 <= i < |ps| ==> Readable(ps[i], parse)
    ensures ExposureOf(ps, parse).Ok? ==>
      ExposureOf(ps, parse).value.count == OpenCount(ps, parse)
      && ExposureOf(ps, parse).value.totalMargin == MarginSum(ps, parse)
    decreases |ps|
  {
    if |ps| > 0 {
      ExposureCounts(ps[1..], parse);
      FrontSplit(ps, parse);
      assert forall i :: 0 < i < |ps| ==> ps[i] == ps[1..][i - 1];
      if forall i :: 0 < i < |ps| ==> Readable(ps[i], parse) {
        assert forall i :: 0 <= i < |ps[1..]| ==> Readable(ps[1..][i], parse) by {
          forall i | 0 <= i < |ps[1..]| ensures Readable(ps[1..][i], parse) {
            assert ps[1..][i] == ps[i + 1];
          }
        }
      }
    }
  }

  datatype RiskReport = RiskReport(
    positionCount: nat, totalMargin: real, availableBalance: real,
    totalBalance: real, marginUsagePercent: real, riskLevel: RiskLevel)

  /** The share of the committed margin in the whole capital is a percentage. */
  lemma UsageBounds(available: real, margin: real)
    ensures available >= 0.0 && margin >= 0.0 && available + margin > 0.0 ==>
      0.0 <= margin / (available + margin) * 100.0 <= 100.0
  {
    var t := available + margin;
    if available >= 0.0 && margin >= 0.0 && t > 0.0 {
      MulMono(margin, t, 1.0 / t);
      assert t * (1.0 / t) == 1.0;
    }
  }

  /** `check_position_risk`. */
  function CheckPositionRisk(positions: seq<Json>, available: real, parse: string -> Option<real>): (r: Attempt<RiskReport>)
    ensures r.Ok? ==> r.value.totalBalance == available + r.value.totalMargin
    ensures r.Ok? ==> r.value.riskLevel == AssessRiskLevel(r.value.marginUsagePercent, r.value.positionCount)
    ensures r.Ok? && available >= 0.0 ==> 0.0 <= r.value.marginUsagePercent <= 100.0
    ensures r.Ok? && r.value.totalMargin == 0.0 ==> r.value.marginUsagePercent == 0.0
    ensures ExposureOf(positions, parse).Ok? <==> r.Ok?
    ensures r.Ok? ==>
      && r.value.positionCount == ExposureOf(positions, parse).value.count
      && r.value.totalMargin == ExposureOf(positions, parse).value.totalMargin
      && r.value.availableBalance == available
    ensures r.Ok? && r.value.totalBalance > 0.0 ==>
      r.value.marginUsagePercent == r.value.totalMargin / r.value.totalBalance * 100.0
    ensures r.Ok? && r.value.totalBalance <= 0.0 ==> r.value.marginUsagePercent == 0.0
  {
    match ExposureOf(positions, parse)
    case Raised => Raised
    case Ok(e) =>
      var total := available + e.totalMargin;
      var usage := if total > 0.0 then e.totalMargin / total * 100.0 else 0.0;
      UsageBounds(available, e.totalMargin);
      Ok(RiskReport(e.count, e.totalMargin, available, total, usage, AssessRiskLevel(usage, e.count)))
  }

  /** An account with no positions is LOW risk. */
  lemma NoPositionsLowRisk(available: real, parse: string -> Option<real>)
    ensures CheckPositionRisk([], available, parse) == Ok(RiskReport(0, 0.0, available, available, 0.0, Low))
  {
  }
}
