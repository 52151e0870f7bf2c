/**
 * Technical indicators over a series of closing prices, oldest first:
 * simple and exponential moving averages, moving-average convergence, the
 * position of the price relative to the averages, breakout and stability
 * checks, and candle (kline) parsing. NumPy means become exact means over
 * `real`; the pandas exponential average becomes its defining recursion.
 */
module Indicators {
  import opened Wrappers
  import opened Json

  /** A moving-average period; configured periods are positive. */
  type Period = p: int | p > 0 witness 1

  function Sum(xs: seq<real>): real
    decreases |xs|
  {
    if |xs| == 0 then 0.0 else Sum(xs[..|xs| - 1]) + xs[|xs| - 1]
  }

  /** `np.mean`, exactly. */
  function Mean(xs: seq<real>): real
    requires |xs| > 0
  {
    Sum(xs) / |xs| as real
  }

  /** Every element of `xs` is strictly positive. */
  predicate AllPositive(xs: seq<real>) {
    forall i :: 0 <= i < |xs| ==> xs[i] > 0.0
  }

  /** The elements of `xs` lie in `[lo, hi]`. */
  predicate Within(xs: seq<real>, lo: real, hi: real) {
    forall i :: 0 <= i < |xs| ==> lo <= xs[i] <= hi
  }

  lemma {:induction false} SumBounds(xs: seq<real>, lo: real, hi: real)
    requires Within(xs, lo, hi)
    ensures lo * |xs| as real <= Sum(xs) <= hi * |xs| as real
    decreases |xs|
  {
    if |xs| > 0 {
      var init := xs[..|xs| - 1];
      assert Within(init, lo, hi) by {
        forall i | 0 <= i < |init| ensures lo <= init[i] <= hi {
          assert init[i] == xs[i];
        }
      }
      SumBounds(init, lo, hi);
      var n := |init| as real;
      assert Sum(xs) == Sum(init) + xs[|xs| - 1];
      var x := xs[|xs| - 1];
      assert |xs| as real == n + 1.0;
      assert lo <= x <= hi;
      assert lo * n <= Sum(init) <= hi * n;
      assert lo * |xs| as real == lo * n + lo;
      assert hi * |xs| as real == hi * n + hi;
      assert lo * n + lo <= Sum(init) + x <= hi * n + hi;
    }
  }

  /** The mean of values within `[lo, hi]` is within `[lo, hi]`. */
  lemma MeanWithin(xs: seq<real>, lo: real, hi: real)
    requires |xs| > 0 && Within(xs, lo, hi)
    ensures lo <= Mean(xs) <= hi
  {
    SumBounds(xs, lo, hi);
  }

  /** The mean of strictly positive values is strictly positive. */
  lemma {:induction false} MeanPositive(xs: seq<real>)
    requires |xs| > 0 && AllPositive(xs)
    ensures Mean(xs) > 0.0
  {
    SumPositive(xs);
  }

  lemma {:induction false} SumPositive(xs: seq<real>)
    requires |xs| > 0 && AllPositive(xs)
    ensures Sum(xs) > 0.0
    decreases |xs|
  {
    if |xs| > 1 {
      SumPositive(xs[..|xs| - 1]);
    }
  }

  /** `TechnicalIndicators.sma`: 0 when the history is shorter than the period. */
  function Sma(data: seq<real>, period: Period): (r: real)
    ensures |data| < period ==> r == 0.0
  {
    if |data| < period then 0.0 else Mean(data[|data| - period..])
  }

  /** The SMA of enough history lies between the least and greatest of the last `period` closes. */
  lemma SmaWithin(data: seq<real>, period: Period, lo: real, hi: real)
    requires |data| >= period && Within(data[|data| - period..], lo, hi)
    ensures lo <= Sma(data, period) <= hi
    ensures Sma(data, period) * period as real == Sum(data[|data| - period..])
  {
    MeanWithin(data[|data| - period..], lo, hi);
  }

  /** The SMA of enough strictly positive closes is strictly positive. */
  lemma SmaPositive(data: seq<real>, period: Period)
    requires |data| >= period && AllPositive(data)
    ensures Sma(data, period) > 0.0
  {
    var w := data[|data| - period..];
    assert forall i :: 0 <= i < |w| ==> w[i] == data[|data| - period + i];
    MeanPositive(w);
  }

  /**
   * The last value of pandas' `ewm(span=period, adjust=False).mean()`:
   * y0 = x0 and y_t = alpha * x_t + (1 - alpha) * y_{t-1}.
   */
  function EmaLast(data: seq<real>, alpha: real): real
    requires |data| > 0
    decreases |data|
  {
    if |data| == 1 then data[0]
    else alpha * data[|data| - 1] + (1.0 - alpha) * EmaLast(data[..|data| - 1], alpha)
  }

  /** The smoothing factor for a span: 2 / (span + 1). */
  function Alpha(period: Period): (a: real)
    ensures 0.0 < a <= 1.0
  {
    2.0 / (period as real + 1.0)
  }

  /** `TechnicalIndicators.ema`: 0 when the history is shorter than the period. */
  function Ema(data: seq<real>, period: Period): (r: real)
    ensures |data| < period ==> r == 0.0
  {
    if |data| < period then 0.0 else EmaLast(data, Alpha(period))
  }

  /** An exponential average is a convex combination, so it stays within the range of the data. */
  lemma {:induction false} EmaLastWithin(data: seq<real>, alpha: real, lo: real, hi: real)
    requires |data| > 0 && 0.0 < alpha <= 1.0 && Within(data, lo, hi)
    ensures lo <= EmaLast(data, alpha) <= hi
    decreases |data|
  {
    if |data| > 1 {
      var prefix := data[..|data| - 1];
      assert Within(prefix, lo, hi) by {
        forall i | 0 <= i < |prefix| ensures lo <= prefix[i] <= hi {
          assert prefix[i] == data[i];
        }
      }
      EmaLastWithin(prefix, alpha, lo, hi);
      Convex(alpha, data[|data| - 1], EmaLast(prefix, alpha), lo, hi);
    }
  }

  /** A convex combination of two points of [lo, hi] lies in [lo, hi]. */
  lemma Convex(alpha: real, x: real, e: real, lo: real, hi: real)
    requires 0.0 < alpha <= 1.0 && lo <= x <= hi && lo <= e <= hi
    ensures lo <= alpha * x + (1.0 - alpha) * e <= hi
  {
    var beta := 1.0 - alpha;
    MulNonNegative(alpha, x - lo);
    MulNonNegative(beta, e - lo);
    MulNonNegative(alpha, hi - x);
    MulNonNegative(beta, hi - e);
    assert alpha * x + beta * e - lo == alpha * (x - lo) + beta * (e - lo);
    assert hi - (alpha * x + beta * e) == alpha * (hi - x) + beta * (hi - e);
  }

  lemma MulNonNegative(a: real, b: real)
    requires 0.0 <= a && 0.0 <= b
    ensures 0.0 <= a * b
  {
  }

  /** The EMA of enough history lies within the range of all closes. */
  lemma EmaWithin(data: seq<real>, period: Period, lo: real, hi: real)
    requires |data| >= period && Within(data, lo, hi)
    ensures lo <= Ema(data, period) <= hi
  {
    EmaLastWithin(data, Alpha(period), lo, hi);
  }

  /** `[v for v in values if v > 0]`. */
  function Positives(values: seq<real>): (ps: seq<real>)
    ensures |ps| <= |values|
    ensures AllPositive(ps)
    decreases |values|
  {
    if |values| == 0 then []
    else if values[0] > 0.0 then [values[0]] + Positives(values[1..])
    else Positives(values[1..])
  }

  lemma {:induction false} PositivesOfPositive(values: seq<real>)
    requires AllPositive(values)
    ensures Positives(values) == values
    decreases |values|
  {
    if |values| > 0 {
      PositivesOfPositive(values[1..]);
    }
  }

  lemma {:induction false} PositivesAppend(a: seq<real>, b: seq<real>)
    ensures Positives(a + b) == Positives(a) + Positives(b)
    decreases |a|
  {
    if |a| > 0 {
      assert (a + b)[1..] == a[1..] + b;
      PositivesAppend(a[1..], b);
    } else {
      assert a + b == b;
    }
  }

  /** Keeping the positive values keeps exactly the positive part of the multiset. */
  lemma {:induction false} PositivesMultiset(values: seq<real>, x: real)
    ensures multiset(Positives(values))[x] == if x > 0.0 then multiset(values)[x] else 0
    decreases |values|
  {
    if |values| > 0 {
      PositivesMultiset(values[1..], x);
      assert values == [values[0]] + values[1..];
    }
  }

  function MaxOf(xs: seq<real>): (m: real)
    requires |xs| > 0
    ensures m in xs
    ensures forall i :: 0 <= i < |xs| ==> xs[i] <= m
    decreases |xs|
  {
    if |xs| == 1 then xs[0]
    else var m := MaxOf(xs[1..]); if xs[0] >= m then xs[0] else m
  }

  function MinOf(xs: seq<real>): (m: real)
    requires |xs| > 0
    ensures m in xs
    ensures forall i :: 0 <= i < |xs| ==> m <= xs[i]
    decreases |xs|
  {
    if |xs| == 1 then xs[0]
    else var m := MinOf(xs[1..]); if xs[0] <= m then xs[0] else m
  }

  /** Two sequences with the same elements have the same greatest and least element. */
  lemma ExtremaBySet(a: seq<real>, b: seq<real>)
    requires |a| > 0 && |b| > 0
    requires forall x :: x in a <==> x in b
    ensures MaxOf(a) == MaxOf(b) && MinOf(a) == MinOf(b)
  {
    var ma, mb := MaxOf(a), MaxOf(b);
    var ia :| 0 <= ia < |a| && a[ia] == ma;
    var ib :| 0 <= ib < |b| && b[ib] == mb;
    assert mb in a;
    assert ma in b;
    var na, nb := MinOf(a), MinOf(b);
    assert nb in a;
    assert na in b;
  }

  /** The spread of the averages as a percentage of the largest: (max - min) / max * 100. */
  function SpreadPercent(xs: seq<real>): real
    requires |xs| > 0 && MaxOf(xs) != 0.0
  {
    (MaxOf(xs) - MinOf(xs)) / MaxOf(xs) * 100.0
  }

  /** The verdict on the positive averages alone: two or more, with a spread within the threshold. */
  predicate SpreadWithin(ps: seq<real>, threshold: real) {
    if |ps| < 2 then false
    else if MaxOf(ps) == 0.0 then false
    else SpreadPercent(ps) <= threshold
  }

  /** `TechnicalIndicators.check_ma_convergence`. */
  predicate CheckMaConvergence(values: seq<real>, threshold: real)
    ensures CheckMaConvergence(values, threshold) ==>
      |Positives(values)| >= 2 && MaxOf(Positives(values)) > 0.0 && SpreadPercent(Positives(values)) <= threshold
  {
    if |values| < 2 then false
    else SpreadWithin(Positives(values), threshold)
  }

  /**
   * Convergence holds exactly when at least two positive averages remain and
   * their spread is within the threshold.
   */
  lemma ConvergenceIff(values: seq<real>, threshold: real)
    ensures CheckMaConvergence(values, threshold) <==>
      |Positives(values)| >= 2 && MaxOf(Positives(values)) > 0.0 &&
      SpreadPercent(Positives(values)) <= threshold
    ensures |Positives(values)| < 2 ==> !CheckMaConvergence(values, threshold)
  {
  }

  /** The worked example: averages 100, 101, 102 spread by 1.96%. */
  lemma ConvergenceExample()
    ensures CheckMaConvergence([100.0, 101.0, 102.0], 2.0)
    ensures !CheckMaConvergence([100.0, 101.0, 102.0], 1.9)
  {
    var v := [100.0, 101.0, 102.0];
    PositivesOfPositive(v);
    assert v[1..] == [101.0, 102.0] && v[1..][1..] == [102.0];
    assert MaxOf(v) == 102.0 && MinOf(v) == 100.0;
    assert SpreadPercent(v) == 2.0 / 102.0 * 100.0;
  }

  /** Permuting the averages permutes the positive ones. */
  lemma PositivesPermutation(a: seq<real>, b: seq<real>)
    requires multiset(a) == multiset(b)
    ensures multiset(Positives(a)) == multiset(Positives(b))
  {
    forall x ensures multiset(Positives(a))[x] == multiset(Positives(b))[x] {
      PositivesMultiset(a, x);
      PositivesMultiset(b, x);
    }
  }

  /** Permutations have the same length and the same elements. */
  lemma SameElements(a: seq<real>, b: seq<real>)
    requires multiset(a) == multiset(b)
    ensures |a| == |b|
    ensures forall x :: x in a <==> x in b
  {
    assert |a| == |multiset(a)| && |b| == |multiset(b)|;
    forall x ensures x in a <==> x in b {
      assert x in a <==> x in multiset(a);
      assert x in b <==> x in multiset(b);
    }
  }

  /** The spread verdict depends only on the multiset of positive averages. */
  lemma SpreadPermutation(pa: seq<real>, pb: seq<real>, threshold: real)
    requires multiset(pa) == multiset(pb)
    ensures SpreadWithin(pa, threshold) == SpreadWithin(pb, threshold)
  {
    assert |pa| == |pb| && (|pa| > 0 ==> MaxOf(pa) == MaxOf(pb) && MinOf(pa) == MinOf(pb)) by {
      SameElements(pa, pb);
      if |pa| > 0 {
        ExtremaBySet(pa, pb);
      }
    }
  }

  /** Convergence depends only on the multiset of averages, not their order. */
  lemma ConvergencePermutation(a: seq<real>, b: seq<real>, threshold: real)
    requires multiset(a) == multiset(b)
    ensures CheckMaConvergence(a, threshold) == CheckMaConvergence(b, threshold)
  {
    SameElements(a, b);
    PositivesPermutation(a, b);
    SpreadPermutation(Positives(a), Positives(b), threshold);
  }

  /** Adding a non-positive value anywhere does not change the convergence verdict. */
  lemma ConvergenceIgnoresNonPositive(values: seq<real>, i: nat, x: real, threshold: real)
    requires i <= |values| && x <= 0.0
    ensures CheckMaConvergence(values[..i] + [x] + values[i..], threshold)
         == CheckMaConvergence(values, threshold)
  {
    var w := values[..i] + [x] + values[i..];
    assert Positives(w) == Positives(values) by {
      PositivesAppend(values[..i] + [x], values[i..]);
      PositivesAppend(values[..i], [x]);
      PositivesAppend(values[..i], values[i..]);
      assert values[..i] + values[i..] == values;
      assert Positives([x]) == [];
    }
    assert |Positives(values)| <= |values|;
  }

  datatype PricePosition = Above | Below | Cross | Unknown

  /** `TechnicalIndicators.check_price_position`: 1% bands around the mean of the positive averages. */
  function CheckPricePosition(price: real, values: seq<real>): (r: PricePosition)
    ensures r == Unknown <==> |Positives(values)| == 0
    ensures |Positives(values)| > 0 ==>
      && (r == Above <==> price > Mean(Positives(values)) * 1.01)
      && (r == Below <==> price < Mean(Positives(values)) * 0.99)
  {
    var ps := Positives(values);
    if |ps| == 0 then Unknown
    else
      MeanPositive(ps);
      var avg := Mean(ps);
      if price > avg * 1.01 then Above
      else if price < avg * 0.99 then Below
      else Cross
  }

  /** Ordinal of a known position: BELOW < CROSS < ABOVE. */
  function Rank(p: PricePosition): int {
    match p
    case Below => 0
    case Cross => 1
    case Above => 2
    case Unknown => -1
  }

  /**
   * With at least one positive average the position is known and is exactly
   * one of the bands (the bands cannot overlap because the mean is positive),
   * and it is monotone in the price.
   */
  lemma PricePositionBands(price: real, price': real, values: seq<real>)
    requires |Positives(values)| > 0
    ensures var avg := Mean(Positives(values));
      && avg > 0.0
      && (CheckPricePosition(price, values) == Above <==> price > avg * 1.01)
      && (CheckPricePosition(price, values) == Below <==> price < avg * 0.99)
      && (CheckPricePosition(price, values) == Cross <==> avg * 0.99 <= price <= avg * 1.01)
    ensures price <= price' ==> Rank(CheckPricePosition(price, values)) <= Rank(CheckPricePosition(price', values))
  {
    MeanPositive(Positives(values));
  }

  /** No positive average means the position is UNKNOWN. */
  lemma PricePositionUnknown(price: real, values: seq<real>)
    ensures CheckPricePosition(price, values) == Unknown <==> |Positives(values)| == 0
  {
    if |Positives(values)| > 0 {
      MeanPositive(Positives(values));
    }
  }

  /** `TechnicalIndicators.check_breakout`; any direction other than "UP" is treated as down. */
  predicate CheckBreakout(history: seq<real>, maAvg: real, direction: string)
    ensures CheckBreakout(history, maAvg, direction) ==> |history| >= 2
    ensures |history| >= 2 && direction == "UP" ==>
      (CheckBreakout(history, maAvg, direction) <==> history[|history| - 2] < maAvg < history[|history| - 1])
    ensures |history| >= 2 && direction != "UP" ==>
      (CheckBreakout(history, maAvg, direction) <==> history[|history| - 2] > maAvg > history[|history| - 1])
  {
    if |history| < 2 then false
    else
      var previous := history[|history| - 2];
      var current := history[|history| - 1];
      if direction == "UP" then previous < maAvg && current > maAvg
      else previous > maAvg && current < maAvg
  }

  /** A breakout cannot be both upward and downward. */
  lemma BreakoutExclusive(history: seq<real>, maAvg: real)
    ensures !(CheckBreakout(history, maAvg, "UP") && CheckBreakout(history, maAvg, "DOWN"))
    ensures |history| < 2 ==> !CheckBreakout(history, maAvg, "UP") && !CheckBreakout(history, maAvg, "DOWN")
  {
  }

  /** Python's `s[-n:]` for any integer `n` (n = 0 keeps everything). */
  function LastN<T>(s: seq<T>, n: int): (r: seq<T>)
    ensures 0 < n <= |s| ==> r == s[|s| - n..]
    ensures n == 0 ==> r == s
  {
    if n > 0 then (if n <= |s| then s[|s| - n..] else s)
    else if -n <= |s| then s[-n..] else []
  }

  /** `TechnicalIndicators.check_price_stability`: "ABOVE", any other direction means below. */
  predicate CheckPriceStability(recent: seq<real>, maAvg: real, direction: string, bars: int)
    ensures CheckPriceStability(recent, maAvg, direction, bars) ==> |recent| >= bars
    ensures CheckPriceStability(recent, maAvg, direction, bars) && bars > 0 ==>
      if direction == "ABOVE" then recent[|recent| - 1] > maAvg else recent[|recent| - 1] < maAvg
  {
    if |recent| < bars then false
    else
      var check := LastN(recent, bars);
      if direction == "ABOVE" then forall i :: 0 <= i < |check| ==> check[i] > maAvg
      else forall i :: 0 <= i < |check| ==> check[i] < maAvg
  }

  /** With a positive bar count: enough prices, and each of the last `bars` strictly on the side. */
  lemma StabilityIff(recent: seq<real>, maAvg: real, bars: int)
    requires bars > 0
    ensures CheckPriceStability(recent, maAvg, "ABOVE", bars) <==>
      |recent| >= bars && forall k :: |recent| - bars <= k < |recent| ==> recent[k] > maAvg
    ensures CheckPriceStability(recent, maAvg, "BELOW", bars) <==>
      |recent| >= bars && forall k :: |recent| - bars <= k < |recent| ==> recent[k] < maAvg
  {
    if |recent| >= bars {
      var off := |recent| - bars;
      var check := LastN(recent, bars);
      assert check == recent[off..];
      forall k | off <= k < |recent| ensures recent[k] == check[k - off] {
      }
      forall i | 0 <= i < |check| ensures check[i] == recent[off + i] {
      }
    }
  }

  /** The seven columns `parse_klines` extracts from the candle rows. */
  datatype Klines = Klines(
    openTime: seq<int>, open: seq<real>, high: seq<real>, low: seq<real>,
    close: seq<real>, volume: seq<real>, closeTime: seq<int>)

  /** A candle row `parse_klines` can read: seven fields, the times convert with `int`, the prices with `float`. */
  predicate RowReadable(row: seq<Json>, parse: string -> Option<real>, parseInt: string -> Option<int>) {
    && |row| >= 7
    && Int(row[0], parseInt).Some? && Int(row[6], parseInt).Some?
    && forall c :: 1 <= c <= 5 ==> Float(row[c], parse).Some?
  }

  /**
   * `TechnicalIndicators.parse_klines`. A row with fewer than seven fields
   * makes the Python raise `IndexError`, and a field that does not convert
   * raises `ValueError`; both are modelled as `None`.
   */
  function ParseKlines(rows: seq<seq<Json>>, parse: string -> Option<real>, parseInt: string -> Option<int>): (r: Option<Klines>)
    ensures r.Some? <==> forall i :: 0 <= i < |rows| ==> RowReadable(rows[i], parse, parseInt)
    ensures r.Some? ==>
      var k := r.value;
      && |k.openTime| == |k.open| == |k.high| == |k.low| == |k.close| == |k.volume| == |k.closeTime| == |rows|
      && forall i :: 0 <= i < |rows| ==>
        && Int(rows[i][0], parseInt) == Some(k.openTime[i])
        && Float(rows[i][1], parse) == Some(k.open[i])
        && Float(rows[i][2], parse) == Some(k.high[i])
        && Float(rows[i][3], parse) == Some(k.low[i])
        && Float(rows[i][4], parse) == Some(k.close[i])
        && Float(rows[i][5], parse) == Some(k.volume[i])
        && Int(rows[i][6], parseInt) == Some(k.closeTime[i])
    ensures |rows| == 0 ==> r == Some(Klines([], [], [], [], [], [], []))
  {
    if |rows| == 0 then Some(Klines([], [], [], [], [], [], []))
    else if exists i :: 0 <= i < |rows| && !RowReadable(rows[i], parse, parseInt) then None
    else
      Some(Klines(
        seq(|rows|, i requires 0 <= i < |rows| => Int(rows[i][0], parseInt).value),
        seq(|rows|, i requires 0 <= i < |rows| => Float(rows[i][1], parse).value),
        seq(|rows|, i requires 0 <= i < |rows| => Float(rows[i][2], parse).value),
        seq(|rows|, i requires 0 <= i < |rows| => Float(rows[i][3], parse).value),
        seq(|rows|, i requires 0 <= i < |rows| => Float(rows[i][4], parse).value),
        seq(|rows|, i requires 0 <= i < |rows| => Float(rows[i][5], parse).value),
        seq(|rows|, i requires 0 <= i < |rows| => Int(rows[i][6], parseInt).value)))
  }
}
