/**
 * The dual moving-average strategy: a per-symbol state record that evolves
 * on every evaluation and emits HOLD/BUY/SELL/CLOSE signals with fixed
 * confidences. The wall clock is the explicit parameter `now` (seconds).
 */
module DoubleMa {
  import opened Wrappers
  import opened Indicators

  datatype Position = Long | Short
  datatype Direction = Up | Down

  /** The record kept for every analysed symbol. */
  datatype SymbolState = SymbolState(
    lastConvergence: Option<real>,
    breakoutDirection: Option<Direction>,
    breakoutTime: Option<real>,
    position: Option<Position>)

  /** The record a symbol gets on first analysis and on reset. */
  const Fresh := SymbolState(None, None, None, None)

  datatype Action = Buy | Sell | Hold | Close

  datatype MaKind = SmaKind | EmaKind

  /** One entry of the `ma_data` dictionary (`sma_<period>` or `ema_<period>`). */
  datatype MaEntry = MaEntry(kind: MaKind, period: Period, value: real)

  /** The indicator values echoed on a signal produced from enough data. */
  datatype Snapshot = Snapshot(
    maData: seq<MaEntry>, currentPrice: real, isConvergent: bool, pricePosition: PricePosition)

  datatype Signal = Signal(action: Action, confidence: int, details: Option<Snapshot>)

  /** The strategy's configuration. */
  datatype Params = Params(
    smaPeriods: seq<Period>, emaPeriods: seq<Period>,
    threshold: real, confirmationMinutes: int)

  /** The state the strategy would use for `symbol`: the recorded one, or a fresh one. */
  function Prior(states: map<string, SymbolState>, symbol: string): SymbolState {
    if symbol in states then states[symbol] else Fresh
  }

  /** The candle length in minutes of an interval name; unknown names count as 15. */
  function IntervalMinutes(interval: string): (m: int)
    ensures m > 0
  {
    var table := map[
      "1m" := 1, "3m" := 3, "5m" := 5, "15m" := 15, "30m" := 30,
      "1h" := 60, "2h" := 120, "4h" := 240, "6h" := 360, "8h" := 480,
      "12h" := 720, "1d" := 1440];
    if interval in table then table[interval] else 15
  }

  /** `_get_confirmation_bars`: max(1, int(minutes / interval_minutes)). */
  function ConfirmationBars(interval: string, minutes: int): (bars: int)
    ensures bars >= 1
  {
    var q := Json.Trunc(minutes as real / IntervalMinutes(interval) as real);
    if q > 1 then q else 1
  }

  /**
   * The bar count is the number of whole candles in the confirmation window,
   * but at least one.
   */
  lemma ConfirmationBarsFloor(interval: string, minutes: int)
    requires minutes >= 0
    ensures var bars := ConfirmationBars(interval, minutes);
      var im := IntervalMinutes(interval);
      (bars == 1 && minutes < 2 * im) || (bars * im <= minutes < (bars + 1) * im)
  {
    var im := IntervalMinutes(interval);
    var q := Json.Trunc(minutes as real / im as real);
    assert q as real <= minutes as real / im as real < q as real + 1.0;
    assert (q * im) as real <= minutes as real < ((q + 1) * im) as real;
  }

  /** Unknown interval names count as 15-minute candles: 30 minutes make 2 bars. */
  lemma ConfirmationBarsExamples()
    ensures ConfirmationBars("2w", 30) == 2
    ensures ConfirmationBars("1h", 30) == 1
    ensures ConfirmationBars("5m", 30) == 6
  {
    assert IntervalMinutes("2w") == 15;
    assert IntervalMinutes("1h") == 60;
    assert IntervalMinutes("5m") == 5;
  }

  /** The index of the first occurrence of `p`. */
  function FirstAt(ps: seq<Period>, p: Period): (k: nat)
    requires p in ps
    ensures k < |ps| && ps[k] == p && p !in ps[..k]
  {
    if ps[0] == p then 0
    else
      assert ps == [ps[0]] + ps[1..];
      var k := FirstAt(ps[1..], p) + 1;
      assert ps[..k] == [ps[0]] + ps[1..][..k - 1];
      k
  }

  /** Appending an element does not move the first occurrence of one already present. */
  lemma FirstAtAppend(ps: seq<Period>, x: Period, p: Period)
    requires p in ps
    ensures FirstAt(ps + [x], p) == FirstAt(ps, p)
  {
    var k := FirstAt(ps, p);
    assert (ps + [x])[k] == p;
    assert (ps + [x])[..k] == ps[..k];
  }

  /**
   * The periods without repeats, each at its first occurrence, in the order
   * of first occurrence: the order dictionary keys keep.
   */
  function Distinct(ps: seq<Period>): (r: seq<Period>)
    ensures forall p :: p in r <==> p in ps
    ensures forall i, j :: 0 <= i < j < |r| ==> r[i] != r[j]
    ensures forall i, j :: 0 <= i < j < |r| ==> FirstAt(ps, r[i]) < FirstAt(ps, r[j])
    decreases |ps|
  {
    if |ps| == 0 then []
    else
      var prefix := ps[..|ps| - 1];
      var last := ps[|ps| - 1];
      assert ps == prefix + [last];
      var d := Distinct(prefix);
      forall q | q in prefix ensures FirstAt(ps, q) == FirstAt(prefix, q) {
        FirstAtAppend(prefix, last, q);
      }
      if last in prefix then d
      else
        assert FirstAt(ps, last) == |ps| - 1;
        d + [last]
  }

  /**
   * `calculate_all_mas`: one SMA per distinct SMA period, then one EMA per
   * distinct EMA period, each period in the order it first appears.
   */
  function MaData(closes: seq<real>, p: Params): (r: seq<MaEntry>)
    ensures forall i :: 0 <= i < |r| ==>
      r[i].value == (if r[i].kind == SmaKind then Sma(closes, r[i].period) else Ema(closes, r[i].period))
    ensures |r| == |Distinct(p.smaPeriods)| + |Distinct(p.emaPeriods)|
    ensures forall i :: 0 <= i < |r| ==>
      if i < |Distinct(p.smaPeriods)| then r[i].kind == SmaKind && r[i].period == Distinct(p.smaPeriods)[i]
      else r[i].kind == EmaKind && r[i].period == Distinct(p.emaPeriods)[i - |Distinct(p.smaPeriods)|]
  {
    var s := Distinct(p.smaPeriods);
    var e := Distinct(p.emaPeriods);
    seq(|s|, i requires 0 <= i < |s| => MaEntry(SmaKind, s[i], Sma(closes, s[i])))
    + seq(|e|, i requires 0 <= i < |e| => MaEntry(EmaKind, e[i], Ema(closes, e[i])))
  }

  /** Every SMA period has an entry holding its average, and no other period has an SMA entry. */
  lemma MaDataCoversSma(closes: seq<real>, p: Params, q: Period)
    ensures q in p.smaPeriods <==> MaEntry(SmaKind, q, Sma(closes, q)) in MaData(closes, p)
  {
    var r := MaData(closes, p);
    var s := Distinct(p.smaPeriods);
    var x := MaEntry(SmaKind, q, Sma(closes, q));
    if q in p.smaPeriods {
      var i :| 0 <= i < |s| && s[i] == q;
      assert r[i] == x;
    }
    if x in r {
      var i :| 0 <= i < |r| && r[i] == x;
      assert i < |s| && s[i] == q;
    }
  }

  /** Every EMA period has an entry holding its average, and no other period has an EMA entry. */
  lemma MaDataCoversEma(closes: seq<real>, p: Params, q: Period)
    ensures q in p.emaPeriods <==> MaEntry(EmaKind, q, Ema(closes, q)) in MaData(closes, p)
  {
    var r := MaData(closes, p);
    var n := |Distinct(p.smaPeriods)|;
    var e := Distinct(p.emaPeriods);
    var x := MaEntry(EmaKind, q, Ema(closes, q));
    if q in p.emaPeriods {
      var i :| 0 <= i < |e| && e[i] == q;
      assert r[n + i] == x;
    }
    if x in r {
      var i :| 0 <= i < |r| && r[i] == x;
      assert i >= n && e[i - n] == q;
    }
  }

  /** No kind and period appear twice, and all SMA entries precede the EMA entries. */
  lemma MaDataUnique(closes: seq<real>, p: Params)
    ensures var r := MaData(closes, p);
      forall i, j :: 0 <= i < j < |r| ==> r[i].kind != r[j].kind || r[i].period != r[j].period
    ensures var r := MaData(closes, p);
      forall i, j :: 0 <= i < j < |r| && r[j].kind == SmaKind ==> r[i].kind == SmaKind
  {
    var r := MaData(closes, p);
    var n := |Distinct(p.smaPeriods)|;
    var e := Distinct(p.emaPeriods);
    forall i, j | 0 <= i < j < |r| ensures r[i].kind != r[j].kind || r[i].period != r[j].period {
      if i >= n {
        assert r[i].period == e[i - n] && r[j].period == e[j - n];
      }
    }
  }

  /** Within each kind, the periods follow the order in which they first appear. */
  lemma MaDataOrder(closes: seq<real>, p: Params, i: nat, j: nat)
    requires i < j < |MaData(closes, p)|
    requires MaData(closes, p)[i].kind == MaData(closes, p)[j].kind
    ensures var r := MaData(closes, p);
      r[i].kind == SmaKind ==> FirstAt(p.smaPeriods, r[i].period) < FirstAt(p.smaPeriods, r[j].period)
    ensures var r := MaData(closes, p);
      r[i].kind == EmaKind ==> FirstAt(p.emaPeriods, r[i].period) < FirstAt(p.emaPeriods, r[j].period)
  {
    var r := MaData(closes, p);
    var s := Distinct(p.smaPeriods);
    var e := Distinct(p.emaPeriods);
    var n := |s|;
    if r[i].kind == SmaKind {
      assert j < n && r[i].period == s[i] && r[j].period == s[j];
    } else {
      assert i >= n && r[i].period == e[i - n] && r[j].period == e[j - n];
    }
  }

  function Values(entries: seq<MaEntry>): (r: seq<real>)
    ensures |r| == |entries|
    ensures forall i :: 0 <= i < |r| ==> r[i] == entries[i].value
  {
    seq(|entries|, i requires 0 <= i < |entries| => entries[i].value)
  }

  /** Recording the start of a convergence episode, or forgetting it when the averages spread. */
  function ConvergenceStep(st: SymbolState, convergent: bool, now: real): (r: SymbolState)
    ensures r.breakoutDirection == st.breakoutDirection && r.breakoutTime == st.breakoutTime
    ensures r.position == st.position
    ensures convergent <==> r.lastConvergence.Some?
    ensures convergent && st.lastConvergence.Some? ==> r.lastConvergence == st.lastConvergence
    ensures convergent && st.lastConvergence.None? ==> r.lastConvergence == Some(now)
  {
    if convergent then
      if st.lastConvergence.None? then st.(lastConvergence := Some(now)) else st
    else st.(lastConvergence := None)
  }

  /** The outcome of `_generate_signal`: the action, its confidence and the updated state. */
  datatype Decision = Decision(action: Action, confidence: int, state: SymbolState)

  function DirectionName(d: Direction): string {
    if d == Up then "UP" else "DOWN"
  }

  function SideName(d: Direction): string {
    if d == Up then "ABOVE" else "BELOW"
  }

  /** Records a breakout in direction `d` when none in that direction is recorded and one just happened. */
  function BreakoutStep(st: SymbolState, d: Direction, closes: seq<real>, maAvg: real, now: real): (r: SymbolState)
    ensures r.position == st.position && r.lastConvergence == st.lastConvergence
    ensures st.breakoutDirection != Some(d) && CheckBreakout(closes, maAvg, DirectionName(d)) ==>
      r.breakoutDirection == Some(d) && r.breakoutTime == Some(now)
    ensures !(st.breakoutDirection != Some(d) && CheckBreakout(closes, maAvg, DirectionName(d))) ==> r == st
  {
    if st.breakoutDirection != Some(d) && CheckBreakout(closes, maAvg, DirectionName(d)) then
      st.(breakoutDirection := Some(d), breakoutTime := Some(now))
    else st
  }

  /** The breakout in direction `d` is confirmed: price held on its side for enough bars and enough minutes passed. */
  predicate Confirmed(p: Params, st: SymbolState, d: Direction, closes: seq<real>, maAvg: real, interval: string, now: real)
    ensures Confirmed(p, st, d, closes, maAvg, interval, now) ==>
      && st.breakoutDirection == Some(d) && st.breakoutTime.Some?
      && |closes| >= ConfirmationBars(interval, p.confirmationMinutes)
      && now - st.breakoutTime.value >= 60.0 * p.confirmationMinutes as real
  {
    && st.breakoutDirection == Some(d)
    && st.breakoutTime.Some?
    && CheckPriceStability(closes, maAvg, SideName(d), ConfirmationBars(interval, p.confirmationMinutes))
    && (now - st.breakoutTime.value) / 60.0 >= p.confirmationMinutes as real
  }

  /** The opening branch for direction `d` (upward for ABOVE, downward for BELOW). */
  function TryOpen(p: Params, st: SymbolState, d: Direction, closes: seq<real>, maAvg: real, interval: string, now: real): (r: Decision)
    ensures r.action in {Hold, if d == Up then Buy else Sell}
    ensures r.action != Hold <==> Confirmed(p, BreakoutStep(st, d, closes, maAvg, now), d, closes, maAvg, interval, now)
    ensures r.action != Hold ==>
      r.confidence == 90 && r.state == BreakoutStep(st, d, closes, maAvg, now).(position := Some(if d == Up then Long else Short))
    ensures r.action == Hold ==> r.confidence == 50 && r.state == BreakoutStep(st, d, closes, maAvg, now)
  {
    var st1 := BreakoutStep(st, d, closes, maAvg, now);
    if Confirmed(p, st1, d, closes, maAvg, interval, now) then
      if d == Up then Decision(Buy, 90, st1.(position := Some(Long)))
      else Decision(Sell, 90, st1.(position := Some(Short)))
    else Decision(Hold, 50, st1)
  }

  /** `_generate_signal`. */
  function GenerateSignal(
    p: Params, st: SymbolState, closes: seq<real>, maAvg: real,
    convergent: bool, position: PricePosition, interval: string, now: real): (r: Decision)
    ensures r.state.lastConvergence == st.lastConvergence
    ensures r.confidence in {50, 80, 90}
    ensures r.action in {Buy, Sell} ==> st.position.None? && r.state.position.Some?
    ensures r.action == Close ==> st.position.Some? && r.state.position.None?
    ensures r.action == Hold ==> r.state.position == st.position
  {
    if st.position.Some? && convergent then
      Decision(Close, 80, st.(position := None, breakoutDirection := None, breakoutTime := None))
    else if st.position.None? && convergent && st.lastConvergence.Some? then
      if position == Above then TryOpen(p, st, Up, closes, maAvg, interval, now)
      else if position == Below then TryOpen(p, st, Down, closes, maAvg, interval, now)
      else Decision(Hold, 50, st)
    else Decision(Hold, 50, st)
  }

  /** The signal of one evaluation and the strategy's per-symbol states after it. */
  datatype Outcome = Outcome(signal: Signal, states: map<string, SymbolState>)

  /** The positive averages `analyze` works with. */
  function Averages(p: Params, closes: seq<real>): seq<real> {
    Positives(Values(MaData(closes, p)))
  }

  /** There are closes and at least one positive average, so `analyze` reaches a decision. */
  predicate Evaluated(p: Params, closes: seq<real>) {
    |closes| > 0 && |Averages(p, closes)| > 0
  }

  /** The mean of the positive averages, the reference for breakouts and stability. */
  function AverageOf(p: Params, closes: seq<real>): real
    requires |Averages(p, closes)| > 0
  {
    Sum(Averages(p, closes)) / |Averages(p, closes)| as real
  }

  /** The convergence update followed by `_generate_signal`, from the symbol's prior state. */
  function Decide(p: Params, before: SymbolState, closes: seq<real>, interval: string, now: real): (r: Decision)
    requires Evaluated(p, closes)
    ensures r.confidence in {50, 80, 90}
    ensures r.action in {Buy, Sell} ==> before.position.None? && r.state.position.Some?
    ensures r.action == Close ==> before.position.Some? && r.state.position.None?
    ensures r.action == Hold ==> r.state.position == before.position
  {
    var values := Averages(p, closes);
    var convergent := CheckMaConvergence(values, p.threshold);
    var st := ConvergenceStep(before, convergent, now);
    GenerateSignal(p, st, closes, AverageOf(p, closes), convergent,
      CheckPricePosition(closes[|closes| - 1], values), interval, now)
  }

  /**
   * `DoubleMaStrategy.analyze` on the closing prices of the parsed candles.
   * Without closes, or without any positive average, it answers HOLD with
   * confidence 0 and records nothing.
   */
  function Analyze(
    p: Params, states: map<string, SymbolState>, symbol: string,
    closes: seq<real>, interval: string, now: real): (r: Outcome)
    ensures !Evaluated(p, closes) ==> r == Outcome(Signal(Hold, 0, None), states)
    ensures r.signal.confidence in {0, 50, 80, 90}
    ensures r.states.Keys == states.Keys + {symbol} || r.states == states
    ensures forall s :: s in states && s != symbol ==> s in r.states && r.states[s] == states[s]
    ensures r.signal.action in {Buy, Sell} ==>
      Prior(states, symbol).position.None? && symbol in r.states && r.states[symbol].position.Some?
    ensures r.signal.action == Close ==>
      Prior(states, symbol).position.Some? && symbol in r.states && r.states[symbol].position.None?
    ensures r.signal.action == Hold && symbol in states ==>
      symbol in r.states && r.states[symbol].position == states[symbol].position
  {
    if !Evaluated(p, closes) then Outcome(Signal(Hold, 0, None), states)
    else
      var values := Averages(p, closes);
      var price := closes[|closes| - 1];
      var d := Decide(p, Prior(states, symbol), closes, interval, now);
      Outcome(
        Signal(d.action, d.confidence, Some(Snapshot(
          MaData(closes, p), price, CheckMaConvergence(values, p.threshold), CheckPricePosition(price, values)))),
        states[symbol := d.state])
  }

  /** With no closes at all the answer is HOLD with confidence 0 and no state is created. */
  lemma NoClosesHold(p: Params, states: map<string, SymbolState>, symbol: string, interval: string, now: real)
    ensures Analyze(p, states, symbol, [], interval, now) == Outcome(Signal(Hold, 0, None), states)
  {
  }

  /** The mean used for breakouts is the same mean the price bands use. */
  lemma AverageIsBandMean(p: Params, closes: seq<real>)
    requires Evaluated(p, closes)
    ensures AverageOf(p, closes) == Mean(Averages(p, closes))
    ensures Positives(Averages(p, closes)) == Averages(p, closes)
  {
    PositivesOfPositive(Averages(p, closes));
  }

  /**
   * The convergence timestamp is set to `now` when an episode starts, kept
   * while convergence persists, and cleared on any non-convergent evaluation.
   */
  lemma ConvergenceTimestampRule(
    p: Params, states: map<string, SymbolState>, symbol: string,
    closes: seq<real>, interval: string, now: real)
    requires Evaluated(p, closes)
    ensures var r := Analyze(p, states, symbol, closes, interval, now);
      var before := Prior(states, symbol).lastConvergence;
      var convergent := CheckMaConvergence(Averages(p, closes), p.threshold);
      && symbol in r.states
      && (!convergent ==> r.states[symbol].lastConvergence == None)
      && (convergent && before.None? ==> r.states[symbol].lastConvergence == Some(now))
      && (convergent && before.Some? ==> r.states[symbol].lastConvergence == before)
  {
  }

  /**
   * With a recorded position and converging averages the signal is CLOSE
   * with confidence 80; position and breakout are cleared, the convergence
   * timestamp is not.
   */
  lemma CloseRule(
    p: Params, states: map<string, SymbolState>, symbol: string,
    closes: seq<real>, interval: string, now: real)
    requires Evaluated(p, closes)
    requires Prior(states, symbol).position.Some?
    requires CheckMaConvergence(Averages(p, closes), p.threshold)
    ensures var r := Analyze(p, states, symbol, closes, interval, now);
      var before := Prior(states, symbol);
      && r.signal.action == Close && r.signal.confidence == 80
      && symbol in r.states
      && r.states[symbol] == SymbolState(
           if before.lastConvergence.Some? then before.lastConvergence else Some(now),
           None, None, None)
  {
  }

  /**
   * The breakout record changes only by a CLOSE (which clears it) or by a
   * new breakout in a direction different from the recorded one, stamped
   * with `now`; re-seeing the recorded direction keeps its original time.
   */
  lemma BreakoutRecordRule(
    p: Params, states: map<string, SymbolState>, symbol: string,
    closes: seq<real>, interval: string, now: real)
    requires Evaluated(p, closes)
    ensures var r := Analyze(p, states, symbol, closes, interval, now);
      var before := Prior(states, symbol);
      var after := r.states[symbol];
      symbol in r.states &&
      (|| (after.breakoutDirection == before.breakoutDirection && after.breakoutTime == before.breakoutTime)
       || (r.signal.action == Close && after.breakoutDirection == None && after.breakoutTime == None)
       || exists d: Direction ::
            && before.breakoutDirection != Some(d)
            && CheckBreakout(closes, AverageOf(p, closes), DirectionName(d))
            && after.breakoutDirection == Some(d) && after.breakoutTime == Some(now))
  {
    var r := Analyze(p, states, symbol, closes, interval, now);
    var values := Averages(p, closes);
    var st := ConvergenceStep(Prior(states, symbol), CheckMaConvergence(values, p.threshold), now);
    var position := CheckPricePosition(closes[|closes| - 1], values);
    var maAvg := AverageOf(p, closes);
    if st.position.None? && CheckMaConvergence(values, p.threshold) && st.lastConvergence.Some? {
      if position == Above {
        var st1 := BreakoutStep(st, Up, closes, maAvg, now);
        assert r.states[symbol].breakoutDirection == st1.breakoutDirection;
      } else if position == Below {
        var st1 := BreakoutStep(st, Down, closes, maAvg, now);
        assert r.states[symbol].breakoutDirection == st1.breakoutDirection;
      }
    }
  }

  /**
   * BUY with confidence 90 is emitted exactly when no position is recorded,
   * the averages converge, the price is ABOVE the band, the recorded
   * breakout (after this evaluation's update) is UP, the last `bars` closes
   * stay above the mean and the breakout is at least the confirmation
   * window old; it records a LONG position.
   */
  lemma BuyIff(
    p: Params, states: map<string, SymbolState>, symbol: string,
    closes: seq<real>, interval: string, now: real)
    requires Evaluated(p, closes)
    ensures var r := Analyze(p, states, symbol, closes, interval, now);
      var values := Averages(p, closes);
      var after := r.states[symbol];
      symbol in r.states &&
      (r.signal.action == Buy <==>
        && Prior(states, symbol).position.None?
        && CheckMaConvergence(values, p.threshold)
        && CheckPricePosition(closes[|closes| - 1], values) == Above
        && after.breakoutDirection == Some(Up)
        && after.breakoutTime.Some?
        && CheckPriceStability(closes, AverageOf(p, closes), "ABOVE", ConfirmationBars(interval, p.confirmationMinutes))
        && (now - after.breakoutTime.value) / 60.0 >= p.confirmationMinutes as real)
      && (r.signal.action == Buy ==> r.signal.confidence == 90 && after.position == Some(Long))
  {
  }

  /** The mirror image of `BuyIff`: SELL for a confirmed downward breakout below the band. */
  lemma SellIff(
    p: Params, states: map<string, SymbolState>, symbol: string,
    closes: seq<real>, interval: string, now: real)
    requires Evaluated(p, closes)
    ensures var r := Analyze(p, states, symbol, closes, interval, now);
      var values := Averages(p, closes);
      var after := r.states[symbol];
      symbol in r.states &&
      (r.signal.action == Sell <==>
        && Prior(states, symbol).position.None?
        && CheckMaConvergence(values, p.threshold)
        && CheckPricePosition(closes[|closes| - 1], values) == Below
        && after.breakoutDirection == Some(Down)
        && after.breakoutTime.Some?
        && CheckPriceStability(closes, AverageOf(p, closes), "BELOW", ConfirmationBars(interval, p.confirmationMinutes))
        && (now - after.breakoutTime.value) / 60.0 >= p.confirmationMinutes as real)
      && (r.signal.action == Sell ==> r.signal.confidence == 90 && after.position == Some(Short))
  {
  }

  /** Every path other than CLOSE, BUY, SELL and the no-data answers is HOLD with confidence 50. */
  lemma HoldConfidence(
    p: Params, states: map<string, SymbolState>, symbol: string,
    closes: seq<real>, interval: string, now: real)
    requires Evaluated(p, closes)
    ensures var r := Analyze(p, states, symbol, closes, interval, now);
      (r.signal.action == Hold <==> r.signal.confidence == 50)
      && (r.signal.action == Close <==> r.signal.confidence == 80)
  {
  }

  /** `reset_symbol_state`: only an already-known symbol is reset. */
  function ResetSymbolState(states: map<string, SymbolState>, symbol: string): (r: map<string, SymbolState>)
    ensures r.Keys == states.Keys
    ensures symbol in states ==> r[symbol] == Fresh
    ensures forall s :: s in states && s != symbol ==> r[s] == states[s]
  {
    if symbol in states then states[symbol := Fresh] else states
  }

  /** One call on the strategy for a fixed symbol. */
  datatype Event = Evaluate(closes: seq<real>, interval: string, now: real) | Reset

  /** What a call produced: the signal's action, or a reset marker. */
  datatype Emitted = Emitted(action: Action) | WasReset

  predicate IsOpen(e: Emitted) {
    e == Emitted(Buy) || e == Emitted(Sell)
  }

  predicate Clears(e: Emitted) {
    e == Emitted(Close) || e == WasReset
  }

  /** Applies one event to the strategy for `symbol`. */
  function StepEvent(p: Params, states: map<string, SymbolState>, symbol: string, e: Event): (r: (Emitted, map<string, SymbolState>))
    ensures IsOpen(r.0) ==> Prior(states, symbol).position.None? && symbol in r.1 && r.1[symbol].position.Some?
    ensures symbol in states && states[symbol].position.Some? && !Clears(r.0) ==>
      symbol in r.1 && r.1[symbol].position.Some?
  {
    match e
    case Evaluate(closes, interval, now) =>
      var r := Analyze(p, states, symbol, closes, interval, now);
      (Emitted(r.signal.action), r.states)
    case Reset => (WasReset, ResetSymbolState(states, symbol))
  }

  /** Runs a sequence of events and collects what each produced. */
  function Run(p: Params, states: map<string, SymbolState>, symbol: string, events: seq<Event>): (out: seq<Emitted>)
    ensures |out| == |events|
    decreases |events|
  {
    if |events| == 0 then []
    else
      var step := StepEvent(p, states, symbol, events[0]);
      [step.0] + Run(p, step.1, symbol, events[1..])
  }

  /** The first output is the first event's, the rest are the run from the state it leaves. */
  lemma RunUnfold(p: Params, states: map<string, SymbolState>, symbol: string, events: seq<Event>)
    requires |events| > 0
    ensures var step := StepEvent(p, states, symbol, events[0]);
      && Run(p, states, symbol, events)[0] == step.0
      && Run(p, states, symbol, events)[1..] == Run(p, step.1, symbol, events[1..])
  {
  }

  /** While a position is recorded, no open comes before a CLOSE or reset. */
  lemma {:induction false} NoOpenWhileHeld(p: Params, states: map<string, SymbolState>, symbol: string, events: seq<Event>, j: nat)
    requires symbol in states && states[symbol].position.Some?
    requires j < |events| && IsOpen(Run(p, states, symbol, events)[j])
    ensures exists k :: 0 <= k < j && Clears(Run(p, states, symbol, events)[k])
    decreases |events|
  {
    var out := Run(p, states, symbol, events);
    var step := StepEvent(p, states, symbol, events[0]);
    RunUnfold(p, states, symbol, events);
    var rest := Run(p, step.1, symbol, events[1..]);
    if !Clears(out[0]) {
      assert j > 0;
      assert out[j] == rest[j - 1];
      NoOpenWhileHeld(p, step.1, symbol, events[1..], j - 1);
      var k :| 0 <= k < j - 1 && Clears(rest[k]);
      assert out[k + 1] == rest[k];
    }
  }

  /** Two opens for a symbol are always separated by a CLOSE or a reset. */
  lemma {:induction false} OpensSeparated(p: Params, states: map<string, SymbolState>, symbol: string, events: seq<Event>, i: nat, j: nat)
    requires i < j < |events|
    requires IsOpen(Run(p, states, symbol, events)[i]) && IsOpen(Run(p, states, symbol, events)[j])
    ensures exists k :: i < k < j && Clears(Run(p, states, symbol, events)[k])
    decreases |events|
  {
    if i == 0 {
      FirstOpenSeparated(p, states, symbol, events, j);
    } else {
      var out := Run(p, states, symbol, events);
      var step := StepEvent(p, states, symbol, events[0]);
      RunUnfold(p, states, symbol, events);
      var rest := Run(p, step.1, symbol, events[1..]);
      assert out[j] == rest[j - 1] && out[i] == rest[i - 1];
      OpensSeparated(p, step.1, symbol, events[1..], i - 1, j - 1);
      var k :| i - 1 < k < j - 1 && Clears(rest[k]);
      assert out[k + 1] == rest[k];
    }
  }

  /** After an opening first event, a later open needs a CLOSE or reset in between. */
  lemma FirstOpenSeparated(p: Params, states: map<string, SymbolState>, symbol: string, events: seq<Event>, j: nat)
    requires 0 < j < |events|
    requires IsOpen(Run(p, states, symbol, events)[0]) && IsOpen(Run(p, states, symbol, events)[j])
    ensures exists k :: 0 < k < j && Clears(Run(p, states, symbol, events)[k])
  {
    var out := Run(p, states, symbol, events);
    var step := StepEvent(p, states, symbol, events[0]);
    RunUnfold(p, states, symbol, events);
    var rest := Run(p, step.1, symbol, events[1..]);
    assert out[j] == rest[j - 1];
    NoOpenWhileHeld(p, step.1, symbol, events[1..], j - 1);
    var k :| 0 <= k < j - 1 && Clears(rest[k]);
    assert out[k + 1] == rest[k];
  }
}
