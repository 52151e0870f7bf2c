/**
 * Post-processing in the DeepSeek client: the keyword classifier for free
 * text answers, the sentiment keyword count, and the mapping of an answer
 * (or a failed call) to a trading-signal record. The chat call itself is
 * foreign: its outcome is the `Attempt<string>` parameter.
 */
module DeepSeek {
  import opened Wrappers
  import opened Json
  import opened Text

  const BuyWords: seq<string> := ["buy", "\U{4e70}\U{5165}", "\U{505a}\U{591a}"]
  const SellWords: seq<string> := ["sell", "\U{5356}\U{51fa}", "\U{505a}\U{7a7a}"]
  const StrongWords: seq<string> := ["strong", "\U{5f3a}\U{70c8}", "\U{660e}\U{786e}"]
  const WeakWords: seq<string> := ["weak", "\U{5f31}", "\U{8c28}\U{614e}"]
  const BullishWords: seq<string> :=
    ["bullish", "positive", "upward", "\U{770b}\U{6da8}", "\U{4e0a}\U{6da8}", "\U{4e50}\U{89c2}"]
  const BearishWords: seq<string> :=
    ["bearish", "negative", "downward", "\U{770b}\U{8dcc}", "\U{4e0b}\U{8dcc}", "\U{60b2}\U{89c2}"]

  /** Some keyword of the list occurs in the text. */
  predicate AnyOccurs(text: string, words: seq<string>) {
    exists i :: 0 <= i < |words| && Contains(text, words[i])
  }

  /** The trading-signal record: `action`, `confidence` and `reason` as decoded JSON values. */
  datatype AiSignal = AiSignal(action: Json, confidence: Json, reason: Json)

  /** `_parse_text_response`: BUY words win over SELL words, strong over weak. */
  function ParseTextResponse(content: string): (r: AiSignal)
    ensures r.action in {JStr("BUY"), JStr("SELL"), JStr("HOLD")}
    ensures r.confidence in {JInt(30), JInt(50), JInt(80)}
    ensures r.reason == JStr(content)
    ensures r.action == JStr("BUY") <==> AnyOccurs(Lower(content), BuyWords)
    ensures r.action == JStr("SELL") <==> !AnyOccurs(Lower(content), BuyWords) && AnyOccurs(Lower(content), SellWords)
    ensures r.action == JStr("HOLD") <==> !AnyOccurs(Lower(content), BuyWords) && !AnyOccurs(Lower(content), SellWords)
    ensures r.confidence == JInt(80) <==> AnyOccurs(Lower(content), StrongWords)
    ensures r.confidence == JInt(30) <==> !AnyOccurs(Lower(content), StrongWords) && AnyOccurs(Lower(content), WeakWords)
    ensures r.confidence == JInt(50) <==> !AnyOccurs(Lower(content), StrongWords) && !AnyOccurs(Lower(content), WeakWords)
  {
    var text := Lower(content);
    var action :=
      if AnyOccurs(text, BuyWords) then "BUY"
      else if AnyOccurs(text, SellWords) then "SELL"
      else "HOLD";
    var confidence :=
      if AnyOccurs(text, StrongWords) then 80
      else if AnyOccurs(text, WeakWords) then 30
      else 50;
    AiSignal(JStr(action), JInt(confidence), JStr(content))
  }

  /**
   * ASCII keywords match whatever their case: a word that lower-cases to a
   * buy keyword makes the answer BUY, and one that lower-cases to a sell
   * keyword makes it SELL unless a buy keyword is also present.
   */
  lemma KeywordsIgnoreCase(content: string, w: string)
    requires Contains(content, w)
    ensures Lower(w) in BuyWords ==> ParseTextResponse(content).action == JStr("BUY")
    ensures Lower(w) in SellWords && !AnyOccurs(Lower(content), BuyWords) ==>
      ParseTextResponse(content).action == JStr("SELL")
    ensures Lower(w) in StrongWords ==> ParseTextResponse(content).confidence == JInt(80)
  {
    LowerKeepsOccurrence(content, w);
  }

  /** How many keywords of the list occur (each keyword counts once). */
  function CountPresent(text: string, words: seq<string>): (n: nat)
    ensures n <= |words|
  {
    if |words| == 0 then 0
    else CountPresent(text, words[..|words| - 1]) + (if Contains(text, words[|words| - 1]) then 1 else 0)
  }

  /** The positions of the keywords that occur. */
  ghost function PresentSet(text: string, words: seq<string>): set<int> {
    set i | 0 <= i < |words| && Contains(text, words[i])
  }

  /** The count is the number of distinct keywords present, not the number of occurrences. */
  lemma {:induction false} CountIsDistinctKeywords(text: string, words: seq<string>)
    ensures CountPresent(text, words) == |PresentSet(text, words)|
    decreases |words|
  {
    if |words| > 0 {
      var n := |words| - 1;
      var prefix := words[..n];
      CountIsDistinctKeywords(text, prefix);
      var before := PresentSet(text, prefix);
      if Contains(text, words[n]) {
        assert PresentSet(text, words) == before + {n};
        assert n !in before;
      } else {
        assert PresentSet(text, words) == before;
      }
    }
  }

  datatype Sentiment = Bullish | Bearish | Neutral

  function SentimentName(s: Sentiment): string {
    match s
    case Bullish => "BULLISH"
    case Bearish => "BEARISH"
    case Neutral => "NEUTRAL"
  }

  /**
   * `_extract_sentiment`: BULLISH when more distinct bullish than bearish
   * keywords occur in the lower-cased text, BEARISH for the reverse, NEUTRAL on a tie.
   */
  function ExtractSentiment(content: string): (r: Sentiment)
    ensures var text := Lower(content);
      r == Neutral <==> CountPresent(text, BullishWords) == CountPresent(text, BearishWords)
    ensures var text := Lower(content);
      r == Bullish <==> |PresentSet(text, BullishWords)| > |PresentSet(text, BearishWords)|
    ensures var text := Lower(content);
      r == Bearish <==> |PresentSet(text, BearishWords)| > |PresentSet(text, BullishWords)|
  {
    var text := Lower(content);
    CountIsDistinctKeywords(text, BullishWords);
    CountIsDistinctKeywords(text, BearishWords);
    var bull := CountPresent(text, BullishWords);
    var bear := CountPresent(text, BearishWords);
    if bull > bear then Bullish else if bear > bull then Bearish else Neutral
  }

  /** The failure record `analyze_trading_signal` returns when the call or the answer's mapping raises. */
  const FailedSignal := AiSignal(JStr("HOLD"), JInt(0), JStr("API \U{8c03}\U{7528}\U{5931}\U{8d25}"))

  /**
   * `analyze_trading_signal` as written: a JSON object answer is read with
   * defaults HOLD / 50; an answer that is not JSON goes through the keyword
   * classifier; a JSON answer that is not an object, or a failed call, gives
   * HOLD with confidence 0.
   */
  function AnalyzeTradingSignal(response: Attempt<string>, loads: string -> Option<Json>): (r: AiSignal)
    ensures response.Raised? ==> r == FailedSignal
    ensures response.Ok? && loads(response.value).Some? && loads(response.value).value.JObj? ==>
      var m := loads(response.value).value.fields;
      && r.action == Get(m, "action", JStr("HOLD"))
      && r.confidence == Get(m, "confidence", JInt(50))
    ensures response.Ok? && loads(response.value).None? ==> r == ParseTextResponse(response.value)
  {
    match response
    case Raised => FailedSignal
    case Ok(content) =>
      match loads(content)
      case None => ParseTextResponse(content)
      case Some(JObj(m)) =>
        AiSignal(
          Get(m, "action", JStr("HOLD")),
          Get(m, "confidence", JInt(50)),
          Get(m, "reason", JStr("\U{65e0}\U{6cd5}\U{83b7}\U{53d6}\U{5206}\U{6790}\U{7406}\U{7531}")))
      case Some(_) => FailedSignal
  }

  /**
   * The corrected client: a failed call (or an answer that cannot be mapped)
   * raises to the caller instead of answering HOLD, so that a caller with a
   * fallback can fall back. Successful answers map exactly as before.
   */
  function AnalyzeTradingSignalOrRaise(response: Attempt<string>, loads: string -> Option<Json>): (r: Attempt<AiSignal>)
    ensures response.Raised? ==> r.Raised?
    ensures r.Ok? ==> r.value == AnalyzeTradingSignal(response, loads)
    ensures response.Ok? && (loads(response.value).None? || loads(response.value).value.JObj?) ==> r.Ok?
  {
    match response
    case Raised => Raised
    case Ok(content) =>
      match loads(content)
      case None => Ok(ParseTextResponse(content))
      case Some(JObj(_)) => Ok(AnalyzeTradingSignal(response, loads))
      case Some(_) => Raised
  }

  /** The record `get_market_sentiment` returns. */
  datatype SentimentReport = SentimentReport(sentiment: Sentiment, analysis: string)

  /** `get_market_sentiment`: a failed call is NEUTRAL with a fixed explanation. */
  function GetMarketSentiment(response: Attempt<string>): (r: SentimentReport)
    ensures response.Raised? ==> r.sentiment == Neutral
    ensures response.Ok? ==> r == SentimentReport(ExtractSentiment(response.value), response.value)
  {
    match response
    case Raised => SentimentReport(Neutral, "\U{65e0}\U{6cd5}\U{83b7}\U{53d6}\U{5e02}\U{573a}\U{60c5}\U{7eea}\U{5206}\U{6790}")
    case Ok(content) => SentimentReport(ExtractSentiment(content), content)
  }
}
