/**
 * The provider-neutral AI client: the request arguments of a chat call, the
 * JSON-span fallback of the JSON chat call, and the provider factory. The
 * chat service and `json.loads` are foreign and appear as parameters.
 */
module BaseAi {
  import opened Wrappers
  import opened Json
  import opened Text

  /** The keyword arguments `chat_completion` passes to the service. */
  function ChatArguments(model: string, messages: Json, temperature: real, maxTokens: int, responseFormat: Json): (r: Object)
    ensures "response_format" in r <==> Truthy(responseFormat)
    ensures Truthy(responseFormat) ==> r["response_format"] == responseFormat
    ensures r.Keys - {"response_format"} == {"model", "messages", "temperature", "max_tokens"}
    ensures r["model"] == JStr(model) && r["messages"] == messages && r["max_tokens"] == JInt(maxTokens)
  {
    var base := map["model" := JStr(model), "messages" := messages,
                    "temperature" := JReal(temperature), "max_tokens" := JInt(maxTokens)];
    if Truthy(responseFormat) then base["response_format" := responseFormat] else base
  }

  /** The first `n` characters, as `s[:n]` takes them. */
  function Prefix(s: string, n: nat): (r: string)
    ensures |r| <= n && |r| <= |s|
    ensures r == s[..|r|]
    ensures |s| <= n ==> r == s
  {
    if |s| <= n then s else s[..n]
  }

  /** The object returned when no JSON could be recovered from the answer. */
  function ErrorObject(content: string): (r: Json)
    ensures r.JObj? && r.fields.Keys == {"error", "raw_content"}
    ensures r.fields["raw_content"].JStr?
    ensures |r.fields["raw_content"].s| <= 200 && |r.fields["raw_content"].s| <= |content|
    ensures r.fields["raw_content"].s == content[..|r.fields["raw_content"].s|]
  {
    JObj(map["error" := JStr("JSON \U{89e3}\U{6790}\U{5931}\U{8d25}"),
             "raw_content" := JStr(Prefix(content, 200))])
  }

  /** `content[start:end + 1]` with Python slicing: empty when the end precedes the start. */
  function Span(content: string, start: nat, end: nat): (r: string)
    requires start <= |content| && end < |content|
    ensures end + 1 >= start ==> r == content[start..end + 1]
    ensures end + 1 < start ==> r == ""
  {
    if end + 1 >= start then content[start..end + 1] else ""
  }

  /** The fallback's recovery from free text: the span from the first `{` to the last `}`, if both exist. */
  function RecoverJson(content: string, loads: string -> Option<Json>): (r: Json)
    ensures '{' !in content || '}' !in content ==> r == ErrorObject(content)
  {
    var start := Find(content, '{');
    var end := RFind(content, '}');
    if start != -1 && end != -1 then
      match loads(Span(content, start, end))
      case Some(j) => j
      case None => ErrorObject(content)
    else ErrorObject(content)
  }

  /**
   * When both braces exist in order, exactly the text from the first `{` to
   * the last `}` is parsed: it starts with `{`, ends with `}`, has no `{`
   * before it and no `}` after it.
   */
  lemma RecoverJsonSpan(content: string, loads: string -> Option<Json>, i: nat, j: nat)
    requires i <= j < |content| && content[i] == '{' && content[j] == '}'
    requires '{' !in content[..i] && '}' !in content[j + 1..]
    requires loads(content[i..j + 1]).Some?
    ensures RecoverJson(content, loads) == loads(content[i..j + 1]).value
  {
    FindIsFirst(content, '{', i);
    RFindIsLast(content, '}', j);
  }

  /**
   * When the last `}` comes before the first `{` the slice is empty; since
   * the empty string is not JSON, the result is the error object.
   */
  lemma RecoverJsonReversedBraces(content: string, loads: string -> Option<Json>)
    requires '{' in content && '}' in content
    requires RFind(content, '}') < Find(content, '{')
    requires loads("").None?
    ensures RecoverJson(content, loads) == ErrorObject(content)
  {
    var start := Find(content, '{');
    var end := RFind(content, '}');
    assert start != -1 && end != -1;
    var span := Span(content, start, end);
    assert span == "" by {
      if end + 1 == start {
        assert content[start..end + 1] == [];
      }
    }
  }

  /**
   * `chat_completion_json`: the first call asks for a JSON object; if it
   * raises or its answer does not parse, a second plain call is made and its
   * answer is mined for a JSON span. A failure of the second call propagates.
   */
  function ChatCompletionJson(first: Attempt<string>, second: Attempt<string>, loads: string -> Option<Json>): (r: Attempt<Json>)
    ensures first.Ok? && loads(first.value).Some? ==> r == Ok(loads(first.value).value)
    ensures !(first.Ok? && loads(first.value).Some?) ==>
      (r.Raised? <==> second.Raised?) && (second.Ok? ==> r == Ok(RecoverJson(second.value, loads)))
  {
    if first.Ok? && loads(first.value).Some? then Ok(loads(first.value).value)
    else match second
      case Raised => Raised
      case Ok(content) => Ok(RecoverJson(content, loads))
  }

  /** The client `create_ai_client` constructs. */
  datatype ClientConfig = ClientConfig(provider: string, apiKey: Json, apiBase: Json, model: Json, timeout: Json)

  /** `x or default`. */
  function OrDefault(x: Json, default: string): (r: Json)
    ensures Truthy(x) ==> r == x
    ensures !Truthy(x) ==> r == JStr(default)
  {
    if Truthy(x) then x else JStr(default)
  }

  /**
   * `create_ai_client`. No client for an empty config, a falsy key or an
   * unknown provider; a provider that is not a string makes `.lower()` raise.
   */
  function CreateAiClient(config: Object): (r: Attempt<Option<ClientConfig>>)
    ensures |config| == 0 || !Truthy(Get(config, "api_key", JNull)) ==> r == Ok(None)
    ensures r == Ok(None) || r.Raised? || (r.Ok? && r.value.Some? && r.value.value.provider in {"deepseek", "grok"})
    ensures r.Ok? && r.value.Some? ==>
      && Truthy(Get(config, "api_key", JNull))
      && r.value.value.apiKey == config["api_key"]
      && Truthy(r.value.value.apiBase) && Truthy(r.value.value.model)
      && r.value.value.timeout == Get(config, "timeout", JInt(30))
    ensures var p := Get(config, "provider", JStr("deepseek"));
      |config| > 0 && Truthy(Get(config, "api_key", JNull)) ==>
        && (r.Raised? <==> !p.JStr?)
        && (p.JStr? ==> (r.Ok? && r.value.Some? <==> Lower(p.s) in {"deepseek", "grok"}))
    ensures r.Ok? && r.value.Some? ==>
      var c := r.value.value;
      var apiBase := Get(config, "api_base", JStr(""));
      var model := Get(config, "model", JStr(""));
      && Get(config, "provider", JStr("deepseek")).JStr?
      && c.provider == Lower(Get(config, "provider", JStr("deepseek")).s)
      && (Truthy(apiBase) ==> c.apiBase == apiBase)
      && (Truthy(model) ==> c.model == model)
      && (!Truthy(apiBase) ==>
            c.apiBase == JStr(if c.provider == "deepseek" then "https://api.deepseek.com" else "https://api.x.ai/v1"))
      && (!Truthy(model) ==> c.model == JStr(if c.provider == "deepseek" then "deepseek-chat" else "grok-beta"))
  {
    if |config| == 0 || !Truthy(Get(config, "api_key", JNull)) then Ok(None)
    else
      var p := Get(config, "provider", JStr("deepseek"));
      if !p.JStr? then Raised
      else
        var provider := Lower(p.s);
        var apiBase := Get(config, "api_base", JStr(""));
        var model := Get(config, "model", JStr(""));
        var timeout := Get(config, "timeout", JInt(30));
        if provider == "deepseek" then
          Ok(Some(ClientConfig(provider, config["api_key"],
            OrDefault(apiBase, "https://api.deepseek.com"), OrDefault(model, "deepseek-chat"), timeout)))
        else if provider == "grok" then
          Ok(Some(ClientConfig(provider, config["api_key"],
            OrDefault(apiBase, "https://api.x.ai/v1"), OrDefault(model, "grok-beta"), timeout)))
        else Ok(None)
  }

  /** A key alone gives a DeepSeek client with the DeepSeek defaults. */
  lemma CreateAiClientDefaults(key: string)
    requires |key| > 0
    ensures CreateAiClient(map["api_key" := JStr(key)]) == Ok(Some(ClientConfig(
      "deepseek", JStr(key), JStr("https://api.deepseek.com"), JStr("deepseek-chat"), JInt(30))))
  {
    assert Lower("deepseek") == "deepseek";
  }

  /** The provider name is matched case-insensitively: "GROK" selects the Grok defaults. */
  lemma CreateAiClientProviderCase(key: string)
    requires |key| > 0
    ensures CreateAiClient(map["api_key" := JStr(key), "provider" := JStr("GROK")]) == Ok(Some(ClientConfig(
      "grok", JStr(key), JStr("https://api.x.ai/v1"), JStr("grok-beta"), JInt(30))))
  {
    assert Lower("GROK") == "grok";
  }
}
