/**
 * sop_generator/config/agent_config.py: the settings `NoAuthChatClient.__init__` derives
 * from its configuration (endpoint URL, model, request timeout and HTTP headers), and
 * `_coerce_int`. The connection check the constructor starts and every request the client
 * makes are network I/O and are not part of this model.
 */
module ChatClient {
  import opened Text
  import opened Wrappers
  import opened Json
  import opened Records

  const CustomLlmBase: string := "http://88.204.158.4:9100/v1"
  const CustomLlmModel: string := "openai/gpt-oss-120b"
  const ChatSuffix: string := "/chat/completions"

  /** The client's configuration, after merging with the defaults: each entry is absent
      (`None`) when the key is missing. */
  datatype Settings = Settings(
    model: Option<string>,
    baseUrl: Option<string>,
    requestTimeout: Option<Json>,
    apiKey: Option<string>,
    extraHeaders: Option<map<string, string>>)

  /** `_coerce_int(value, default)`: `int(value)`, or the default where `int` raises.
      A missing key reads as `None`, for which `int` raises `TypeError`. */
  function CoerceInt(value: Option<Json>, default: int): (r: int)
    ensures value.Some? && PyInt(value.value).Some? ==> r == PyInt(value.value).value
    ensures value.None? || PyInt(value.value).None? ==> r == default
  {
    if value.None? then default
    else match PyInt(value.value)
      case Some(n) => n
      case None => default
  }

  /** `(base_url or CUSTOM_LLM_BASE).rstrip("/")`. */
  function BaseUrl(configured: Option<string>): string {
    RStripChar(OrElse(configured, CustomLlmBase), '/')
  }

  /** The chat endpoint for a base URL: kept when it already names the endpoint, completed
      with "/chat/completions" after "/v1", and with "/v1/chat/completions" otherwise. */
  function Endpoint(base: string): string {
    if EndsWith(base, ChatSuffix) then base
    else if EndsWith(base, "/v1") then base + ChatSuffix
    else base + "/v1" + ChatSuffix
  }

  /** The endpoint the client posts to. */
  function ClientEndpoint(configured: Option<string>): string {
    Endpoint(BaseUrl(configured))
  }

  lemma EndsWithAppended(b: string, suffix: string)
    ensures EndsWith(b + suffix, suffix)
  {
    assert (b + suffix)[|b + suffix| - |suffix|..] == suffix;
  }

  /** The endpoint always ends with "/chat/completions" and extends the base URL: a base
      naming the endpoint is kept as is, one ending in "/v1" gets "/chat/completions", and
      any other gets "/v1/chat/completions". */
  lemma EndpointSpec(base: string)
    ensures EndsWith(Endpoint(base), ChatSuffix)
    ensures StartsWith(Endpoint(base), base)
    ensures EndsWith(base, ChatSuffix) ==> Endpoint(base) == base
    ensures !EndsWith(base, ChatSuffix) && EndsWith(base, "/v1") ==> Endpoint(base) == base + ChatSuffix
    ensures !EndsWith(base, ChatSuffix) && !EndsWith(base, "/v1") ==> Endpoint(base) == base + "/v1" + ChatSuffix
  {
    if !EndsWith(base, ChatSuffix) {
      if EndsWith(base, "/v1") {
        EndsWithAppended(base, ChatSuffix);
        assert (base + ChatSuffix)[..|base|] == base;
      } else {
        EndsWithAppended(base + "/v1", ChatSuffix);
        assert (base + "/v1" + ChatSuffix)[..|base|] == base;
      }
    }
  }

  /** The base URL the client derives from an endpoint it derived is that same endpoint:
      configuring a client with another client's endpoint reaches the same URL. */
  lemma ClientEndpointIdempotent(configured: Option<string>)
    ensures ClientEndpoint(Some(ClientEndpoint(configured))) == ClientEndpoint(configured)
  {
    var e := ClientEndpoint(configured);
    EndpointSpec(BaseUrl(configured));
    assert e[|e| - 1] == ChatSuffix[|ChatSuffix| - 1];
    assert RStripChar(e, '/') == e;
  }

  /** The request timeout. A non-positive or unreadable timeout is replaced by the default,
      so the timeout is positive whenever the default is; a readable positive value is used
      as configured. */
  function Timeout(requestTimeout: Option<Json>, defaultTimeout: int): (t: int)
    ensures defaultTimeout > 0 ==> t > 0
    ensures t > 0 || t == defaultTimeout
    ensures requestTimeout.Some? && PyInt(requestTimeout.value).Some? && PyInt(requestTimeout.value).value > 0
      ==> t == PyInt(requestTimeout.value).value
    ensures t != defaultTimeout ==> requestTimeout.Some? && PyInt(requestTimeout.value) == Some(t)
  {
    var t := CoerceInt(requestTimeout, defaultTimeout);
    if t <= 0 then defaultTimeout else t
  }

  /** The request headers: JSON content type, overridden by the configured extra headers,
      and a bearer token when the stripped API key is not empty. The content type and every
      extra header are present; an Authorization header carries the stripped key exactly
      when that key is not blank, and otherwise only an extra header can supply one. */
  function Headers(extra: Option<map<string, string>>, apiKey: Option<string>): (h: map<string, string>)
    ensures "Content-Type" in h
    ensures extra.Some? ==> forall k :: k in extra.value ==> k in h
    ensures Strip(OrElse(apiKey, "")) != "" ==>
      "Authorization" in h && h["Authorization"] == "Bearer " + Strip(OrElse(apiKey, ""))
    ensures Strip(OrElse(apiKey, "")) == "" ==>
      ("Authorization" in h <==> extra.Some? && "Authorization" in extra.value)
    ensures forall k :: k in h ==> k == "Content-Type" || k == "Authorization" || (extra.Some? && k in extra.value)
  {
    var h := map["Content-Type" := "application/json"] + (if extra.Some? then extra.value else map[]);
    var key := Strip(OrElse(apiKey, ""));
    if key != "" then h["Authorization" := "Bearer " + key] else h
  }

  /** The part of `NoAuthChatClient` that its constructor sets up. */
  class Client {
    var endpoint: string
    var model: string
    var timeout: int
    var headers: map<string, string>
    var lastUsage: map<string, int>

    /** `NoAuthChatClient.__init__` (sop_generator/config/agent_config.py:175-201), without
        the initial connection check. */
    constructor (config: Settings, defaultTimeout: int)
      ensures endpoint == ClientEndpoint(config.baseUrl)
      ensures model == OrElse(config.model, CustomLlmModel)
      ensures timeout == Timeout(config.requestTimeout, defaultTimeout)
      ensures headers == Headers(config.extraHeaders, config.apiKey)
      ensures lastUsage == map[]
    {
      var baseUrl := BaseUrl(config.baseUrl);
      if EndsWith(baseUrl, ChatSuffix) {
        endpoint := baseUrl;
      } else if EndsWith(baseUrl, "/v1") {
        endpoint := baseUrl + ChatSuffix;
      } else {
        endpoint := baseUrl + "/v1" + ChatSuffix;
      }
      model := OrElse(config.model, CustomLlmModel);
      var t := CoerceInt(config.requestTimeout, defaultTimeout);
      if t <= 0 {
        t := defaultTimeout;
      }
      timeout := t;
      var h := map["Content-Type" := "application/json"];
      if config.extraHeaders.Some? {
        h := h + config.extraHeaders.value;
      }
      var apiKey := Strip(OrElse(config.apiKey, ""));
      if apiKey != "" {
        h := h["Authorization" := "Bearer " + apiKey];
      }
      headers := h;
      lastUsage := map[];
    }
  }
}
