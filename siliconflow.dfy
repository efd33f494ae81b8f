/** The SiliconFlow adapter of `openextract/providers/siliconflow.py`.
    The HTTP endpoint is an oracle `server` from the request JSON to the
    reply; the wall clock is given as two readings per call; `json.loads`
    is an oracle `parseJson` from text to a value, `None` when the text is
    not JSON. */
module SiliconFlow {
  import opened Wrappers
  import opened Values
  import opened ProviderBase
  import Pipeline

  const DEFAULT_TEMPERATURE: real := 0.2
  const DEFAULT_MAX_TOKENS: real := 1500.0

  // ---------------------------------------------------------------------
  // prepare_payload
  // ---------------------------------------------------------------------

  /** The keys every request has. */
  const BASE_KEYS: set<string> := {"model", "messages", "temperature", "max_tokens"}
  /** The keys added when `think_mode` is configured (not None). */
  const THINK_KEYS: set<string> := {"stream", "response_format"}

  /** `prepare_payload`: the request JSON for the chat-completions call. */
  function PreparePayload(config: ProviderConfig, promptPayload: Dict): (payload: Dict)
  {
    var request := map[
      "model" := Str(config.model),
      "messages" := Get(promptPayload, "messages", List([])),
      "temperature" := Get(promptPayload, "temperature", Num(DEFAULT_TEMPERATURE)),
      "max_tokens" := Get(promptPayload, "max_tokens", Num(DEFAULT_MAX_TOKENS))];
    if config.thinkMode.Some? then
      request["stream" := Bool(false)]["response_format" := Obj(map["type" := Str("json_object")])]
    else
      request
  }

  /** The request has the four base keys, plus `stream` and
      `response_format` exactly when `think_mode` is not None; `model`
      comes from the configuration; `messages`, `temperature` and
      `max_tokens` are passed through when given and defaulted otherwise. */
  lemma PreparePayloadShape(config: ProviderConfig, promptPayload: Dict)
    ensures var payload := PreparePayload(config, promptPayload);
      && payload.Keys == BASE_KEYS + (if config.thinkMode.Some? then THINK_KEYS else {})
      && payload["model"] == Str(config.model)
      && ("messages" in promptPayload ==> payload["messages"] == promptPayload["messages"])
      && ("messages" !in promptPayload ==> payload["messages"] == List([]))
      && ("temperature" in promptPayload ==> payload["temperature"] == promptPayload["temperature"])
      && ("temperature" !in promptPayload ==> payload["temperature"] == Num(0.2))
      && ("max_tokens" in promptPayload ==> payload["max_tokens"] == promptPayload["max_tokens"])
      && ("max_tokens" !in promptPayload ==> payload["max_tokens"] == Num(1500.0))
      && (config.thinkMode.Some? ==>
            payload["stream"] == Bool(false)
            && payload["response_format"] == Obj(map["type" := Str("json_object")]))
  {
  }

  /** Two prompt payloads that agree on `messages`, `temperature` and
      `max_tokens` give the same request: every other key is dropped. */
  lemma PreparePayloadReadsOnlyRequestKeys(config: ProviderConfig, p1: Dict, p2: Dict)
    requires forall key :: key in {"messages", "temperature", "max_tokens"} ==>
      (key in p1 <==> key in p2) && (key in p1 ==> p1[key] == p2[key])
    ensures PreparePayload(config, p1) == PreparePayload(config, p2)
  {
    assert "messages" in {"messages", "temperature", "max_tokens"};
    assert "temperature" in {"messages", "temperature", "max_tokens"};
    assert "max_tokens" in {"messages", "temperature", "max_tokens"};
  }

  // ---------------------------------------------------------------------
  // dispatch
  // ---------------------------------------------------------------------

  /** What `requests.post` produces: a reply with its status code and its
      body parsed as JSON (`None` when the body is not JSON), or a
      transport failure (connection error, timeout). */
  datatype HttpReply = Reply(status: int, body: Option<Value>) | RequestFailed(reason: string)

  /** `raise_for_status` passes the reply: it is not a 4xx or 5xx status. */
  predicate StatusOk(reply: HttpReply) {
    reply.Reply? && !(400 <= reply.status < 600)
  }

  /** The seconds `dispatch` sleeps before the call. */
  function RateLimitWait(sleepSeconds: real, now: real, lastRequestTime: real): (wait: real)
    ensures wait >= 0.0
    ensures wait > 0.0 <==> sleepSeconds > 0.0 && now - lastRequestTime < sleepSeconds
    ensures wait > 0.0 ==> now + wait == lastRequestTime + sleepSeconds
    ensures sleepSeconds > 0.0 ==> now + wait - lastRequestTime >= sleepSeconds
  {
    if sleepSeconds > 0.0 && now - lastRequestTime < sleepSeconds then sleepSeconds - (now - lastRequestTime)
    else 0.0
  }

  /** The message prefix of the RuntimeError `dispatch` raises. */
  const REQUEST_FAILED: string := "SiliconFlow API request failed: "

  /** What `dispatch` returns or raises for a reply. A JSON decoding error
      of the body is a `RequestException` too, so every failure becomes a
      `RuntimeError`. */
  function DispatchResult(reply: HttpReply): (r: Result<Value, Error>)
    ensures r.Success? <==> StatusOk(reply) && reply.body.Some?
    ensures r.Success? ==> r.value == reply.body.value
    ensures r.Failure? ==> r.error.kind == RuntimeError
  {
    match reply
    case RequestFailed(reason) => Failure(Error(RuntimeError, REQUEST_FAILED + reason))
    case Reply(status, body) =>
      if 400 <= status < 600 then Failure(Error(RuntimeError, REQUEST_FAILED + "HTTP error status"))
      else if body.None? then Failure(Error(RuntimeError, REQUEST_FAILED + "invalid JSON body"))
      else Success(body.value)
  }

  // ---------------------------------------------------------------------
  // parse_response
  // ---------------------------------------------------------------------

  /** Python's `v[key]` with a string key. */
  function Subscript(v: Value, key: string): (r: Result<Value, Error>)
    ensures r.Success? <==> v.Obj? && key in v.fields
    ensures r.Success? ==> r.value == v.fields[key]
  {
    match v
    case Obj(fields) =>
      if key in fields then Success(fields[key]) else Failure(Error(KeyError, "'" + key + "'"))
    case List(_) => Failure(Error(TypeError, "list indices must be integers or slices, not str"))
    case Str(_) => Failure(Error(TypeError, "string indices must be integers"))
    case _ => Failure(Error(TypeError, "object is not subscriptable"))
  }

  /** Python's `v[0]`. A JSON object has no key `0`; a string yields its
      first character. */
  function SubscriptFirst(v: Value): (r: Result<Value, Error>)
    ensures v.List? ==> (r.Success? <==> |v.items| > 0) && (r.Success? ==> r.value == v.items[0])
    ensures v.Str? ==> (r.Success? <==> |v.s| > 0) && (r.Success? ==> r.value == Str(v.s[..1]))
    ensures !v.List? && !v.Str? ==> r.Failure?
  {
    match v
    case List(items) =>
      if |items| > 0 then Success(items[0]) else Failure(Error(IndexError, "list index out of range"))
    case Str(s) =>
      if |s| > 0 then Success(Str(s[..1])) else Failure(Error(IndexError, "string index out of range"))
    case Obj(_) => Failure(Error(KeyError, "0"))
    case _ => Failure(Error(TypeError, "object is not subscriptable"))
  }

  /** `response["choices"][0]["message"]["content"]`. */
  function ExtractContent(response: Value): Result<Value, Error> {
    var choices :- Subscript(response, "choices");
    var first :- SubscriptFirst(choices);
    var message :- Subscript(first, "message");
    Subscript(message, "content")
  }

  /** `json.loads`: text only; text that is not JSON raises a ValueError. */
  function JsonLoads(content: Value, parseJson: string -> Option<Value>): Result<Value, Error> {
    if !content.Str? then Failure(Error(TypeError, "the JSON object must be str, bytes or bytearray"))
    else match parseJson(content.s)
      case None => Failure(Error(ValueError, "Expecting value"))
      case Some(v) => Success(v)
  }

  /** The body of the `try` in `parse_response`. `think_mode` is tested
      for truthiness here: only `True` parses the content. */
  function ParseContent(config: ProviderConfig, response: Value, parseJson: string -> Option<Value>): Result<Value, Error> {
    var content :- ExtractContent(response);
    if config.thinkMode == Some(true) then JsonLoads(content, parseJson)
    else Success(Obj(map["content" := content]))
  }

  /** The `except (KeyError, IndexError, ValueError)` clause: those are
      re-raised as a ValueError; anything else (a TypeError) passes. */
  function Rewrap(e: Error): Error {
    if e.kind in {KeyError, IndexError, ValueError} then
      Error(ValueError, "Failed to parse SiliconFlow response: " + e.message)
    else e
  }

  /** `parse_response`. */
  function ParseResponse(config: ProviderConfig, response: Value, parseJson: string -> Option<Value>): Result<Value, Error> {
    match ParseContent(config, response, parseJson)
    case Success(v) => Success(v)
    case Failure(e) => Failure(Rewrap(e))
  }

  /** The response shape `parse_response` expects, stated directly: an
      object whose `choices` is a non-empty list whose first element is an
      object whose `message` is an object with a `content` entry. */
  ghost function ContentAt(response: Value): Option<Value> {
    if response.Obj? && "choices" in response.fields
       && response.fields["choices"].List? && |response.fields["choices"].items| > 0
       && response.fields["choices"].items[0].Obj? && "message" in response.fields["choices"].items[0].fields
       && response.fields["choices"].items[0].fields["message"].Obj?
       && "content" in response.fields["choices"].items[0].fields["message"].fields
    then Some(response.fields["choices"].items[0].fields["message"].fields["content"])
    else None
  }

  lemma ExtractContentFindsContentAt(response: Value)
    ensures ExtractContent(response).Success? <==> ContentAt(response).Some?
    ensures ExtractContent(response).Success? ==> ExtractContent(response).value == ContentAt(response).value
  {
    var choices := Subscript(response, "choices");
    if choices.Success? {
      var first := SubscriptFirst(choices.value);
      if first.Success? && choices.value.Str? {
        // the first character of a string is a string, which has no keys
        assert Subscript(first.value, "message").Failure?;
      }
    }
  }

  /** `parse_response` succeeds exactly when the content is where it is
      expected (and, when `think_mode` is truthy, is JSON text). It then
      returns `{"content": content}`, or the parsed JSON when `think_mode`
      is truthy. Failures are never partial results: a missing key, an
      empty `choices` or text that is not JSON becomes a ValueError whose
      message starts with "Failed to parse SiliconFlow response: ", and a
      value of the wrong type on the path a TypeError. */
  lemma ParseResponseContract(config: ProviderConfig, response: Value, parseJson: string -> Option<Value>)
    ensures var r := ParseResponse(config, response, parseJson);
      var thinking := config.thinkMode == Some(true);
      && (r.Success? <==>
            ContentAt(response).Some?
            && (thinking ==> ContentAt(response).value.Str? && parseJson(ContentAt(response).value.s).Some?))
      && (r.Success? && !thinking ==> r.value == Obj(map["content" := ContentAt(response).value]))
      && (r.Success? && thinking ==> r.value == parseJson(ContentAt(response).value.s).value)
      && (r.Failure? ==> r.error.kind == ValueError || r.error.kind == TypeError)
      && (r.Failure? && r.error.kind == ValueError ==>
            "Failed to parse SiliconFlow response: " <= r.error.message)
  {
    ExtractContentFindsContentAt(response);
  }

  /** Every container on the path `choices[0].message.content` has the
      type the subscripts need (where it is present at all); when the
      content is to be parsed as JSON, it is text. */
  ghost predicate PathWellTyped(config: ProviderConfig, response: Value) {
    response.Obj?
    && ("choices" in response.fields ==> response.fields["choices"].List?)
    && ("choices" in response.fields && |response.fields["choices"].items| > 0 ==>
          response.fields["choices"].items[0].Obj?)
    && ("choices" in response.fields && |response.fields["choices"].items| > 0
        && "message" in response.fields["choices"].items[0].fields ==>
          response.fields["choices"].items[0].fields["message"].Obj?)
    && (config.thinkMode == Some(true) && ContentAt(response).Some? ==> ContentAt(response).value.Str?)
  }

  /** On a well-typed path, extraction fails only because a key or the
      first choice is missing: a KeyError or an IndexError. */
  lemma ExtractFailureOnWellTypedPath(config: ProviderConfig, response: Value)
    requires PathWellTyped(config, response)
    ensures ExtractContent(response).Failure? ==>
      ExtractContent(response).error.kind == KeyError || ExtractContent(response).error.kind == IndexError
  {
  }

  /** The parse errors of `parse_response`: on a well-typed path every
      failure is the ValueError "Failed to parse SiliconFlow response: ...";
      a TypeError escapes only when some container on the path has the
      wrong type. In particular a response without `choices`, and content
      that is not JSON when `think_mode` is truthy, are parse errors. */
  lemma ParseResponseFailures(config: ProviderConfig, response: Value, parseJson: string -> Option<Value>)
    ensures var r := ParseResponse(config, response, parseJson);
      && (PathWellTyped(config, response) && r.Failure? ==>
            r.error.kind == ValueError && "Failed to parse SiliconFlow response: " <= r.error.message)
      && (r.Failure? && r.error.kind == TypeError ==> !PathWellTyped(config, response))
      && (response.Obj? && "choices" !in response.fields ==> r.Failure? && r.error.kind == ValueError)
      && ((config.thinkMode == Some(true) && ContentAt(response).Some? && ContentAt(response).value.Str?
           && parseJson(ContentAt(response).value.s).None?) ==> r.Failure? && r.error.kind == ValueError)
  {
    ExtractContentFindsContentAt(response);
    if PathWellTyped(config, response) {
      ExtractFailureOnWellTypedPath(config, response);
    }
  }

  /** A response whose `choices` list is empty fails as a parse error,
      whatever else it holds. */
  lemma EmptyChoicesIsParseError(config: ProviderConfig, response: Value, parseJson: string -> Option<Value>)
    requires response.Obj? && "choices" in response.fields && response.fields["choices"] == List([])
    ensures var r := ParseResponse(config, response, parseJson);
      r.Failure? && r.error.kind == ValueError && "Failed to parse SiliconFlow response: " <= r.error.message
  {
    assert Subscript(response, "choices") == Success(List([]));
    assert ExtractContent(response).Failure? && ExtractContent(response).error.kind == IndexError;
  }

  /** With `think_mode = False` the request asks for a JSON object (the
      test there is `is not None`) while the reply is still wrapped as
      text (the test there is truthiness). */
  lemma ThinkModeFalseIsMixed(config: ProviderConfig, promptPayload: Dict, content: string, parseJson: string -> Option<Value>)
    requires config.thinkMode == Some(false)
    ensures PreparePayload(config, promptPayload)["response_format"] == Obj(map["type" := Str("json_object")])
    ensures var response := Obj(map["choices" := List([Obj(map["message" := Obj(map["content" := Str(content)])])])]);
      ParseResponse(config, response, parseJson) == Success(Obj(map["content" := Str(content)]))
  {
  }

  // ---------------------------------------------------------------------
  // The provider object
  // ---------------------------------------------------------------------

  /** The three SiliconFlow stages as the composition in `ProviderBase`
      sees them (the rate-limit clock does not affect any stage's result). */
  function SiliconFlowStages(config: ProviderConfig, server: Dict -> HttpReply, parseJson: string -> Option<Value>): Stages {
    Stages(
      p => Success(PreparePayload(config, p)),
      p => DispatchResult(server(p)),
      v => ParseResponse(config, v, parseJson))
  }

  /** The provider as the pipeline engine uses it: `invoke` on a fixed
      endpoint. */
  function AsAdapter(config: ProviderConfig, server: Dict -> HttpReply, parseJson: string -> Option<Value>): Pipeline.Adapter {
    (prompt: Pipeline.PromptUnit, document: Pipeline.Document, payload: Dict) =>
      Invoke(SiliconFlowStages(config, server, parseJson), prompt, document, payload)
  }

  /** Through the pipeline, a SiliconFlow call is
      `parse_response(dispatch(prepare_payload(payload)))`, and a failed
      request is returned as is without parsing anything. */
  lemma AdapterIsComposition(config: ProviderConfig, server: Dict -> HttpReply, parseJson: string -> Option<Value>,
                             prompt: Pipeline.PromptUnit, document: Pipeline.Document, payload: Dict)
    ensures var reply := server(PreparePayload(config, payload));
      var r := AsAdapter(config, server, parseJson)(prompt, document, payload);
      && (DispatchResult(reply).Failure? ==> r == DispatchResult(reply))
      && (DispatchResult(reply).Success? ==> r == ParseResponse(config, reply.body.value, parseJson))
  {
  }

  class SiliconFlowProvider {
    const config: ProviderConfig
    /** Clock reading after the last successful request; 0 before any. */
    var lastRequestTime: real

    constructor (config: ProviderConfig)
      ensures this.config == config && lastRequestTime == 0.0
    {
      this.config := config;
      lastRequestTime := 0.0;
    }

    /** `dispatch`: sleep to keep `sleep_seconds` between requests, then
        post. `now` is the clock before the call, `finished` the clock when
        the reply arrived. The time of the last request moves only when the
        reply has a non-error status. */
    method Dispatch(payload: Dict, server: Dict -> HttpReply, now: real, finished: real)
      returns (response: Result<Value, Error>, waited: real)
      modifies this
      ensures waited == RateLimitWait(config.sleepSeconds, now, old(lastRequestTime))
      ensures response == DispatchResult(server(payload))
      ensures lastRequestTime == if StatusOk(server(payload)) then finished else old(lastRequestTime)
    {
      waited := 0.0;
      if config.sleepSeconds > 0.0 {
        var elapsed := now - lastRequestTime;
        if elapsed < config.sleepSeconds {
          waited := config.sleepSeconds - elapsed;
        }
      }
      var reply := server(payload);
      if reply.RequestFailed? {
        response := Failure(Error(RuntimeError, REQUEST_FAILED + reply.reason));
      } else if 400 <= reply.status < 600 {
        response := Failure(Error(RuntimeError, REQUEST_FAILED + "HTTP error status"));
      } else {
        lastRequestTime := finished;
        if reply.body.None? {
          response := Failure(Error(RuntimeError, REQUEST_FAILED + "invalid JSON body"));
        } else {
          response := Success(reply.body.value);
        }
      }
    }

    /** `invoke`: the composition of `ProviderBase.Invoke` over the three
        stages, with the clock updated by the dispatch stage. */
    method Invoke<P, D>(prompt: P, document: D, payload: Dict, server: Dict -> HttpReply,
                        now: real, finished: real, parseJson: string -> Option<Value>)
      returns (r: Result<Value, Error>)
      modifies this
      ensures r == ProviderBase.Invoke(SiliconFlowStages(config, server, parseJson), prompt, document, payload)
      ensures lastRequestTime ==
        if StatusOk(server(PreparePayload(config, payload))) then finished else old(lastRequestTime)
    {
      var prepared := PreparePayload(config, payload);
      var response, _ := Dispatch(prepared, server, now, finished);
      if response.Failure? {
        return Failure(response.error);
      }
      r := ParseResponse(config, response.value, parseJson);
    }
  }
}
