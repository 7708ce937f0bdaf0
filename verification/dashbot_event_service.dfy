/** The event service of the analytics provider: the payload of a custom
    event and the outcome of posting it. The HTTP client is not modelled;
    what it reports back is a parameter. */
module DashbotEventService {
  import opened Js
  import opened PathAccessor
  import opened RequestAccessors

  /** The tracking parameters as `buildEvent` uses them: a string is wrapped
      as the `data` entry of an object. */
  function WrapParams(params: Json): (r: Json)
    ensures params.Str? ==> r == Obj(map["data" := params])
    ensures !params.Str? ==> r == params
  {
    if params.Str? then Obj(map["data" := params]) else params
  }

  /** `Object.assign({sessionId}, params || {})`: the session id, overlaid
      with the enumerable entries of the parameters. */
  function ExtraInfo(sessionId: Json, params: Json): (r: map<string, Json>)
    ensures params.Str? ==> r == map["sessionId" := sessionId, "data" := params]
    ensures !Truthy(params) && !params.Str? ==> r == map["sessionId" := sessionId]
    ensures params.Obj? ==> r.Keys == {"sessionId"} + params.fields.Keys
    ensures params.Obj? ==> forall k :: k in params.fields ==> r[k] == params.fields[k]
    ensures "sessionId" in r
    ensures "sessionId" !in Enumerable(WrapParams(params)) ==> r["sessionId"] == sessionId
  {
    var wrapped := WrapParams(params);
    map["sessionId" := sessionId] + Enumerable(if Truthy(wrapped) then wrapped else Obj(map[]))
  }

  /** The session and user ids `buildEvent` reads, with `null` fallbacks. */
  function EventSessionId(handlerInput: Json): Json {
    GetSessionId(handlerInput, Null)
  }

  function EventUserId(handlerInput: Json): Json {
    GetUserId(handlerInput, Null)
  }

  /** The event object itself. */
  function EventObject(name: Json, userId: Json, extraInfo: map<string, Json>): (r: Json)
    ensures r.Obj? && r.fields.Keys == {"name", "type", "userId", "extraInfo"}
    ensures r.fields["name"] == name && r.fields["type"] == Str("customEvent")
    ensures r.fields["userId"] == userId && r.fields["extraInfo"] == Obj(extraInfo)
  {
    Obj(map["name" := name, "type" := Str("customEvent"), "userId" := userId, "extraInfo" := Obj(extraInfo)])
  }

  /** `dashbotUtils.buildEvent`: `null` unless the session id, the event name
      and the user id are all truthy; otherwise an object with exactly the
      name, the type `customEvent`, the user id and the extra information. */
  function BuildEvent(handlerInput: Json, trackingEvent: Json, trackingParams: Json): (r: Json)
    ensures (r == Null) <==>
      !(Truthy(EventSessionId(handlerInput)) && Truthy(trackingEvent) && Truthy(EventUserId(handlerInput)))
    ensures r != Null ==> r.Obj? && r.fields.Keys == {"name", "type", "userId", "extraInfo"}
    ensures r != Null ==>
      && r.fields["name"] == trackingEvent
      && r.fields["type"] == Str("customEvent")
      && r.fields["userId"] == EventUserId(handlerInput)
      && r.fields["extraInfo"] == Obj(ExtraInfo(EventSessionId(handlerInput), trackingParams))
  {
    var sessionId := EventSessionId(handlerInput);
    var userId := EventUserId(handlerInput);
    if Truthy(sessionId) && Truthy(trackingEvent) && Truthy(userId) then
      EventObject(trackingEvent, userId, ExtraInfo(sessionId, trackingParams))
    else Null
  }

  /** A parameters object that carries its own `sessionId` replaces the
      session id in the extra information. */
  lemma ParamsSessionIdWins(sessionId: Json, m: map<string, Json>)
    requires "sessionId" in m
    ensures ExtraInfo(sessionId, Obj(m))["sessionId"] == m["sessionId"]
  {
  }

  /** The configuration of `send`: the API key from the environment, the
      event URL, the status code that counts as success and the three error
      messages. */
  datatype DashbotConfig = DashbotConfig(
    apiKey: Json,
    url: string,
    okStatus: Json,
    httpError: string,
    apiError: string,
    notAuthorized: string)

  /** What the HTTP client reports: a transport error, or a response and its
      body. */
  datatype HttpOutcome = TransportError | Response(response: Json, body: Json)

  /** What `send` does: the body it posts, if it posts, and how the returned
      promise settles. */
  datatype Delivery = Delivery(posted: Option<Json>, outcome: Result<Json>)

  /** The guard of `send`: an API key, a URL and an event body. */
  predicate Authorised(handlerInput: Json, trackingEvent: Json, trackingParams: Json, cfg: DashbotConfig) {
    Truthy(cfg.apiKey) && cfg.url != "" && Truthy(BuildEvent(handlerInput, trackingEvent, trackingParams))
  }

  /** The settlement of a post: a transport error rejects with the HTTP
      error, a status other than success with the API error, and otherwise
      the promise resolves with the body. */
  function Settle(http: HttpOutcome, cfg: DashbotConfig): (r: Result<Json>)
    ensures http.TransportError? ==> r == Thrown(Error(cfg.httpError))
    ensures http.Response? && FieldOr(http.response, "statusCode", Bool(false)) != cfg.okStatus ==>
      r == Thrown(Error(cfg.apiError))
    ensures http.Response? && FieldOr(http.response, "statusCode", Bool(false)) == cfg.okStatus ==>
      r == Ok(http.body)
  {
    match http
    case TransportError => Thrown(Error(cfg.httpError))
    case Response(response, body) =>
      ReadStatusCode(response);
      if Get("statusCode", response, Undefined) != cfg.okStatus then Thrown(Error(cfg.apiError))
      else Ok(body)
  }

  lemma ReadStatusCode(response: Json)
    ensures Get("statusCode", response, Undefined) == FieldOr(response, "statusCode", Bool(false))
  {
    GetField("statusCode", response, Undefined);
  }

  /** `dashbotEventService.send` as written: without key, URL or body it
      does not post, and the rejection names the undeclared `e`, which
      throws a `ReferenceError` inside the promise executor. */
  function SendAsWritten(handlerInput: Json, trackingEvent: Json, trackingParams: Json,
                         cfg: DashbotConfig, http: HttpOutcome): (r: Delivery)
    ensures r.posted.Some? <==> Authorised(handlerInput, trackingEvent, trackingParams, cfg)
    ensures r.posted.Some? ==> r.posted.value == BuildEvent(handlerInput, trackingEvent, trackingParams)
    ensures r.posted.None? ==> r.outcome == Thrown(ReferenceError)
    ensures r.posted.Some? ==> r.outcome == Settle(http, cfg)
  {
    var body := BuildEvent(handlerInput, trackingEvent, trackingParams);
    if Truthy(cfg.apiKey) && cfg.url != "" && Truthy(body) then Delivery(Some(body), Settle(http, cfg))
    else Delivery(None, Thrown(ReferenceError))
  }

  /** `send` with the evidently intended rejection: the not-authorised
      error. */
  function Send(handlerInput: Json, trackingEvent: Json, trackingParams: Json,
                cfg: DashbotConfig, http: HttpOutcome): (r: Delivery)
    ensures r.posted.Some? <==> Authorised(handlerInput, trackingEvent, trackingParams, cfg)
    ensures r.posted.Some? ==> r.posted.value == BuildEvent(handlerInput, trackingEvent, trackingParams)
    ensures r.posted.None? ==> r.outcome == Thrown(Error(cfg.notAuthorized))
    ensures r.posted.Some? ==> r.outcome == Settle(http, cfg)
  {
    var body := BuildEvent(handlerInput, trackingEvent, trackingParams);
    if Truthy(cfg.apiKey) && cfg.url != "" && Truthy(body) then Delivery(Some(body), Settle(http, cfg))
    else Delivery(None, Thrown(Error(cfg.notAuthorized)))
  }

  /** The promise resolves only after a post whose response has the success
      status, and then with the response body; the three ways to fail are
      told apart by their errors as long as the messages differ. */
  lemma SendResolvesOnlyOnSuccess(handlerInput: Json, trackingEvent: Json, trackingParams: Json,
                                  cfg: DashbotConfig, http: HttpOutcome)
    requires cfg.httpError != cfg.apiError && cfg.httpError != cfg.notAuthorized && cfg.apiError != cfg.notAuthorized
    ensures var d := Send(handlerInput, trackingEvent, trackingParams, cfg, http);
      && (d.outcome.Ok? <==>
            (d.posted.Some? && http.Response? && FieldOr(http.response, "statusCode", Bool(false)) == cfg.okStatus))
      && (d.outcome.Ok? ==> d.outcome.value == http.body)
      && (d.outcome == Thrown(Error(cfg.httpError)) <==> (d.posted.Some? && http.TransportError?))
      && (d.outcome == Thrown(Error(cfg.notAuthorized)) <==> d.posted.None?)
  {
  }

  /** Without an API key nothing is posted: as written the rejection is a
      `ReferenceError`, where the not-authorised error was meant. */
  lemma MissingKeyRejection(handlerInput: Json, trackingEvent: Json, trackingParams: Json,
                            cfg: DashbotConfig, http: HttpOutcome)
    requires !Truthy(cfg.apiKey)
    ensures SendAsWritten(handlerInput, trackingEvent, trackingParams, cfg, http) == Delivery(None, Thrown(ReferenceError))
    ensures Send(handlerInput, trackingEvent, trackingParams, cfg, http) == Delivery(None, Thrown(Error(cfg.notAuthorized)))
  {
  }

  /** The two versions agree whenever the post is made. */
  lemma SendAgreesWhenPosted(handlerInput: Json, trackingEvent: Json, trackingParams: Json,
                             cfg: DashbotConfig, http: HttpOutcome)
    requires Authorised(handlerInput, trackingEvent, trackingParams, cfg)
    ensures SendAsWritten(handlerInput, trackingEvent, trackingParams, cfg, http)
         == Send(handlerInput, trackingEvent, trackingParams, cfg, http)
  {
  }
}
