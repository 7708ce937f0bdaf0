/** The analytics handlers: whether request, response and custom events are
    handed to the provider, which intent name a response reports, and how
    the callbacks are invoked. The provider SDK, `isTrackableRequest` and
    `buildOutgoingIntent` are not part of this model: the provider's
    identity is configuration and the two helpers are function
    parameters. */
module AnalyticsHandlers {
  import opened Text
  import opened Js
  import opened PathAccessor
  import opened DashbotEventService

  /** The provider named by the environment, the two known providers and
      the request-type constants the classification compares against. */
  datatype Analytics = Analytics(
    provider: string,
    dashbot: string,
    voicelab: string,
    launchRequest: string,
    audioPlayer: string,          // the prefix of audio player requests
    playbackController: string,   // the prefix of playback controller requests
    sessionEndedRequest: string,
    intentRequest: string,
    sessionEnd: string,           // the name reported for a session end
    queueKey: string)

  /** `initProvider` creates the SDK handle unless the provider is the one
      that is not wired up. */
  predicate Initialised(cfg: Analytics) {
    cfg.provider != cfg.voicelab
  }

  /** One invocation of a callback, with its two arguments. */
  datatype Call = Call(err: Json, result: Json)

  /** `utils.errorCheckCallback`: a callback that is not a function is
      replaced by a function that does nothing, so no invocation is seen. */
  function Calls(cbIsFunction: bool, calls: seq<Call>): (r: seq<Call>)
    ensures cbIsFunction ==> r == calls
    ensures !cbIsFunction ==> r == []
  {
    if cbIsFunction then calls else []
  }

  /** The property read `v.k`, which throws on `undefined` and `null`. */
  function Member(v: Json, k: string): (r: Result<Json>)
    ensures r.Thrown? <==> (v.Undefined? || v.Null?)
    ensures r.Ok? ==> r.value == Prop(v, k)
  {
    if v.Undefined? || v.Null? then Thrown(TypeError) else Ok(Prop(v, k))
  }

  // ------------------------------------------------------- sendRequestTracking

  /** What `sendRequestTracking` does: the event it hands to the provider's
      incoming log, if any, and the callback invocations. */
  datatype RequestRun = RequestRun(logged: Option<Json>, calls: seq<Call>)

  /** `analyticsHandlers.sendRequestTracking`: the event is logged when the
      provider is set up, the event is truthy and the provider is the
      analytics provider; the callback is invoked once, without arguments,
      on both branches. */
  function SendRequestTracking(event: Json, cbIsFunction: bool, cfg: Analytics): (r: RequestRun)
    ensures r.logged.Some? <==> (Initialised(cfg) && Truthy(event) && cfg.provider == cfg.dashbot)
    ensures r.logged.Some? ==> r.logged.value == event
    ensures r.calls == Calls(cbIsFunction, [Call(Undefined, Undefined)])
  {
    if Initialised(cfg) && Truthy(event) && cfg.provider == cfg.dashbot then
      RequestRun(Some(event), Calls(cbIsFunction, [Call(Undefined, Undefined)]))
    else RequestRun(None, Calls(cbIsFunction, [Call(Undefined, Undefined)]))
  }

  // --------------------------------------------- the reported intent name

  const RequestTypePath: seq<string> := ["event", "request", "type"]
  const StatePath: seq<string> := ["handler", "state"]
  const EventLocalePath: seq<string> := ["event", "request", "locale"]
  const IntentPath: seq<string> := ["event", "request", "intent"]
  const EventIntentNamePath: seq<string> := ["event", "request", "intent", "name"]
  const SlotsPath: seq<string> := ["event", "request", "intent", "slots"]

  lemma ReadRequestType(ctx: Json)
    ensures Get("event.request.type", ctx, Str("")) == PathOr(RequestTypePath, ctx, Str(""))
  {
    assert "event.request.type" == Join(RequestTypePath, '.');
    GetJoined(RequestTypePath, ctx, Str(""));
  }

  lemma ReadState(ctx: Json)
    ensures Get("handler.state", ctx, Str("")) == PathOr(StatePath, ctx, Str(""))
  {
    assert "handler.state" == Join(StatePath, '.');
    GetJoined(StatePath, ctx, Str(""));
  }

  lemma ReadLocale(ctx: Json)
    ensures Get("event.request.locale", ctx, Str("")) == PathOr(EventLocalePath, ctx, Str(""))
  {
    assert "event.request.locale" == Join(EventLocalePath, '.');
    GetJoined(EventLocalePath, ctx, Str(""));
  }

  lemma ReadIntentName(ctx: Json)
    ensures Get("event.request.intent.name", ctx, Str("")) == PathOr(EventIntentNamePath, ctx, Str(""))
  {
    assert "event.request.intent.name" == Join(EventIntentNamePath, '.');
    GetJoined(EventIntentNamePath, ctx, Str(""));
  }

  lemma ReadSlots(ctx: Json)
    ensures Get("event.request.intent.slots", ctx, Obj(map[])) == PathOr(SlotsPath, ctx, Obj(map[]))
  {
    assert "event.request.intent.slots" == Join(SlotsPath, '.');
    GetJoined(SlotsPath, ctx, Obj(map[]));
  }

  /** The metadata of a response: the handler state, the slots and the
      locale. */
  datatype Metadata = Metadata(state: Json, slots: Json, locale: Json)

  /** The intent name and metadata a response reports. */
  datatype Report = Report(intentName: Json, metadata: Metadata)

  /** `==` between the request type and a string constant: an array is
      compared through its string form. */
  predicate LooselyEquals(v: Json, s: string) {
    (v.Str? && v.s == s) || (v.Arr? && ToJsString(v) == s)
  }

  /** The first test of the classification: the launch request, or a type
      that starts with one of the two prefixes (`indexOf` is 0). The
      `indexOf` calls throw on anything but a string or an array. */
  function ReportsType(requestType: Json, cfg: Analytics): (r: Result<bool>)
    ensures requestType == Str(cfg.launchRequest) ==> r == Ok(true)
    ensures requestType.Str? ==>
      r == Ok(requestType.s == cfg.launchRequest || StartsWith(requestType.s, cfg.audioPlayer)
              || StartsWith(requestType.s, cfg.playbackController))
    ensures r.Thrown? <==> (requestType != Str(cfg.launchRequest) && !requestType.Str? && !requestType.Arr?)
  {
    PrefixTests(requestType, cfg);
    if requestType == Str(cfg.launchRequest) then Ok(true)
    else
      var audio :- IndexOf(requestType, Str(cfg.audioPlayer));
      if audio == 0 then Ok(true)
      else
        var playback :- IndexOf(requestType, Str(cfg.playbackController));
        Ok(playback == 0)
  }

  lemma PrefixTests(requestType: Json, cfg: Analytics)
    ensures requestType.Str? ==>
      && (IndexOf(requestType, Str(cfg.audioPlayer)) == Ok(0) <==> StartsWith(requestType.s, cfg.audioPlayer))
      && (IndexOf(requestType, Str(cfg.playbackController)) == Ok(0) <==> StartsWith(requestType.s, cfg.playbackController))
  {
    if requestType.Str? {
      IndexOfZeroIsPrefix(requestType.s, cfg.audioPlayer);
      IndexOfZeroIsPrefix(requestType.s, cfg.playbackController);
    }
  }

  /** The classification of `sendResponseTracking`: the request type for a
      launch or a prefixed type, the session-end name for a session end, the
      intent's name and slots for an intent request with an intent, and
      `""` otherwise. Reading `this.event.request.intent` throws when the
      chain is missing. The `get`s of dotted paths are written on their
      segments (`ReadRequestType`, `ReadState`, `ReadLocale`,
      `ReadIntentName`, `ReadSlots`). */
  function ReportIntent(ctx: Json, cfg: Analytics): (r: Result<Report>)
    ensures r.Ok? ==> r.value.metadata.state == PathOr(StatePath, ctx, Str(""))
    ensures r.Ok? ==> r.value.metadata.locale == PathOr(EventLocalePath, ctx, Str(""))
    ensures ReportsType(PathOr(RequestTypePath, ctx, Str("")), cfg).Thrown? ==> r == Thrown(TypeError)
  {
    var requestType := PathOr(RequestTypePath, ctx, Str(""));
    var metadata := Metadata(PathOr(StatePath, ctx, Str("")), Null, PathOr(EventLocalePath, ctx, Str("")));
    var typed :- ReportsType(requestType, cfg);
    if typed then Ok(Report(requestType, metadata))
    else if requestType == Str(cfg.sessionEndedRequest) then Ok(Report(Str(cfg.sessionEnd), metadata))
    else if LooselyEquals(requestType, cfg.intentRequest) then
      var event :- Member(ctx, "event");
      var request :- Member(event, "request");
      var intent :- Member(request, "intent");
      if Truthy(intent) then
        Ok(Report(PathOr(EventIntentNamePath, ctx, Str("")),
                  metadata.(slots := PathOr(SlotsPath, ctx, Obj(map[])))))
      else Ok(Report(Str(""), metadata))
    else Ok(Report(Str(""), metadata))
  }

  /** A request type that was found makes the chain `this.event.request`
      readable, and the intent read is the path read. */
  lemma FoundTypeChain(ctx: Json)
    requires Lookup(RequestTypePath, ctx).Some?
    ensures Member(ctx, "event").Ok? && Member(Prop(ctx, "event"), "request").Ok?
    ensures Member(Prop(Prop(ctx, "event"), "request"), "intent").Ok?
    ensures Truthy(Prop(Prop(Prop(ctx, "event"), "request"), "intent")) <==>
      (Lookup(IntentPath, ctx).Some? && Truthy(Lookup(IntentPath, ctx).value))
  {
    var event := Prop(ctx, "event");
    assert Lookup(RequestTypePath, ctx) == Lookup(["request", "type"], event);
    assert Lookup(IntentPath, ctx) == Lookup(["request", "intent"], event);
    var request := Prop(event, "request");
    assert Lookup(["request", "type"], event) == Lookup(["type"], request);
    assert Lookup(["request", "intent"], event) == Lookup(["intent"], request);
  }

  /** For a string request type and non-empty constants, the report is:
      the type itself for a launch or a prefixed type, the session-end name
      for a session end, the intent's name with its slots in the metadata
      for an intent request that has an intent, and `""` with `null` slots
      for anything else. */
  lemma ReportOfStringType(ctx: Json, cfg: Analytics)
    requires PathOr(RequestTypePath, ctx, Str("")).Str?
    requires cfg.intentRequest != ""
    ensures var t := PathOr(RequestTypePath, ctx, Str("")).s;
      var r := ReportIntent(ctx, cfg);
      && r.Ok?
      && (if t == cfg.launchRequest || StartsWith(t, cfg.audioPlayer) || StartsWith(t, cfg.playbackController) then
            r.value.intentName == Str(t) && r.value.metadata.slots == Null
          else if t == cfg.sessionEndedRequest then
            r.value.intentName == Str(cfg.sessionEnd) && r.value.metadata.slots == Null
          else if t == cfg.intentRequest && Lookup(IntentPath, ctx).Some? && Truthy(Lookup(IntentPath, ctx).value) then
            r.value.intentName == PathOr(EventIntentNamePath, ctx, Str(""))
            && r.value.metadata.slots == PathOr(SlotsPath, ctx, Obj(map[]))
          else
            r.value.intentName == Str("") && r.value.metadata.slots == Null)
  {
    var t := PathOr(RequestTypePath, ctx, Str("")).s;
    if t == cfg.intentRequest {
      FoundTypeChain(ctx);
    }
  }

  /** A request type that is neither a string nor an array nor the launch
      type makes the classification throw. */
  lemma ReportOfOddType(ctx: Json, cfg: Analytics)
    requires var t := PathOr(RequestTypePath, ctx, Str("")); !t.Str? && !t.Arr?
    ensures ReportIntent(ctx, cfg) == Thrown(TypeError)
  {
  }

  // ------------------------------------------------------ sendResponseTracking

  /** What the provider's outgoing log receives: the event and the response
      object. */
  datatype Logged = Logged(event: Json, responseObj: map<string, Json>)

  /** What `sendResponseTracking` does: its report, the outgoing log entry
      if any, and the callback invocations. */
  datatype Tracking = Tracking(report: Report, logged: Option<Logged>, calls: seq<Call>)

  /** The response object `get("_responseObject", this.response, {})`
      reads. */
  function ResponseSource(response: Json): Json {
    FieldOr(response, "_responseObject", Obj(map[]))
  }

  lemma ReadResponseObject(response: Json)
    ensures Get("_responseObject", response, Obj(map[])) == ResponseSource(response)
  {
    GetField("_responseObject", response, Obj(map[]));
  }

  /** `Object.assign({}, source)` with the outgoing intent added when it is
      truthy: a copy, so the response object itself is left alone. */
  function OutgoingObject(source: Json, outgoingIntent: Json): (r: map<string, Json>)
    ensures forall k :: k != "intent" ==>
      (k in r <==> k in Enumerable(source)) && (k in r ==> r[k] == Enumerable(source)[k])
    ensures Truthy(outgoingIntent) ==> "intent" in r && r["intent"] == outgoingIntent
    ensures !Truthy(outgoingIntent) ==> r == Enumerable(source)
  {
    var copy := Enumerable(source);
    if Truthy(outgoingIntent) then copy["intent" := outgoingIntent] else copy
  }

  /** The test of the trackable branch. */
  predicate Tracks(ctx: Json, cfg: Analytics, isTrackable: Json -> bool) {
    cfg.provider == cfg.dashbot && isTrackable(Prop(ctx, "event"))
  }

  /** `analyticsHandlers.sendResponseTracking`, with `this` as `ctx`: after
      the classification, a trackable response logs a copy of the response
      object with the outgoing intent; the callback is invoked once, without
      arguments, on both branches. `data` is read but not used. The
      response object is read as `ReadResponseObject` shows. */
  function SendResponseTracking(ctx: Json, data: Json, options: Json, cbIsFunction: bool, cfg: Analytics,
                                isTrackable: Json -> bool, buildOutgoingIntent: Json -> Json): (r: Result<Tracking>)
    ensures r.Ok? ==> Ok(r.value.report) == ReportIntent(ctx, cfg)
    ensures r.Ok? ==> r.value.calls == Calls(cbIsFunction, [Call(Undefined, Undefined)])
    ensures r.Ok? ==> (r.value.logged.Some? <==> Tracks(ctx, cfg, isTrackable))
    ensures r.Ok? && r.value.logged.Some? ==>
      r.value.logged.value == Logged(Prop(ctx, "event"),
                                     OutgoingObject(ResponseSource(Prop(ctx, "response")), buildOutgoingIntent(options)))
    ensures ReportIntent(ctx, cfg).Thrown? ==> r == Thrown(ReportIntent(ctx, cfg).error)
    ensures (ReportIntent(ctx, cfg).Ok? && (ctx.Undefined? || ctx.Null?) && cfg.provider == cfg.dashbot) ==>
      r == Thrown(TypeError)
    ensures (ReportIntent(ctx, cfg).Ok? && !(ctx.Undefined? || ctx.Null?) && !Tracks(ctx, cfg, isTrackable)) ==> r.Ok?
    ensures (ReportIntent(ctx, cfg).Ok? && !(ctx.Undefined? || ctx.Null?) && Tracks(ctx, cfg, isTrackable)) ==>
      (r.Ok? <==> Initialised(cfg))
  {
    var report :- ReportIntent(ctx, cfg);
    var trackable :-
      if cfg.provider == cfg.dashbot then
        var event :- Member(ctx, "event");
        Ok(isTrackable(event))
      else Ok(false);
    if trackable then
      // `this.event` was read, so `this.response` cannot throw
      var response := Prop(ctx, "response");
      var responseObj := OutgoingObject(ResponseSource(response), buildOutgoingIntent(options));
      if !Initialised(cfg) then Thrown(TypeError)
      else
        Ok(Tracking(report, Some(Logged(Prop(ctx, "event"), responseObj)),
                    Calls(cbIsFunction, [Call(Undefined, Undefined)])))
    else Ok(Tracking(report, None, Calls(cbIsFunction, [Call(Undefined, Undefined)])))
  }

  // ------------------------------------------------------------- queueTracking

  /** The hook `queueTracking` registers, with what it closes over. */
  datatype Hook = TrackingHook(data: Json, options: Json)

  /** A registration with the before-response queue. */
  datatype Registered = Registered(key: string, hook: Hook)

  /** `analyticsHandlers.queueTracking`: one hook under the queue key. */
  function QueueTracking(queue: seq<Registered>, data: Json, options: Json, cfg: Analytics): (r: seq<Registered>)
    ensures |r| == |queue| + 1 && r[..|queue|] == queue
    ensures r[|queue|] == Registered(cfg.queueKey, TrackingHook(data, options))
  {
    queue + [Registered(cfg.queueKey, TrackingHook(data, options))]
  }

  /** What the hook does when the queue runs it. */
  datatype HookRun = NotTracked(call: Call) | Delegated(tracking: Tracking)

  /** `track: false` among the options. */
  predicate TrackingOff(options: Json) {
    Truthy(options) && Own(options, "track") == Some(Bool(false))
  }

  lemma ReadTrack(options: Json)
    ensures (Get("track", options, Bool(true)) == Bool(false)) == TrackingOff(options)
  {
    GetField("track", options, Bool(true));
  }

  /** The hook: with `track: false` it answers `(null, "NotTracked")`;
      otherwise, `track` being absent counting as tracked, it runs
      `sendResponseTracking` with its own context and the queue's callback,
      which is a function. The `get` of `track` is the test `ReadTrack`
      shows. */
  function RunHook(hook: Hook, ctx: Json, cfg: Analytics,
                   isTrackable: Json -> bool, buildOutgoingIntent: Json -> Json): (r: Result<HookRun>)
    ensures TrackingOff(hook.options) <==> r == Ok(NotTracked(Call(Null, Str("NotTracked"))))
    ensures !TrackingOff(hook.options) ==>
      (r.Ok? <==> SendResponseTracking(ctx, hook.data, hook.options, true, cfg, isTrackable, buildOutgoingIntent).Ok?)
    ensures !TrackingOff(hook.options) && r.Ok? ==>
      r.value.Delegated? && Ok(r.value.tracking) == SendResponseTracking(ctx, hook.data, hook.options, true, cfg, isTrackable, buildOutgoingIntent)
  {
    if TrackingOff(hook.options) then Ok(NotTracked(Call(Null, Str("NotTracked"))))
    else
      var tracking :- SendResponseTracking(ctx, hook.data, hook.options, true, cfg, isTrackable, buildOutgoingIntent);
      Ok(Delegated(tracking))
  }

  /** Whichever way the hook goes, the queue's callback is invoked exactly
      once. */
  lemma HookCallsBackOnce(hook: Hook, ctx: Json, cfg: Analytics,
                          isTrackable: Json -> bool, buildOutgoingIntent: Json -> Json)
    requires RunHook(hook, ctx, cfg, isTrackable, buildOutgoingIntent).Ok?
    ensures var run := RunHook(hook, ctx, cfg, isTrackable, buildOutgoingIntent).value;
      run.NotTracked? || |run.tracking.calls| == 1
  {
  }

  // ------------------------------------------------------------------ sendEvent

  /** What `sendEvent` does: the delivery made through the event service, if
      any, and the callback invocations. */
  datatype EventRun = EventRun(delivery: Option<Delivery>, calls: seq<Call>)

  /** `analyticsHandlers.sendEvent`: the event goes to the event service when
      the provider is the analytics provider, the request is trackable and
      the event has a name. The callback is then passed as a fourth argument
      that `send` does not take, so it is never invoked; otherwise it is
      invoked once with `("Not sent", null)`. The service is `send` as
      written, so a delivery that is not posted rejects with a
      `ReferenceError`; a posted one is the same as with the corrected
      `send`. */
  function SendEvent(event: Json, trackingEvent: Json, trackingParams: Json, cbIsFunction: bool,
                     cfg: Analytics, isTrackable: Json -> bool, dashbot: DashbotConfig, http: HttpOutcome): (r: EventRun)
    ensures r.delivery.Some? <==> (cfg.provider == cfg.dashbot && isTrackable(event) && Truthy(trackingEvent))
    ensures r.delivery.Some? ==>
      (r.delivery.value.posted.Some? <==> Authorised(event, trackingEvent, trackingParams, dashbot))
    ensures r.delivery.Some? && r.delivery.value.posted.None? ==> r.delivery.value.outcome == Thrown(ReferenceError)
    ensures r.delivery.Some? && r.delivery.value.posted.Some? ==>
      r.delivery.value == Send(event, trackingEvent, trackingParams, dashbot, http)
    ensures r.delivery.Some? ==> r.calls == []
    ensures r.delivery.None? ==> r.calls == Calls(cbIsFunction, [Call(Str("Not sent"), Null)])
  {
    if cfg.provider == cfg.dashbot && isTrackable(event) && Truthy(trackingEvent) then
      var delivery := SendAsWritten(event, trackingEvent, trackingParams, dashbot, http);
      EventRun(Some(delivery), [])
    else EventRun(None, Calls(cbIsFunction, [Call(Str("Not sent"), Null)]))
  }

  /** A function callback hears from `sendEvent` exactly when nothing was
      sent. */
  lemma SendEventCallsBackIffNotSent(event: Json, trackingEvent: Json, trackingParams: Json,
                                     cfg: Analytics, isTrackable: Json -> bool, dashbot: DashbotConfig, http: HttpOutcome)
    ensures var r := SendEvent(event, trackingEvent, trackingParams, true, cfg, isTrackable, dashbot, http);
      (r.calls != []) <==> r.delivery.None?
  {
  }

  /** `analyticsHandlers.sendSponsorEvent`: a named custom event whose
      parameters are the campaign id and the ad label. */
  function SendSponsorEvent(event: Json, campaignId: Json, adLabel: Json, cbIsFunction: bool,
                            cfg: Analytics, isTrackable: Json -> bool, dashbot: DashbotConfig, http: HttpOutcome): (r: EventRun)
    ensures r.delivery.Some? <==> (cfg.provider == cfg.dashbot && isTrackable(event))
    ensures r == SendEvent(event, Str("SponsorPlayedEvent"), Obj(map["campaignId" := campaignId, "label" := adLabel]),
                           cbIsFunction, cfg, isTrackable, dashbot, http)
  {
    SendEvent(event, Str("SponsorPlayedEvent"), Obj(map["campaignId" := campaignId, "label" := adLabel]),
              cbIsFunction, cfg, isTrackable, dashbot, http)
  }

  /** What `sendEvent` posts is the built event, and it is truthy. */
  lemma SentEventIsBuilt(event: Json, trackingEvent: Json, trackingParams: Json, cbIsFunction: bool,
                         cfg: Analytics, isTrackable: Json -> bool, dashbot: DashbotConfig, http: HttpOutcome)
    requires SendEvent(event, trackingEvent, trackingParams, cbIsFunction, cfg, isTrackable, dashbot, http).delivery.Some?
    requires SendEvent(event, trackingEvent, trackingParams, cbIsFunction, cfg, isTrackable, dashbot, http).delivery.value.posted.Some?
    ensures var body := SendEvent(event, trackingEvent, trackingParams, cbIsFunction, cfg, isTrackable, dashbot, http)
                          .delivery.value.posted.value;
      body == BuildEvent(event, trackingEvent, trackingParams) && Truthy(body)
  {
  }

  /** A built event carries every entry of an object of parameters in its
      extra information. */
  lemma EventCarriesParams(handlerInput: Json, trackingEvent: Json, params: map<string, Json>)
    requires Truthy(BuildEvent(handlerInput, trackingEvent, Obj(params)))
    ensures var body := BuildEvent(handlerInput, trackingEvent, Obj(params));
      && body.Obj? && body.fields["name"] == trackingEvent
      && body.fields["extraInfo"].Obj?
      && forall k :: k in params ==> k in body.fields["extraInfo"].fields && body.fields["extraInfo"].fields[k] == params[k]
  {
  }

  /** An event that `sendEvent` posts is named by the tracking event and
      carries every entry of an object of parameters in its extra
      information; for a sponsor event these are the campaign id and the
      label. */
  lemma SentEventCarriesParams(event: Json, trackingEvent: Json, params: map<string, Json>, cbIsFunction: bool,
                               cfg: Analytics, isTrackable: Json -> bool, dashbot: DashbotConfig, http: HttpOutcome)
    requires SendEvent(event, trackingEvent, Obj(params), cbIsFunction, cfg, isTrackable, dashbot, http).delivery.Some?
    requires SendEvent(event, trackingEvent, Obj(params), cbIsFunction, cfg, isTrackable, dashbot, http).delivery.value.posted.Some?
    ensures var body := SendEvent(event, trackingEvent, Obj(params), cbIsFunction, cfg, isTrackable, dashbot, http)
                          .delivery.value.posted.value;
      && body.Obj? && body.fields["name"] == trackingEvent
      && body.fields["extraInfo"].Obj?
      && forall k :: k in params ==> k in body.fields["extraInfo"].fields && body.fields["extraInfo"].fields[k] == params[k]
  {
    SentEventIsBuilt(event, trackingEvent, Obj(params), cbIsFunction, cfg, isTrackable, dashbot, http);
    EventCarriesParams(event, trackingEvent, params);
  }
}
