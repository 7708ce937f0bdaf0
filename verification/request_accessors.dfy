/** The request accessors of the utilities module: thin readers of fixed
    paths in the request envelope, each with its own fallback, and the
    resolution lookup `getResolvedValues`. */
module RequestAccessors {
  import opened Text
  import opened Js
  import opened PathAccessor

  // The fixed paths of the accessors, as their segments; the key `get`
  // receives is their dotted join.
  const ApiAccessTokenPath: seq<string> := ["requestEnvelope", "context", "System", "apiAccessToken"]
  const ApiEndpointPath: seq<string> := ["requestEnvelope", "context", "System", "apiEndpoint"]
  const AuthTokenPath: seq<string> := ["requestEnvelope", "session", "user", "accessToken"]
  const LocalePath: seq<string> := ["requestEnvelope", "request", "locale"]
  const IntentNamePath: seq<string> := ["requestEnvelope", "request", "intent", "name"]
  const IntentSlotsPath: seq<string> := ["requestEnvelope", "request", "intent", "slots"]
  const SessionIdPath: seq<string> := ["requestEnvelope", "session", "sessionId"]
  const UserIdPath: seq<string> := ["context", "System", "user", "userId"]
  const NewSessionPath: seq<string> := ["requestEnvelope", "session", "new"]
  const DefaultLocale: string := "en-US"

  /** The segments of a path have no dots and the last is not empty. */
  predicate PlainSegments(path: seq<string>) {
    |path| >= 1 && path[|path| - 1] != "" && forall i :: 0 <= i < |path| ==> '.' !in path[i]
  }

  lemma AccessorPathsPlain()
    ensures PlainSegments(ApiAccessTokenPath) && PlainSegments(ApiEndpointPath) && PlainSegments(AuthTokenPath)
    ensures PlainSegments(LocalePath) && PlainSegments(IntentNamePath) && PlainSegments(IntentSlotsPath)
    ensures PlainSegments(SessionIdPath) && PlainSegments(UserIdPath) && PlainSegments(NewSessionPath)
  {
    ContextPathsPlain();
    SessionPathsPlain();
    RequestPathsPlain();
  }

  lemma ContextPathsPlain()
    ensures PlainSegments(ApiAccessTokenPath) && PlainSegments(ApiEndpointPath) && PlainSegments(UserIdPath)
  {
  }

  lemma SessionPathsPlain()
    ensures PlainSegments(AuthTokenPath) && PlainSegments(SessionIdPath) && PlainSegments(NewSessionPath)
  {
  }

  lemma RequestPathsPlain()
    ensures PlainSegments(LocalePath) && PlainSegments(IntentNamePath) && PlainSegments(IntentSlotsPath)
  {
  }

  /** `get(path, handlerInput, fallback)` for one of the fixed paths. */
  function Read(path: seq<string>, handlerInput: Json, fallback: Json): (r: Json)
    requires PlainSegments(path)
    ensures r == (if Lookup(path, handlerInput).Some? then Lookup(path, handlerInput).value else DefaultFallback(fallback))
  {
    GetJoined(path, handlerInput, fallback);
    Get(Join(path, '.'), handlerInput, fallback)
  }

  /** The value a request carries at a dotted key, if any. */
  function At(key: string, handlerInput: Json): Option<Json> {
    Lookup(Split(key, '.'), handlerInput)
  }

  /** `utils.getApiAccessToken`: the token, or `null`. */
  function GetApiAccessToken(handlerInput: Json): (r: Json)
    ensures r == (if Lookup(ApiAccessTokenPath, handlerInput).Some? then Lookup(ApiAccessTokenPath, handlerInput).value else Null)
  {
    AccessorPathsPlain();
    Read(ApiAccessTokenPath, handlerInput, Null)
  }

  /** `utils.getApiEndpoint`: the endpoint, or `null`. */
  function GetApiEndpoint(handlerInput: Json): (r: Json)
    ensures r == (if Lookup(ApiEndpointPath, handlerInput).Some? then Lookup(ApiEndpointPath, handlerInput).value else Null)
  {
    AccessorPathsPlain();
    Read(ApiEndpointPath, handlerInput, Null)
  }

  /** `utils.getAuthToken`: the account-linking token, or `null`. */
  function GetAuthToken(handlerInput: Json): (r: Json)
    ensures r == (if Lookup(AuthTokenPath, handlerInput).Some? then Lookup(AuthTokenPath, handlerInput).value else Null)
  {
    AccessorPathsPlain();
    Read(AuthTokenPath, handlerInput, Null)
  }

  /** `utils.getLocale`: the request locale, defaulting to US English. */
  function GetLocale(handlerInput: Json): (r: Json)
    ensures !Truthy(handlerInput) ==> r == Str(DefaultLocale)
    ensures r == (if Lookup(LocalePath, handlerInput).Some? then Lookup(LocalePath, handlerInput).value else Str(DefaultLocale))
  {
    AccessorPathsPlain();
    if Truthy(handlerInput) then Read(LocalePath, handlerInput, Str(DefaultLocale)) else Str(DefaultLocale)
  }

  /** `utils.getRequestIntent`: the intent name, or `""`. */
  function GetRequestIntent(handlerInput: Json): (r: Json)
    ensures r == (if Lookup(IntentNamePath, handlerInput).Some? then Lookup(IntentNamePath, handlerInput).value else Str(""))
  {
    AccessorPathsPlain();
    Read(IntentNamePath, handlerInput, Str(""))
  }

  /** `utils.getRequestIntentSlots`: the slots, or `{}`. */
  function GetRequestIntentSlots(handlerInput: Json): (r: Json)
    ensures r == (if Lookup(IntentSlotsPath, handlerInput).Some? then Lookup(IntentSlotsPath, handlerInput).value else Obj(map[]))
  {
    AccessorPathsPlain();
    Read(IntentSlotsPath, handlerInput, Obj(map[]))
  }

  /** `fallback || ""`. */
  function OrEmpty(fallback: Json): Json {
    if Truthy(fallback) then fallback else Str("")
  }

  /** `utils.getSessionId`: the session id, or the fallback, or `""`. */
  function GetSessionId(handlerInput: Json, fallback: Json): (r: Json)
    ensures !Truthy(handlerInput) ==> r == OrEmpty(fallback)
    ensures r == (if Lookup(SessionIdPath, handlerInput).Some? then Lookup(SessionIdPath, handlerInput).value else OrEmpty(fallback))
  {
    AccessorPathsPlain();
    var fb := OrEmpty(fallback);
    if Truthy(handlerInput) then Read(SessionIdPath, handlerInput, fb) else fb
  }

  function SlotValuePath(slotName: string): string {
    "requestEnvelope.request.intent.slots." + slotName + ".value"
  }

  /** `utils.getSlotValue`: the value of the named slot; the fallback
      (`null` when not given) when there is no request, the name is not a
      string, or the slot has no value. */
  function GetSlotValue(handlerInput: Json, slotName: Json, fallback: Json): (r: Json)
    ensures !Truthy(handlerInput) || !slotName.Str? ==> r == (if fallback.Undefined? then Null else fallback)
    ensures Truthy(handlerInput) && slotName.Str? ==>
      r == (if At(SlotValuePath(slotName.s), handlerInput).Some? then At(SlotValuePath(slotName.s), handlerInput).value
            else if fallback.Undefined? then Null else fallback)
  {
    var fb := if fallback.Undefined? then Null else fallback;
    if Truthy(handlerInput) && slotName.Str? then Get(SlotValuePath(slotName.s), handlerInput, fb) else fb
  }

  /** `utils.getSupportedLocale`: the locale itself when the time-zone
      offset table has a truthy entry for it, otherwise the default locale.
      The table and the default are constants outside this model. `get`
      gives up before splitting when the locale or the table is falsy; past
      that, a non-string locale has no `split` method. */
  function GetSupportedLocale(locale: Json, offsets: Json, defaultLocale: Json): (r: Result<Json>)
    ensures !Truthy(locale) || !Truthy(offsets) ==> r == Ok(defaultLocale)
    ensures locale.Str? ==>
      r == Ok(if At(locale.s, offsets).Some? && Truthy(At(locale.s, offsets).value) then locale else defaultLocale)
    ensures Truthy(locale) && Truthy(offsets) && !locale.Str? ==> r == Thrown(TypeError)
  {
    if !Truthy(locale) || !Truthy(offsets) then Ok(defaultLocale)
    else if !locale.Str? then Thrown(TypeError)
    else if Truthy(Get(locale.s, offsets, Undefined)) then Ok(locale)
    else Ok(defaultLocale)
  }

  /** The object `getUserId` reads from: the request envelope when the event
      has a truthy one, the event itself otherwise. */
  function Envelope(event: Json): Json {
    if Truthy(event) && Truthy(Prop(event, "requestEnvelope")) then Prop(event, "requestEnvelope") else event
  }

  /** `utils.getUserId`: accepts either the handler input or the bare
      request envelope, and returns the user id, or the fallback, or `""`. */
  function GetUserId(event: Json, fallback: Json): (r: Json)
    ensures r == (if Lookup(UserIdPath, Envelope(event)).Some? then Lookup(UserIdPath, Envelope(event)).value
                  else OrEmpty(fallback))
  {
    AccessorPathsPlain();
    var fb := OrEmpty(fallback);
    var env := Envelope(event);
    if Truthy(env) then Read(UserIdPath, env, fb) else fb
  }

  /** `utils.isNewSession`: the `new` flag of the session, `false` when it
      is missing. */
  function IsNewSession(handlerInput: Json): (r: Json)
    ensures r == (if Lookup(NewSessionPath, handlerInput).Some? then Lookup(NewSessionPath, handlerInput).value else Bool(false))
  {
    AccessorPathsPlain();
    if Truthy(handlerInput) then Read(NewSessionPath, handlerInput, Undefined) else Bool(false)
  }

  // A request that carries a value at an accessor's path is read back by
  // that accessor.

  lemma GetApiAccessTokenReadsBack(v: Json)
    requires !v.Undefined?
    ensures GetApiAccessToken(Nest(ApiAccessTokenPath, v)) == v
  {
    LookupNest(ApiAccessTokenPath, v);
  }

  lemma GetApiEndpointReadsBack(v: Json)
    requires !v.Undefined?
    ensures GetApiEndpoint(Nest(ApiEndpointPath, v)) == v
  {
    LookupNest(ApiEndpointPath, v);
  }

  lemma GetAuthTokenReadsBack(v: Json)
    requires !v.Undefined?
    ensures GetAuthToken(Nest(AuthTokenPath, v)) == v
  {
    LookupNest(AuthTokenPath, v);
  }

  lemma GetLocaleReadsBack(v: Json)
    requires !v.Undefined?
    ensures GetLocale(Nest(LocalePath, v)) == v
  {
    LookupNest(LocalePath, v);
  }

  lemma GetRequestIntentReadsBack(v: Json)
    requires !v.Undefined?
    ensures GetRequestIntent(Nest(IntentNamePath, v)) == v
  {
    LookupNest(IntentNamePath, v);
  }

  lemma GetRequestIntentSlotsReadsBack(v: Json)
    requires !v.Undefined?
    ensures GetRequestIntentSlots(Nest(IntentSlotsPath, v)) == v
  {
    LookupNest(IntentSlotsPath, v);
  }

  lemma GetSessionIdReadsBack(v: Json, fallback: Json)
    requires !v.Undefined?
    ensures GetSessionId(Nest(SessionIdPath, v), fallback) == v
  {
    LookupNest(SessionIdPath, v);
  }

  lemma IsNewSessionReadsBack(v: Json)
    requires !v.Undefined?
    ensures IsNewSession(Nest(NewSessionPath, v)) == v
  {
    LookupNest(NewSessionPath, v);
  }

  lemma GetSlotValueReadsBack(v: Json, fallback: Json, slotName: string)
    requires !v.Undefined?
    ensures GetSlotValue(Nest(Split(SlotValuePath(slotName), '.'), v), Str(slotName), fallback) == v
  {
    GetNest(SlotValuePath(slotName), v, if fallback.Undefined? then Null else fallback);
  }

  /** Handing `getUserId` the handler input or the bare envelope it holds
      gives the same answer. */
  lemma GetUserIdUnwraps(env: Json, fallback: Json)
    requires Truthy(env) && !Truthy(Prop(env, "requestEnvelope"))
    ensures GetUserId(Obj(map["requestEnvelope" := env]), fallback) == GetUserId(env, fallback)
  {
    assert Prop(Obj(map["requestEnvelope" := env]), "requestEnvelope") == env;
  }

  /** A user id placed under `context` is read back, whatever the fallback:
      the object has no request envelope, so it is read directly. */
  lemma GetUserIdReadsBack(v: Json, fallback: Json)
    requires !v.Undefined?
    ensures GetUserId(Nest(UserIdPath, v), fallback) == v
  {
    var env := Nest(UserIdPath, v);
    assert env.fields.Keys == {"context"};
    assert Envelope(env) == env;
    LookupNest(UserIdPath, v);
  }

  // --------------------------------------------------------- getResolvedValues

  /** The constants the resolution lookup compares against, which live
      outside this model: the default authority prefix (followed by the
      skill id from the environment) and the success status code. */
  datatype Resolution = Resolution(defaultAuthority: string, successCode: string)

  /** The test for one resolution entry, as the condition is evaluated from
      left to right: its authority must include `needle` and the slot type,
      and its status code must be the success code. */
  function EntryMatches(auth: Json, needle: Json, slotType: Json, status: Json, code: string): Result<bool> {
    var a :- Includes(auth, needle);
    if !a then Ok(false)
    else
      var b :- Includes(auth, slotType);
      Ok(b && status == Str(code))
  }

  const ValueNamePath: seq<string> := ["value", "name"]
  const StatusCodePath: seq<string> := ["status", "code"]

  /** The reads of one resolution entry, each written as the walk `get`
      performs (`ReadAuthority`, `ReadEntryStatus`, `ReadValues` and
      `ReadValueName` relate them to `get`). */
  function EntryAuthority(e: Json): Json {
    FieldOr(e, "authority", Str(""))
  }

  function EntryStatus(e: Json): Json {
    PathOr(StatusCodePath, e, Str(""))
  }

  function EntryValues(e: Json): Json {
    FieldOr(e, "values", Arr([]))
  }

  function ValueName(v: Json): Json {
    PathOr(ValueNamePath, v, Str(""))
  }

  lemma ReadAuthority(e: Json)
    ensures Get("authority", e, Str("")) == EntryAuthority(e)
  {
    GetField("authority", e, Str(""));
  }

  lemma ReadValues(e: Json)
    ensures Get("values", e, Arr([])) == EntryValues(e)
  {
    GetField("values", e, Arr([]));
  }

  lemma ReadEntryStatus(e: Json)
    ensures Get("status.code", e, Str("")) == EntryStatus(e)
  {
    assert "status.code" == Join(StatusCodePath, '.');
    GetJoined(StatusCodePath, e, Str(""));
  }

  lemma ReadValueName(v: Json)
    ensures Get("value.name", v, Str("")) == ValueName(v)
  {
    assert "value.name" == Join(ValueNamePath, '.');
    GetJoined(ValueNamePath, v, Str(""));
  }

  /** `values.map(val => get("value.name", val, ""))`. */
  function ValueNames(values: Json): (r: Result<Json>)
    ensures values.Arr? ==> r.Ok? && r.value.Arr? && |r.value.items| == |values.items|
    ensures values.Arr? ==> forall i :: 0 <= i < |values.items| ==> r.value.items[i] == ValueName(values.items[i])
    ensures !values.Arr? ==> r == Thrown(TypeError)
  {
    if values.Arr? then
      Ok(Arr(seq(|values.items|, i requires 0 <= i < |values.items| => ValueName(values.items[i]))))
    else Thrown(TypeError)
  }

  /** The test of the loop on one entry. `authority` is `None` for the loop
      as written, where the entry's own authority is the needle. */
  function EntryHit(e: Json, authority: Option<Json>, slotType: Json, code: string): Result<bool> {
    var auth := EntryAuthority(e);
    EntryMatches(auth, if authority.Some? then authority.value else auth, slotType, EntryStatus(e), code)
  }

  /** The loop passes over every entry from `i` up to `j` (excluded). */
  predicate PassedOver(entries: seq<Json>, i: nat, j: nat, authority: Option<Json>, slotType: Json, code: string)
    requires i <= j <= |entries|
  {
    forall k :: i <= k < j ==> EntryHit(entries[k], authority, slotType, code) == Ok(false)
  }

  /** The loop over `resolutionsPerAuthority` from entry `i`: the names of
      the values of the first entry that passes the test, `[]` when none
      does, and the exception of the first test that throws. */
  function ResolvedFrom(entries: seq<Json>, i: nat, authority: Option<Json>, slotType: Json, code: string): (r: Result<Json>)
    requires i <= |entries|
    ensures PassedOver(entries, i, |entries|, authority, slotType, code) ==> r == Ok(Arr([]))
    ensures forall j :: (i <= j < |entries| && PassedOver(entries, i, j, authority, slotType, code)
      && EntryHit(entries[j], authority, slotType, code) == Ok(true)) ==> r == ValueNames(EntryValues(entries[j]))
    ensures forall j :: (i <= j < |entries| && PassedOver(entries, i, j, authority, slotType, code)
      && EntryHit(entries[j], authority, slotType, code).Thrown?) ==> r == Thrown(EntryHit(entries[j], authority, slotType, code).error)
    decreases |entries| - i
  {
    if i == |entries| then Ok(Arr([]))
    else
      var hit :- EntryHit(entries[i], authority, slotType, code);
      if hit then ValueNames(EntryValues(entries[i]))
      else ResolvedFrom(entries, i + 1, authority, slotType, code)
  }

  function ResolutionsPath(slotName: Json): string {
    "requestEnvelope.request.intent.slots." + ToJsString(slotName) + ".resolutions.resolutionsPerAuthority"
  }

  /** The resolutions of a slot: the array the loop runs over. */
  function Resolutions(handlerInput: Json, slotName: Json): Json {
    Get(ResolutionsPath(slotName), handlerInput, Null)
  }

  /** `utils.getResolvedValues` as written: the inner `authority` shadows the
      argument, so each entry is compared with its own authority and the
      argument plays no part. */
  function GetResolvedValuesAsWritten(handlerInput: Json, slotName: Json, slotType: Json, authority: Json, cfg: Resolution): (r: Result<Json>)
    ensures !(Truthy(handlerInput) && Truthy(slotName) && Truthy(slotType)) ==> r == Ok(Arr([]))
    ensures !Resolutions(handlerInput, slotName).Arr? ==> r == Ok(Arr([]))
    ensures Truthy(handlerInput) && Truthy(slotName) && Truthy(slotType) && Resolutions(handlerInput, slotName).Arr? ==>
      var es := Resolutions(handlerInput, slotName).items;
      && (PassedOver(es, 0, |es|, None, slotType, cfg.successCode) ==> r == Ok(Arr([])))
      && (forall j :: (0 <= j < |es| && PassedOver(es, 0, j, None, slotType, cfg.successCode)
            && EntryHit(es[j], None, slotType, cfg.successCode) == Ok(true)) ==> r == ValueNames(EntryValues(es[j])))
  {
    if Truthy(handlerInput) && Truthy(slotName) && Truthy(slotType) then
      var rpa := Resolutions(handlerInput, slotName);
      if rpa.Arr? then ResolvedFrom(rpa.items, 0, None, slotType, cfg.successCode) else Ok(Arr([]))
    else Ok(Arr([]))
  }

  /** The authority the corrected lookup asks for: the argument, or the
      default one. */
  function Wanted(authority: Json, cfg: Resolution): Json {
    if Truthy(authority) then authority else Str(cfg.defaultAuthority)
  }

  /** `utils.getResolvedValues` as intended: each entry's authority must
      include the requested authority, or the default one. */
  function GetResolvedValues(handlerInput: Json, slotName: Json, slotType: Json, authority: Json, cfg: Resolution): (r: Result<Json>)
    ensures !(Truthy(handlerInput) && Truthy(slotName) && Truthy(slotType)) ==> r == Ok(Arr([]))
    ensures !Resolutions(handlerInput, slotName).Arr? ==> r == Ok(Arr([]))
    ensures Truthy(handlerInput) && Truthy(slotName) && Truthy(slotType) && Resolutions(handlerInput, slotName).Arr? ==>
      var es := Resolutions(handlerInput, slotName).items;
      var w := Some(Wanted(authority, cfg));
      && (PassedOver(es, 0, |es|, w, slotType, cfg.successCode) ==> r == Ok(Arr([])))
      && (forall j :: (0 <= j < |es| && PassedOver(es, 0, j, w, slotType, cfg.successCode)
            && EntryHit(es[j], w, slotType, cfg.successCode) == Ok(true)) ==> r == ValueNames(EntryValues(es[j])))
  {
    if Truthy(handlerInput) && Truthy(slotName) && Truthy(slotType) then
      var rpa := Resolutions(handlerInput, slotName);
      if rpa.Arr? then ResolvedFrom(rpa.items, 0, Some(Wanted(authority, cfg)), slotType, cfg.successCode) else Ok(Arr([]))
    else Ok(Arr([]))
  }

  /** A string authority of an entry, its status code, and the names of its values. */
  predicate SuccessEntry(e: Json, slotType: string, code: string) {
    && EntryAuthority(e).Str?
    && Contains(EntryAuthority(e).s, slotType)
    && EntryStatus(e) == Str(code)
    && EntryValues(e).Arr?
  }

  lemma ContainsSelf(s: string)
    ensures Contains(s, s)
  {
    assert s[0..][..|s|] == s;
  }

  /** The discrepancy: an entry whose authority names the slot type and
      reports success is accepted by the original whatever authority is
      asked for, while the corrected lookup rejects it when its authority
      does not include the requested one. */
  lemma AuthorityIgnoredAsWritten(e: Json, slotType: string, code: string, wanted: string)
    requires SuccessEntry(e, slotType, code)
    requires !Contains(EntryAuthority(e).s, wanted)
    ensures ResolvedFrom([e], 0, None, Str(slotType), code) == ValueNames(EntryValues(e))
    ensures ResolvedFrom([e], 0, Some(Str(wanted)), Str(slotType), code) == Ok(Arr([]))
  {
    ContainsSelf(EntryAuthority(e).s);
  }

  /** The corrected lookup only accepts an entry whose authority includes the
      requested one: when no entry's (string) authority does, it finds
      nothing. */
  lemma {:induction false} ResolvedRequiresAuthority(entries: seq<Json>, i: nat, wanted: string, slotType: Json, code: string)
    requires i <= |entries|
    requires forall j :: i <= j < |entries| ==>
      EntryAuthority(entries[j]).Str? && !Contains(EntryAuthority(entries[j]).s, wanted)
    ensures ResolvedFrom(entries, i, Some(Str(wanted)), slotType, code) == Ok(Arr([]))
    decreases |entries| - i
  {
    if i < |entries| {
      ResolvedRequiresAuthority(entries, i + 1, wanted, slotType, code);
    }
  }
}
