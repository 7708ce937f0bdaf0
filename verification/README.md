# ask-toolkit core, modelled in Dafny

This project models the core of ask-toolkit, a helper library for Alexa
skills. It covers five parts:

- the dot-path accessor `get`/`set` and the other helpers of the `utils`
  object: `replaceAll`, `sanitizeSsml`, `replaceAudioTags`, the asset-path
  rule, `hashInt`, `randomIndex`, `checkValInArray`, `formUrlWithParams`,
  `cloneObj`, `removeEmptyStringElements` and the request accessors;
- the response helpers: `getRandomItem`, `buildSsml`, `buildTextObj`,
  `buildImageObj`, `buildDisplayTemplate`, the `replaceIn*` family,
  `setRepeatSpeech` and `buildAplCommandDirective`;
- the turn-state coordinator: the request, session and persistent attribute
  scopes, their `set*`/`update*` operations and the response interceptor
  that saves the persistent scope at most once per turn;
- the payload builder and outcome classification of the analytics event
  service;
- the analytics handlers: request tracking, response tracking, the
  before-response queue hook and custom events.

JavaScript values are the datatype `Js.Json`: undefined, null, booleans,
integers, strings, arrays and plain objects. Objects are maps from
property names to values. Arrays and strings expose their canonical
indices and `length` as own properties. A string is a sequence of Unicode
characters, not of UTF-16 code units as in JavaScript, so its `length` and
indices count characters. Of the prototype chain, the model
keeps the methods of `Object.prototype` (`constructor`, `toString`,
`hasOwnProperty` and the others), which every value but `null` and
`undefined` inherits. These matter in two places. `set` meets one of them
as a function when it descends into a key such as `"a.constructor.x"`.
`isObject` and `replaceAll` compare `constructor` with `Object`, which
fails for an object with an own `constructor` property. `Js.Truthy` is JavaScript
truthiness. A function that can throw returns `Js.Result`, whose
`Thrown` case names the error: `TypeError`, `ReferenceError`, an `Error`
with its message, or `Unmodelled`.

Several things the code reads from outside are parameters of the model:

- the constants and enums (S3 host and paths, template kinds, attribute
  keys, provider names, request types, status codes);
- the key order of `Object.keys` and `for…in`;
- each value drawn from `Math.random`;
- the provider in use;
- the two analytics predicates `isTrackableRequest` and
  `buildOutgoingIntent`;
- whether a callback is a function;
- what the HTTP client and the store report back.

Modules follow the source files:

| module | models |
|---|---|
| `Text` | string search, split, join and literal replacement |
| `Js` | the value model |
| `PathAccessor` | `get` and `set` |
| `StringUtils` | `replaceAll`, `sanitizeSsml`, `replaceAudioTags`, `hashInt` |
| `PathUtils` | `makeImagePath`, `makeAudioPath`, `formUrlWithParams` |
| `ObjectUtils` | `randomIndex`, `checkValInArray`, `cloneObj`, `removeEmptyStringElements` |
| `RequestAccessors` | the `get*` accessors of `lib/utils/utils.js` |
| `Persistence` | `lib/persistence/persistence.js` |
| `ResponseUtils` | `lib/response/utils.js` |
| `DashbotEventService` | `lib/analytics/dashbotEventService.js` |
| `AnalyticsHandlers` | `lib/analytics/analyticsHandlers.js` |

Behaviour of the code that is easy to misread:

- `set` replaces every falsy intermediate value (0, "", false, null) by a
  fresh object, not only missing ones. It gives up, with `null`, at a
  truthy non-object, and that includes an inherited method. When it gives
  up at a value that was already there, nothing has been written yet
  (`PathAccessor.WalkStoppedUnchanged`). When it gives up at an inherited
  method below a segment it has just created, the created objects stay.
  So `set("a.constructor.x", {}, 1)` returns `null` and leaves `{a: {}}`
  behind (`PathAccessor.SetWritesBeforeStopping`).
- `updatePersistentAttribute` with the key `"constructor"` rejects with
  "Argument is not an object". The patch `{constructor: v}` owns a
  `constructor`, so `isObject` refuses it
  (`Persistence.UpdateConstructorRejected`).
- `buildTextObj` chooses plain text only when all three entries are present
  and plain. An absent entry makes the block rich text
  (`ResponseUtils.AbsentEntryIsRich`).
- `sendEvent` hands its callback to `send`, which takes no callback. On the
  sending path the callback is therefore never called
  (`AnalyticsHandlers.SendEvent`).
- `send`'s not-authorised rejection names an undeclared variable, so it
  throws a `ReferenceError` instead of the intended error (see Findings).
  `sendEvent` calls `send` as written, so an unauthorised delivery from
  `sendEvent` rejects with that `ReferenceError`.

## Model

| member | source | states |
|---|---|---|
| Js.IsPlainObject | lib/utils/utils.js:453-455 | `isObject`: an object without an own `constructor`; its meaning in the code's own terms is stated by Js.IsPlainObjectMeaning |
| Js.IsPlainObjectMeaning | lib/utils/utils.js:453-455 | a value passes `isObject` exactly when it is truthy, of type "object", not an array, and has no own `constructor` to shadow the inherited `Object` |
| PathAccessor.Get | lib/utils/utils.js:371-396 | `get`, through the walk `Lookup`; what it returns is stated by PathAccessor.GetDefined, PathAccessor.GetFallback, PathAccessor.GetFalsyIntermediate, PathAccessor.GetRecursion and PathAccessor.GetSingleKey |
| PathAccessor.GetDefined | lib/utils/utils.js:371-396 | `get` never returns undefined: a reached undefined counts as missing, and an undefined fallback becomes false |
| PathAccessor.GetRecursion | lib/utils/utils.js:371-396 | for a truthy source whose first path segment is an own, defined property, reading the path equals reading the rest of the path from that property, with the fallback already defaulted to false |
| PathAccessor.GetFallback | lib/utils/utils.js:371-393 | an empty key, a falsy source, or a first segment that is missing or undefined yields the fallback, or false when no fallback is given |
| PathAccessor.GetFalsyIntermediate | lib/utils/utils.js:375-395 | a falsy value part-way along a longer path yields the fallback, even where a value of that name exists |
| PathAccessor.LookupNest | lib/utils/utils.js:371-396 | descending a path through the object nested for that path finds the nested value |
| PathAccessor.GetNest | lib/utils/utils.js:371-396 | `get` of a key on the object nested for that key returns the value (a key not ending in a dot, a defined value) |
| PathAccessor.GetSingleKey | lib/utils/utils.js:371-396 | for a key without a dot, `get` is the source's own defined property of that name, or the defaulted fallback |
| PathAccessor.SetWalk | lib/utils/utils.js:428-444 | the loop of `set`: a walk that reaches the final assignment leaves an object or an array in place of the container it started from, and a walk that stops returns it unchanged or as an object or array |
| PathAccessor.Put | lib/utils/utils.js:444 | the final assignment succeeds on any object and on an array at an index up to its length, and the property then holds the written value |
| PathAccessor.PutExisting | lib/utils/utils.js:444 | writing back the value a property already holds leaves the container unchanged |
| PathAccessor.Set | lib/utils/utils.js:420-447 | an empty key or a falsy source returns null and writes nothing; a completed write returns the mutated source |
| PathAccessor.SetWritesBeforeStopping | lib/utils/utils.js:431-439 | `set("a.constructor.x", {}, 1)` creates `a: {}`, then meets the inherited `constructor` function and returns null with the source already changed |
| PathAccessor.WalkFreshStops | lib/utils/utils.js:431-439 | on a fresh object, a segment before the last that names an inherited method stops the walk |
| PathAccessor.WalkElsewhere | lib/utils/utils.js:431-444 | the walk leaves unchanged every path that parts ways with its own and reads no `length` |
| PathAccessor.SetElsewhere | lib/utils/utils.js:420-447 | `set` leaves unchanged, at any depth, every path that parts ways with its key and reads no `length`; for example `set("a.b", {a: {c: 1}}, 2)` keeps `a.c` |
| PathAccessor.SetOnEmpty | lib/utils/utils.js:420-447 | `set` on an empty object yields exactly the object nested for the path when no segment before the last names an inherited method, and returns null otherwise |
| PathAccessor.WalkFresh | lib/utils/utils.js:431-444 | when no segment before the last names an inherited method, the walk over a fresh object creates one empty object per intermediate segment and writes the value at the last |
| PathAccessor.WalkStoppedUnchanged | lib/utils/utils.js:431-441 | when no segment before the last names an inherited method and the walk stops at a truthy non-object, nothing along the path has been written |
| PathAccessor.SetNullLeavesSource | lib/utils/utils.js:437-439 | when no segment before the last names an inherited method and `set` returns null, the source is unchanged |
| PathAccessor.SetRefusesScalar | lib/utils/utils.js:433-439 | when the first intermediate is a truthy non-object, `set` returns null and leaves the source as it was |
| PathAccessor.LookupAfterWalk | lib/utils/utils.js:431-444 | after a completed walk, descending the path finds the written value |
| PathAccessor.GetAfterSet | lib/utils/utils.js:371-447 | `get` of a key after a completed `set` of that key returns the written value |
| PathAccessor.SetKeepsOtherKeys | lib/utils/utils.js:420-447 | `set` changes no top-level property other than the first segment of its key |
| PathUtils.MakeAssetPath | lib/utils/utils.js:491-505 | a falsy url is returned as is; a non-empty string keeps an http or https prefix and otherwise gets host, bucket and media path prepended; a truthy value that is neither a string nor an array throws, having no `indexOf` |
| PathUtils.MakeImagePath | lib/utils/utils.js:491-497 | the asset rule with the image path |
| PathUtils.MakeAudioPath | lib/utils/utils.js:499-505 | the asset rule with the audio path |
| PathUtils.MakeAssetPathIdempotent | lib/utils/utils.js:491-505 | when the host is absolute, rewriting an already rewritten url gives it back unchanged |
| PathUtils.FormUrlWithParams | lib/utils/utils.js:470-489 | without parameters (undefined, a non-object, an empty object or array) the url is returned unchanged; null parameters throw a TypeError |
| PathUtils.FormUrlQuery | lib/utils/utils.js:470-489 | with a non-empty parameter object the result is the url, then `&` if it already has a `?` and `?` otherwise, then `key=value` pairs (a null value gives the bare key) joined by `&` in key order, with no trailing `&` |
| PathUtils.ParamsWithAmpQuery | lib/utils/utils.js:481-488 | the loop's output is the joined query followed by exactly one `&`, which the final replacement removes |
| StringUtils.ReplaceAllAsWritten | lib/utils/utils.js:282-292 | `replaceAll` as written returns its input unchanged unless it is a non-empty string and the map a plain object without an own `constructor`, and always returns a string for a string |
| StringUtils.ReplaceAll | lib/utils/utils.js:282-292 | the corrected `replaceAll` has the same guard and still returns a string for a string |
| StringUtils.Scan | lib/utils/utils.js:287-291 | the global `replace` scan; what it does is stated by StringUtils.ScanIdentity, StringUtils.ReplaceAllWithoutMatch, StringUtils.ReplaceAllSinglePass and StringUtils.ReplaceAllEmptyMapAsWritten |
| StringUtils.ScanIdentity | lib/utils/utils.js:289-291 | when every key is mapped to itself, the scan returns its input: each match is put back where it was found |
| StringUtils.ReplaceAllWithoutMatch | lib/utils/utils.js:287-291 | a string in which no map key occurs is returned unchanged |
| StringUtils.ReplaceAllAgrees | lib/utils/utils.js:282-292 | for a non-empty map without an empty key, the corrected and the as-written versions agree on every input |
| StringUtils.ReplaceAllEmptyMapAsWritten | lib/utils/utils.js:287-291 | as written, an empty map builds an empty pattern that puts "undefined" before every character and at the end, so a non-empty string never comes back unchanged |
| StringUtils.ReplaceAllEmptyMapExample | lib/utils/utils.js:287-291 | as written, "Hi" with an empty map becomes "undefinedHundefinediundefined" |
| StringUtils.ReplaceAllEmptyMap | lib/utils/utils.js:282-292 | the corrected version returns the string unchanged for an empty map |
| StringUtils.ReplaceAllPlaceholder | lib/utils/utils.js:282-292 | "Hello {name}" with `{name}` mapped to "World" becomes "Hello World" |
| StringUtils.ReplaceAllSinglePass | lib/utils/utils.js:287-291 | substitution is a single pass: with a→b and b→c, "ab" becomes "bc", not "cc" |
| StringUtils.SanitizeSsml | lib/utils/utils.js:321-329 | anything but a non-empty string is returned unchanged; a non-empty string is rewritten as `SanitizeText` reads the three replacements (`&amp;` to "and", `&quot;` to a quote, any other `&` to "and"), and the result of any string contains no ampersand |
| StringUtils.SanitizeSsmlExample | lib/utils/utils.js:321-329 | "A &amp; B & C" becomes "A and B and C": the escaped form goes first, with no double substitution |
| StringUtils.SanitizePassesAgree | lib/utils/utils.js:321-326 | the three chained replacements agree, on every string, with one left-to-right pass that turns `&amp;` into "and", `&quot;` into a quote and any other `&` into "and": no pass creates or destroys a match of a later one |
| StringUtils.SanitizeQuoteExample | lib/utils/utils.js:321-326 | `say &quot;hi&quot;` becomes `say "hi"` |
| StringUtils.FileNames | lib/utils/utils.js:299-302 | each file name is its tag with the opening and closing markers removed |
| StringUtils.ReplaceAudioTags | lib/utils/utils.js:294-319 | a non-string throws a TypeError (`str.match`); a string always gives a string |
| StringUtils.ReplaceAudioTagsWithoutMarkers | lib/utils/utils.js:294-319 | a string without an opening marker is returned unchanged |
| StringUtils.ReplaceAudioTagsEmptyTags | lib/utils/utils.js:306-309 | tags whose file name is empty are skipped, so a string with only such tags is unchanged |
| StringUtils.AudioTags | lib/utils/utils.js:295-297 | every match of the tag pattern opens with `<audio>` and closes with `</audio>` |
| StringUtils.SingleTagFound | lib/utils/utils.js:295-297 | the lazy pattern finds exactly the one tag in plain text around a single well-formed tag |
| StringUtils.StripWrittenTag | lib/utils/utils.js:300-302 | stripping the markers from a tag gives back its file name |
| StringUtils.ReplaceAudioTagsSingle | lib/utils/utils.js:294-319 | one tag in plain text is replaced by an audio element whose src is the file's audio path, and everything around it is kept |
| StringUtils.HashInt | lib/utils/utils.js:39-53 | for a positive integer the hash is a non-empty base-36 numeral over 0-9A-Z, with no leading zero, that decodes back to the number; anything else gives "" |
| ObjectUtils.RandomIndex | lib/utils/utils.js:61-67 | a positive length gives an index in [0, len); a negative one gives a value in [len, 0]; a zero or non-number length gives 0 |
| ObjectUtils.RandomIndexCovers | lib/utils/utils.js:61-67 | every index below the length is reached by some draw |
| ObjectUtils.CheckValInArray | lib/utils/utils.js:15-23 | a falsy value or haystack gives null; an array gives the value iff it is an element; a string gives the value iff its string form occurs in it; any other truthy haystack throws |
| ObjectUtils.CloneObj | lib/utils/utils.js:344-356 | arrays clone to arrays and everything else to objects; a primitive other than a string gives an empty object |
| ObjectUtils.CloneObjIsCopy | lib/utils/utils.js:344-356 | the clone of an object or array is structurally equal to it, at every depth |
| ObjectUtils.CloneObjString | lib/utils/utils.js:344-356 | cloning a string gives an object with one single-character entry per index |
| ObjectUtils.RemoveEmptyStringElements | lib/utils/utils.js:398-408 | on an object, exactly the keys whose value is not "" stay; an array keeps its length; any other value is returned as is |
| ObjectUtils.RemoveEmptyCleans | lib/utils/utils.js:398-408 | afterwards no object property at any depth holds "" |
| ObjectUtils.RemoveEmptyFixes | lib/utils/utils.js:398-408 | a value with no empty-string property is left unchanged |
| ObjectUtils.RemoveEmptyIdempotent | lib/utils/utils.js:398-408 | applying it twice is the same as applying it once |
| RequestAccessors.GetApiAccessToken | lib/utils/utils.js:77-79 | the value at `requestEnvelope.context.System.apiAccessToken`, or null |
| RequestAccessors.GetApiAccessTokenReadsBack | lib/utils/utils.js:77-79 | a token placed at that path is the one returned |
| RequestAccessors.GetApiEndpoint | lib/utils/utils.js:84-86 | the value at `requestEnvelope.context.System.apiEndpoint`, or null |
| RequestAccessors.GetApiEndpointReadsBack | lib/utils/utils.js:84-86 | an endpoint placed at that path is the one returned |
| RequestAccessors.GetAuthToken | lib/utils/utils.js:91-93 | the value at the user's access-token path, or null |
| RequestAccessors.GetAuthTokenReadsBack | lib/utils/utils.js:91-93 | a token placed at that path is the one returned |
| RequestAccessors.GetLocale | lib/utils/utils.js:98-104 | the request locale, or the default locale when it is absent or the input is falsy |
| RequestAccessors.GetLocaleReadsBack | lib/utils/utils.js:98-104 | a locale placed in the request is the one returned |
| RequestAccessors.GetRequestIntent | lib/utils/utils.js:109-111 | the intent name, or "" |
| RequestAccessors.GetRequestIntentReadsBack | lib/utils/utils.js:109-111 | an intent name placed in the request is the one returned |
| RequestAccessors.GetRequestIntentSlots | lib/utils/utils.js:116-118 | the intent's slots, or an empty object |
| RequestAccessors.GetRequestIntentSlotsReadsBack | lib/utils/utils.js:116-118 | slots placed in the request are the ones returned |
| RequestAccessors.GetSessionId | lib/utils/utils.js:155-163 | the session id, or the fallback when it is truthy, or "" |
| RequestAccessors.GetSessionIdReadsBack | lib/utils/utils.js:155-163 | a session id placed in the request is the one returned, whatever the fallback |
| RequestAccessors.GetSlotValue | lib/utils/utils.js:171-181 | the named slot's value; null or the given fallback when it is absent, the input is falsy, or the slot name is not a string |
| RequestAccessors.GetSlotValueReadsBack | lib/utils/utils.js:171-181 | a value placed in the named slot is the one returned |
| RequestAccessors.GetSupportedLocale | lib/utils/utils.js:183-189 | a falsy locale or a falsy offsets table gives the default; a string locale is kept iff the table holds a truthy entry for it, and is replaced by the default otherwise; any other truthy locale throws when the table is truthy |
| RequestAccessors.GetUserId | lib/utils/utils.js:194-206 | the user id read under the request envelope when the event has a truthy one, and from the event itself otherwise; a truthy fallback or "" when it is absent |
| RequestAccessors.GetUserIdUnwraps | lib/utils/utils.js:194-206 | wrapping an envelope in `{requestEnvelope: …}` does not change the user id read from it |
| RequestAccessors.GetUserIdReadsBack | lib/utils/utils.js:194-206 | a user id placed at the context path is the one returned |
| RequestAccessors.Read | lib/utils/utils.js:371-396 | `get` of one of the accessors' fixed dotted keys is the value the walk over its segments reaches, or the fallback with undefined replaced by false |
| RequestAccessors.IsNewSession | lib/utils/utils.js:254-260 | the session's `new` flag, or false |
| RequestAccessors.IsNewSessionReadsBack | lib/utils/utils.js:254-260 | a flag placed in the session is the one returned |
| RequestAccessors.ValueNames | lib/utils/utils.js:143 | an array of values maps to an array of the same length whose i-th entry is the `value.name` of the i-th value, or ""; anything else throws |
| RequestAccessors.ResolvedFrom | lib/utils/utils.js:136-149 | the loop gives the value names of the first entry that passes the test, [] when every entry fails it, and the exception of the first test that throws; a matching entry whose `values` is not an array throws a TypeError |
| RequestAccessors.GetResolvedValuesAsWritten | lib/utils/utils.js:129-150 | as written, a falsy input, slot name or slot type gives [], and so does a resolutions value that is not an array; otherwise the result is the value names of the first entry whose authority includes itself and the slot type and whose status is the success code, or [] when there is none |
| RequestAccessors.GetResolvedValues | lib/utils/utils.js:129-150 | the corrected version has the same guards, and gives the value names of the first entry whose authority includes the requested authority (or the default one) and the slot type and whose status is the success code, or [] when there is none |
| RequestAccessors.AuthorityIgnoredAsWritten | lib/utils/utils.js:137-140 | as written, an entry that matches the slot type and the success code is returned even when its authority does not contain the requested one; the corrected version returns [] for it |
| RequestAccessors.ResolvedRequiresAuthority | lib/utils/utils.js:129-150 | in the corrected version, when no entry's authority contains the requested authority, the result is [] |
| Persistence.Merge | lib/persistence/persistence.js:52 | a shallow merge: the union of keys, where the new attributes win and the existing ones stay otherwise |
| Persistence.SetRequestAttributes | lib/persistence/persistence.js:60-68 | a plain object without an own `constructor` is merged into the request scope and anything else is ignored; the other scopes are untouched |
| Persistence.SetSessionAttributes | lib/persistence/persistence.js:70-78 | a plain object without an own `constructor` is merged into the session scope and anything else is ignored; the other scopes are untouched |
| Persistence.SetPersistentAttributes | lib/persistence/persistence.js:48-58 | the promise rejects with "Argument is not an object" iff the argument is not a plain object without an own `constructor`; otherwise the persistent scope is merged and the others are untouched |
| Persistence.Patch | lib/persistence/persistence.js:89 | `set(key, {}, val)` is the object nested for the key, whose only key is the key's first segment, when no segment before the last names an inherited method, and null otherwise |
| Persistence.PatchIsPlain | lib/persistence/persistence.js:88-89 | `isObject` accepts the patch of a key exactly when no segment before the last names an inherited method and the first segment is not `constructor` |
| Persistence.UpdateRequestAttribute | lib/persistence/persistence.js:102-106 | a key that is not a non-empty string, or whose patch `isObject` refuses, leaves the manager unchanged; otherwise the nested object for the key is merged into the request scope; the other scopes are untouched |
| Persistence.UpdateSessionAttribute | lib/persistence/persistence.js:115-119 | the same for the session scope |
| Persistence.UpdatePersistentAttribute | lib/persistence/persistence.js:87-93 | an unusable key resolves with false and changes nothing; a patch `isObject` refuses rejects with "Argument is not an object" and changes nothing; otherwise it resolves and the nested object for the key is merged into the persistent scope |
| Persistence.UpdateConstructorRejected | lib/persistence/persistence.js:87-93 | `updatePersistentAttribute` with the key "constructor" rejects with "Argument is not an object" |
| Persistence.UpdateReplacesTopKey | lib/persistence/persistence.js:115-119 | an update with a dotted key that `isObject` accepts replaces the whole top-level entry, siblings included, and keeps every other key |
| Persistence.UpdateReadsBack | lib/persistence/persistence.js:102-106 | after an update with a key `isObject` accepts, `get` of the same key on the scope returns the written value |
| Persistence.Process | lib/persistence/persistence.js:18-45 | afterwards the flag is set; if it was already set nothing happens and no promise is returned; otherwise the store is saved once and a failed save's error is passed on; no other key changes |
| Persistence.FlagRead | lib/persistence/persistence.js:21 | the `get` of `persistentSaved` is true exactly when the request scope holds true under that key |
| Persistence.ApplyStep | lib/persistence/persistence.js:18-119 | any single operation of the coordinator that does not write the flag itself adds a save only when it is the interceptor with the flag unset, and keeps the flag once it is set |
| Persistence.AtMostOneSave | lib/persistence/persistence.js:18-45 | in any sequence of such operations within a turn, the store is saved exactly once if the turn is intercepted and the flag was unset, and never otherwise |
| ResponseUtils.BuildAplCommandDirective | lib/response/utils.js:11-21 | no directive (null) unless the data is truthy with a `commands` array; otherwise an object with exactly type, token and commands, where the token is the data's own truthy token or the literal placeholder |
| ResponseUtils.AplTokenIsConstant | lib/response/utils.js:15 | as written, every directive built without its own token carries the same token |
| ResponseUtils.BuildAplCommandDirectiveStamped | lib/response/utils.js:11-21 | the corrected directive takes the clock as a parameter, so its default token is "token" followed by the time |
| ResponseUtils.StampedTokensDiffer | lib/response/utils.js:15 | directives built at different times get different default tokens |
| ResponseUtils.TrimStart | lib/response/utils.js:154-155 | the leading-whitespace skip of `parseInt` leaves a suffix of the text that does not start with whitespace |
| ResponseUtils.LeadingDigits | lib/response/utils.js:154-155 | the digit run that `parseInt` reads is the longest prefix of digits in the radix |
| ResponseUtils.ParseIntOfInt | lib/response/utils.js:154-155 | `parseInt` of an integer's decimal text gives back that integer |
| ResponseUtils.ParseUnsignedOfNat | lib/response/utils.js:154-155 | the unsigned part of `parseInt` reads a natural number's decimal text back as that number |
| ResponseUtils.Dim | lib/response/utils.js:154-155 | a falsy width or height gives no dimension and an integer gives itself |
| ResponseUtils.NumberText | lib/response/utils.js:154-155 | `parseInt` of a number's string form is the number |
| ResponseUtils.BuildImageObj | lib/response/utils.js:139-162 | a falsy image gives null; otherwise it fails iff the url rewrite fails; the image has the rewritten url and the size, a description iff it is truthy, and width and height parsed as integers |
| ResponseUtils.BuildTextObj | lib/response/utils.js:176-200 | a falsy text gives null; otherwise the block is plain iff all three entries have the plain type, and each text is that entry's `text` or null |
| ResponseUtils.AbsentEntryIsRich | lib/response/utils.js:184-190 | a missing primary, secondary or tertiary entry makes the block rich text |
| ResponseUtils.GetRandomItem | lib/response/utils.js:208-217 | a non-array is returned as is; a non-empty array gives one of its elements; an empty array gives undefined |
| ResponseUtils.GetRandomItemCovers | lib/response/utils.js:208-217 | every element of an array is chosen by some draw |
| ResponseUtils.ResolveSpeech | lib/response/utils.js:164-174 | a speech variant is resolved, sanitised and audio-rewritten; this succeeds iff the chosen variant is a string, and gives a string |
| ResponseUtils.BuildSsml | lib/response/utils.js:164-174 | succeeds iff both the output and the reprompt resolve, and then holds each resolved variant; a falsy data counts as an empty object |
| ResponseUtils.BuildSsmlDefaults | lib/response/utils.js:164-174 | data without speech gives an empty output and an empty reprompt |
| ResponseUtils.BuildSsmlIndependent | lib/response/utils.js:167-168 | the output depends only on the output variants and their draw, not on the reprompt |
| ResponseUtils.BuildSsmlPlainText | lib/response/utils.js:164-174 | an output without ampersands or audio markers comes back unchanged |
| ResponseUtils.BuildListItem | lib/response/utils.js:80-110 | a list item carries the item's token or false and the shared text block; it has an image iff the item's image url is truthy; without an image url it cannot fail |
| ResponseUtils.BuildListItems | lib/response/utils.js:80-110 | the items succeed iff every item does, keep their number and order, and each is that item's list item |
| ResponseUtils.BuildDisplayTemplate | lib/response/utils.js:39-137 | no template iff the data or its template kind is falsy; otherwise the kind is kept, the title is the data's or "", the token is present iff truthy, the back button is set iff it is the hidden value, and the background image is present iff the drawn variant is truthy |
| ResponseUtils.TemplateFieldsByKind | lib/response/utils.js:50-111 | by kind: the text block only for the text and text-and-image kinds when the text is truthy; the image only for the image kinds when the image is truthy; the list only for list kinds with an array list; an unknown kind gets none of them |
| ResponseUtils.ListTemplateEntries | lib/response/utils.js:80-110 | a list template has one entry per list item, in order, each with that item's token, the shared text block, and an image iff the item has an image url |
| ResponseUtils.ReplaceInSpeechAndCard | lib/response/utils.js:240-258 | `replaceInSpeechAndCard` as the rewrite of its four fields; what it does to them and to every other path is stated by ResponseUtils.ReplaceInSpeechAndCardFields |
| ResponseUtils.ReplaceInSpeechAndCardFields | lib/response/utils.js:240-258 | after `replaceInSpeechAndCard`, each of speech output and reprompt and card title and output holds its replacement if it was truthy and is unchanged otherwise; every path apart from these four is untouched |
| ResponseUtils.ReplaceInDisplay | lib/response/utils.js:224-238 | `replaceInDisplay` as the rewrite of its three fields; what it does to them and to every other path is stated by ResponseUtils.ReplaceInDisplayFields |
| ResponseUtils.ReplaceInDisplayFields | lib/response/utils.js:224-238 | after `replaceInDisplay`, each of the three display text fields holds its replacement if it was truthy and is unchanged otherwise; every other path is untouched |
| ResponseUtils.ReplaceInAll | lib/response/utils.js:220-222 | `replaceInAll` is the speech-and-card pass followed by the display pass |
| ResponseUtils.ReplaceInAllRewrites | lib/response/utils.js:220-258 | after `replaceInAll`, each of the seven text fields holds its replacement if it was truthy and is unchanged otherwise |
| ResponseUtils.ReplaceInAllElsewhere | lib/response/utils.js:220-258 | `replaceInAll` leaves every path apart from the seven text fields untouched |
| ResponseUtils.RepeatPair | lib/response/utils.js:266-277 | the repeat output and reprompt come from the first truthy one of the options' repeat speech, the data's repeat speech and the data's speech |
| ResponseUtils.SaveRepeatRead | lib/response/utils.js:279 | the save is skipped exactly when the options are truthy and hold `saveRepeat: false` |
| ResponseUtils.SetRepeatSpeech | lib/response/utils.js:260-294 | only the two repeat keys of the session scope change; with `saveRepeat: false` both are removed; otherwise the reprompt is stored iff it is truthy, and the output is stored whenever the two keys are distinct |
| DashbotEventService.WrapParams | lib/analytics/dashbotEventService.js:21-25 | string parameters become `{data: …}` and anything else is kept |
| DashbotEventService.ExtraInfo | lib/analytics/dashbotEventService.js:27-29 | the extra information is the session id overlaid with the parameters: it always has `sessionId`, the parameters' keys are added and their values win, and a string gives `{sessionId, data}` |
| DashbotEventService.ParamsSessionIdWins | lib/analytics/dashbotEventService.js:27-29 | a `sessionId` inside the parameters replaces the request's session id |
| DashbotEventService.EventObject | lib/analytics/dashbotEventService.js:31-36 | the event has exactly name, type `customEvent`, userId and extraInfo |
| DashbotEventService.BuildEvent | lib/analytics/dashbotEventService.js:16-40 | null iff the session id, the event name or the user id is falsy; otherwise the custom event with that name, user id and extra information |
| DashbotEventService.Settle | lib/analytics/dashbotEventService.js:64-77 | a transport error rejects with the HTTP error, a status other than success rejects with the API error, and otherwise the promise resolves with the body |
| DashbotEventService.SendAsWritten | lib/analytics/dashbotEventService.js:47-84 | as written, the post is made iff there are an API key, a url and an event, and otherwise the promise rejects with a ReferenceError |
| DashbotEventService.Send | lib/analytics/dashbotEventService.js:47-84 | the corrected `send` posts iff authorised, posts the built event and settles as the response dictates; otherwise it rejects with the not-authorised error |
| DashbotEventService.SendResolvesOnlyOnSuccess | lib/analytics/dashbotEventService.js:61-80 | the promise resolves iff a post was made and answered with the success status, and then with the body; transport failure, API failure and missing authorisation are told apart by their errors |
| DashbotEventService.MissingKeyRejection | lib/analytics/dashbotEventService.js:78-80 | without an API key nothing is posted: as written the rejection is a ReferenceError, corrected it is the not-authorised error |
| DashbotEventService.SendAgreesWhenPosted | lib/analytics/dashbotEventService.js:61-77 | when the post is made, the as-written and corrected versions behave alike |
| AnalyticsHandlers.Calls | lib/utils/utils.js:33-37 | a callback that is a function receives the calls; any other value is replaced by a function that does nothing |
| AnalyticsHandlers.Member | lib/analytics/analyticsHandlers.js:96 | a member access throws iff the object is undefined or null, and otherwise reads the property |
| AnalyticsHandlers.SendRequestTracking | lib/analytics/analyticsHandlers.js:56-68 | the incoming event is logged iff the provider is initialised, the event is truthy and the provider is Dashbot; the callback is called once with no arguments either way |
| AnalyticsHandlers.ReportsType | lib/analytics/analyticsHandlers.js:92 | the request type is reported as the intent name iff it is the launch request or starts with the audio-player or playback-controller prefix; a type that is neither a string nor an array makes `indexOf` throw |
| AnalyticsHandlers.ReportIntent | lib/analytics/analyticsHandlers.js:81-100 | the metadata carries the handler state and the request locale, with "" fallbacks; a request type without `indexOf` throws a TypeError |
| AnalyticsHandlers.FoundTypeChain | lib/analytics/analyticsHandlers.js:96 | when the request type was found, `this.event.request.intent` can be read without throwing and is truthy iff the intent path holds a truthy value |
| AnalyticsHandlers.ReportOfStringType | lib/analytics/analyticsHandlers.js:90-100 | for a string request type: launch and player types name themselves; the session-ended request is named with the session-end constant; an intent request with an intent gives the intent name and its slots; anything else gives "" with null slots |
| AnalyticsHandlers.ReportOfOddType | lib/analytics/analyticsHandlers.js:92 | a request type that is neither a string nor an array makes response tracking throw a TypeError |
| AnalyticsHandlers.OutgoingObject | lib/analytics/analyticsHandlers.js:105-113 | the logged response is a shallow copy of the response object, with `intent` added iff the outgoing intent is truthy |
| AnalyticsHandlers.SendResponseTracking | lib/analytics/analyticsHandlers.js:76-123 | the report is computed first and its error is propagated; the response is logged iff the provider is Dashbot and the event is trackable, with the event and the outgoing copy; the callback is called once with no arguments; an undefined or null context throws when Dashbot is selected; an uninitialised provider throws when logging |
| AnalyticsHandlers.QueueTracking | lib/analytics/analyticsHandlers.js:40-48 | exactly one before-response hook is appended under the queue key, carrying the data and options, and the earlier hooks stay |
| AnalyticsHandlers.RunHook | lib/analytics/analyticsHandlers.js:41-47 | the hook answers "NotTracked" iff the options hold `track: false`, and otherwise is response tracking with the hook's callback |
| AnalyticsHandlers.HookCallsBackOnce | lib/analytics/analyticsHandlers.js:41-47 | a hook that completes calls its callback exactly once |
| AnalyticsHandlers.SendEvent | lib/analytics/analyticsHandlers.js:125-135 | the event is sent iff the provider is Dashbot, the request is trackable and the event name is truthy; then the callback is never called, and the delivery is `send` as written: posted iff authorised, a ReferenceError otherwise, and the same as the corrected `send` once posted; otherwise the callback is called once with "Not sent" and null |
| AnalyticsHandlers.SendEventCallsBackIffNotSent | lib/analytics/analyticsHandlers.js:125-135 | with a function callback, the callback is called iff nothing is sent |
| AnalyticsHandlers.SendSponsorEvent | lib/analytics/analyticsHandlers.js:137-139 | a sponsor event is `sendEvent` with the name "SponsorPlayedEvent" and `{campaignId, label}` as parameters, and so is sent iff Dashbot is selected and the request is trackable, with the same as-written delivery |
| AnalyticsHandlers.SentEventCarriesParams | lib/analytics/analyticsHandlers.js:125-139 | a posted event is named by the tracking event and its extra information carries every entry of the parameters object, so a sponsor event carries its campaign id and label |

## Left out

- Js.Own: strings are sequences of Unicode characters rather than UTF-16 code units. For text with characters outside the Basic Multilingual Plane, `length` and the index properties differ from JavaScript's, and a lone surrogate cannot be represented.
- ObjectUtils.CloneObjString: cloning a string gives one entry per Unicode character; JavaScript gives one per UTF-16 code unit, so a character outside the Basic Multilingual Plane yields two entries there.
- StringUtils.ReplaceAllEmptyMapAsWritten: the empty pattern matches between Unicode characters. JavaScript's non-unicode regular expression matches between UTF-16 code units, so it also inserts "undefined" between the two halves of a surrogate pair.
- Regular expressions in `replaceAll` are not modelled in full. Map keys are taken as literal text, and matching is case-sensitive. The code builds a pattern with the `gi` flags, so it matches case-insensitively and treats metacharacters in keys as regex syntax. StringUtils.ReplaceAll and StringUtils.ReplaceAllAsWritten state the literal, case-sensitive behaviour only.
- Floating-point numbers, NaN and the number-to-string rules for non-integers are not modelled. Numbers are integers, so `parseInt` of a fraction, `Math.floor` of a fractional product and `hashInt` beyond 2^53 are outside the model.
- Reference identity is not modelled. "Returns the same object it was given" is stated as equality of values. Aliasing between two references to one object is not modelled.
- Array holes are not modelled. A sparse array such as `[1,,3]` cannot be represented, so reads and writes of holes are outside the model.
- PathAccessor.Set: a write of a named or sparse property on an array returns `Unmodelled` instead of performing the write.
- PathAccessor.Set: of the inherited properties, only the methods of `Object.prototype` are modelled. The methods arrays and strings add (such as `push` or `indexOf`) read as missing. A `__proto__` segment is treated as an ordinary own property, while the code reaches the object's prototype through it and writes there. Prototype objects are shared state outside this value model.
- `readFile`, `buildAplRenderDocumentDirective`, the logging helpers, `debugEnabled`, `trimItemsInArray`, `slotIsANumber`, `isString`, `hasAPLInterface`, `hasDisplayInterface`, `hasAudioInterface` and `isDeviceSupport` are left out. They do file I/O, console output, or reads of device capabilities outside the request paths modelled here.
- `dynamoAdapter` is left out. It only constructs the store adapter of the SDK.
- Loading the persistent attributes from the store is assumed to succeed. Persistence.SetPersistentAttributes does not model a failed `getPersistentAttributes`.
- The store, the HTTP client and the clock are parameters. Their result is given as `SaveOutcome`, `HttpOutcome` or a number.
- The Alexa SDK's `ImageHelper` and text-content helpers are replaced by records with the same fields. Their internal layout is not modelled.
- `initProvider` is not modelled. The SDK client it creates and the `process.env` token are not part of this model, so the selected provider and whether it was created are configuration. The provider's `logIncoming` and `logOutgoing` are reduced to the event and response they are given.
- `analyticsUtils.js` is not part of this model. `isTrackableRequest` and `buildOutgoingIntent` are function parameters, so the two trackability samples of its test file are not encoded.
- `Promise.all` on the two logging promises is not modelled. It is fire-and-forget and does not affect the callback.
- AnalyticsHandlers.ReportIntent: the intent name and metadata are computed and exposed, but the code never hands them to the provider.
- AnalyticsHandlers.SendResponseTracking: the defaulted `data` argument is not used by the code, and is not used by the model either.
- AnalyticsHandlers.QueueTracking: the queue's callback is assumed to be a function, because the request-interceptor queue always passes one.

## Findings

| source | as written | input that shows it | evidently intended | confidence | as-written member | corrected member |
|---|---|---|---|---|---|---|
| lib/utils/utils.js:287-291 | the keys of the map are joined into one pattern, so an empty map gives the empty pattern, which matches at every position; each match is replaced by `mapObj[""]`, which is undefined | `replaceAll("Hi", {})` gives "undefinedHundefinediundefined" | an empty map, or an empty key, substitutes nothing | not executed | StringUtils.ReplaceAllEmptyMapAsWritten | StringUtils.ReplaceAllEmptyMap |
| lib/utils/utils.js:137-140 | the loop declares its own `authority`, which shadows the parameter, so `authority.includes(authority)` is always true | an entry for the slot type whose authority does not contain the requested one is returned anyway | only entries from the requested authority are returned | not executed | RequestAccessors.AuthorityIgnoredAsWritten | RequestAccessors.ResolvedRequiresAuthority |
| lib/analytics/dashbotEventService.js:79 | the rejection reads `e.msg.NOT_AUTHORIZED`, but the file never declares `e` | `send` without an API key throws a ReferenceError inside the executor | the promise rejects with the not-authorised error | not executed | DashbotEventService.MissingKeyRejection | DashbotEventService.SendResolvesOnlyOnSuccess |
| lib/response/utils.js:15 | the default token is a plain string literal, so the intended time stamp is never interpolated | two directives built at different times without a token carry the same token | the default token is "token" followed by the current time | not executed | ResponseUtils.AplTokenIsConstant | ResponseUtils.StampedTokensDiffer |
