/** The attribute-scope coordinator: shallow-merge updates of the request,
    session and persistent attribute scopes of one turn, and the response
    interceptor that saves the persistent scope at most once per turn. */
module Persistence {
  import opened Text
  import opened Js
  import opened PathAccessor

  /** The attributes manager of one turn: the three scopes and the number of
      times `savePersistentAttributes` has been called. Reading a scope gives
      the object the manager holds, so merging into it and writing it back
      replaces the scope by the merged map. */
  datatype Manager = Manager(
    request: map<string, Json>,
    session: map<string, Json>,
    persistent: map<string, Json>,
    saves: nat)

  const NotAnObject: string := "Argument is not an object"

  /** The request attribute that marks the persistent scope as saved. */
  const SavedFlag: string := "persistentSaved"

  /** `Object.assign(existing, attribs)` with a plain object: its keys
      overwrite, every other key stays. */
  function Merge(existing: map<string, Json>, attribs: map<string, Json>): (r: map<string, Json>)
    ensures r.Keys == existing.Keys + attribs.Keys
    ensures forall k :: k in attribs ==> r[k] == attribs[k]
    ensures forall k :: k in existing && k !in attribs ==> r[k] == existing[k]
  {
    existing + attribs
  }

  /** `persistence.setRequestAttributes`: anything but a plain object is
      ignored. */
  function SetRequestAttributes(m: Manager, attribs: Json): (r: Manager)
    ensures r.session == m.session && r.persistent == m.persistent && r.saves == m.saves
    ensures r.request == (if IsPlainObject(attribs) then Merge(m.request, attribs.fields) else m.request)
  {
    if IsPlainObject(attribs) then m.(request := Merge(m.request, attribs.fields)) else m
  }

  /** `persistence.setSessionAttributes`: anything but a plain object is
      ignored. */
  function SetSessionAttributes(m: Manager, attribs: Json): (r: Manager)
    ensures r.request == m.request && r.persistent == m.persistent && r.saves == m.saves
    ensures r.session == (if IsPlainObject(attribs) then Merge(m.session, attribs.fields) else m.session)
  {
    if IsPlainObject(attribs) then m.(session := Merge(m.session, attribs.fields)) else m
  }

  /** `persistence.setPersistentAttributes`: the returned promise rejects
      when the argument is not a plain object, and otherwise the existing
      persistent attributes are merged with it. */
  function SetPersistentAttributes(m: Manager, attribs: Json): (r: Result<Manager>)
    ensures !IsPlainObject(attribs) <==> r == Thrown(Error(NotAnObject))
    ensures r.Ok? ==> r.value.request == m.request && r.value.session == m.session && r.value.saves == m.saves
    ensures r.Ok? ==> r.value.persistent == Merge(m.persistent, attribs.fields)
  {
    if IsPlainObject(attribs) then Ok(m.(persistent := Merge(m.persistent, attribs.fields)))
    else Thrown(Error(NotAnObject))
  }

  /** The guard of the `update*Attribute` functions: a non-empty string. */
  predicate UsableKey(key: Json) {
    Truthy(key) && key.Str?
  }

  /** The top-level key a dotted attribute key writes. */
  function TopKey(key: string): string {
    Split(key, '.')[0]
  }

  /** `utils.set(key, {}, val)`: a fresh object holding `val` at the path,
      with the first segment as its only key, or `null` when a part before
      the last names an inherited method. */
  function Patch(key: string, val: Json): (r: Json)
    requires key != ""
    ensures NoMethodSegment(Split(key, '.')) ==> r == Nest(Split(key, '.'), val)
    ensures !NoMethodSegment(Split(key, '.')) ==> r == Null
    ensures r.Obj? ==> r.fields.Keys == {TopKey(key)}
  {
    SetOnEmpty(key, val);
    Set(key, Obj(map[]), val).value.Returned()
  }

  /** A key whose patch `isObject` accepts: no inherited method is met on
      the way, and the patch does not own a `constructor` property. */
  predicate Mergeable(key: string)
    requires key != ""
  {
    NoMethodSegment(Split(key, '.')) && TopKey(key) != "constructor"
  }

  /** The patch of a key is a plain object exactly when the key is
      mergeable. */
  lemma PatchIsPlain(key: string, val: Json)
    requires key != ""
    ensures IsPlainObject(Patch(key, val)) <==> Mergeable(key)
  {
  }

  /** `persistence.updateRequestAttribute`: the patch is merged into the
      request scope when the key is a non-empty string and the patch is a
      plain object, and ignored otherwise. */
  function UpdateRequestAttribute(m: Manager, key: Json, val: Json): (r: Manager)
    ensures r.session == m.session && r.persistent == m.persistent && r.saves == m.saves
    ensures !(UsableKey(key) && Mergeable(key.s)) ==> r == m
    ensures UsableKey(key) && Mergeable(key.s) ==> r.request == Merge(m.request, Nest(Split(key.s, '.'), val).fields)
  {
    if UsableKey(key) then SetRequestAttributes(m, Patch(key.s, val)) else m
  }

  /** `persistence.updateSessionAttribute`: the same for the session
      scope. */
  function UpdateSessionAttribute(m: Manager, key: Json, val: Json): (r: Manager)
    ensures r.request == m.request && r.persistent == m.persistent && r.saves == m.saves
    ensures !(UsableKey(key) && Mergeable(key.s)) ==> r == m
    ensures UsableKey(key) && Mergeable(key.s) ==> r.session == Merge(m.session, Nest(Split(key.s, '.'), val).fields)
  {
    if UsableKey(key) then SetSessionAttributes(m, Patch(key.s, val)) else m
  }

  /** `persistence.updatePersistentAttribute`: the manager afterwards and
      the outcome of the returned promise, which resolves with `false` for
      an unusable key and rejects when the patch is not a plain object. */
  function UpdatePersistentAttribute(m: Manager, key: Json, val: Json): (r: (Manager, Result<Json>))
    ensures !UsableKey(key) ==> r == (m, Ok(Bool(false)))
    ensures UsableKey(key) && !Mergeable(key.s) ==> r == (m, Thrown(Error(NotAnObject)))
    ensures UsableKey(key) && Mergeable(key.s) ==>
      r.1 == Ok(Undefined) && r.0.request == m.request && r.0.session == m.session && r.0.saves == m.saves
      && r.0.persistent == Merge(m.persistent, Nest(Split(key.s, '.'), val).fields)
  {
    if UsableKey(key) then
      match SetPersistentAttributes(m, Patch(key.s, val))
      case Ok(m') => (m', Ok(Undefined))
      case Thrown(e) => (m, Thrown(e))
    else (m, Ok(Bool(false)))
  }

  /** `updatePersistentAttribute(h, "constructor", v)` rejects: the patch
      `{constructor: v}` owns a `constructor`, so `isObject` refuses it. */
  lemma UpdateConstructorRejected(m: Manager, val: Json)
    ensures UpdatePersistentAttribute(m, Str("constructor"), val) == (m, Thrown(Error(NotAnObject)))
  {
    ConstructorKey();
  }

  /** The key "constructor" is one segment, and not mergeable. */
  lemma ConstructorKey()
    ensures Split("constructor", '.') == ["constructor"] && !Mergeable("constructor")
  {
    var key := "constructor";
    SplitPrefix(key, [], '.');
    assert key + [] == key;
  }

  /** An update with a mergeable dotted key replaces the whole top-level
      entry: what was stored under the first segment before is gone,
      siblings of the written leaf included; every other key of the scope
      stays. */
  lemma UpdateReplacesTopKey(m: Manager, key: string, val: Json, k: string)
    requires key != "" && Mergeable(key)
    ensures var after := UpdateSessionAttribute(m, Str(key), val).session;
      var parts := Split(key, '.');
      && TopKey(key) in after
      && after[TopKey(key)] == (if |parts| == 1 then val else Nest(parts[1..], val))
      && (k != TopKey(key) ==> (k in after <==> k in m.session) && (k in m.session ==> after[k] == m.session[k]))
  {
  }

  /** After an update with a well-formed, mergeable key, reading the key
      back from the scope gives the written value. */
  lemma UpdateReadsBack(m: Manager, key: string, val: Json, fallback: Json)
    requires key != "" && key[|key| - 1] != '.' && !val.Undefined?
    requires Mergeable(key)
    ensures Get(key, Obj(UpdateRequestAttribute(m, Str(key), val).request), fallback) == val
  {
    var parts := Split(key, '.');
    var after := UpdateRequestAttribute(m, Str(key), val).request;
    var nest := Nest(parts, val);
    SplitLastEmpty(key, '.');
    LookupNest(parts, val);
    assert Own(Obj(after), parts[0]) == Own(nest, parts[0]);
  }

  // ------------------------------------------------------- responseInterceptor

  /** The outcome of `savePersistentAttributes`, which talks to the store. */
  datatype SaveOutcome = SaveSucceeds | SaveFails(error: JsError)

  /** What `process` returns: nothing, or a promise that resolves or
      rejects. */
  datatype Returned = NoPromise | Resolved | Rejected(error: JsError)

  /** The flag that marks the persistent scope as saved this turn. */
  predicate FlagSet(m: Manager) {
    SavedFlag in m.request && m.request[SavedFlag] == Bool(true)
  }

  /** `persistence.responseInterceptor.process`: unless the flag is already
      `true`, it sets the flag and then saves, passing a failed save's error
      on unchanged. */
  function Process(m: Manager, save: SaveOutcome): (r: (Manager, Returned))
    ensures FlagSet(r.0)
    ensures FlagSet(m) ==> r == (m, NoPromise)
    ensures !FlagSet(m) ==> r.0.saves == m.saves + 1
    ensures !FlagSet(m) ==> r.1 == (if save.SaveFails? then Rejected(save.error) else Resolved)
    ensures r.0.session == m.session && r.0.persistent == m.persistent
    ensures forall k :: k != SavedFlag ==> (k in r.0.request <==> k in m.request)
    ensures forall k :: k != SavedFlag && k in m.request ==> r.0.request[k] == m.request[k]
  {
    FlagRead(m);
    var notSaved := Get(SavedFlag, Obj(m.request), Undefined) != Bool(true);
    if notSaved then
      var flagged := SetRequestAttributes(m, Obj(map[SavedFlag := Bool(true)]));
      (flagged.(saves := flagged.saves + 1), if save.SaveFails? then Rejected(save.error) else Resolved)
    else (m, NoPromise)
  }

  /** `get` of the flag reads the request scope's own entry. */
  lemma FlagRead(m: Manager)
    ensures (Get(SavedFlag, Obj(m.request), Undefined) == Bool(true)) == FlagSet(m)
  {
    assert '.' !in SavedFlag;
    GetSingleKey(SavedFlag, Obj(m.request), Undefined);
  }

  /** One call a turn may make on the coordinator. */
  datatype Op =
    | Intercept(save: SaveOutcome)
    | SetRequest(attribs: Json)
    | SetSession(attribs: Json)
    | SetPersistent(attribs: Json)
    | UpdateRequest(key: Json, val: Json)
    | UpdateSession(key: Json, val: Json)
    | UpdatePersistent(key: Json, val: Json)

  function Apply(m: Manager, op: Op): Manager {
    match op
    case Intercept(save) => Process(m, save).0
    case SetRequest(a) => SetRequestAttributes(m, a)
    case SetSession(a) => SetSessionAttributes(m, a)
    case SetPersistent(a) => if SetPersistentAttributes(m, a).Ok? then SetPersistentAttributes(m, a).value else m
    case UpdateRequest(k, v) => UpdateRequestAttribute(m, k, v)
    case UpdateSession(k, v) => UpdateSessionAttribute(m, k, v)
    case UpdatePersistent(k, v) => UpdatePersistentAttribute(m, k, v).0
  }

  function Run(m: Manager, ops: seq<Op>): Manager
    decreases |ops|
  {
    if ops == [] then m else Run(Apply(m, ops[0]), ops[1..])
  }

  /** The op does not write the saved flag itself. */
  predicate KeepsFlag(op: Op) {
    match op
    case SetRequest(a) => !(IsPlainObject(a) && SavedFlag in a.fields)
    case UpdateRequest(k, _) => !(UsableKey(k) && TopKey(k.s) == SavedFlag)
    case _ => true
  }

  predicate HasIntercept(ops: seq<Op>)
    decreases |ops|
  {
    ops != [] && (ops[0].Intercept? || HasIntercept(ops[1..]))
  }

  /** One op changes the save count only when it is the interceptor and
      the flag is not yet set, and the flag stays set once it is set. */
  lemma ApplyStep(m: Manager, op: Op)
    requires KeepsFlag(op)
    ensures Apply(m, op).saves == m.saves + (if op.Intercept? && !FlagSet(m) then 1 else 0)
    ensures FlagSet(Apply(m, op)) == (FlagSet(m) || op.Intercept?)
  {
    match op
    case UpdateRequest(k, v) =>
      if UsableKey(k) && Patch(k.s, v).Obj? {
        assert SavedFlag !in Patch(k.s, v).fields;
      }
    case _ =>
  }

  /** Within one turn, as long as nothing else writes the flag, the store is
      saved exactly once if the turn is intercepted and the flag was not yet
      set, and never otherwise. */
  lemma {:induction false} AtMostOneSave(m: Manager, ops: seq<Op>)
    requires forall i :: 0 <= i < |ops| ==> KeepsFlag(ops[i])
    ensures Run(m, ops).saves == m.saves + (if !FlagSet(m) && HasIntercept(ops) then 1 else 0)
    ensures FlagSet(Run(m, ops)) == (FlagSet(m) || HasIntercept(ops))
    decreases |ops|
  {
    if ops != [] {
      assert KeepsFlag(ops[0]);
      ApplyStep(m, ops[0]);
      assert forall i :: 0 <= i < |ops[1..]| ==> KeepsFlag(ops[1..][i]) by {
        forall i | 0 <= i < |ops[1..]| ensures KeepsFlag(ops[1..][i]) {
          assert ops[1..][i] == ops[i + 1];
        }
      }
      AtMostOneSave(Apply(m, ops[0]), ops[1..]);
    }
  }
}
