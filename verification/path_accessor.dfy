/** The dot-path accessor of the utilities module: `get(key, source, fallback)`
    and `set(key, source, value)`, over which every other component reads and
    writes its nested mappings. */
module PathAccessor {
  import opened Text
  import opened Js

  /** `get` replaces an `undefined` fallback by `false`. */
  function DefaultFallback(fallback: Json): Json {
    if fallback.Undefined? then Bool(false) else fallback
  }

  /** The value the remaining key `parts` reaches from `source`, following the
      recursion of `get`: a step fails when the remaining key is empty (the
      parts are just `[""]`), when the source is falsy, or when the segment is
      not an own property or holds `undefined`. */
  function Lookup(parts: seq<string>, source: Json): (r: Option<Json>)
    requires |parts| >= 1
    ensures r.Some? ==> !r.value.Undefined?
    decreases |parts|
  {
    if parts == [""] || !Truthy(source) then None
    else match Own(source, parts[0])
      case None => None
      case Some(v) =>
        if v.Undefined? then None
        else if |parts| == 1 then Some(v)
        else Lookup(parts[1..], v)
  }

  /** `utils.get`: the value the dotted key reaches, else the fallback. */
  function Get(key: string, source: Json, fallback: Json): Json {
    match Lookup(Split(key, '.'), source)
    case Some(v) => v
    case None => DefaultFallback(fallback)
  }

  /** `get` never yields `undefined`: a reached `undefined` counts as
      missing, and an `undefined` fallback becomes `false`. */
  lemma GetDefined(key: string, source: Json, fallback: Json)
    ensures !Get(key, source, fallback).Undefined?
  {
  }

  /** `get` recurses on the re-joined remaining key; re-splitting it gives the
      remaining parts back, so `Lookup` over the parts is the same walk. */
  lemma GetRecursion(key: string, source: Json, fallback: Json)
    requires key != "" && Truthy(source)
    requires |Split(key, '.')| > 1
    ensures var parts := Split(key, '.');
      Own(source, parts[0]).Some? && !Own(source, parts[0]).value.Undefined? ==>
        Get(key, source, fallback)
        == Get(Join(parts[1..], '.'), Own(source, parts[0]).value, DefaultFallback(fallback))
  {
    var parts := Split(key, '.');
    SplitJoin(parts[1..], '.');
    assert Split(Join(parts[1..], '.'), '.') == parts[1..];
  }

  /** The three ways `get` falls back: an empty key, a falsy source, or a first
      segment that is not an own property or holds `undefined`. The fallback
      defaults to `false`. */
  lemma GetFallback(key: string, source: Json, fallback: Json)
    requires key == "" || !Truthy(source)
      || Own(source, Split(key, '.')[0]).None? || Own(source, Split(key, '.')[0]) == Some(Undefined)
    ensures Get(key, source, fallback) == (if fallback.Undefined? then Bool(false) else fallback)
  {
  }

  /** An intermediate value that is falsy (`null`, `undefined`, `0`, `""`,
      `false`) ends the walk with the fallback. */
  lemma {:induction false} GetFalsyIntermediate(key: string, source: Json, fallback: Json)
    requires |Split(key, '.')| > 1
    requires Own(source, Split(key, '.')[0]).Some? && !Truthy(Own(source, Split(key, '.')[0]).value)
    ensures Get(key, source, fallback) == DefaultFallback(fallback)
  {
    var parts := Split(key, '.');
    assert |parts[1..]| >= 1;
    assert Lookup(parts[1..], Own(source, parts[0]).value) == None;
  }

  /** The object holding `v` at the path `parts` and nothing else. */
  function Nest(parts: seq<string>, v: Json): (r: Json)
    requires |parts| >= 1
    ensures r.Obj?
    decreases |parts|
  {
    if |parts| == 1 then Obj(map[parts[0] := v]) else Obj(map[parts[0] := Nest(parts[1..], v)])
  }

  /** `get` returns the stored value verbatim (`null`, `0` and `false`
      included) when every segment of the key leads to it. */
  lemma {:induction false} LookupNest(parts: seq<string>, v: Json)
    requires |parts| >= 1 && parts[|parts| - 1] != ""
    requires !v.Undefined?
    ensures Lookup(parts, Nest(parts, v)) == Some(v)
    decreases |parts|
  {
    if |parts| > 1 {
      LookupNest(parts[1..], v);
    }
  }

  lemma GetNest(key: string, v: Json, fallback: Json)
    requires key != "" && key[|key| - 1] != '.'
    requires !v.Undefined?
    ensures Get(key, Nest(Split(key, '.'), v), fallback) == v
  {
    SplitLastEmpty(key, '.');
    LookupNest(Split(key, '.'), v);
  }

  /** A key without dots reads one own property: the value stored there
      unless the source is falsy or the property is missing or `undefined`. */
  lemma GetSingleKey(key: string, source: Json, fallback: Json)
    requires key != "" && '.' !in key
    ensures Get(key, source, fallback)
      == (if Truthy(source) && Own(source, key).Some? && !Own(source, key).value.Undefined?
          then Own(source, key).value else DefaultFallback(fallback))
  {
    SplitJoin([key], '.');
  }

  /** `get` of a dotted path, written on the path's segments. */
  function PathOr(parts: seq<string>, v: Json, fallback: Json): Json
    requires |parts| >= 1
  {
    match Lookup(parts, v) case Some(x) => x case None => DefaultFallback(fallback)
  }

  /** A key joined from dot-free segments walks exactly those segments. */
  lemma GetJoined(parts: seq<string>, source: Json, fallback: Json)
    requires |parts| >= 1 && forall i :: 0 <= i < |parts| ==> '.' !in parts[i]
    ensures Get(Join(parts, '.'), source, fallback) == PathOr(parts, source, fallback)
  {
    SplitJoin(parts, '.');
  }

  /** `get(k, v, fallback)` for a key without dots, read directly: the own
      property unless `v` is falsy or the property is missing or
      `undefined`. */
  function FieldOr(v: Json, k: string, fallback: Json): Json {
    if Truthy(v) && Own(v, k).Some? && !Own(v, k).value.Undefined? then Own(v, k).value else fallback
  }

  lemma GetField(k: string, v: Json, fallback: Json)
    requires k != "" && '.' !in k
    ensures Get(k, v, fallback) == FieldOr(v, k, DefaultFallback(fallback))
  {
    GetSingleKey(k, v, fallback);
  }

  /** Assignment `container[k] = v` in strict mode: objects take any key,
      arrays take an index inside or just past their end; writing to a
      primitive throws. */
  function Put(container: Json, k: string, v: Json): (r: Result<Json>)
    ensures r.Ok? ==> (r.value.Obj? || r.value.Arr?) && Own(r.value, k) == Some(v)
    ensures r.Ok? <==> container.Obj? || (container.Arr? && CanonicalIndex(k).Some? && CanonicalIndex(k).value <= |container.items|)
  {
    match container
    case Obj(m) => Ok(Obj(m[k := v]))
    case Arr(xs) =>
      if CanonicalIndex(k).Some? && CanonicalIndex(k).value < |xs| then Ok(Arr(xs[CanonicalIndex(k).value := v]))
      else if CanonicalIndex(k).Some? && CanonicalIndex(k).value == |xs| then Ok(Arr(xs + [v]))
      else Thrown(Unmodelled)
    case _ => Thrown(TypeError)
  }

  /** Writing back the value a property already holds changes nothing. */
  lemma PutExisting(container: Json, k: string)
    requires container.Obj? || container.Arr?
    requires Own(container, k).Some? && (container.Obj? || k != "length")
    ensures Put(container, k, Own(container, k).value) == Ok(container)
  {
    if container.Obj? {
      assert container.fields[k := container.fields[k]] == container.fields;
    } else {
      var i := CanonicalIndex(k).value;
      assert container.items[i := container.items[i]] == container.items;
    }
  }

  /** Where `set`'s walk stands: the (mutated) current object, and whether the
      final assignment was reached. */
  datatype Walked = Walked(schema: Json, completed: bool)

  /** The loop of `set` over the parts of the key. An intermediate read
      that finds an inherited method meets a function and stops the walk; a
      falsy intermediate is replaced by `{}`; a truthy one that is not an
      object stops the walk; the last part is assigned. Objects are shared,
      so an intermediate's mutation is written back into its parent. */
  function SetWalk(parts: seq<string>, schema: Json, value: Json): (r: Result<Walked>)
    requires |parts| >= 1
    ensures r.Ok? && r.value.completed ==> r.value.schema.Obj? || r.value.schema.Arr?
    ensures r.Ok? ==> r.value.schema == schema || r.value.schema.Obj? || r.value.schema.Arr?
    decreases |parts|
  {
    if |parts| == 1 then
      var s :- Put(schema, parts[0], value);
      Ok(Walked(s, true))
    else
      var elem := parts[0];
      if InheritsMethod(schema, elem) then Ok(Walked(schema, false))
      else
        var schema1 :- if Truthy(Prop(schema, elem)) then Ok(schema) else Put(schema, elem, Obj(map[]));
        var child := Prop(schema1, elem);
        if !IsObjectType(child) then Ok(Walked(schema1, false))
        else
          var inner :- SetWalk(parts[1..], child, value);
          var schema2 :- Put(schema1, elem, inner.schema);
          Ok(Walked(schema2, inner.completed))
  }

  /** The outcome of `set`: the state of `source` afterwards (it is mutated in
      place) and whether `set` returned it (`completed`) or returned `null`. */
  datatype Written = Written(after: Json, completed: bool) {
    /** The value `set` returns. */
    function Returned(): Json {
      if completed then after else Null
    }
  }

  /** `utils.set`. */
  function Set(key: string, source: Json, value: Json): (r: Result<Written>)
    ensures key == "" || !Truthy(source) ==> r == Ok(Written(source, false))
    ensures r.Ok? && r.value.completed ==> r.value.Returned() == r.value.after
  {
    if key == "" || !Truthy(source) then Ok(Written(source, false))
    else
      var w :- SetWalk(Split(key, '.'), source, value);
      Ok(Written(w.schema, w.completed))
  }

  /** No part before the last names a method every object inherits, so the
      walk never meets a function where it descends. */
  predicate NoMethodSegment(parts: seq<string>) {
    forall i :: 0 <= i < |parts| - 1 ==> parts[i] !in ObjectPrototypeMethods
  }

  /** Walking a fresh empty object along parts that name no inherited method
      completes and builds exactly the nested object for the path. */
  lemma {:induction false} WalkFresh(parts: seq<string>, value: Json)
    requires |parts| >= 1 && NoMethodSegment(parts)
    ensures SetWalk(parts, Obj(map[]), value) == Ok(Walked(Nest(parts, value), true))
    decreases |parts|
  {
    if |parts| > 1 {
      var elem := parts[0];
      var schema1 := Obj(map[elem := Obj(map[])]);
      assert !InheritsMethod(Obj(map[]), elem);
      assert Put(Obj(map[]), elem, Obj(map[])) == Ok(schema1);
      assert Prop(schema1, elem) == Obj(map[]);
      assert NoMethodSegment(parts[1..]) by {
        forall i | 0 <= i < |parts[1..]| - 1 ensures parts[1..][i] !in ObjectPrototypeMethods {
          assert parts[1..][i] == parts[i + 1];
        }
      }
      WalkFresh(parts[1..], value);
      assert map[elem := Obj(map[])][elem := Nest(parts[1..], value)] == map[elem := Nest(parts[1..], value)];
    }
  }

  /** On a fresh empty object, a part before the last that names an
      inherited method stops the walk. */
  lemma {:induction false} WalkFreshStops(parts: seq<string>, value: Json)
    requires |parts| >= 1 && !NoMethodSegment(parts)
    ensures SetWalk(parts, Obj(map[]), value).Ok? && !SetWalk(parts, Obj(map[]), value).value.completed
    decreases |parts|
  {
    var elem := parts[0];
    if elem !in ObjectPrototypeMethods {
      var i :| 0 <= i < |parts| - 1 && parts[i] in ObjectPrototypeMethods;
      assert parts[1..][i - 1] == parts[i];
      WalkFreshStops(parts[1..], value);
      assert Prop(Obj(map[elem := Obj(map[])]), elem) == Obj(map[]);
    }
  }

  /** `set(key, {}, value)` returns the object holding `value` at the key's
      path when no part before the last names an inherited method, and
      `null` otherwise. */
  lemma SetOnEmpty(key: string, value: Json)
    requires key != ""
    ensures NoMethodSegment(Split(key, '.')) ==> Set(key, Obj(map[]), value) == Ok(Written(Nest(Split(key, '.'), value), true))
    ensures !NoMethodSegment(Split(key, '.')) ==> Set(key, Obj(map[]), value).Ok? && Set(key, Obj(map[]), value).value.Returned() == Null
  {
    if NoMethodSegment(Split(key, '.')) {
      WalkFresh(Split(key, '.'), value);
    } else {
      WalkFreshStops(Split(key, '.'), value);
    }
  }

  /** `set` can return `null` after writing: the walk creates the objects
      before a part naming an inherited method and then stops, so
      `set("a.constructor.x", {}, 1)` leaves `{a: {}}` behind. */
  lemma SetWritesBeforeStopping()
    ensures Set(Join(["a", "constructor", "x"], '.'), Obj(map[]), Num(1)) == Ok(Written(Obj(map["a" := Obj(map[])]), false))
  {
    var parts := ["a", "constructor", "x"];
    SplitJoin(parts, '.');
    assert parts[1..] == ["constructor", "x"];
    assert InheritsMethod(Obj(map[]), "constructor");
    assert SetWalk(parts[1..], Obj(map[]), Num(1)) == Ok(Walked(Obj(map[]), false));
    assert !InheritsMethod(Obj(map[]), "a");
    var schema1 := Obj(map["a" := Obj(map[])]);
    assert Put(Obj(map[]), "a", Obj(map[])) == Ok(schema1);
    assert Prop(schema1, "a") == Obj(map[]);
    assert map["a" := Obj(map[])]["a" := Obj(map[])] == map["a" := Obj(map[])];
    assert SetWalk(parts, Obj(map[]), Num(1)) == Ok(Walked(schema1, false));
  }

  /** A walk that stops early along parts that name no inherited method has
      changed nothing: an intermediate is only created when every later one
      will be created too. */
  lemma {:induction false} WalkStoppedUnchanged(parts: seq<string>, schema: Json, value: Json)
    requires |parts| >= 1 && NoMethodSegment(parts)
    requires SetWalk(parts, schema, value).Ok? && !SetWalk(parts, schema, value).value.completed
    ensures SetWalk(parts, schema, value).value.schema == schema
    decreases |parts|
  {
    if |parts| > 1 {
      var elem := parts[0];
      assert NoMethodSegment(parts[1..]) by {
        forall i | 0 <= i < |parts[1..]| - 1 ensures parts[1..][i] !in ObjectPrototypeMethods {
          assert parts[1..][i] == parts[i + 1];
        }
      }
      assert !InheritsMethod(schema, elem);
      if Truthy(Prop(schema, elem)) {
        var child := Prop(schema, elem);
        if IsObjectType(child) {
          var inner := SetWalk(parts[1..], child, value);
          WalkStoppedUnchanged(parts[1..], child, value);
          assert schema.Obj? || schema.Arr? by {
            assert Own(schema, elem).Some?;
          }
          assert schema.Obj? || elem != "length";
          PutExisting(schema, elem);
        }
      } else {
        var schema1 := Put(schema, elem, Obj(map[])).value;
        var child := Prop(schema1, elem);
        assert child == Obj(map[]);
        WalkFresh(parts[1..], value);
      }
    }
  }

  /** When `set` returns `null` for a key none of whose parts before the
      last names an inherited method, the source is left exactly as it
      was. */
  lemma SetNullLeavesSource(key: string, source: Json, value: Json)
    requires NoMethodSegment(Split(key, '.'))
    requires Set(key, source, value).Ok? && !Set(key, source, value).value.completed
    ensures Set(key, source, value).value.after == source
  {
    if key != "" && Truthy(source) {
      WalkStoppedUnchanged(Split(key, '.'), source, value);
    }
  }

  /** An existing truthy intermediate that is not an object makes `set`
      return `null` without touching the source. */
  lemma SetRefusesScalar(key: string, source: Json, value: Json)
    requires Truthy(source) && |Split(key, '.')| > 1
    requires Truthy(Prop(source, Split(key, '.')[0])) && !IsObjectType(Prop(source, Split(key, '.')[0]))
    ensures Set(key, source, value) == Ok(Written(source, false))
  {
  }

  /** After a completed walk the path leads to the written value. */
  lemma {:induction false} LookupAfterWalk(parts: seq<string>, schema: Json, value: Json)
    requires |parts| >= 1 && parts[|parts| - 1] != ""
    requires !value.Undefined?
    requires SetWalk(parts, schema, value).Ok? && SetWalk(parts, schema, value).value.completed
    ensures Lookup(parts, SetWalk(parts, schema, value).value.schema) == Some(value)
    decreases |parts|
  {
    if |parts| > 1 {
      var elem := parts[0];
      var schema1 := (if Truthy(Prop(schema, elem)) then Ok(schema) else Put(schema, elem, Obj(map[]))).value;
      var child := Prop(schema1, elem);
      LookupAfterWalk(parts[1..], child, value);
    }
  }

  /** `set` followed by `get` of the same key gives back the written value,
      for any key that does not end in a dot and any value but `undefined`. */
  lemma GetAfterSet(key: string, source: Json, value: Json, fallback: Json)
    requires key != "" && key[|key| - 1] != '.'
    requires !value.Undefined?
    requires Set(key, source, value).Ok? && Set(key, source, value).value.completed
    ensures Get(key, Set(key, source, value).value.after, fallback) == value
  {
    SplitLastEmpty(key, '.');
    LookupAfterWalk(Split(key, '.'), source, value);
  }

  /** On an object source, `set` changes no top-level key other than the first
      segment of its path. */
  lemma SetKeepsOtherKeys(key: string, source: Json, value: Json, k: string)
    requires source.Obj?
    requires Set(key, source, value).Ok?
    requires k != Split(key, '.')[0]
    ensures Own(Set(key, source, value).value.after, k) == Own(source, k)
  {
    if key != "" {
      WalkKeepsOtherKeys(Split(key, '.'), source, value, k);
    }
  }

  /** A walk over an object writes only the entry of its first part. */
  lemma WalkKeepsOtherKeys(parts: seq<string>, schema: Json, value: Json, k: string)
    requires |parts| >= 1 && schema.Obj? && SetWalk(parts, schema, value).Ok? && k != parts[0]
    ensures Own(SetWalk(parts, schema, value).value.schema, k) == Own(schema, k)
  {
    if |parts| > 1 {
      var elem := parts[0];
      var schema1 := if Truthy(Prop(schema, elem)) then schema else Obj(schema.fields[elem := Obj(map[])]);
      assert Own(schema1, k) == Own(schema, k);
    }
  }

  /** Two paths that part ways: neither is a prefix of the other. */
  predicate Diverge(p: seq<string>, q: seq<string>)
    decreases |p|
  {
    p != [] && q != [] && (p[0] != q[0] || Diverge(p[1..], q[1..]))
  }

  /** An assignment leaves every other property, except the `length` of an
      array it appends to. */
  lemma PutElsewhere(container: Json, k: string, v: Json, k2: string)
    requires Put(container, k, v).Ok? && k2 != k && k2 != "length"
    ensures Own(Put(container, k, v).value, k2) == Own(container, k2)
  {
    if container.Arr? && CanonicalIndex(k2).Some? && CanonicalIndex(k2) == CanonicalIndex(k) {
      CanonicalIndexInjective(k, k2);
    }
  }

  /** Two truthy values that agree on the first segment of a path agree on
      the whole path. */
  lemma LookupSameHead(q: seq<string>, a: Json, b: Json)
    requires |q| >= 1 && Truthy(a) && Truthy(b) && Own(a, q[0]) == Own(b, q[0])
    ensures Lookup(q, a) == Lookup(q, b)
  {
  }

  /** A longer path goes on from the defined property its first segment
      names. */
  lemma LookupThrough(q: seq<string>, a: Json)
    requires |q| > 1 && Truthy(a) && Own(a, q[0]).Some? && !Own(a, q[0]).value.Undefined?
    ensures Lookup(q, a) == Lookup(q[1..], Own(a, q[0]).value)
  {
  }

  /** A longer path through a falsy property reaches nothing, and neither
      does any path through an empty object. */
  lemma LookupFalsyHead(q: seq<string>, a: Json)
    requires |q| > 1 && !Truthy(Prop(a, q[0]))
    ensures Lookup(q, a) == None && Lookup(q[1..], Obj(map[])) == None
  {
  }

  /** A walk leaves every path that starts elsewhere, unless it reads the
      `length` the walk may change. */
  lemma WalkOffPath(parts: seq<string>, q: seq<string>, schema: Json, value: Json)
    requires |parts| >= 1 && |q| >= 1 && q[0] != parts[0] && q[0] != "length"
    requires SetWalk(parts, schema, value).Ok?
    ensures Lookup(q, SetWalk(parts, schema, value).value.schema) == Lookup(q, schema)
  {
    var elem := parts[0];
    var after := SetWalk(parts, schema, value).value.schema;
    if |parts| == 1 {
      PutElsewhere(schema, elem, value, q[0]);
      LookupSameHead(q, after, schema);
    } else if !InheritsMethod(schema, elem) {
      var existing := Truthy(Prop(schema, elem));
      var schema1 := if existing then schema else Put(schema, elem, Obj(map[])).value;
      if !existing {
        PutElsewhere(schema, elem, Obj(map[]), q[0]);
      }
      var child := Prop(schema1, elem);
      if IsObjectType(child) {
        var inner := SetWalk(parts[1..], child, value).value;
        PutElsewhere(schema1, elem, inner.schema, q[0]);
        LookupSameHead(q, after, schema);
      }
    }
  }

  /** A walk leaves every path that parts ways with its own, as long as that
      path reads no `length`: an append to an array lengthens it. */
  lemma {:induction false} WalkElsewhere(parts: seq<string>, q: seq<string>, schema: Json, value: Json)
    requires |parts| >= 1 && |q| >= 1 && Diverge(parts, q)
    requires forall i :: 0 <= i < |q| ==> q[i] != "length"
    requires SetWalk(parts, schema, value).Ok?
    ensures Lookup(q, SetWalk(parts, schema, value).value.schema) == Lookup(q, schema)
    decreases |parts|
  {
    var elem := parts[0];
    if q[0] != elem {
      WalkOffPath(parts, q, schema, value);
    } else if !InheritsMethod(schema, elem) {
      assert |parts| > 1 && Diverge(parts[1..], q[1..]);
      var existing := Truthy(Prop(schema, elem));
      var schema1 := if existing then schema else Put(schema, elem, Obj(map[])).value;
      var child := Prop(schema1, elem);
      if IsObjectType(child) {
        var after := SetWalk(parts, schema, value).value.schema;
        var inner := SetWalk(parts[1..], child, value).value;
        assert after == Put(schema1, elem, inner.schema).value;
        WalkElsewhere(parts[1..], q[1..], child, value);
        LookupThrough(q, after);
        if existing {
          LookupThrough(q, schema);
        } else {
          LookupFalsyHead(q, schema);
        }
      }
    }
  }

  /** `set` leaves every path that parts ways with its key, at any depth, as
      long as that path reads no `length`. */
  lemma SetElsewhere(key: string, source: Json, value: Json, q: seq<string>)
    requires |q| >= 1 && Diverge(Split(key, '.'), q)
    requires forall i :: 0 <= i < |q| ==> q[i] != "length"
    requires Set(key, source, value).Ok?
    ensures Lookup(q, Set(key, source, value).value.after) == Lookup(q, source)
  {
    if key != "" && Truthy(source) {
      WalkElsewhere(Split(key, '.'), q, source, value);
    }
  }
}
