/** The object utilities of the utilities module: random index picking
    (`randomIndex`), membership (`checkValInArray`), deep copying
    (`cloneObj`) and the removal of empty strings
    (`removeEmptyStringElements`). */
module ObjectUtils {
  import opened Text
  import opened Js

  // --------------------------------------------------------------- randomIndex

  /** `utils.randomIndex`. `draw` stands for the outcome of `Math.random()`:
      every index in range is the result of some draw. A non-number or zero
      length gives 0; a negative length gives an index between it and 0,
      as flooring a product in `(len, 0]` does. */
  function RandomIndex(len: Json, draw: nat): (r: int)
    ensures len.Num? && len.n > 0 ==> 0 <= r < len.n
    ensures len.Num? && len.n < 0 ==> len.n <= r <= 0
    ensures !(len.Num? && len.n != 0) ==> r == 0
  {
    if Truthy(len) && len.Num? then
      if len.n > 0 then draw % len.n else -(draw % (1 - len.n))
    else 0
  }

  /** No index in range is out of reach of the oracle. */
  lemma RandomIndexCovers(len: nat, i: nat)
    requires i < len
    ensures RandomIndex(Num(len), i) == i
  {
  }

  // ----------------------------------------------------------- checkValInArray

  /** `utils.checkValInArray`: the value itself when it occurs in the array
      (or, for a string, as a substring), `null` otherwise; a truthy second
      argument without `indexOf` throws. */
  function CheckValInArray(val: Json, arr: Json): (r: Result<Json>)
    ensures !Truthy(val) || !Truthy(arr) ==> r == Ok(Null)
    ensures Truthy(val) && arr.Arr? ==> r == Ok(if val in arr.items then val else Null)
    ensures Truthy(val) && Truthy(arr) && arr.Str? ==>
      r == Ok(if Contains(arr.s, ToJsString(val)) then val else Null)
    ensures Truthy(val) && Truthy(arr) && !arr.Arr? && !arr.Str? ==> r == Thrown(TypeError)
  {
    if Truthy(val) && Truthy(arr) then
      var i :- IndexOf(arr, val);
      Ok(if i > -1 then val else Null)
    else Ok(Null)
  }

  // ------------------------------------------------------------------ cloneObj

  /** One property of the copy: objects and arrays are copied in turn,
      everything else (including `null`) is taken as it is. */
  function CloneEntry(x: Json): Json
    decreases x, 1
  {
    if Truthy(x) && IsObjectType(x) then CloneObj(x) else x
  }

  /** `utils.cloneObj`: a fresh array for an array and a fresh object for
      anything else, filled with copies of the enumerable properties. A
      string is copied into an object keyed by its indices; other primitives
      have no enumerable properties and give `{}`. */
  function CloneObj(v: Json): (r: Json)
    ensures v.Arr? <==> r.Arr?
    ensures !v.Arr? ==> r.Obj?
    ensures !IsObjectType(v) && !v.Str? ==> r == Obj(map[])
    decreases v, 0
  {
    match v
    case Arr(xs) => Arr(seq(|xs|, i requires 0 <= i < |xs| => CloneEntry(xs[i])))
    case Obj(m) => Obj(map k | k in m :: CloneEntry(m[k]))
    case Str(_) => Obj(Enumerable(v))
    case _ => Obj(map[])
  }

  /** With value semantics a deep copy is equal to the original: every
      object and array comes back with the same entries at every depth. */
  lemma {:induction false} CloneObjIsCopy(v: Json)
    requires v.Obj? || v.Arr?
    ensures CloneObj(v) == v
    decreases v, 0
  {
    match v
    case Arr(xs) =>
      forall i | 0 <= i < |xs| ensures CloneEntry(xs[i]) == xs[i] {
        CloneEntryIsCopy(xs[i]);
      }
      assert CloneObj(v).items == xs;
    case Obj(m) =>
      forall k | k in m ensures CloneEntry(m[k]) == m[k] {
        CloneEntryIsCopy(m[k]);
      }
      assert CloneObj(v).fields == m;
  }

  lemma {:induction false} CloneEntryIsCopy(x: Json)
    ensures CloneEntry(x) == x
    decreases x, 1
  {
    if Truthy(x) && IsObjectType(x) {
      CloneObjIsCopy(x);
    }
  }

  /** Copying a string gives an object with one one-character entry per
      index. */
  lemma CloneObjString(s: string, i: nat)
    requires i < |s| <= MaxArrayIndex
    ensures CloneObj(Str(s)).Obj? && NatToString(i) in CloneObj(Str(s)).fields
    ensures CloneObj(Str(s)).fields[NatToString(i)] == Str([s[i]])
  {
    IndexKeyRoundTrip(i);
    assert NatToString(i) in IndexKeys(|s|);
  }

  // ------------------------------------------------- removeEmptyStringElements

  /** One property after the clean-up: nested objects and arrays are cleaned
      in place (`typeof null` is `"object"` too, and cleaning it does
      nothing). */
  function CleanEntry(x: Json): Json
    decreases x, 1
  {
    if IsObjectType(x) then RemoveEmptyStringElements(x) else x
  }

  /** `utils.removeEmptyStringElements`: every property whose value is the
      empty string is deleted, at every depth. Deleting an array element
      leaves a hole, which reads as `undefined`. Primitives, strings
      included, come back unchanged. */
  function RemoveEmptyStringElements(v: Json): (r: Json)
    ensures v.Obj? ==> r.Obj? && r.fields.Keys == set k | k in v.fields && v.fields[k] != Str("")
    ensures v.Arr? ==> r.Arr? && |r.items| == |v.items|
    ensures !v.Obj? && !v.Arr? ==> r == v
    decreases v, 0
  {
    match v
    case Obj(m) => Obj(map k | k in m && m[k] != Str("") :: CleanEntry(m[k]))
    case Arr(xs) =>
      Arr(seq(|xs|, i requires 0 <= i < |xs| => if xs[i] == Str("") then Undefined else CleanEntry(xs[i])))
    case _ => v
  }

  /** No empty string is left anywhere inside an object or array. */
  predicate NoEmptyStrings(v: Json)
    decreases v
  {
    match v
    case Obj(m) => forall k :: k in m ==> m[k] != Str("") && NoEmptyStrings(m[k])
    case Arr(xs) => forall i :: 0 <= i < |xs| ==> xs[i] != Str("") && NoEmptyStrings(xs[i])
    case _ => true
  }

  /** After the clean-up no empty string is left inside. */
  lemma {:induction false} RemoveEmptyCleans(v: Json)
    requires IsObjectType(v)
    ensures NoEmptyStrings(RemoveEmptyStringElements(v))
    decreases v, 0
  {
    match v
    case Obj(m) =>
      forall k | k in m && m[k] != Str("") ensures NoEmptyStrings(CleanEntry(m[k])) {
        CleanEntryCleans(m[k]);
      }
    case Arr(xs) =>
      forall i | 0 <= i < |xs| && xs[i] != Str("") ensures NoEmptyStrings(CleanEntry(xs[i])) {
        CleanEntryCleans(xs[i]);
      }
    case Null =>
  }

  lemma {:induction false} CleanEntryCleans(x: Json)
    requires x != Str("")
    ensures CleanEntry(x) != Str("") && NoEmptyStrings(CleanEntry(x))
    decreases x, 1
  {
    if IsObjectType(x) {
      RemoveEmptyCleans(x);
    }
  }

  /** A value without empty strings is left as it is. */
  lemma {:induction false} RemoveEmptyFixes(v: Json)
    requires NoEmptyStrings(v)
    ensures RemoveEmptyStringElements(v) == v
    decreases v, 0
  {
    match v
    case Obj(m) =>
      forall k | k in m ensures CleanEntry(m[k]) == m[k] {
        CleanEntryFixes(m[k]);
      }
      assert RemoveEmptyStringElements(v).fields == m;
    case Arr(xs) =>
      forall i | 0 <= i < |xs| ensures CleanEntry(xs[i]) == xs[i] {
        CleanEntryFixes(xs[i]);
      }
      assert RemoveEmptyStringElements(v).items == xs;
    case _ =>
  }

  lemma {:induction false} CleanEntryFixes(x: Json)
    requires NoEmptyStrings(x)
    ensures CleanEntry(x) == x
    decreases x, 1
  {
    if IsObjectType(x) {
      RemoveEmptyFixes(x);
    }
  }

  /** Cleaning twice is cleaning once. */
  lemma RemoveEmptyIdempotent(v: Json)
    ensures RemoveEmptyStringElements(RemoveEmptyStringElements(v)) == RemoveEmptyStringElements(v)
  {
    if IsObjectType(v) {
      RemoveEmptyCleans(v);
      RemoveEmptyFixes(RemoveEmptyStringElements(v));
    }
  }
}
