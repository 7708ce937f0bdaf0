/** The JavaScript values the toolkit passes around, and the few language
    rules the modelled code depends on: truthiness, `typeof`, own-property
    lookup, string conversion, `indexOf`/`includes`, and the property view
    that `Object.assign` and `for ... in` enumerate.

    Numbers are integers only (no fractions, NaN or infinities), objects have
    no prototype chain, and two objects are equal when their contents are
    equal (reference identity is not represented). */
module Js {
  import opened Text

  datatype Option<+T> = None | Some(value: T)

  /** The exceptions the modelled code can raise. `Unmodelled` marks a write
      the value model cannot represent (a named or sparse property on an
      array); it never stands for JavaScript behaviour. */
  datatype JsError = TypeError | ReferenceError | Error(message: string) | Unmodelled

  /** A computation that returns a value or throws. */
  datatype Result<+T> = Ok(value: T) | Thrown(error: JsError) {
    predicate IsFailure() {
      Thrown?
    }

    function PropagateFailure<U>(): Result<U>
      requires Thrown?
    {
      Thrown(error)
    }

    function Extract(): T
      requires Ok?
    {
      value
    }
  }

  datatype Json =
    | Undefined
    | Null
    | Bool(b: bool)
    | Num(n: int)
    | Str(s: string)
    | Arr(items: seq<Json>)
    | Obj(fields: map<string, Json>)

  /** JavaScript's `ToBoolean`: `undefined`, `null`, `false`, `0` and `""`
      are falsy, everything else is truthy. */
  predicate Truthy(v: Json) {
    match v
    case Undefined => false
    case Null => false
    case Bool(b) => b
    case Num(n) => n != 0
    case Str(s) => s != ""
    case Arr(_) => true
    case Obj(_) => true
  }

  /** `typeof v === "object"` (true of `null` as well). */
  predicate IsObjectType(v: Json) {
    v.Null? || v.Arr? || v.Obj?
  }

  /** `utils.isObject`: a truthy value of type "object" whose `constructor`
      is `Object`. Arrays are excluded, and so is an object with an own
      `constructor` property: that property holds a value of this model,
      never the `Object` function, and only without it does the read reach
      the one on `Object.prototype`. */
  predicate IsPlainObject(v: Json) {
    v.Obj? && "constructor" !in v.fields
  }

  /** `isObject` read as written: `!!o && typeof o === "object" &&
      o.constructor === Object`. Arrays fail the last test (their
      `constructor` is `Array`), and so does an object whose own
      `constructor` shadows the inherited one. */
  lemma IsPlainObjectMeaning(v: Json)
    ensures IsPlainObject(v) <==> Truthy(v) && IsObjectType(v) && !v.Arr? && Own(v, "constructor").None?
  {
  }

  /** The methods of `Object.prototype`, which every value other than `null`
      and `undefined` inherits. */
  const ObjectPrototypeMethods: set<string> :=
    {"constructor", "hasOwnProperty", "isPrototypeOf", "propertyIsEnumerable",
     "toLocaleString", "toString", "valueOf",
     "__defineGetter__", "__defineSetter__", "__lookupGetter__", "__lookupSetter__"}

  /** The read `v[k]` finds no own property but an inherited method: a
      function, which is truthy and whose type is not "object". */
  predicate InheritsMethod(v: Json, k: string) {
    !v.Null? && !v.Undefined? && Own(v, k).None? && k in ObjectPrototypeMethods
  }

  /** One more than the largest array index JavaScript allows. */
  const MaxArrayIndex: nat := 4294967295

  function DigitChar(d: nat): char
    requires d < 10
  {
    "0123456789"[d]
  }

  predicate IsDigit(c: char) {
    '0' <= c <= '9'
  }

  /** The decimal text of a natural number, without leading zeros. */
  function NatToString(n: nat): (s: string)
    ensures |s| >= 1
    ensures forall i :: 0 <= i < |s| ==> IsDigit(s[i])
    ensures |s| > 1 ==> s[0] != '0'
  {
    if n < 10 then [DigitChar(n)] else NatToString(n / 10) + [DigitChar(n % 10)]
  }

  /** `String(n)` for an integer. */
  function IntToString(n: int): string {
    if n < 0 then "-" + NatToString(-n) else NatToString(n)
  }

  function DigitsValue(s: string): nat
    requires forall i :: 0 <= i < |s| ==> IsDigit(s[i])
  {
    if s == [] then 0
    else
      assert IsDigit(s[|s| - 1]);
      DigitsValue(s[..|s| - 1]) * 10 + (s[|s| - 1] as int - '0' as int)
  }

  /** The array index a property key denotes, if it is one: the canonical
      decimal text of a number below 2^32 - 1. */
  function CanonicalIndex(k: string): Option<nat> {
    if k != [] && (forall i :: 0 <= i < |k| ==> IsDigit(k[i])) && (|k| == 1 || k[0] != '0')
       && DigitsValue(k) < MaxArrayIndex
    then Some(DigitsValue(k))
    else None
  }

  /** Digits without a leading zero, as in a canonical index. */
  predicate CanonicalDigits(s: string) {
    s != [] && (forall i :: 0 <= i < |s| ==> IsDigit(s[i])) && (|s| == 1 || s[0] != '0')
  }

  /** Digits with a leading non-zero denote a positive number. */
  lemma {:induction false} LeadingDigitPositive(s: string)
    requires s != [] && (forall i :: 0 <= i < |s| ==> IsDigit(s[i])) && s[0] != '0'
    ensures DigitsValue(s) >= 1
    decreases |s|
  {
    if |s| > 1 {
      LeadingDigitPositive(s[..|s| - 1]);
    }
  }

  /** Two canonical numerals with the same value are the same text. */
  lemma {:induction false} CanonicalDigitsInjective(s: string, t: string)
    requires CanonicalDigits(s) && CanonicalDigits(t) && DigitsValue(s) == DigitsValue(t)
    ensures s == t
    decreases |s|
  {
    var n, m := |s|, |t|;
    if n > 1 {
      LeadingDigitPositive(s[..n - 1]);
    }
    if m > 1 {
      LeadingDigitPositive(t[..m - 1]);
    }
    if n > 1 && m > 1 {
      assert s[n - 1] == t[m - 1];
      CanonicalDigitsInjective(s[..n - 1], t[..m - 1]);
      assert s == s[..n - 1] + [s[n - 1]];
      assert t == t[..m - 1] + [t[m - 1]];
    }
  }

  /** Different keys denote different indices. */
  lemma CanonicalIndexInjective(k: string, k2: string)
    requires CanonicalIndex(k).Some? && CanonicalIndex(k) == CanonicalIndex(k2)
    ensures k == k2
  {
    CanonicalDigitsInjective(k, k2);
  }

  lemma {:induction false} DigitsValueOfNat(n: nat)
    ensures DigitsValue(NatToString(n)) == n
  {
    if n >= 10 {
      DigitsValueOfNat(n / 10);
      var s := NatToString(n);
      assert s[..|s| - 1] == NatToString(n / 10);
    }
  }

  /** The decimal text of an index is the canonical key of that index. */
  lemma IndexKeyRoundTrip(i: nat)
    requires i < MaxArrayIndex
    ensures CanonicalIndex(NatToString(i)) == Some(i)
  {
    DigitsValueOfNat(i);
  }

  /** The keys `"0"`, `"1"`, ... of the first `n` indices. */
  function IndexKeys(n: nat): set<string> {
    set i | 0 <= i < n :: NatToString(i)
  }

  /** The own property `k` of `v`, if it has one (`hasOwnProperty`): the
      fields of an object, and the indices and `length` of arrays and
      strings. A string's index property is its one-character string. */
  function Own(v: Json, k: string): Option<Json> {
    match v
    case Obj(m) => if k in m then Some(m[k]) else None
    case Arr(xs) =>
      if k == "length" then Some(Num(|xs|))
      else if CanonicalIndex(k).Some? && CanonicalIndex(k).value < |xs| then Some(xs[CanonicalIndex(k).value])
      else None
    case Str(s) =>
      if k == "length" then Some(Num(|s|))
      else if CanonicalIndex(k).Some? && CanonicalIndex(k).value < |s| then Some(Str([s[CanonicalIndex(k).value]]))
      else None
    case _ => None
  }

  /** The property read `v[k]` on a value that is not `null` or `undefined`:
      the own property, or `undefined`. */
  function Prop(v: Json, k: string): Json {
    match Own(v, k)
    case Some(x) => x
    case None => Undefined
  }

  /** JavaScript's `String(v)`. Arrays are joined with commas, with `null`
      and `undefined` elements written as empty strings. */
  function ToJsString(v: Json): string {
    match v
    case Undefined => "undefined"
    case Null => "null"
    case Bool(b) => if b then "true" else "false"
    case Num(n) => IntToString(n)
    case Str(s) => s
    case Arr(xs) =>
      if xs == [] then ""
      else Join(seq(|xs|, i requires 0 <= i < |xs| =>
                      if xs[i].Undefined? || xs[i].Null? then "" else ToJsString(xs[i])), ',')
    case Obj(_) => "[object Object]"
  }

  /** The first index of `x` in `xs` at or after `from` (strict equality), or -1. */
  function FirstIndex(xs: seq<Json>, x: Json, from: nat): (r: int)
    ensures r == -1 || (from <= r < |xs| && xs[r] == x)
    ensures r == -1 <==> (forall j :: from <= j < |xs| ==> xs[j] != x)
    decreases |xs| - from
  {
    if from >= |xs| then -1
    else if xs[from] == x then from
    else FirstIndex(xs, x, from + 1)
  }

  /** `hay.indexOf(needle)`: substring search on strings (the needle is
      converted to a string), element search on arrays; any other value has
      no `indexOf` method. */
  function IndexOf(hay: Json, needle: Json): Result<int> {
    match hay
    case Str(s) => Ok(FindFrom(s, ToJsString(needle), 0))
    case Arr(xs) => Ok(FirstIndex(xs, needle, 0))
    case _ => Thrown(TypeError)
  }

  /** `hay.includes(needle)`, with the same receivers as `indexOf`. */
  function Includes(hay: Json, needle: Json): Result<bool> {
    match hay
    case Str(s) => Ok(Contains(s, ToJsString(needle)))
    case Arr(xs) => Ok(needle in xs)
    case _ => Thrown(TypeError)
  }

  /** `indexOf` returns 0 on a string exactly when the needle is a prefix. */
  lemma IndexOfZeroIsPrefix(s: string, p: string)
    ensures IndexOf(Str(s), Str(p)) == Ok(0) <==> StartsWith(s, p)
  {
    assert s[0..] == s;
  }

  /** The own enumerable properties of `v`: what `Object.assign` copies from
      it and what `for ... in` visits. Primitives other than strings have
      none. */
  function Enumerable(v: Json): map<string, Json> {
    match v
    case Obj(m) => m
    case Arr(xs) =>
      map k | k in IndexKeys(|xs|) && CanonicalIndex(k).Some? && CanonicalIndex(k).value < |xs|
        :: xs[CanonicalIndex(k).value]
    case Str(s) =>
      map k | k in IndexKeys(|s|) && CanonicalIndex(k).Some? && CanonicalIndex(k).value < |s|
        :: Str([s[CanonicalIndex(k).value]])
    case _ => map[]
  }

  /** `order` lists the keys of an object once each, in the order
      `Object.keys` and `for ... in` visit them. */
  predicate Enumerates(order: seq<string>, keys: set<string>) {
    && (forall i, j :: 0 <= i < j < |order| ==> order[i] != order[j])
    && (forall i :: 0 <= i < |order| ==> order[i] in keys)
    && (forall k :: k in keys ==> k in order)
  }
}
