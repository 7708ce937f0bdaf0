/** The string utilities of the utilities module: keyed substitution
    (`replaceAll`), SSML ampersand clean-up (`sanitizeSsml`), rewriting of
    `<audio>` markers into audio elements (`replaceAudioTags`) and base-36
    encoding (`hashInt`). */
module StringUtils {
  import opened Text
  import opened Js
  import opened PathUtils

  // ---------------------------------------------------------------- replaceAll

  /** The first alternative, in order, that occurs at the start of `s`: the
      alternative a regular expression `a|b|...` of literal keys picks. */
  function FirstMatch(s: string, alts: seq<string>): (r: Option<string>)
    ensures r.Some? ==> r.value in alts && StartsWith(s, r.value)
    ensures r.None? <==> forall a :: a in alts ==> !StartsWith(s, a)
  {
    if alts == [] then None
    else if StartsWith(s, alts[0]) then Some(alts[0])
    else FirstMatch(s, alts[1..])
  }

  /** What the replacer callback returns for a match, converted to a string:
      the value stored under the matched text, or `undefined`. */
  function Replacement(m: map<string, Json>, matched: string): string {
    if matched in m then ToJsString(m[matched]) else "undefined"
  }

  /** A global `replace` of the alternation `alts` with the replacer `m`,
      scanning `s` from the left. After a match the scan resumes behind it
      in the input, so replacement text is never scanned again; after an
      empty match one character is copied and the scan moves on, and an
      empty match is also possible at the very end. */
  function Scan(s: string, alts: seq<string>, m: map<string, Json>): string
    decreases |s|
  {
    match FirstMatch(s, alts)
    case None => if s == [] then [] else [s[0]] + Scan(s[1..], alts, m)
    case Some(k) =>
      if k != [] then Replacement(m, k) + Scan(s[|k|..], alts, m)
      else if s == [] then Replacement(m, k)
      else Replacement(m, k) + [s[0]] + Scan(s[1..], alts, m)
  }

  /** A replacer that maps every (non-empty) key to itself. */
  predicate IdentityReplacer(alts: seq<string>, m: map<string, Json>) {
    forall a :: a in alts ==> a != [] && a in m && m[a] == Str(a)
  }

  /** The guard of `replaceAll`: it only works on a non-empty string and a
      plain object. */
  predicate Substitutable(str: Json, mapObj: Json) {
    Truthy(str) && str.Str? && Truthy(mapObj) && IsPlainObject(mapObj)
  }

  /** The pattern `new RegExp(keys.join("|"))` as a list of alternatives:
      without keys the pattern is empty, and the empty pattern matches the
      empty string everywhere. */
  function Alternatives(order: seq<string>): seq<string> {
    if order == [] then [""] else order
  }

  /** `utils.replaceAll` as written: `order` is the order of
      `Object.keys(mapObj)`. */
  function ReplaceAllAsWritten(str: Json, mapObj: Json, order: seq<string>): (r: Json)
    requires mapObj.Obj? ==> Enumerates(order, mapObj.fields.Keys)
    ensures !Substitutable(str, mapObj) ==> r == str
    ensures r.Str?  <==> str.Str?
  {
    if !Substitutable(str, mapObj) then str
    else Str(Scan(str.s, Alternatives(order), mapObj.fields))
  }

  /** The keys that can take part in a match: an empty key would match the
      empty string at every position. */
  function NonEmptyKeys(order: seq<string>): (keys: seq<string>)
    ensures forall i :: 0 <= i < |keys| ==> keys[i] != "" && keys[i] in order
    ensures forall k :: k in order && k != "" ==> k in keys
  {
    if order == [] then []
    else if order[0] == "" then NonEmptyKeys(order[1..])
    else [order[0]] + NonEmptyKeys(order[1..])
  }

  /** `utils.replaceAll` with the evident intent: every occurrence of a
      (non-empty) key is replaced by its value in one pass, and a map
      without usable keys changes nothing. */
  function ReplaceAll(str: Json, mapObj: Json, order: seq<string>): (r: Json)
    requires mapObj.Obj? ==> Enumerates(order, mapObj.fields.Keys)
    ensures !Substitutable(str, mapObj) ==> r == str
    ensures r.Str?  <==> str.Str?
  {
    if !Substitutable(str, mapObj) then str
    else Str(Scan(str.s, NonEmptyKeys(order), mapObj.fields))
  }

  /** No key occurring at any position means no change. */
  lemma {:induction false} ScanWithoutMatch(s: string, alts: seq<string>, m: map<string, Json>)
    requires forall j, a :: 0 <= j <= |s| && a in alts ==> !StartsWith(s[j..], a)
    ensures Scan(s, alts, m) == s
    decreases |s|
  {
    assert s[0..] == s;
    if s != [] {
      forall j, a | 0 <= j <= |s[1..]| && a in alts ensures !StartsWith(s[1..][j..], a) {
        assert s[1..][j..] == s[j + 1..];
      }
      ScanWithoutMatch(s[1..], alts, m);
      assert s == [s[0]] + s[1..];
    }
  }

  /** A string in which no key occurs comes back unchanged, and so does any
      string when the map has no non-empty key. */
  lemma ReplaceAllWithoutMatch(str: string, mapObj: Json, order: seq<string>)
    requires mapObj.Obj? ==> Enumerates(order, mapObj.fields.Keys)
    requires forall j, k :: 0 <= j <= |str| && k in order && k != "" ==> !StartsWith(str[j..], k)
    ensures ReplaceAll(Str(str), mapObj, order) == Str(str)
  {
    if Substitutable(Str(str), mapObj) {
      ScanWithoutMatch(str, NonEmptyKeys(order), mapObj.fields);
    }
  }

  /** Where the map has no empty key and at least one key, the corrected
      function and the original agree. */
  lemma ReplaceAllAgrees(str: Json, mapObj: Json, order: seq<string>)
    requires mapObj.Obj? ==> Enumerates(order, mapObj.fields.Keys)
    requires order != [] && "" !in order
    ensures ReplaceAll(str, mapObj, order) == ReplaceAllAsWritten(str, mapObj, order)
  {
    NonEmptyIdentity(order);
  }

  lemma {:induction false} NonEmptyIdentity(order: seq<string>)
    requires "" !in order
    ensures NonEmptyKeys(order) == order
  {
    if order != [] {
      assert order[0] in order;
      assert forall k :: k in order[1..] ==> k in order;
      NonEmptyIdentity(order[1..]);
      assert order == [order[0]] + order[1..];
    }
  }

  /** The text the original produces for an empty map: `undefined` before
      every character and at the end. */
  function Interleaved(s: string): string {
    if s == [] then "undefined" else "undefined" + [s[0]] + Interleaved(s[1..])
  }

  lemma {:induction false} ScanEmptyPattern(s: string)
    ensures Scan(s, [""], map[]) == Interleaved(s)
    decreases |s|
  {
    assert StartsWith(s, "");
    if s != [] {
      ScanEmptyPattern(s[1..]);
    }
  }

  /** With an empty map the original inserts `undefined` at every position
      of a non-empty string instead of leaving it alone. */
  lemma ReplaceAllEmptyMapAsWritten(s: string)
    requires s != ""
    ensures ReplaceAllAsWritten(Str(s), Obj(map[]), []) == Str(Interleaved(s))
    ensures ReplaceAllAsWritten(Str(s), Obj(map[]), []) != Str(s)
  {
    ScanEmptyPattern(s);
    InterleavedLength(s);
  }

  /** Nine characters of `undefined` before each character and at the end. */
  lemma {:induction false} InterleavedLength(s: string)
    ensures |Interleaved(s)| == 10 * |s| + 9
    decreases |s|
  {
    if s != [] {
      InterleavedLength(s[1..]);
    }
  }

  /** For instance, "Hi" becomes "undefinedHundefinediundefined". */
  lemma ReplaceAllEmptyMapExample()
    ensures ReplaceAllAsWritten(Str("Hi"), Obj(map[]), [])
         == Str("undefined" + "H" + "undefined" + "i" + "undefined")
  {
    ReplaceAllEmptyMapAsWritten("Hi");
  }

  /** The corrected function leaves a string alone when the map is empty. */
  lemma ReplaceAllEmptyMap(s: string)
    ensures ReplaceAll(Str(s), Obj(map[]), []) == Str(s)
  {
    ReplaceAllWithoutMatch(s, Obj(map[]), []);
  }

  /** A character at which no key can start is copied, and the scan goes
      on behind it. */
  lemma ScanPlainStep(s: string, alts: seq<string>, m: map<string, Json>)
    requires s != [] && forall a :: a in alts ==> a != [] && a[0] != s[0]
    ensures Scan(s, alts, m) == [s[0]] + Scan(s[1..], alts, m)
  {
    forall a | a in alts ensures !StartsWith(s, a) {
      StartsWithHead(s, a);
    }
  }

  /** The facts about `pre + t` one step of `ScanPlainPrefix` needs. */
  lemma PlainTail(pre: string, t: string, alts: seq<string>)
    requires pre != [] && forall a :: a in alts ==> a != [] && a[0] !in pre
    ensures (pre + t) != [] && (pre + t)[0] == pre[0] && (pre + t)[1..] == pre[1..] + t
    ensures forall a :: a in alts ==> a != [] && a[0] != (pre + t)[0]
    ensures forall a :: a in alts ==> a != [] && a[0] !in pre[1..]
  {
    assert pre[0] in pre;
    assert forall c :: c in pre[1..] ==> c in pre;
  }

  /** Text in which no key can start is copied as it is. */
  lemma {:induction false} ScanPlainPrefix(pre: string, t: string, alts: seq<string>, m: map<string, Json>)
    requires forall a :: a in alts ==> a != [] && a[0] !in pre
    ensures Scan(pre + t, alts, m) == pre + Scan(t, alts, m)
    decreases |pre|
  {
    if pre != [] {
      var s := pre + t;
      PlainTail(pre, t, alts);
      ScanPlainStep(s, alts, m);
      ScanPlainPrefix(pre[1..], t, alts, m);
      assert [pre[0]] + (pre[1..] + Scan(t, alts, m)) == pre + Scan(t, alts, m);
    } else {
      assert pre + t == t;
    }
  }

  /** A replacer that maps every key to itself leaves the text as it was:
      each match is put back where it was found. */
  lemma {:induction false} ScanIdentity(s: string, alts: seq<string>, m: map<string, Json>)
    requires IdentityReplacer(alts, m)
    ensures Scan(s, alts, m) == s
    decreases |s|
  {
    match FirstMatch(s, alts)
    case None =>
      if s != [] {
        ScanIdentity(s[1..], alts, m);
      }
    case Some(k) =>
      ScanIdentity(s[|k|..], alts, m);
      assert Replacement(m, k) == k;
      assert s == s[..|k|] + s[|k|..];
  }

  /** A string that is exactly a key is replaced by its value. */
  lemma ScanKeyAlone(k: string, m: map<string, Json>)
    requires k != []
    ensures Scan(k, [k], m) == Replacement(m, k)
  {
    assert StartsWith(k, k);
    assert k[|k|..] == [];
    assert !StartsWith([], k);
    assert Scan([], [k], m) == [];
  }

  /** Plain text followed by a key: the text is copied and the key
      replaced. */
  lemma ScanTextThenKey(pre: string, key: string, m: map<string, Json>)
    requires key != [] && key[0] !in pre
    ensures Scan(pre + key, [key], m) == pre + Replacement(m, key)
  {
    ScanPlainPrefix(pre, key, [key], m);
    ScanKeyAlone(key, m);
  }

  /** "Hello {name}" with `{name}` mapped to "World" gives "Hello World";
      the texts are written as the two parts the scan treats separately. */
  lemma ScanPlaceholder()
    ensures Scan("Hello " + "{name}", ["{name}"], map["{name}" := Str("World")]) == "Hello " + "World"
  {
    ScanTextThenKey("Hello ", "{name}", map["{name}" := Str("World")]);
  }

  /** A placeholder is replaced by its value. */
  lemma ReplaceAllPlaceholder()
    ensures ReplaceAll(Str("Hello " + "{name}"), Obj(map["{name}" := Str("World")]), ["{name}"])
      == Str("Hello " + "World")
  {
    assert NonEmptyKeys(["{name}"]) == ["{name}"];
    ScanPlaceholder();
  }

  /** One combined pass: `a` becomes `b` and `b` becomes `c`, and the `b`
      produced by the first replacement is not replaced again. */
  lemma ReplaceAllSinglePass()
    ensures ReplaceAll(Str("ab"), Obj(map["a" := Str("b"), "b" := Str("c")]), ["a", "b"])
      == Str("bc")
  {
    var m := map["a" := Str("b"), "b" := Str("c")];
    var alts := ["a", "b"];
    assert NonEmptyKeys(alts) == alts;
    assert StartsWith("ab", "a");
    assert "ab"[1..] == "b";
    StartsWithHead("b", "a");
    assert StartsWith("b", "b");
    assert FirstMatch("b", alts) == Some("b");
    assert "b"[1..] == "";
    assert Scan("", alts, m) == "";
  }

  // -------------------------------------------------------------- sanitizeSsml

  /** The three global replacements `sanitizeSsml` chains: escaped
      ampersands become "and", then escaped quotes become quotes, then any
      remaining ampersand becomes "and". */
  function SanitizePasses(s: string): string {
    ReplaceLiteral(ReplaceLiteral(ReplaceLiteral(s, "&amp;", "and"), "&quot;", "\""), "&", "and")
  }

  /** What the three passes mean, read as one left-to-right pass: at each
      position `&amp;` becomes "and", `&quot;` becomes a quote, any other
      `&` becomes "and", and every other character is copied. */
  function SanitizeText(s: string): string
    decreases |s|
  {
    if s == [] then []
    else if s[0] != '&' then [s[0]] + SanitizeText(s[1..])
    else if StartsWith(s, "&amp;") then "and" + SanitizeText(s[5..])
    else if StartsWith(s, "&quot;") then "\"" + SanitizeText(s[6..])
    else "and" + SanitizeText(s[1..])
  }

  /** `utils.sanitizeSsml`: a non-empty string is rewritten as `SanitizeText`
      describes, which leaves no ampersand; anything else is returned as it
      is. */
  function SanitizeSsml(ssml: Json): (r: Json)
    ensures !(Truthy(ssml) && ssml.Str?) ==> r == ssml
    ensures Truthy(ssml) && ssml.Str? ==> r == Str(SanitizeText(ssml.s))
    ensures ssml.Str? ==> r.Str? && '&' !in r.s
  {
    if Truthy(ssml) && ssml.Str? then
      var once := ReplaceLiteral(ssml.s, "&amp;", "and");
      var twice := ReplaceLiteral(once, "&quot;", "\"");
      ReplaceLiteralExcludes(twice, "&", "and", '&');
      SanitizePassesAgree(ssml.s);
      Str(SanitizePasses(ssml.s))
    else ssml
  }

  /** The first pass cannot make text start with a pattern free of `a`:
      the only text it writes, "and", starts with `a`. */
  lemma {:induction false} FirstPassKeepsPrefix(t: string, p: string)
    requires 'a' !in p
    ensures StartsWith(ReplaceLiteral(t, "&amp;", "and"), p) ==> StartsWith(t, p)
    decreases |p|
  {
    if p != [] && t != [] && !StartsWith(t, "&amp;") {
      var r, r1 := ReplaceLiteral(t, "&amp;", "and"), ReplaceLiteral(t[1..], "&amp;", "and");
      assert r == [t[0]] + r1;
      assert 'a' !in p[1..] by { assert forall c :: c in p[1..] ==> c in p; }
      FirstPassKeepsPrefix(t[1..], p[1..]);
      if StartsWith(r, p) {
        assert r1[..|p| - 1] == r[..|p|][1..];
        assert t[..|p|] == [t[0]] + t[1..][..|p| - 1];
      }
    } else if p != [] && t != [] {
      assert "and"[0] == 'a' && p[0] in p;
    }
  }

  /** An escaped ampersand: all three passes give "and" for it. */
  lemma SanitizeAmpCase(s: string)
    requires StartsWith(s, "&amp;")
    requires SanitizePasses(s[5..]) == SanitizeText(s[5..])
    ensures SanitizePasses(s) == SanitizeText(s)
  {
    var x := ReplaceLiteral(s[5..], "&amp;", "and");
    var y := ReplaceLiteral(x, "&quot;", "\"");
    assert ReplaceLiteral(s, "&amp;", "and") == "and" + x;
    ReplaceLiteralPlainPrefix("and", x, "&quot;", "\"");
    ReplaceLiteralPlainPrefix("and", y, "&", "and");
  }

  /** The first pass keeps an escaped quote. */
  lemma QuotFirstPass(rest: string)
    ensures ReplaceLiteral("&quot;" + rest, "&amp;", "and") == "&quot;" + ReplaceLiteral(rest, "&amp;", "and")
  {
    var s := "&quot;" + rest;
    assert s[1] == 'q' && s[1..] == "quot;" + rest;
    assert !StartsWith(s, "&amp;") by { assert s[..5][1] == s[1]; }
    ReplaceLiteralPlainPrefix("quot;", rest, "&amp;", "and");
    assert "&" + ("quot;" + ReplaceLiteral(rest, "&amp;", "and")) == "&quot;" + ReplaceLiteral(rest, "&amp;", "and");
  }

  /** The second pass turns an escaped quote into a quote. */
  lemma QuotSecondPass(x: string)
    ensures ReplaceLiteral("&quot;" + x, "&quot;", "\"") == "\"" + ReplaceLiteral(x, "&quot;", "\"")
  {
    assert StartsWith("&quot;" + x, "&quot;") && ("&quot;" + x)[6..] == x;
  }

  /** An escaped quote: the first pass keeps it, the second turns it into a
      quote, and the third keeps the quote. */
  lemma SanitizeQuotCase(rest: string)
    requires SanitizePasses(rest) == SanitizeText(rest)
    ensures SanitizePasses("&quot;" + rest) == SanitizeText("&quot;" + rest)
  {
    var x := ReplaceLiteral(rest, "&amp;", "and");
    var y := ReplaceLiteral(x, "&quot;", "\"");
    QuotFirstPass(rest);
    QuotSecondPass(x);
    ReplaceLiteralPlainPrefix("\"", y, "&", "and");
    SanitizeTextQuot(rest);
  }

  /** A bare ampersand: the first two passes keep it, because what follows
      it does not read as `quot;`, and the third turns it into "and". */
  lemma SanitizeBareAmpCase(s: string)
    requires s != [] && s[0] == '&' && !StartsWith(s, "&amp;") && !StartsWith(s, "&quot;")
    requires SanitizePasses(s[1..]) == SanitizeText(s[1..])
    ensures SanitizePasses(s) == SanitizeText(s)
  {
    var x := ReplaceLiteral(s[1..], "&amp;", "and");
    var y := ReplaceLiteral(x, "&quot;", "\"");
    assert ReplaceLiteral(s, "&amp;", "and") == "&" + x;
    assert s == ['&'] + s[1..] && "&quot;" == ['&'] + "quot;";
    StartsWithCons('&', s[1..], "quot;");
    FirstPassKeepsPrefix(s[1..], "quot;");
    StartsWithCons('&', x, "quot;");
    assert "&" + x == ['&'] + x;
    assert ("&" + x)[1..] == x;
    assert ReplaceLiteral("&" + x, "&quot;", "\"") == "&" + y;
    assert StartsWith("&" + y, "&") && ("&" + y)[1..] == y;
  }

  /** Any other character is copied by all three passes. */
  lemma SanitizePlainCase(s: string)
    requires s != [] && s[0] != '&'
    requires SanitizePasses(s[1..]) == SanitizeText(s[1..])
    ensures SanitizePasses(s) == SanitizeText(s)
  {
    var x := ReplaceLiteral(s[1..], "&amp;", "and");
    var y := ReplaceLiteral(x, "&quot;", "\"");
    ReplaceLiteralPlainStep(s, "&amp;", "and");
    ReplaceLiteralPlainPrefix([s[0]], x, "&quot;", "\"");
    ReplaceLiteralPlainPrefix([s[0]], y, "&", "and");
  }

  /** The chained replacements of `sanitizeSsml` agree with the one-pass
      reading on every string: no pass creates or destroys a match of a
      later one. */
  lemma {:induction false} SanitizePassesAgree(s: string)
    ensures SanitizePasses(s) == SanitizeText(s)
    decreases |s|
  {
    if s == [] {
    } else if StartsWith(s, "&amp;") {
      SanitizePassesAgree(s[5..]);
      SanitizeAmpCase(s);
    } else if StartsWith(s, "&quot;") {
      SanitizePassesAgree(s[6..]);
      assert s == "&quot;" + s[6..];
      SanitizeQuotCase(s[6..]);
    } else if s[0] == '&' {
      SanitizePassesAgree(s[1..]);
      SanitizeBareAmpCase(s);
    } else {
      SanitizePassesAgree(s[1..]);
      SanitizePlainCase(s);
    }
  }

  /** A character other than an ampersand is copied by `SanitizeText`. */
  lemma SanitizeTextPlainStep(s: string)
    requires s != [] && s[0] != '&'
    ensures SanitizeText(s) == [s[0]] + SanitizeText(s[1..])
  {
  }

  /** Text without an ampersand is copied by `SanitizeText`. */
  lemma {:induction false} SanitizeTextPlainPrefix(pre: string, t: string)
    requires '&' !in pre
    ensures SanitizeText(pre + t) == pre + SanitizeText(t)
    decreases |pre|
  {
    if pre != [] {
      var s := pre + t;
      assert s[0] == pre[0] && pre[0] in pre && s[1..] == pre[1..] + t;
      assert '&' !in pre[1..] by { assert forall c :: c in pre[1..] ==> c in pre; }
      SanitizeTextPlainStep(s);
      SanitizeTextPlainPrefix(pre[1..], t);
      assert [pre[0]] + (pre[1..] + SanitizeText(t)) == pre + SanitizeText(t);
    } else {
      assert pre + t == t;
    }
  }

  /** An escaped quote becomes a quote. */
  lemma SanitizeTextQuot(t: string)
    ensures SanitizeText("&quot;" + t) == "\"" + SanitizeText(t)
  {
    var s := "&quot;" + t;
    assert StartsWith(s, "&quot;") && s[6..] == t;
    assert s[..5] != "&amp;" by { assert s[1] == 'q'; }
  }

  /** The quote example, before and after, in the parts the steps use. */
  lemma SanitizeQuoteText()
    ensures "say &quot;hi&quot;" == "say " + ("&quot;" + ("hi" + ("&quot;" + "")))
    ensures "say " + ("\"" + ("hi" + ("\"" + ""))) == "say \"hi\""
  {
  }

  /** Escaped quotes around a word become plain quotes. */
  lemma SanitizeQuoteExample()
    ensures SanitizeSsml(Str("say &quot;hi&quot;")) == Str("say \"hi\"")
  {
    SanitizeQuoteText();
    SanitizeTextPlainPrefix("say ", "&quot;" + ("hi" + ("&quot;" + "")));
    SanitizeTextQuot("hi" + ("&quot;" + ""));
    SanitizeTextPlainPrefix("hi", "&quot;" + "");
    SanitizeTextQuot("");
  }

  lemma {:induction false} ReplaceLiteralShort(s: string, pat: string, rep: string)
    requires pat != [] && |s| < |pat|
    ensures ReplaceLiteral(s, pat, rep) == s
    decreases |s|
  {
    if s != [] {
      ReplaceLiteralShort(s[1..], pat, rep);
      assert s == [s[0]] + s[1..];
    }
  }

  lemma SanitizeStepAmpTail()
    ensures ReplaceLiteral(" B & C", "&amp;", "and") == " B & C"
  {
    assert " B & C" == " B " + "& C";
    ReplaceLiteralPlainPrefix(" B ", "& C", "&amp;", "and");
    ReplaceLiteralShort("& C", "&amp;", "and");
  }

  lemma SanitizeStepAmpHead()
    ensures ReplaceLiteral("&amp; B & C", "&amp;", "and") == "and" + ReplaceLiteral(" B & C", "&amp;", "and")
  {
    assert StartsWith("&amp; B & C", "&amp;");
    assert "&amp; B & C"[5..] == " B & C";
  }

  lemma SanitizeStepAmp()
    ensures ReplaceLiteral("A &amp; B & C", "&amp;", "and") == "A and B & C"
  {
    var x := ReplaceLiteral("&amp; B & C", "&amp;", "and");
    assert x == "and" + " B & C" by {
      SanitizeStepAmpHead();
      SanitizeStepAmpTail();
    }
    ReplaceLiteralPlainPrefix("A ", "&amp; B & C", "&amp;", "and");
    SanitizeStepAmpText();
  }

  /** The example text, before and after, in the parts the steps use. */
  lemma SanitizeStepAmpText()
    ensures "A &amp; B & C" == "A " + "&amp; B & C"
    ensures "A " + ("and" + " B & C") == "A and B & C"
  {
  }

  lemma SanitizeStepQuot()
    ensures ReplaceLiteral("A and B & C", "&quot;", "\"") == "A and B & C"
  {
    assert "A and B & C" == "A and B " + "& C";
    ReplaceLiteralPlainPrefix("A and B ", "& C", "&quot;", "\"");
    ReplaceLiteralShort("& C", "&quot;", "\"");
  }

  lemma SanitizeStepRaw()
    ensures ReplaceLiteral("A and B & C", "&", "and") == "A and B and C"
  {
    assert "A and B & C" == "A and B " + "& C";
    ReplaceLiteralPlainPrefix("A and B ", "& C", "&", "and");
    assert StartsWith("& C", "&");
    assert "& C"[1..] == " C" + "";
    ReplaceLiteralPlainPrefix(" C", "", "&", "and");
    assert "A and B " + ("and" + (" C" + "")) == "A and B and C";
  }

  /** The order of the three replacements: an escaped ampersand becomes a
      single "and", not "andamp;". */
  lemma SanitizeSsmlExample()
    ensures SanitizeSsml(Str("A &amp; B & C")) == Str("A and B and C")
  {
    SanitizeStepAmp();
    SanitizeStepQuot();
    SanitizeStepRaw();
  }

  // ---------------------------------------------------------- replaceAudioTags

  const AudioOpen: string := "<audio>"
  const AudioClose: string := "</audio>"

  /** The characters `.` does not match in a regular expression. */
  predicate IsLineTerminator(c: char) {
    c == '\n' || c == '\r' || c == '\U{2028}' || c == '\U{2029}'
  }

  /** The end of the lazy match of `(.*?)<\/audio>` in `s` from position `j`:
      the first closing marker, provided no line terminator comes first. */
  function CloseFrom(s: string, j: nat): (r: Option<nat>)
    ensures r.Some? ==> j + |AudioClose| <= r.value <= |s|
    decreases |s| - j
  {
    if j > |s| then None
    else if StartsWith(s[j..], AudioClose) then Some(j + |AudioClose|)
    else if j == |s| || IsLineTerminator(s[j]) then None
    else CloseFrom(s, j + 1)
  }

  /** A match found by `CloseFrom` ends with the closing marker. */
  lemma {:induction false} CloseFromEnds(s: string, j: nat)
    ensures CloseFrom(s, j).Some? ==>
      s[CloseFrom(s, j).value - |AudioClose|..CloseFrom(s, j).value] == AudioClose
    decreases |s| - j
  {
    if j <= |s| && !StartsWith(s[j..], AudioClose) && j < |s| && !IsLineTerminator(s[j]) {
      CloseFromEnds(s, j + 1);
    }
  }

  /** The length of the match of `/<audio>(.*?)<\/audio>/` at the start of
      `s`, if there is one. */
  function AudioMatch(s: string): (r: Option<nat>)
    ensures r.Some? ==> |AudioOpen| + |AudioClose| <= r.value <= |s|
    ensures r.Some? ==> IsAudioTag(s[..r.value])
  {
    CloseFromEnds(s, |AudioOpen|);
    if StartsWith(s, AudioOpen) then CloseFrom(s, |AudioOpen|) else None
  }

  /** Text that opens with `<audio>` and closes with `</audio>`. */
  predicate IsAudioTag(t: string) {
    |AudioOpen| + |AudioClose| <= |t|
    && StartsWith(t, AudioOpen) && t[|t| - |AudioClose|..] == AudioClose
  }

  /** `str.match(/<audio>(.*?)<\/audio>/g)`: every match, left to right
      (an empty list where JavaScript returns `null`). Every match is a
      whole tag. */
  function AudioTags(s: string): (r: seq<string>)
    ensures forall i :: 0 <= i < |r| ==> IsAudioTag(r[i])
    decreases |s|
  {
    if s == [] then []
    else match AudioMatch(s)
      case Some(e) => [s[..e]] + AudioTags(s[e..])
      case None => AudioTags(s[1..])
  }

  /** `tag.replace(/<\/?audio>/g, '')`: the text with both markers removed. */
  function StripMarkers(s: string): string
    decreases |s|
  {
    if s == [] then []
    else if StartsWith(s, AudioClose) then StripMarkers(s[|AudioClose|..])
    else if StartsWith(s, AudioOpen) then StripMarkers(s[|AudioOpen|..])
    else [s[0]] + StripMarkers(s[1..])
  }

  /** The file names inside the matched tags. */
  function FileNames(tags: seq<string>): (files: seq<string>)
    ensures |files| == |tags|
    ensures forall i :: 0 <= i < |tags| ==> files[i] == StripMarkers(tags[i])
  {
    seq(|tags|, i requires 0 <= i < |tags| => StripMarkers(tags[i]))
  }

  /** The audio element that replaces a tag naming `file`. */
  function AudioElement(file: string, assets: Assets): string
    requires file != ""
  {
    "<audio src=\"" + MakeAudioPath(Str(file), assets).value.s + "\" />"
  }

  /** The loop of `replaceAudioTags`, which runs to `i <= tags.length`; the
      extra round reads past the end of `files`, finds `undefined` and skips.
      Each non-empty file name's tag is replaced at its first occurrence in
      the current text. */
  function RewriteTags(str: string, tags: seq<string>, files: seq<string>, i: nat, assets: Assets): string
    requires |files| == |tags| && i <= |tags| + 1
    decreases |tags| + 1 - i
  {
    if i > |tags| then str
    else if i == |files| || files[i] == "" then RewriteTags(str, tags, files, i + 1, assets)
    else RewriteTags(ReplaceFirst(str, tags[i], AudioElement(files[i], assets)), tags, files, i + 1, assets)
  }

  /** `utils.replaceAudioTags`. Only strings have a `match` method. */
  function ReplaceAudioTags(str: Json, assets: Assets): (r: Result<Json>)
    ensures !str.Str? <==> r == Thrown(TypeError)
    ensures str.Str? ==> r.Ok? && r.value.Str?
  {
    if !str.Str? then Thrown(TypeError)
    else
      var tags := AudioTags(str.s);
      if tags == [] then Ok(str)
      else Ok(Str(RewriteTags(str.s, tags, FileNames(tags), 0, assets)))
  }

  lemma {:induction false} NoTagsWithoutOpen(s: string)
    requires !Contains(s, AudioOpen)
    ensures AudioTags(s) == []
    decreases |s|
  {
    if s != [] {
      NotContainsTail(s, AudioOpen);
      NoTagsWithoutOpen(s[1..]);
    }
  }

  /** A string without an opening marker is returned unchanged. */
  lemma ReplaceAudioTagsWithoutMarkers(s: string, assets: Assets)
    requires !Contains(s, AudioOpen)
    ensures ReplaceAudioTags(Str(s), assets) == Ok(Str(s))
  {
    NoTagsWithoutOpen(s);
  }

  lemma {:induction false} RewriteEmptyFiles(str: string, tags: seq<string>, files: seq<string>, i: nat, assets: Assets)
    requires |files| == |tags| && i <= |tags| + 1
    requires forall j :: 0 <= j < |files| ==> files[j] == ""
    ensures RewriteTags(str, tags, files, i, assets) == str
    decreases |tags| + 1 - i
  {
    if i <= |tags| {
      RewriteEmptyFiles(str, tags, files, i + 1, assets);
    }
  }

  /** Tags with nothing between the markers are left in place. */
  lemma ReplaceAudioTagsEmptyTags(s: string, assets: Assets)
    requires forall t :: t in AudioTags(s) ==> StripMarkers(t) == ""
    ensures ReplaceAudioTags(Str(s), assets) == Ok(Str(s))
  {
    var tags := AudioTags(s);
    var files := FileNames(tags);
    forall j | 0 <= j < |files| ensures files[j] == "" {
      assert tags[j] in tags;
    }
    RewriteEmptyFiles(s, tags, files, 0, assets);
  }

  lemma {:induction false} TagsSkipPrefix(pre: string, s: string)
    requires '<' !in pre
    ensures AudioTags(pre + s) == AudioTags(s)
    decreases |pre|
  {
    if pre != [] {
      assert (pre + s)[0] == pre[0];
      assert pre[0] in pre;
      StartsWithHead(pre + s, AudioOpen);
      assert (pre + s)[1..] == pre[1..] + s;
      assert forall c :: c in pre[1..] ==> c in pre;
      TagsSkipPrefix(pre[1..], s);
    } else {
      assert pre + s == s;
    }
  }

  lemma {:induction false} CloseAfterFile(s: string, j: nat, f: string, k: nat)
    requires k <= |f| && j + |f| - k + |AudioClose| <= |s|
    requires s[j..j + |f| - k] == f[k..] && StartsWith(s[j + |f| - k..], AudioClose)
    requires '<' !in f && forall c :: c in f ==> !IsLineTerminator(c)
    ensures CloseFrom(s, j) == Some(j + |f| - k + |AudioClose|)
    decreases |f| - k
  {
    if k < |f| {
      assert s[j] == f[k];
      assert f[k] in f;
      assert s[j..][0] == f[k];
      StartsWithHead(s[j..], AudioClose);
      assert s[j + 1..j + |f| - k] == f[k + 1..] by {
        assert s[j + 1..j + |f| - k] == s[j..j + |f| - k][1..];
      }
      CloseAfterFile(s, j + 1, f, k + 1);
    }
  }

  lemma {:induction false} StripPlain(f: string, rest: string)
    requires '<' !in f
    ensures StripMarkers(f + rest) == f + StripMarkers(rest)
    decreases |f|
  {
    if f != [] {
      assert f[0] in f;
      assert (f + rest)[0] == f[0];
      StartsWithHead(f + rest, AudioClose);
      StartsWithHead(f + rest, AudioOpen);
      assert (f + rest)[1..] == f[1..] + rest;
      assert forall c :: c in f[1..] ==> c in f;
      StripPlain(f[1..], rest);
      assert f == [f[0]] + f[1..];
    } else {
      assert f + rest == rest;
    }
  }

  /** The only tag of `pre + <audio>f</audio> + rest` is the one written. */
  lemma SingleTagFound(pre: string, f: string, rest: string)
    requires '<' !in pre
    requires '<' !in f && forall c :: c in f ==> !IsLineTerminator(c)
    requires !Contains(rest, AudioOpen)
    ensures AudioTags(pre + AudioOpen + f + AudioClose + rest) == [AudioOpen + f + AudioClose]
  {
    var tag := AudioOpen + f + AudioClose;
    var t := tag + rest;
    assert pre + AudioOpen + f + AudioClose + rest == pre + t;
    TagsSkipPrefix(pre, t);
    WrittenTagMatches(f, rest);
    assert t[..|tag|] == tag && t[|tag|..] == rest;
    NoTagsWithoutOpen(rest);
  }

  /** A written tag at the start of a string is matched up to its closing
      marker. */
  lemma WrittenTagMatches(f: string, rest: string)
    requires '<' !in f && forall c :: c in f ==> !IsLineTerminator(c)
    ensures AudioMatch(AudioOpen + f + AudioClose + rest) == Some(|AudioOpen + f + AudioClose|)
  {
    var t := AudioOpen + f + AudioClose + rest;
    var n := |AudioOpen|;
    assert StartsWith(t, AudioOpen) by { assert t[..n] == AudioOpen; }
    assert t[n..n + |f|] == f;
    assert t[n + |f|..][..|AudioClose|] == AudioClose;
    CloseAfterFile(t, n, f, 0);
  }

  /** Stripping the markers of a written tag gives back the file name. */
  lemma StripWrittenTag(f: string)
    requires '<' !in f
    ensures StripMarkers(AudioOpen + f + AudioClose) == f
  {
    var tag := AudioOpen + f + AudioClose;
    StripPlain(f, AudioClose);
    assert StripMarkers(AudioClose) == "" by {
      assert StartsWith(AudioClose, AudioClose);
      assert AudioClose[|AudioClose|..] == "";
    }
    assert StartsWith(tag, AudioOpen) by { assert tag[..|AudioOpen|] == AudioOpen; }
    StartsWithHead(tag[1..], AudioClose[1..]);
    assert !StartsWith(tag, AudioClose) by {
      assert tag[1] == 'a' && AudioClose[1] == '/';
    }
    assert tag[|AudioOpen|..] == f + AudioClose;
  }

  /** Replacing the first occurrence of a tag that sits behind text without
      `<`. */
  lemma ReplaceTagBehindPlainText(pre: string, tag: string, rest: string, el: string)
    requires '<' !in pre && tag != [] && tag[0] == '<' && '$' !in el
    ensures ReplaceFirst(pre + tag + rest, tag, el) == pre + el + rest
  {
    var s := pre + tag + rest;
    assert FindFrom(s, tag, 0) == |pre| by {
      assert s[|pre|..][..|tag|] == tag;
      forall j | 0 <= j < |pre| ensures !StartsWith(s[j..], tag) {
        assert s[j..][0] == pre[j];
        assert pre[j] in pre;
        StartsWithHead(s[j..], tag);
      }
    }
    SubstituteNoDollar(el, tag, s[..|pre|], s[|pre| + |tag|..]);
    assert s[..|pre|] == pre && s[|pre| + |tag|..] == rest;
  }

  /** A single tag `<audio>f</audio>` with a plain, non-empty file name is
      replaced by an audio element whose source is the rewritten path of
      `f`; the text around it is kept. */
  lemma ReplaceAudioTagsSingle(pre: string, f: string, rest: string, assets: Assets)
    requires '<' !in pre
    requires f != "" && '<' !in f && forall c :: c in f ==> !IsLineTerminator(c)
    requires !Contains(rest, AudioOpen)
    requires '$' !in MakeAudioPath(Str(f), assets).value.s
    ensures ReplaceAudioTags(Str(pre + AudioOpen + f + AudioClose + rest), assets)
      == Ok(Str(pre + AudioElement(f, assets) + rest))
  {
    var tag := AudioOpen + f + AudioClose;
    var s := pre + AudioOpen + f + AudioClose + rest;
    var files := FileNames([tag]);
    assert AudioTags(s) == [tag] by { SingleTagFound(pre, f, rest); }
    assert files == [f] by { StripWrittenTag(f); }
    assert RewriteTags(s, [tag], files, 0, assets) == pre + AudioElement(f, assets) + rest by {
      TagConcat(pre, tag, f, rest);
      RewriteTagBehindPlainText(pre, tag, f, rest, assets);
    }
  }

  lemma TagConcat(pre: string, tag: string, f: string, rest: string)
    requires tag == AudioOpen + f + AudioClose
    ensures pre + AudioOpen + f + AudioClose + rest == pre + tag + rest
  {
  }

  /** The rewrite of one tag behind text without `<`. */
  lemma RewriteTagBehindPlainText(pre: string, tag: string, f: string, rest: string, assets: Assets)
    requires '<' !in pre && tag != [] && tag[0] == '<' && f != ""
    requires '$' !in MakeAudioPath(Str(f), assets).value.s
    ensures RewriteTags(pre + tag + rest, [tag], [f], 0, assets) == pre + AudioElement(f, assets) + rest
  {
    var el := AudioElement(f, assets);
    AudioElementHasNoDollar(f, assets);
    ReplaceTagBehindPlainText(pre, tag, rest, el);
    RewriteOne(pre + tag + rest, tag, f, assets);
  }

  /** The element adds no `$` to the path it carries. */
  lemma AudioElementHasNoDollar(f: string, assets: Assets)
    requires f != "" && '$' !in MakeAudioPath(Str(f), assets).value.s
    ensures '$' !in AudioElement(f, assets)
  {
    var a, b := "<audio src=\"", "\" />";
    assert '$' !in a && '$' !in b;
    var p := MakeAudioPath(Str(f), assets).value.s;
    assert AudioElement(f, assets) == a + p + b;
  }

  lemma RewriteOne(s: string, tag: string, f: string, assets: Assets)
    requires f != ""
    ensures RewriteTags(s, [tag], [f], 0, assets) == ReplaceFirst(s, tag, AudioElement(f, assets))
  {
    var s1 := ReplaceFirst(s, tag, AudioElement(f, assets));
    assert RewriteTags(s1, [tag], [f], 2, assets) == s1;
    assert RewriteTags(s1, [tag], [f], 1, assets) == s1;
  }

  // ------------------------------------------------------------------- hashInt

  const HashChars: string := "0123456789ABCDEFGHIJKLMNOPQRSTUVWXYZ"

  function Pow36(e: nat): nat {
    if e == 0 then 1 else 36 * Pow36(e - 1)
  }

  /** The value of a digit of `HashChars`. */
  function DigitValue(c: char): nat {
    if '0' <= c <= '9' then c as int - '0' as int
    else if 'A' <= c <= 'Z' then c as int - 'A' as int + 10
    else 0
  }

  predicate IsHashChar(c: char) {
    '0' <= c <= '9' || 'A' <= c <= 'Z'
  }

  /** The number a big-endian base-36 text denotes: the inverse of `hashInt`. */
  function DecodeHash(h: string): nat {
    if h == [] then 0 else DigitValue(h[0]) * Pow36(|h| - 1) + DecodeHash(h[1..])
  }

  lemma HashCharValue(d: nat)
    requires d < 36
    ensures IsHashChar(HashChars[d]) && DigitValue(HashChars[d]) == d
  {
  }

  lemma DecodePrepend(c: char, h: string)
    ensures DecodeHash([c] + h) == DigitValue(c) * Pow36(|h|) + DecodeHash(h)
  {
    assert ([c] + h)[1..] == h;
  }

  lemma DivStep(x: nat, e: nat)
    ensures x * Pow36(e) == (x / 36) * Pow36(e + 1) + (x % 36) * Pow36(e)
  {
    var q, d, p := x / 36, x % 36, Pow36(e);
    assert x == 36 * q + d;
    assert Pow36(e + 1) == 36 * p;
    calc {
      x * p;
      (36 * q + d) * p;
      { assert (36 * q + d) * p == 36 * q * p + d * p; }
      36 * q * p + d * p;
      { assert 36 * q * p == q * (36 * p); }
      q * (36 * p) + d * p;
    }
  }

  /** `utils.hashInt`: the base-36 digits of a positive integer, most
      significant first, without a leading zero; the empty string for
      anything else. */
  method HashInt(num: Json) returns (hash: string)
    ensures !(num.Num? && num.n > 0) ==> hash == ""
    ensures num.Num? && num.n > 0 ==>
      && hash != ""
      && hash[0] != '0'
      && (forall i :: 0 <= i < |hash| ==> IsHashChar(hash[i]))
      && DecodeHash(hash) == num.n
  {
    hash := "";
    if num.Num? {
      var n := num.n;
      var x := n;
      while x > 0
        invariant n <= 0 ==> x == n && hash == ""
        invariant n > 0 ==> 0 <= x && n == x * Pow36(|hash|) + DecodeHash(hash)
        invariant hash != [] ==> x > 0 || hash[0] != '0'
        invariant hash == [] ==> x == n
        invariant forall i :: 0 <= i < |hash| ==> IsHashChar(hash[i])
        decreases x
      {
        var d := x % 36;
        HashCharValue(d);
        var q := x / 36;
        DecodePrepend(HashChars[d], hash);
        DivStep(x, |hash|);
        hash := [HashChars[d]] + hash;
        x := q;
      }
    }
  }
}
