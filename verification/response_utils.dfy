/** Response resolution: picking one of several variants, assembling the
    speech, the text blocks, the images and the display template of a
    response, substituting tokens into its text-bearing fields, and keeping
    the last speech in the session so that it can be repeated. */
module ResponseUtils {
  import opened Text
  import opened Js
  import opened PathAccessor
  import opened PathUtils
  import opened StringUtils
  import opened ObjectUtils
  import opened Persistence

  /** The enumerations and constants the resolution compares against. The
      enumeration and constants modules are not part of this model, so their
      values are parameters. */
  datatype Enums = Enums(
    body1: string,           // the template kinds
    body2: string,
    body3: string,
    body6: string,
    body7: string,
    list1: string,
    list2: string,
    hidden: string,          // the HIDDEN visibility
    plain: string,           // the PLAIN text style
    aplCommands: string,     // the type of an APL command directive
    speechOutput: string,    // the session key of the stored repeat output
    speechReprompt: string,  // the session key of the stored repeat reprompt
    assets: Assets)

  // One lemma per key keeps each literal key's reasoning out of the
  // callers' contexts.

  lemma ReadCommands(v: Json, fallback: Json)
    ensures Get("commands", v, fallback) == FieldOr(v, "commands", DefaultFallback(fallback))
  { GetField("commands", v, fallback); }

  lemma ReadDescription(v: Json, fallback: Json)
    ensures Get("description", v, fallback) == FieldOr(v, "description", DefaultFallback(fallback))
  { GetField("description", v, fallback); }

  lemma ReadWidth(v: Json, fallback: Json)
    ensures Get("width", v, fallback) == FieldOr(v, "width", DefaultFallback(fallback))
  { GetField("width", v, fallback); }

  lemma ReadHeight(v: Json, fallback: Json)
    ensures Get("height", v, fallback) == FieldOr(v, "height", DefaultFallback(fallback))
  { GetField("height", v, fallback); }

  lemma ReadUrl(v: Json, fallback: Json)
    ensures Get("url", v, fallback) == FieldOr(v, "url", DefaultFallback(fallback))
  { GetField("url", v, fallback); }

  lemma ReadSize(v: Json, fallback: Json)
    ensures Get("size", v, fallback) == FieldOr(v, "size", DefaultFallback(fallback))
  { GetField("size", v, fallback); }

  lemma ReadPrimary(v: Json, fallback: Json)
    ensures Get("primary", v, fallback) == FieldOr(v, "primary", DefaultFallback(fallback))
  { GetField("primary", v, fallback); }

  lemma ReadSecondary(v: Json, fallback: Json)
    ensures Get("secondary", v, fallback) == FieldOr(v, "secondary", DefaultFallback(fallback))
  { GetField("secondary", v, fallback); }

  lemma ReadTertiary(v: Json, fallback: Json)
    ensures Get("tertiary", v, fallback) == FieldOr(v, "tertiary", DefaultFallback(fallback))
  { GetField("tertiary", v, fallback); }

  lemma ReadText(v: Json, fallback: Json)
    ensures Get("text", v, fallback) == FieldOr(v, "text", DefaultFallback(fallback))
  { GetField("text", v, fallback); }

  lemma ReadToken(v: Json, fallback: Json)
    ensures Get("token", v, fallback) == FieldOr(v, "token", DefaultFallback(fallback))
  { GetField("token", v, fallback); }

  lemma ReadImage(v: Json, fallback: Json)
    ensures Get("image", v, fallback) == FieldOr(v, "image", DefaultFallback(fallback))
  { GetField("image", v, fallback); }

  lemma ReadList(v: Json, fallback: Json)
    ensures Get("list", v, fallback) == FieldOr(v, "list", DefaultFallback(fallback))
  { GetField("list", v, fallback); }

  lemma ReadBackButton(v: Json, fallback: Json)
    ensures Get("backButton", v, fallback) == FieldOr(v, "backButton", DefaultFallback(fallback))
  { GetField("backButton", v, fallback); }

  lemma ReadBackgroundImage(v: Json, fallback: Json)
    ensures Get("backgroundImage", v, fallback) == FieldOr(v, "backgroundImage", DefaultFallback(fallback))
  { GetField("backgroundImage", v, fallback); }

  lemma ReadTitle(v: Json, fallback: Json)
    ensures Get("title", v, fallback) == FieldOr(v, "title", DefaultFallback(fallback))
  { GetField("title", v, fallback); }

  lemma ReadSaveRepeat(v: Json, fallback: Json)
    ensures Get("saveRepeat", v, fallback) == FieldOr(v, "saveRepeat", DefaultFallback(fallback))
  { GetField("saveRepeat", v, fallback); }

  lemma ReadType(v: Json, fallback: Json)
    ensures Get("type", v, fallback) == FieldOr(v, "type", DefaultFallback(fallback))
  { GetField("type", v, fallback); }

  // ------------------------------------------------- buildAplCommandDirective

  /** The default token: the text is not a template interpolation, so it is
      this very string. */
  const LiteralToken: string := "token%{ Date.now() }"

  /** `responseUtils.buildAplCommandDirective` (the value its promise
      resolves with): a directive when `data.commands` is an array, `null`
      otherwise. */
  function BuildAplCommandDirective(data: Json, cfg: Enums): (r: Json)
    ensures r == Null <==> !(Truthy(data) && Prop(data, "commands").Arr?)
    ensures r != Null ==> r.Obj? && r.fields.Keys == {"type", "token", "commands"}
    ensures r != Null ==> r.fields["type"] == Str(cfg.aplCommands) && r.fields["commands"] == Prop(data, "commands")
    ensures r != Null ==> r.fields["token"] == (if Truthy(Prop(data, "token")) then Prop(data, "token") else Str(LiteralToken))
  {
    if Truthy(data) && Prop(data, "commands").Arr? then
      ReadCommands(data, Arr([]));
      var token := Prop(data, "token");
      Obj(map["type" := Str(cfg.aplCommands),
              "token" := (if Truthy(token) then token else Str(LiteralToken)),
              "commands" := Get("commands", data, Arr([]))])
    else Null
  }

  /** Without a token of its own, every directive gets the same token,
      whenever it is built. */
  lemma AplTokenIsConstant(data: Json, other: Json, cfg: Enums)
    requires BuildAplCommandDirective(data, cfg) != Null && BuildAplCommandDirective(other, cfg) != Null
    requires !Truthy(Prop(data, "token")) && !Truthy(Prop(other, "token"))
    ensures BuildAplCommandDirective(data, cfg).fields["token"] == BuildAplCommandDirective(other, cfg).fields["token"]
  {
  }

  /** The directive with the token the template evidently meant: `"token"`
      followed by the current time in milliseconds. */
  function BuildAplCommandDirectiveStamped(data: Json, cfg: Enums, now: nat): (r: Json)
    ensures r == Null <==> !(Truthy(data) && Prop(data, "commands").Arr?)
    ensures r != Null ==> r.Obj? && r.fields.Keys == {"type", "token", "commands"}
    ensures r != Null ==> r.fields["type"] == Str(cfg.aplCommands) && r.fields["commands"] == Prop(data, "commands")
    ensures r != Null ==> r.fields["token"] == (if Truthy(Prop(data, "token")) then Prop(data, "token") else Str("token" + NatToString(now)))
  {
    var d := BuildAplCommandDirective(data, cfg);
    if d == Null then Null
    else if Truthy(Prop(data, "token")) then d
    else Obj(d.fields["token" := Str("token" + NatToString(now))])
  }

  /** Directives built at different times carry different default tokens. */
  lemma StampedTokensDiffer(data: Json, cfg: Enums, now: nat, later: nat)
    requires BuildAplCommandDirectiveStamped(data, cfg, now) != Null
    requires !Truthy(Prop(data, "token")) && now != later
    ensures BuildAplCommandDirectiveStamped(data, cfg, now).fields["token"]
         != BuildAplCommandDirectiveStamped(data, cfg, later).fields["token"]
  {
    var a := "token" + NatToString(now);
    var b := "token" + NatToString(later);
    DigitsValueOfNat(now);
    DigitsValueOfNat(later);
    assert a[5..] == NatToString(now);
    assert b[5..] == NatToString(later);
  }

  // ------------------------------------------------------------ buildImageObj

  /** A width or height handed to the image helper: `null`, a number, or
      `NaN`. */
  datatype Dimension = NoDimension | Pixels(n: int) | NotANumber

  /** The image the image helper builds: an optional description and one
      instance. */
  datatype Image = Image(description: Option<Json>, url: Json, size: Json, width: Dimension, height: Dimension)

  /** The white space `parseInt` skips: tab, vertical tab, form feed, space,
      no-break space, the byte-order mark, the line terminators and the
      other space separators. */
  predicate IsJsSpace(c: char) {
    || c == '\t' || c == '\n' || c == '\U{000B}' || c == '\U{000C}' || c == '\r' || c == ' '
    || c == '\U{00A0}' || c == '\U{1680}' || ('\U{2000}' <= c <= '\U{200A}')
    || c == '\U{2028}' || c == '\U{2029}' || c == '\U{202F}' || c == '\U{205F}'
    || c == '\U{3000}' || c == '\U{FEFF}'
  }

  function TrimStart(s: string): (r: string)
    ensures r == [] || !IsJsSpace(r[0])
    ensures |r| <= |s| && r == s[|s| - |r|..]
    decreases |s|
  {
    if s != [] && IsJsSpace(s[0]) then TrimStart(s[1..]) else s
  }

  /** The value of a digit in the given radix (10 or 16), if it is one. */
  function DigitIn(c: char, radix: nat): Option<nat> {
    if '0' <= c <= '9' then Some(c as int - '0' as int)
    else if radix == 16 && 'a' <= c <= 'f' then Some(c as int - 'a' as int + 10)
    else if radix == 16 && 'A' <= c <= 'F' then Some(c as int - 'A' as int + 10)
    else None
  }

  /** The longest prefix of digits. */
  function LeadingDigits(s: string, radix: nat): (r: string)
    ensures |r| <= |s| && r == s[..|r|]
    ensures forall i :: 0 <= i < |r| ==> DigitIn(r[i], radix).Some?
    ensures |r| < |s| ==> DigitIn(s[|r|], radix).None?
    decreases |s|
  {
    if s != [] && DigitIn(s[0], radix).Some? then [s[0]] + LeadingDigits(s[1..], radix) else []
  }

  /** The value of a run of digits, most significant first. */
  function DigitsIn(s: string, radix: nat): nat
    requires forall i :: 0 <= i < |s| ==> DigitIn(s[i], radix).Some?
  {
    if s == [] then 0
    else
      assert DigitIn(s[|s| - 1], radix).Some?;
      DigitsIn(s[..|s| - 1], radix) * radix + DigitIn(s[|s| - 1], radix).value
  }

  /** `parseInt(text)` with no radix: white space is skipped, one sign is
      read, a `0x` or `0X` prefix selects radix 16, and the longest run of
      digits is read; with no digits the result is `NaN`. */
  function ParseInt(text: string): Dimension {
    var t := TrimStart(text);
    var negative := t != [] && t[0] == '-';
    var u := if t != [] && (t[0] == '-' || t[0] == '+') then t[1..] else t;
    match ParseUnsigned(u)
    case None => NotANumber
    case Some(value) => Pixels(if negative then 0 - value else value as int)
  }

  /** The digits after the sign: hexadecimal behind `0x` or `0X`, decimal
      otherwise; `None` when there are none. */
  function ParseUnsigned(u: string): Option<nat> {
    var hex := |u| >= 2 && u[0] == '0' && (u[1] == 'x' || u[1] == 'X');
    var radix := if hex then 16 else 10;
    var ds := LeadingDigits(if hex then u[2..] else u, radix);
    if ds == [] then None else Some(DigitsIn(ds, radix))
  }

  lemma {:induction false} DigitsInDecimal(s: string)
    requires forall i :: 0 <= i < |s| ==> IsDigit(s[i])
    ensures forall i :: 0 <= i < |s| ==> DigitIn(s[i], 10).Some?
    ensures DigitsIn(s, 10) == DigitsValue(s)
    decreases |s|
  {
    if s != [] {
      DigitsInDecimal(s[..|s| - 1]);
    }
  }

  lemma {:induction false} LeadingDigitsAll(s: string, radix: nat)
    requires forall i :: 0 <= i < |s| ==> DigitIn(s[i], radix).Some?
    ensures LeadingDigits(s, radix) == s
    decreases |s|
  {
    if s != [] {
      LeadingDigitsAll(s[1..], radix);
      assert s == [s[0]] + s[1..];
    }
  }

  /** The decimal text of a natural number reads back as that number. */
  lemma ParseUnsignedOfNat(n: nat)
    ensures ParseUnsigned(NatToString(n)) == Some(n)
  {
    var digits := NatToString(n);
    assert |digits| >= 2 ==> IsDigit(digits[1]);
    DigitsInDecimal(digits);
    LeadingDigitsAll(digits, 10);
    DigitsValueOfNat(n);
  }

  lemma TrimDigitText(s: string)
    requires s != [] && (IsDigit(s[0]) || s[0] == '-')
    ensures TrimStart(s) == s
  {
  }

  /** `parseInt` reads the decimal text of any integer back. */
  lemma ParseIntOfInt(n: int)
    ensures ParseInt(IntToString(n)) == Pixels(n)
  {
    var digits := NatToString(if n < 0 then -n else n);
    var text := IntToString(n);
    ParseUnsignedOfNat(if n < 0 then -n else n);
    assert IsDigit(digits[0]);
    if n < 0 {
      assert text == "-" + digits;
      TrimDigitText(text);
      assert text[1..] == digits;
    } else {
      assert text == digits;
      TrimDigitText(text);
    }
  }

  /** The width or height passed on: `parseInt` of a truthy value, `null`
      otherwise. */
  function Dim(v: Json): (d: Dimension)
    ensures !Truthy(v) ==> d == NoDimension
    ensures Truthy(v) && v.Num? ==> d == Pixels(v.n)
  {
    NumberText(v);
    if Truthy(v) then ParseInt(ToJsString(v)) else NoDimension
  }

  lemma NumberText(v: Json)
    ensures v.Num? ==> ParseInt(ToJsString(v)) == Pixels(v.n)
  {
    if v.Num? {
      ParseIntOfInt(v.n);
    }
  }

  /** `responseUtils.buildImageObj`: `null` for a falsy argument; otherwise
      an image whose URL is rewritten by `makeImagePath`, which throws for a
      URL without `indexOf`. */
  function BuildImageObj(img: Json, assets: Assets): (r: Result<Option<Image>>)
    ensures r == Ok(None) <==> !Truthy(img)
    ensures Truthy(img) ==> (r.Thrown? <==> MakeImagePath(FieldOr(img, "url", Null), assets).Thrown?)
    ensures r.Ok? && r.value.Some? ==> var i := r.value.value;
      && Ok(i.url) == MakeImagePath(FieldOr(img, "url", Null), assets)
      && i.size == FieldOr(img, "size", Null)
      && (i.description.Some? <==> Truthy(FieldOr(img, "description", Null)))
      && (i.description.Some? ==> i.description.value == FieldOr(img, "description", Null))
      && i.width == Dim(FieldOr(img, "width", Null))
      && i.height == Dim(FieldOr(img, "height", Null))
  {
    if !Truthy(img) then Ok(None)
    else
      ImageFields(img);
      var description := Get("description", img, Null);
      var width := Get("width", img, Null);
      var height := Get("height", img, Null);
      var url :- MakeImagePath(Get("url", img, Null), assets);
      Ok(Some(Image(if Truthy(description) then Some(description) else None,
                    url, Get("size", img, Null), Dim(width), Dim(height))))
  }

  lemma ImageFields(img: Json)
    ensures Get("description", img, Null) == FieldOr(img, "description", Null)
    ensures Get("width", img, Null) == FieldOr(img, "width", Null)
    ensures Get("height", img, Null) == FieldOr(img, "height", Null)
    ensures Get("url", img, Null) == FieldOr(img, "url", Null)
    ensures Get("size", img, Null) == FieldOr(img, "size", Null)
  {
    ReadDescription(img, Null);
    ReadWidth(img, Null);
    ReadHeight(img, Null);
    ReadUrl(img, Null);
    ReadSize(img, Null);
  }

  // ------------------------------------------------------------- buildTextObj

  datatype TextStyle = PlainStyle | RichStyle

  /** The text content a text helper builds: its style and three texts. */
  datatype TextContent = TextContent(style: TextStyle, primary: Json, secondary: Json, tertiary: Json)

  /** A text entry whose own `type` is the plain style. */
  predicate IsPlainEntry(entry: Json, plain: string) {
    Own(entry, "type") == Some(Str(plain))
  }

  /** `responseUtils.buildTextObj`: `null` for a falsy argument; plain text
      exactly when all three entries are present and plain; an absent entry
      or text is `null`. */
  function BuildTextObj(txt: Json, plain: string): (r: Option<TextContent>)
    ensures r.None? <==> !Truthy(txt)
    ensures r.Some? ==>
      (r.value.style == PlainStyle <==>
        && IsPlainEntry(FieldOr(txt, "primary", Null), plain)
        && IsPlainEntry(FieldOr(txt, "secondary", Null), plain)
        && IsPlainEntry(FieldOr(txt, "tertiary", Null), plain))
    ensures r.Some? ==>
      && r.value.primary == FieldOr(FieldOr(txt, "primary", Null), "text", Null)
      && r.value.secondary == FieldOr(FieldOr(txt, "secondary", Null), "text", Null)
      && r.value.tertiary == FieldOr(FieldOr(txt, "tertiary", Null), "text", Null)
  {
    if Truthy(txt) then
      ReadPrimary(txt, Null);
      ReadSecondary(txt, Null);
      ReadTertiary(txt, Null);
      var primary := Get("primary", txt, Null);
      var secondary := Get("secondary", txt, Null);
      var tertiary := Get("tertiary", txt, Null);
      PlainTest(primary, plain);
      PlainTest(secondary, plain);
      PlainTest(tertiary, plain);
      ReadText(primary, Null);
      ReadText(secondary, Null);
      ReadText(tertiary, Null);
      var style :=
        if Get("type", primary, Undefined) == Str(plain)
           && Get("type", secondary, Undefined) == Str(plain)
           && Get("type", tertiary, Undefined) == Str(plain)
        then PlainStyle else RichStyle;
      Some(TextContent(style, Get("text", primary, Null), Get("text", secondary, Null), Get("text", tertiary, Null)))
    else None
  }

  /** The strict comparison of an entry's `type` with the plain style. */
  lemma PlainTest(entry: Json, plain: string)
    ensures (Get("type", entry, Undefined) == Str(plain)) == IsPlainEntry(entry, plain)
  {
    ReadType(entry, Undefined);
  }

  /** An absent entry makes the text rich, whatever the others say. */
  lemma AbsentEntryIsRich(txt: Json, plain: string)
    requires Truthy(txt)
    requires FieldOr(txt, "primary", Null) == Null || FieldOr(txt, "secondary", Null) == Null
          || FieldOr(txt, "tertiary", Null) == Null
    ensures BuildTextObj(txt, plain).value.style == RichStyle
  {
  }

  // ------------------------------------------------------------ getRandomItem

  /** `responseUtils.getRandomItem`: one element of an array, picked by the
      draw; anything else is returned as it is. An empty array gives
      `undefined`. */
  function GetRandomItem(data: Json, draw: nat): (r: Json)
    ensures !data.Arr? ==> r == data
    ensures data.Arr? && data.items != [] ==> r in data.items
    ensures data.Arr? && data.items == [] ==> r == Undefined
  {
    if Truthy(data) && data.Arr? then
      var i := RandomIndex(Num(|data.items|), draw);
      if 0 <= i < |data.items| then data.items[i] else Undefined
    else data
  }

  /** Every element is picked by some draw. */
  lemma GetRandomItemCovers(xs: seq<Json>, i: nat)
    requires i < |xs|
    ensures GetRandomItem(Arr(xs), i) == xs[i]
  {
    RandomIndexCovers(|xs|, i);
  }

  // ---------------------------------------------------------------- buildSsml

  /** The speech of a response. */
  datatype Speech = Speech(output: Json, reprompt: Json)

  /** One speech value: a variant is picked, sanitised, and then its audio
      tags are rewritten, which throws unless the picked value is a
      string. */
  function ResolveSpeech(v: Json, draw: nat, assets: Assets): (r: Result<Json>)
    ensures r.Ok? <==> GetRandomItem(v, draw).Str?
    ensures r.Ok? ==> r.value.Str?
  {
    ReplaceAudioTags(SanitizeSsml(GetRandomItem(v, draw)), assets)
  }

  /** `responseUtils.buildSsml`: the output and the reprompt, each read
      from `data.speech` with `""` as the fallback and resolved on its own. */
  function BuildSsml(data: Json, outputDraw: nat, repromptDraw: nat, assets: Assets): (r: Result<Speech>)
    ensures var d := if Truthy(data) then data else Obj(map[]);
      && (r.Ok? <==> (ResolveSpeech(Get("speech.output", d, Str("")), outputDraw, assets).Ok?
                      && ResolveSpeech(Get("speech.reprompt", d, Str("")), repromptDraw, assets).Ok?))
      && (r.Ok? ==> (r.value.output == ResolveSpeech(Get("speech.output", d, Str("")), outputDraw, assets).value
                     && r.value.reprompt == ResolveSpeech(Get("speech.reprompt", d, Str("")), repromptDraw, assets).value))
  {
    var d := if Truthy(data) then data else Obj(map[]);
    var output := GetRandomItem(Get("speech.output", d, Str("")), outputDraw);
    var reprompt := GetRandomItem(Get("speech.reprompt", d, Str("")), repromptDraw);
    var o :- ReplaceAudioTags(SanitizeSsml(output), assets);
    var p :- ReplaceAudioTags(SanitizeSsml(reprompt), assets);
    Ok(Speech(o, p))
  }

  lemma SpeechOutputPath(data: Json)
    ensures Get("speech.output", data, Str("")) ==
      (match Lookup(["speech", "output"], data) case Some(v) => v case None => Str(""))
  {
    assert "speech.output" == Join(["speech", "output"], '.');
    GetJoined(["speech", "output"], data, Str(""));
  }

  lemma SpeechRepromptPath(data: Json)
    ensures Get("speech.reprompt", data, Str("")) ==
      (match Lookup(["speech", "reprompt"], data) case Some(v) => v case None => Str(""))
  {
    assert "speech.reprompt" == Join(["speech", "reprompt"], '.');
    GetJoined(["speech", "reprompt"], data, Str(""));
  }

  lemma ResolveEmpty(draw: nat, assets: Assets)
    ensures ResolveSpeech(Str(""), draw, assets) == Ok(Str(""))
  {
    assert AudioTags("") == [];
  }

  /** Without speech, both parts are empty strings. */
  lemma BuildSsmlDefaults(data: Json, outputDraw: nat, repromptDraw: nat, assets: Assets)
    requires !Truthy(data) || (data.Obj? && "speech" !in data.fields)
    ensures BuildSsml(data, outputDraw, repromptDraw, assets) == Ok(Speech(Str(""), Str("")))
  {
    var d := if Truthy(data) then data else Obj(map[]);
    assert Lookup(["speech", "output"], d) == None;
    assert Lookup(["speech", "reprompt"], d) == None;
    SpeechOutputPath(d);
    SpeechRepromptPath(d);
    ResolveEmpty(outputDraw, assets);
    ResolveEmpty(repromptDraw, assets);
  }

  /** Each part depends only on its own entry: two requests that agree on
      the output agree on the resolved output. */
  lemma BuildSsmlIndependent(data: Json, other: Json, outputDraw: nat, repromptDraw: nat, otherDraw: nat, assets: Assets)
    requires data.Obj? && other.Obj?
    requires Lookup(["speech", "output"], data) == Lookup(["speech", "output"], other)
    requires BuildSsml(data, outputDraw, repromptDraw, assets).Ok? && BuildSsml(other, outputDraw, otherDraw, assets).Ok?
    ensures BuildSsml(data, outputDraw, repromptDraw, assets).value.output
         == BuildSsml(other, outputDraw, otherDraw, assets).value.output
  {
    SpeechOutputPath(data);
    SpeechOutputPath(other);
  }

  /** A picked text without ampersands or audio tags is spoken as it is. */
  lemma BuildSsmlPlainText(data: Json, outputDraw: nat, repromptDraw: nat, assets: Assets, s: string)
    requires data.Obj? && Lookup(["speech", "output"], data) == Some(Str(s))
    requires '&' !in s && !Contains(s, AudioOpen)
    requires BuildSsml(data, outputDraw, repromptDraw, assets).Ok?
    ensures BuildSsml(data, outputDraw, repromptDraw, assets).value.output == Str(s)
  {
    SpeechOutputPath(data);
    if s != "" {
      NoAmpersandNoEntity(s, "&amp;");
      NoAmpersandNoEntity(s, "&quot;");
      NoAmpersandNoEntity(s, "&");
      ReplaceLiteralAbsent(s, "&amp;", "and");
      ReplaceLiteralAbsent(s, "&quot;", "\"");
      ReplaceLiteralAbsent(s, "&", "and");
    }
    ReplaceAudioTagsWithoutMarkers(s, assets);
  }

  lemma NoAmpersandNoEntity(s: string, pat: string)
    requires '&' !in s && pat != [] && pat[0] == '&'
    ensures !Contains(s, pat)
  {
  }

  // ----------------------------------------------------- buildDisplayTemplate

  /** The branches of the `switch` over the template kind. */
  datatype TemplateKind = TextOnly | ImageAndText | ImageOnly | ListKind | OtherKind

  /** The `switch`: strict comparison with each kind in turn. */
  function Classify(kind: Json, cfg: Enums): TemplateKind {
    if kind == Str(cfg.body1) then TextOnly
    else if kind == Str(cfg.body2) || kind == Str(cfg.body3) || kind == Str(cfg.body6) then ImageAndText
    else if kind == Str(cfg.body7) then ImageOnly
    else if kind == Str(cfg.list1) || kind == Str(cfg.list2) then ListKind
    else OtherKind
  }

  /** One entry of a list template. */
  datatype ListItem = ListItem(token: Json, image: Option<Image>, textContent: Option<TextContent>)

  /** A display template: its kind and the fields set on it. */
  datatype Template = Template(
    kind: Json,
    textContent: Option<TextContent>,
    image: Option<Image>,
    listItems: Option<seq<ListItem>>,
    backButton: Option<string>,
    backgroundImage: Option<Image>,
    title: Json,
    token: Option<Json>)

  /** The value `get("image.url", item)` finds, `false` when there is none. */
  function ImageUrl(item: Json): Json {
    match Lookup(["image", "url"], item) case Some(v) => v case None => Bool(false)
  }

  lemma ImageUrlPath(item: Json)
    ensures Get("image.url", item, Undefined) == ImageUrl(item)
  {
    assert "image.url" == Join(["image", "url"], '.');
    GetJoined(["image", "url"], item, Undefined);
  }

  /** One list entry: its own token (`false` when it has none), an image
      only when it has an image URL, and the text of the whole template.
      The single-key reads are written as the own-property reads that `get`
      performs for them (`ReadToken`, `ReadImage`, `ReadText`,
      `ImageUrlPath`). */
  function BuildListItem(item: Json, data: Json, cfg: Enums): (r: Result<ListItem>)
    ensures r.Ok? ==> r.value.token == FieldOr(item, "token", Bool(false))
    ensures r.Ok? ==> r.value.textContent == BuildTextObj(FieldOr(data, "text", Bool(false)), cfg.plain)
    ensures r.Ok? ==> (r.value.image.Some? <==> Truthy(ImageUrl(item)))
    ensures !Truthy(ImageUrl(item)) ==> r.Ok?
  {
    var image :-
      if Truthy(ImageUrl(item)) then BuildImageObj(FieldOr(item, "image", Bool(false)), cfg.assets)
      else Ok(None);
    Ok(ListItem(FieldOr(item, "token", Bool(false)), image,
                BuildTextObj(FieldOr(data, "text", Bool(false)), cfg.plain)))
  }

  /** A list of results of `f` is its first result followed by the results
      for the rest. */
  lemma ConsResults<A, B>(f: A -> Result<B>, xs: seq<A>, first: B, rest: seq<B>)
    requires xs != [] && f(xs[0]) == Ok(first) && |rest| == |xs| - 1
    requires forall i :: 0 <= i < |rest| ==> Ok(rest[i]) == f(xs[1..][i])
    ensures forall i :: 0 <= i < |xs| ==> Ok(([first] + rest)[i]) == f(xs[i])
  {
    forall i | 0 <= i < |xs| ensures Ok(([first] + rest)[i]) == f(xs[i]) {
      if i > 0 {
        assert ([first] + rest)[i] == rest[i - 1];
        assert xs[i] == xs[1..][i - 1];
      }
    }
  }

  /** The loop over `data.list`: the entries in order, one per element; the
      first entry that throws ends the loop. */
  function BuildListItems(items: seq<Json>, data: Json, cfg: Enums): (r: Result<seq<ListItem>>)
    ensures r.Ok? <==> forall i :: 0 <= i < |items| ==> BuildListItem(items[i], data, cfg).Ok?
    ensures r.Ok? ==> |r.value| == |items|
    ensures r.Ok? ==> forall i :: 0 <= i < |items| ==> Ok(r.value[i]) == BuildListItem(items[i], data, cfg)
    decreases |items|
  {
    if items == [] then Ok([])
    else
      var first :- BuildListItem(items[0], data, cfg);
      var rest :- BuildListItems(items[1..], data, cfg);
      ConsResults(x => BuildListItem(x, data, cfg), items, first, rest);
      Ok([first] + rest)
  }

  /** `responseUtils.buildDisplayTemplate`: `null` without data or kind;
      otherwise the fields of the kind, then the common ones. Building an
      image throws when its URL has no `indexOf`. Each `get` of a single key
      is written as the own-property read it performs (`ReadTitle`,
      `ReadToken`, `ReadBackButton`, `ReadBackgroundImage`, `ReadImage`,
      `ReadList`, `ReadText`). */
  function BuildDisplayTemplate(data: Json, draw: nat, cfg: Enums): (r: Result<Option<Template>>)
    ensures r == Ok(None) <==> !(Truthy(data) && Truthy(Prop(data, "template")))
    ensures r.Ok? && r.value.Some? ==> var t := r.value.value;
      && t.kind == Prop(data, "template")
      && t.title == FieldOr(data, "title", Str(""))
      && (t.token.Some? <==> Truthy(FieldOr(data, "token", Bool(false))))
      && (t.token.Some? ==> t.token.value == FieldOr(data, "token", Bool(false)))
      && (t.backButton.Some? <==> FieldOr(data, "backButton", Bool(false)) == Str(cfg.hidden))
      && (t.backButton.Some? ==> t.backButton.value == cfg.hidden)
      && (t.backgroundImage.Some? <==> Truthy(GetRandomItem(FieldOr(data, "backgroundImage", Bool(false)), draw)))
  {
    if !(Truthy(data) && Truthy(Prop(data, "template"))) then Ok(None)
    else
      var kind := Prop(data, "template");
      var k := Classify(kind, cfg);
      var image :-
        if k == ImageAndText || k == ImageOnly then BuildImageObj(FieldOr(data, "image", Bool(false)), cfg.assets)
        else Ok(None);
      var text :=
        if k == TextOnly || k == ImageAndText then BuildTextObj(FieldOr(data, "text", Bool(false)), cfg.plain)
        else None;
      var items := FieldOr(data, "list", Bool(false));
      var list :-
        if k == ListKind && items.Arr? then
          var l :- BuildListItems(items.items, data, cfg);
          Ok(Some(l))
        else Ok(None);
      var back := if FieldOr(data, "backButton", Bool(false)) == Str(cfg.hidden) then Some(cfg.hidden) else None;
      var background :- BuildImageObj(GetRandomItem(FieldOr(data, "backgroundImage", Bool(false)), draw), cfg.assets);
      var token := FieldOr(data, "token", Bool(false));
      Ok(Some(Template(kind, text, image, list, back, background, FieldOr(data, "title", Str("")),
                       if Truthy(token) then Some(token) else None)))
  }

  /** The fields each kind adds: text only for the first body kind, an image
      and text for the second, third and sixth, an image only for the
      seventh, list entries for the list kinds, and none of them for an
      unrecognised kind. */
  lemma TemplateFieldsByKind(data: Json, draw: nat, cfg: Enums)
    requires BuildDisplayTemplate(data, draw, cfg).Ok? && BuildDisplayTemplate(data, draw, cfg).value.Some?
    ensures var t := BuildDisplayTemplate(data, draw, cfg).value.value;
      var k := Classify(Prop(data, "template"), cfg);
      && (t.textContent.Some? <==> ((k == TextOnly || k == ImageAndText) && Truthy(FieldOr(data, "text", Bool(false)))))
      && (t.image.Some? <==> ((k == ImageAndText || k == ImageOnly) && Truthy(FieldOr(data, "image", Bool(false)))))
      && (t.listItems.Some? <==> (k == ListKind && FieldOr(data, "list", Bool(false)).Arr?))
      && (t.textContent.Some? ==> t.textContent == BuildTextObj(FieldOr(data, "text", Bool(false)), cfg.plain))
  {
    var k := Classify(Prop(data, "template"), cfg);
    var image := if k == ImageAndText || k == ImageOnly then BuildImageObj(FieldOr(data, "image", Bool(false)), cfg.assets)
                 else Ok(None);
    assert image.Ok?;
    var items := FieldOr(data, "list", Bool(false));
    var list := if k == ListKind && items.Arr? then BuildListItems(items.items, data, cfg) else Ok([]);
    assert list.Ok?;
  }

  /** A list template has one entry per element of `data.list`, in order,
      each with that element's token and the text of the whole template. */
  lemma ListTemplateEntries(data: Json, draw: nat, cfg: Enums, i: nat)
    requires BuildDisplayTemplate(data, draw, cfg).Ok? && BuildDisplayTemplate(data, draw, cfg).value.Some?
    requires Classify(Prop(data, "template"), cfg) == ListKind
    requires FieldOr(data, "list", Bool(false)).Arr? && i < |FieldOr(data, "list", Bool(false)).items|
    ensures var t := BuildDisplayTemplate(data, draw, cfg).value.value;
      var items := FieldOr(data, "list", Bool(false)).items;
      && t.listItems.Some? && |t.listItems.value| == |items|
      && t.listItems.value[i].token == FieldOr(items[i], "token", Bool(false))
      && t.listItems.value[i].textContent == BuildTextObj(FieldOr(data, "text", Bool(false)), cfg.plain)
      && (t.listItems.value[i].image.Some? <==> Truthy(ImageUrl(items[i])))
  {
    var items := FieldOr(data, "list", Bool(false)).items;
    var l := BuildListItems(items, data, cfg);
    assert l.Ok?;
    assert Ok(l.value[i]) == BuildListItem(items[i], data, cfg);
  }

  // ------------------------------------------------------------- replaceIn*

  /** A property name that only objects carry: not empty, not `length`, not
      starting with a digit (so no array or string index), without dots. */
  predicate PlainKey(k: string) {
    k != "" && k != "length" && !IsDigit(k[0]) && '.' !in k
  }

  predicate PlainPath(p: seq<string>) {
    |p| >= 1 && forall i :: 0 <= i < |p| ==> PlainKey(p[i])
  }

  predicate DivergesFromAll(q: seq<string>, fields: seq<seq<string>>)
    decreases |fields|
  {
    fields == [] || (Diverge(q, fields[0]) && DivergesFromAll(q, fields[1..]))
  }

  /** No field path is a prefix of another. */
  predicate Pairwise(fields: seq<seq<string>>)
    decreases |fields|
  {
    fields == [] || (DivergesFromAll(fields[0], fields[1..]) && Pairwise(fields[1..]))
  }

  predicate PlainPaths(fields: seq<seq<string>>) {
    forall i :: 0 <= i < |fields| ==> PlainPath(fields[i])
  }

  /** The assignment `data.a.b... = replaceAll(data.a.b..., mapObj)` along a
      chain of objects; a value the chain does not reach is left alone. */
  function RewriteAt(parts: seq<string>, v: Json, mapObj: Json, order: seq<string>): Json
    requires |parts| >= 1
    requires mapObj.Obj? ==> Enumerates(order, mapObj.fields.Keys)
    decreases |parts|
  {
    if !v.Obj? || parts[0] !in v.fields then v
    else if |parts| == 1 then Obj(v.fields[parts[0] := ReplaceAll(v.fields[parts[0]], mapObj, order)])
    else Obj(v.fields[parts[0] := RewriteAt(parts[1..], v.fields[parts[0]], mapObj, order)])
  }

  /** One guarded statement of `replaceInSpeechAndCard` or
      `replaceInDisplay`: the field is rewritten only when `get` finds a
      truthy value there. */
  function ReplaceField(data: Json, parts: seq<string>, mapObj: Json, order: seq<string>): Json
    requires |parts| >= 1
    requires mapObj.Obj? ==> Enumerates(order, mapObj.fields.Keys)
  {
    if Truthy(Get(Join(parts, '.'), data, Undefined)) then RewriteAt(parts, data, mapObj, order) else data
  }

  /** The guarded statements in order. */
  function ReplaceFields(data: Json, fields: seq<seq<string>>, mapObj: Json, order: seq<string>): Json
    requires forall i :: 0 <= i < |fields| ==> |fields[i]| >= 1
    requires mapObj.Obj? ==> Enumerates(order, mapObj.fields.Keys)
    decreases |fields|
  {
    if fields == [] then data
    else ReplaceFields(ReplaceField(data, fields[0], mapObj, order), fields[1..], mapObj, order)
  }

  const SpeechAndCardFields: seq<seq<string>> :=
    [["speech", "output"], ["speech", "reprompt"], ["card", "title"], ["card", "output"]]

  const DisplayFields: seq<seq<string>> :=
    [["display", "text", "primary", "text"], ["display", "text", "secondary", "text"],
     ["display", "text", "tertiary", "text"]]

  const AllFields: seq<seq<string>> := SpeechAndCardFields + DisplayFields

  /** `responseUtils.replaceInSpeechAndCard`. */
  function ReplaceInSpeechAndCard(data: Json, mapObj: Json, order: seq<string>): Json
    requires mapObj.Obj? ==> Enumerates(order, mapObj.fields.Keys)
  {
    ReplaceFields(data, SpeechAndCardFields, mapObj, order)
  }

  /** `responseUtils.replaceInDisplay`. */
  function ReplaceInDisplay(data: Json, mapObj: Json, order: seq<string>): Json
    requires mapObj.Obj? ==> Enumerates(order, mapObj.fields.Keys)
  {
    ReplaceFields(data, DisplayFields, mapObj, order)
  }

  /** `responseUtils.replaceInAll`: the speech and card fields, then the
      display fields. */
  function ReplaceInAll(data: Json, mapObj: Json, order: seq<string>): (r: Json)
    requires mapObj.Obj? ==> Enumerates(order, mapObj.fields.Keys)
    ensures r == ReplaceFields(data, AllFields, mapObj, order)
  {
    ReplaceFieldsAppend(data, SpeechAndCardFields, DisplayFields, mapObj, order);
    ReplaceInDisplay(ReplaceInSpeechAndCard(data, mapObj, order), mapObj, order)
  }

  /** What a field holds after the replacement: a truthy value is passed
      through `replaceAll`, anything else is left as it was. */
  function Replaced(x: Option<Json>, mapObj: Json, order: seq<string>): Option<Json>
    requires mapObj.Obj? ==> Enumerates(order, mapObj.fields.Keys)
  {
    if x.Some? && Truthy(x.value) then Some(ReplaceAll(x.value, mapObj, order)) else x
  }

  /** A plain key is never an own property of an array or a string. */
  lemma PlainKeyOnlyInObjects(v: Json, k: string)
    requires PlainKey(k) && Own(v, k).Some?
    ensures v.Obj? && k in v.fields
  {
    assert !IsDigit(k[0]);
    assert CanonicalIndex(k).None?;
  }

  /** The rewrite replaces the value it reaches. */
  lemma {:induction false} RewriteAtReplaces(parts: seq<string>, v: Json, mapObj: Json, order: seq<string>)
    requires PlainPath(parts) && Lookup(parts, v).Some?
    requires mapObj.Obj? ==> Enumerates(order, mapObj.fields.Keys)
    ensures Lookup(parts, RewriteAt(parts, v, mapObj, order)) == Some(ReplaceAll(Lookup(parts, v).value, mapObj, order))
    decreases |parts|
  {
    assert PlainKey(parts[0]);
    PlainKeyOnlyInObjects(v, parts[0]);
    if |parts| > 1 {
      assert PlainPath(parts[1..]) by {
        forall i | 0 <= i < |parts[1..]| ensures PlainKey(parts[1..][i]) {
          assert parts[1..][i] == parts[i + 1];
        }
      }
      RewriteAtReplaces(parts[1..], v.fields[parts[0]], mapObj, order);
    }
  }

  /** The rewrite leaves every path that parts ways with it. */
  lemma {:induction false} RewriteAtElsewhere(p: seq<string>, q: seq<string>, v: Json, mapObj: Json, order: seq<string>)
    requires |p| >= 1 && |q| >= 1 && Diverge(p, q)
    requires mapObj.Obj? ==> Enumerates(order, mapObj.fields.Keys)
    ensures Lookup(q, RewriteAt(p, v, mapObj, order)) == Lookup(q, v)
    decreases |p|
  {
    if v.Obj? && p[0] in v.fields && p[0] == q[0] && |p| > 1 && |q| > 1 {
      RewriteAtElsewhere(p[1..], q[1..], v.fields[p[0]], mapObj, order);
    }
  }

  lemma DivergesFromEach(q: seq<string>, fields: seq<seq<string>>, k: nat)
    requires DivergesFromAll(q, fields) && k < |fields|
    ensures Diverge(q, fields[k])
    decreases k
  {
    if k > 0 {
      DivergesFromEach(q, fields[1..], k - 1);
    }
  }

  lemma {:induction false} DivergeSymmetric(p: seq<string>, q: seq<string>)
    requires Diverge(p, q)
    ensures Diverge(q, p)
    decreases |p|
  {
    if p[0] == q[0] {
      DivergeSymmetric(p[1..], q[1..]);
    }
  }

  lemma PlainPathsTail(fields: seq<seq<string>>)
    requires fields != [] && PlainPaths(fields)
    ensures PlainPath(fields[0]) && PlainPaths(fields[1..])
  {
    assert forall i :: 0 <= i < |fields[1..]| ==> fields[1..][i] == fields[i + 1];
  }

  /** The guard reads the same field the assignment writes. */
  lemma FieldGuard(parts: seq<string>, data: Json)
    requires PlainPath(parts)
    ensures Truthy(Get(Join(parts, '.'), data, Undefined)) <==> (Lookup(parts, data).Some? && Truthy(Lookup(parts, data).value))
  {
    GetJoined(parts, data, Undefined);
  }

  /** The guarded statements leave every path that parts ways with all of
      their fields. */
  lemma {:induction false} ReplaceFieldsElsewhere(data: Json, fields: seq<seq<string>>, q: seq<string>, mapObj: Json, order: seq<string>)
    requires PlainPaths(fields) && |q| >= 1 && DivergesFromAll(q, fields)
    requires mapObj.Obj? ==> Enumerates(order, mapObj.fields.Keys)
    ensures Lookup(q, ReplaceFields(data, fields, mapObj, order)) == Lookup(q, data)
    decreases |fields|
  {
    if fields != [] {
      PlainPathsTail(fields);
      DivergeSymmetric(q, fields[0]);
      RewriteAtElsewhere(fields[0], q, data, mapObj, order);
      ReplaceFieldsElsewhere(ReplaceField(data, fields[0], mapObj, order), fields[1..], q, mapObj, order);
    }
  }

  /** Each field of a prefix-free list ends up replaced exactly when it held
      a truthy value. */
  lemma {:induction false} ReplaceFieldsEach(data: Json, fields: seq<seq<string>>, j: nat, mapObj: Json, order: seq<string>)
    requires PlainPaths(fields) && Pairwise(fields) && j < |fields|
    requires mapObj.Obj? ==> Enumerates(order, mapObj.fields.Keys)
    ensures Lookup(fields[j], ReplaceFields(data, fields, mapObj, order))
         == Replaced(Lookup(fields[j], data), mapObj, order)
    decreases |fields|
  {
    PlainPathsTail(fields);
    var f := fields[0];
    var next := ReplaceField(data, f, mapObj, order);
    FieldGuard(f, data);
    if j == 0 {
      if Lookup(f, data).Some? && Truthy(Lookup(f, data).value) {
        RewriteAtReplaces(f, data, mapObj, order);
      }
      ReplaceFieldsElsewhere(next, fields[1..], f, mapObj, order);
    } else {
      DivergesFromEach(f, fields[1..], j - 1);
      assert fields[1..][j - 1] == fields[j];
      RewriteAtElsewhere(f, fields[j], data, mapObj, order);
      ReplaceFieldsEach(next, fields[1..], j - 1, mapObj, order);
    }
  }

  /** Running two lists of statements one after the other is running their
      concatenation. */
  lemma {:induction false} ReplaceFieldsAppend(data: Json, a: seq<seq<string>>, b: seq<seq<string>>, mapObj: Json, order: seq<string>)
    requires forall i :: 0 <= i < |a| ==> |a[i]| >= 1
    requires forall i :: 0 <= i < |b| ==> |b[i]| >= 1
    requires mapObj.Obj? ==> Enumerates(order, mapObj.fields.Keys)
    ensures ReplaceFields(ReplaceFields(data, a, mapObj, order), b, mapObj, order)
         == ReplaceFields(data, a + b, mapObj, order)
    decreases |a|
  {
    if a != [] {
      assert (a + b)[0] == a[0];
      assert (a + b)[1..] == a[1..] + b;
      ReplaceFieldsAppend(ReplaceField(data, a[0], mapObj, order), a[1..], b, mapObj, order);
    } else {
      assert a + b == b;
    }
  }

  lemma {:induction false} DivergesFromAllOfEach(q: seq<string>, fields: seq<seq<string>>)
    requires forall k :: 0 <= k < |fields| ==> Diverge(q, fields[k])
    ensures DivergesFromAll(q, fields)
    decreases |fields|
  {
    if fields != [] {
      assert forall k :: 0 <= k < |fields[1..]| ==> fields[1..][k] == fields[k + 1];
      DivergesFromAllOfEach(q, fields[1..]);
    }
  }

  /** A list is prefix-free when every earlier path parts ways with every
      later one. */
  lemma {:induction false} PairwiseOfEach(fields: seq<seq<string>>)
    requires forall i, k :: 0 <= i < k < |fields| ==> Diverge(fields[i], fields[k])
    ensures Pairwise(fields)
    decreases |fields|
  {
    if fields != [] {
      assert forall k :: 0 <= k < |fields[1..]| ==> fields[1..][k] == fields[k + 1];
      DivergesFromAllOfEach(fields[0], fields[1..]);
      PairwiseOfEach(fields[1..]);
    }
  }

  lemma AllFieldsPlain()
    ensures PlainPaths(AllFields)
  {
    var f := AllFields;
    forall i, k | 0 <= i < |f| && 0 <= k < |f[i]| ensures PlainKey(f[i][k]) {
      LowerCaseKey(f[i][k]);
    }
  }

  /** A lower-case word not starting with `l` is a plain key. */
  lemma LowerCaseKey(k: string)
    requires k != [] && k[0] != 'l' && forall i :: 0 <= i < |k| ==> 'a' <= k[i] <= 'z'
    ensures PlainKey(k)
  {
    assert k != "length";
  }

  lemma AllFieldsDiverge()
    ensures forall i, k :: 0 <= i < k < |AllFields| ==> Diverge(AllFields[i], AllFields[k])
  {
    var f := AllFields;
    forall i, k | 0 <= i < k < |f| ensures Diverge(f[i], f[k]) {
      if 4 <= i {
        DivergeAtThird(f[i], f[k]);
      } else if i < 2 && k < 2 {
        assert Diverge(f[i][1..], f[k][1..]);
      } else if 2 <= i && k < 4 {
        assert Diverge(f[i][1..], f[k][1..]);
      }
    }
  }

  lemma AllFieldsPrefixFree()
    ensures Pairwise(AllFields)
  {
    AllFieldsDiverge();
    PairwiseOfEach(AllFields);
  }

  /** The seven fields are plain paths, none a prefix of another. */
  lemma AllFieldsWellFormed()
    ensures PlainPaths(AllFields) && Pairwise(AllFields)
  {
    AllFieldsPlain();
    AllFieldsPrefixFree();
  }

  /** The speech and card fields are the first four of the seven. */
  lemma SpeechAndCardWellFormed()
    ensures PlainPaths(SpeechAndCardFields) && Pairwise(SpeechAndCardFields)
  {
    var f := SpeechAndCardFields;
    AllFieldsPlain();
    AllFieldsDiverge();
    assert forall i :: 0 <= i < |f| ==> f[i] == AllFields[i];
    PairwiseOfEach(f);
  }

  /** The display fields are the last three of the seven. */
  lemma DisplayWellFormed()
    ensures PlainPaths(DisplayFields) && Pairwise(DisplayFields)
  {
    var f := DisplayFields;
    var n := |SpeechAndCardFields|;
    AllFieldsPlain();
    AllFieldsDiverge();
    assert forall i :: 0 <= i < |f| ==> f[i] == AllFields[n + i];
    PairwiseOfEach(f);
  }

  /** Paths that agree on two segments and differ on the third diverge. */
  lemma DivergeAtThird(p: seq<string>, q: seq<string>)
    requires |p| >= 3 && |q| >= 3 && p[2] != q[2]
    ensures Diverge(p, q)
  {
    assert Diverge(p[2..], q[2..]);
    assert p[1..][1..] == p[2..] && q[1..][1..] == q[2..];
    assert Diverge(p[1..], q[1..]);
  }

  /** After `replaceInSpeechAndCard` each of the speech and card fields
      holds its replacement if it held a truthy value, and is as before
      otherwise; every path that parts ways with all four is untouched. */
  lemma ReplaceInSpeechAndCardFields(data: Json, mapObj: Json, order: seq<string>, j: nat, q: seq<string>)
    requires j < |SpeechAndCardFields|
    requires mapObj.Obj? ==> Enumerates(order, mapObj.fields.Keys)
    ensures |SpeechAndCardFields[j]| >= 1
    ensures Lookup(SpeechAndCardFields[j], ReplaceInSpeechAndCard(data, mapObj, order))
         == Replaced(Lookup(SpeechAndCardFields[j], data), mapObj, order)
    ensures |q| >= 1 && DivergesFromAll(q, SpeechAndCardFields) ==>
      Lookup(q, ReplaceInSpeechAndCard(data, mapObj, order)) == Lookup(q, data)
  {
    SpeechAndCardWellFormed();
    ReplaceFieldsEach(data, SpeechAndCardFields, j, mapObj, order);
    if |q| >= 1 && DivergesFromAll(q, SpeechAndCardFields) {
      ReplaceFieldsElsewhere(data, SpeechAndCardFields, q, mapObj, order);
    }
  }

  /** After `replaceInDisplay` each of the three display text fields holds
      its replacement if it held a truthy value, and is as before otherwise;
      every path that parts ways with all three is untouched. */
  lemma ReplaceInDisplayFields(data: Json, mapObj: Json, order: seq<string>, j: nat, q: seq<string>)
    requires j < |DisplayFields|
    requires mapObj.Obj? ==> Enumerates(order, mapObj.fields.Keys)
    ensures |DisplayFields[j]| >= 1
    ensures Lookup(DisplayFields[j], ReplaceInDisplay(data, mapObj, order))
         == Replaced(Lookup(DisplayFields[j], data), mapObj, order)
    ensures |q| >= 1 && DivergesFromAll(q, DisplayFields) ==>
      Lookup(q, ReplaceInDisplay(data, mapObj, order)) == Lookup(q, data)
  {
    DisplayWellFormed();
    ReplaceFieldsEach(data, DisplayFields, j, mapObj, order);
    if |q| >= 1 && DivergesFromAll(q, DisplayFields) {
      ReplaceFieldsElsewhere(data, DisplayFields, q, mapObj, order);
    }
  }

  /** After `replaceInAll` each of the seven text fields holds its
      replacement if it held a truthy value, and is as before otherwise. */
  lemma ReplaceInAllRewrites(data: Json, mapObj: Json, order: seq<string>, j: nat)
    requires j < |AllFields|
    requires mapObj.Obj? ==> Enumerates(order, mapObj.fields.Keys)
    ensures |AllFields[j]| >= 1
    ensures Lookup(AllFields[j], ReplaceInAll(data, mapObj, order))
         == Replaced(Lookup(AllFields[j], data), mapObj, order)
  {
    AllFieldsWellFormed();
    ReplaceFieldsEach(data, AllFields, j, mapObj, order);
  }

  /** `replaceInAll` leaves every path that parts ways with all seven
      fields. */
  lemma ReplaceInAllElsewhere(data: Json, mapObj: Json, order: seq<string>, q: seq<string>)
    requires |q| >= 1 && DivergesFromAll(q, AllFields)
    requires mapObj.Obj? ==> Enumerates(order, mapObj.fields.Keys)
    ensures Lookup(q, ReplaceInAll(data, mapObj, order)) == Lookup(q, data)
  {
    AllFieldsWellFormed();
    ReplaceFieldsElsewhere(data, AllFields, q, mapObj, order);
  }

  // ----------------------------------------------------------- setRepeatSpeech

  /** The speech to keep for a repeat: the options' `repeatSpeech`, else the
      data's `repeatSpeech`, else the data's `speech`, else nothing. */
  function RepeatSource(data: Json, options: Json): Json {
    if Truthy(options) && Truthy(Prop(options, "repeatSpeech")) then Prop(options, "repeatSpeech")
    else if Truthy(data) && Truthy(Prop(data, "repeatSpeech")) then Prop(data, "repeatSpeech")
    else if Truthy(data) && Truthy(Prop(data, "speech")) then Prop(data, "speech")
    else Null
  }

  /** `saveRepeat: false` among the options turns the store into a delete. */
  predicate SkipsSave(options: Json) {
    Truthy(options) && Own(options, "saveRepeat") == Some(Bool(false))
  }

  /** `get("a.b", v, null)`, the value at the two-segment path or `null`. */
  function Read2(a: string, b: string, v: Json): Json {
    match Lookup([a, b], v) case Some(x) => x case None => Null
  }

  /** When `v.a` is truthy the two-segment read reads `b` of `v.a`. */
  lemma ReadThrough(a: string, b: string, v: Json)
    requires PlainKey(a) && b != "" && Truthy(v) && Truthy(Prop(v, a))
    ensures Read2(a, b, v) == FieldOr(Prop(v, a), b, Null)
  {
    assert Lookup([a, b], v) == Lookup([b], Prop(v, a));
  }

  lemma ReadRepeatOutput(v: Json)
    ensures Get("repeatSpeech.output", v, Null) == Read2("repeatSpeech", "output", v)
  {
    assert "repeatSpeech.output" == Join(["repeatSpeech", "output"], '.');
    GetJoined(["repeatSpeech", "output"], v, Null);
  }

  lemma ReadRepeatReprompt(v: Json)
    ensures Get("repeatSpeech.reprompt", v, Null) == Read2("repeatSpeech", "reprompt", v)
  {
    assert "repeatSpeech.reprompt" == Join(["repeatSpeech", "reprompt"], '.');
    GetJoined(["repeatSpeech", "reprompt"], v, Null);
  }

  lemma ReadSpeechOutput(v: Json)
    ensures Get("speech.output", v, Null) == Read2("speech", "output", v)
  {
    assert "speech.output" == Join(["speech", "output"], '.');
    GetJoined(["speech", "output"], v, Null);
  }

  lemma ReadSpeechReprompt(v: Json)
    ensures Get("speech.reprompt", v, Null) == Read2("speech", "reprompt", v)
  {
    assert "speech.reprompt" == Join(["speech", "reprompt"], '.');
    GetJoined(["speech", "reprompt"], v, Null);
  }

  /** The four reads of the precedence chain, each from its object. */
  lemma RepeatReads(data: Json, options: Json)
    ensures Truthy(options) && Truthy(Prop(options, "repeatSpeech")) ==>
      && Read2("repeatSpeech", "output", options) == FieldOr(Prop(options, "repeatSpeech"), "output", Null)
      && Read2("repeatSpeech", "reprompt", options) == FieldOr(Prop(options, "repeatSpeech"), "reprompt", Null)
    ensures Truthy(data) && Truthy(Prop(data, "repeatSpeech")) ==>
      && Read2("repeatSpeech", "output", data) == FieldOr(Prop(data, "repeatSpeech"), "output", Null)
      && Read2("repeatSpeech", "reprompt", data) == FieldOr(Prop(data, "repeatSpeech"), "reprompt", Null)
    ensures Truthy(data) && Truthy(Prop(data, "speech")) ==>
      && Read2("speech", "output", data) == FieldOr(Prop(data, "speech"), "output", Null)
      && Read2("speech", "reprompt", data) == FieldOr(Prop(data, "speech"), "reprompt", Null)
  {
    assert PlainKey("repeatSpeech") && PlainKey("speech");
    if Truthy(options) && Truthy(Prop(options, "repeatSpeech")) {
      ReadThrough("repeatSpeech", "output", options);
      ReadThrough("repeatSpeech", "reprompt", options);
    }
    if Truthy(data) && Truthy(Prop(data, "repeatSpeech")) {
      ReadThrough("repeatSpeech", "output", data);
      ReadThrough("repeatSpeech", "reprompt", data);
    }
    if Truthy(data) && Truthy(Prop(data, "speech")) {
      ReadThrough("speech", "output", data);
      ReadThrough("speech", "reprompt", data);
    }
  }

  /** The output and reprompt the precedence chain picks; the two-segment
      `get`s are written as `Read2` (`ReadRepeatOutput`, `ReadRepeatReprompt`,
      `ReadSpeechOutput`, `ReadSpeechReprompt`). */
  function RepeatPair(data: Json, options: Json): (r: (Json, Json))
    ensures r.0 == FieldOr(RepeatSource(data, options), "output", Null)
    ensures r.1 == FieldOr(RepeatSource(data, options), "reprompt", Null)
  {
    RepeatReads(data, options);
    if Truthy(options) && Truthy(Prop(options, "repeatSpeech")) then
      (Read2("repeatSpeech", "output", options), Read2("repeatSpeech", "reprompt", options))
    else if Truthy(data) && Truthy(Prop(data, "repeatSpeech")) then
      (Read2("repeatSpeech", "output", data), Read2("repeatSpeech", "reprompt", data))
    else if Truthy(data) && Truthy(Prop(data, "speech")) then
      (Read2("speech", "output", data), Read2("speech", "reprompt", data))
    else (Null, Null)
  }

  lemma SaveRepeatRead(options: Json)
    ensures (Truthy(options) && Get("saveRepeat", options, Bool(true)) == Bool(false)) == SkipsSave(options)
  {
    ReadSaveRepeat(options, Bool(true));
  }

  /** `responseUtils.setRepeatSpeech`: the session scope keeps the picked
      output under the output key and a truthy reprompt under the reprompt
      key (a falsy one deletes the key); `saveRepeat: false` deletes both.
      The session object is changed in place and then merged into itself. */
  function SetRepeatSpeech(m: Manager, data: Json, options: Json, cfg: Enums): (r: Manager)
    ensures r.request == m.request && r.persistent == m.persistent && r.saves == m.saves
    ensures forall k :: k != cfg.speechOutput && k != cfg.speechReprompt ==>
      (k in r.session <==> k in m.session) && (k in m.session ==> r.session[k] == m.session[k])
    ensures SkipsSave(options) ==> cfg.speechOutput !in r.session && cfg.speechReprompt !in r.session
    ensures !SkipsSave(options) ==>
      var src := RepeatSource(data, options);
      && (cfg.speechReprompt in r.session <==> Truthy(FieldOr(src, "reprompt", Null)))
      && (cfg.speechReprompt in r.session ==> r.session[cfg.speechReprompt] == FieldOr(src, "reprompt", Null))
      && (cfg.speechOutput != cfg.speechReprompt ==>
            cfg.speechOutput in r.session && r.session[cfg.speechOutput] == FieldOr(src, "output", Null))
  {
    SaveRepeatRead(options);
    var pair := RepeatPair(data, options);
    var session := m.session;
    var stored :=
      if Truthy(options) && Get("saveRepeat", options, Bool(true)) == Bool(false) then
        session - {cfg.speechOutput, cfg.speechReprompt}
      else
        var withOutput := session[cfg.speechOutput := pair.0];
        if Truthy(pair.1) then withOutput[cfg.speechReprompt := pair.1]
        else withOutput - {cfg.speechReprompt};
    MergeIntoItself(m, stored);
    SetSessionAttributes(m.(session := stored), Obj(stored))
  }

  /** Merging the session object into itself leaves it as it is, whether or
      not `isObject` accepts it. */
  lemma MergeIntoItself(m: Manager, s: map<string, Json>)
    ensures SetSessionAttributes(m.(session := s), Obj(s)) == m.(session := s)
  {
    assert Merge(s, s) == s;
  }
}
