/** The path utilities of the utilities module: asset URL rewriting
    (`makeImagePath`, `makeAudioPath`) and query-string building
    (`formUrlWithParams`). */
module PathUtils {
  import opened Text
  import opened Js

  /** The protocol prefixes and asset-host constants the rewriting uses. The
      constants module that defines them is not part of this model, so they
      are parameters. */
  datatype Assets = Assets(
    http: string,        // the plain-HTTP protocol prefix
    https: string,       // the secure protocol prefix
    host: string,        // the asset host
    bucket: string,      // the bucket segment
    imagePath: string,   // the path segment for images
    audioPath: string)   // the path segment for audio

  /** The rewritten form of a relative asset name. */
  function Prefixed(assets: Assets, segment: string, url: string): string {
    assets.host + assets.bucket + segment + url
  }

  predicate IsAbsolute(assets: Assets, url: string) {
    StartsWith(url, assets.http) || StartsWith(url, assets.https)
  }

  /** The rule shared by `makeImagePath` and `makeAudioPath`: a falsy URL and
      one starting with either protocol are returned as they are, any other
      one is prefixed with the asset host, bucket and media segment. The URL
      must have an `indexOf` method. */
  function MakeAssetPath(url: Json, assets: Assets, segment: string): (r: Result<Json>)
    ensures !Truthy(url) ==> r == Ok(url)
    ensures url.Str? && url.s != "" ==>
      r == Ok(Str(if IsAbsolute(assets, url.s) then url.s else Prefixed(assets, segment, url.s)))
    ensures Truthy(url) && !url.Str? && !url.Arr? ==> r == Thrown(TypeError)
  {
    PrefixTest(url, assets.http);
    PrefixTest(url, assets.https);
    if !Truthy(url) then Ok(url)
    else
      var i :- IndexOf(url, Str(assets.http));
      if i == 0 then Ok(url)
      else
        var j :- IndexOf(url, Str(assets.https));
        if j == 0 then Ok(url) else Ok(Str(Prefixed(assets, segment, ToJsString(url))))
  }

  lemma PrefixTest(url: Json, p: string)
    ensures url.Str? ==> (IndexOf(url, Str(p)) == Ok(0) <==> StartsWith(url.s, p))
  {
    if url.Str? {
      IndexOfZeroIsPrefix(url.s, p);
    }
  }

  /** `utils.makeImagePath`. */
  function MakeImagePath(url: Json, assets: Assets): (r: Result<Json>)
    ensures !Truthy(url) ==> r == Ok(url)
    ensures url.Str? && url.s != "" ==>
      r == Ok(Str(if IsAbsolute(assets, url.s) then url.s else Prefixed(assets, assets.imagePath, url.s)))
  {
    MakeAssetPath(url, assets, assets.imagePath)
  }

  /** `utils.makeAudioPath`. */
  function MakeAudioPath(url: Json, assets: Assets): (r: Result<Json>)
    ensures !Truthy(url) ==> r == Ok(url)
    ensures url.Str? && url.s != "" ==>
      r == Ok(Str(if IsAbsolute(assets, url.s) then url.s else Prefixed(assets, assets.audioPath, url.s)))
  {
    MakeAssetPath(url, assets, assets.audioPath)
  }

  /** When the asset host is itself an absolute URL, rewriting is idempotent:
      a rewritten URL is left alone the second time. */
  lemma MakeAssetPathIdempotent(url: string, assets: Assets, segment: string)
    requires url != ""
    requires StartsWith(assets.host, assets.http) || StartsWith(assets.host, assets.https)
    ensures MakeAssetPath(Str(url), assets, segment).Ok?
    ensures var once := MakeAssetPath(Str(url), assets, segment).value;
      MakeAssetPath(once, assets, segment) == Ok(once)
  {
    var p := Prefixed(assets, segment, url);
    assert p == assets.host + (assets.bucket + segment + url);
    if StartsWith(assets.host, assets.http) {
      assert p[..|assets.http|] == assets.host[..|assets.http|];
    } else {
      assert p[..|assets.https|] == assets.host[..|assets.https|];
    }
  }

  /** The keys `"0"`, `"1"`, ... of an array of length `n`, in order. */
  function IndexKeySeq(n: nat): seq<string> {
    seq(n, i requires 0 <= i < n => NatToString(i))
  }

  /** One query parameter: `key`, or `key=value` unless the value is `null`. */
  function Param(params: Json, key: string): string {
    key + (if Prop(params, key).Null? then "" else "=" + ToJsString(Prop(params, key)))
  }

  /** The loop of `formUrlWithParams`: each parameter followed by `&`. */
  function ParamsWithAmp(params: Json, keys: seq<string>): string {
    if keys == [] then "" else Param(params, keys[0]) + "&" + ParamsWithAmp(params, keys[1..])
  }

  /** `s.replace(/&$/, "")`: drop one trailing ampersand. */
  function DropTrailingAmp(s: string): string {
    if s != [] && s[|s| - 1] == '&' then s[..|s| - 1] else s
  }

  /** `utils.formUrlWithParams`. `order` is the enumeration order of an object
      argument's keys. A missing or non-object argument counts as `{}`;
      `null` is an object to `typeof`, and `Object.keys(null)` throws. */
  function FormUrlWithParams(url: Json, params: Json, order: seq<string>): (r: Result<Json>)
    requires params.Obj? ==> Enumerates(order, params.fields.Keys)
    ensures !IsObjectType(params) || (params.Obj? && params.fields == map[]) || (params.Arr? && params.items == [])
      ==> r == Ok(url)
    ensures params.Null? ==> r == Thrown(TypeError)
  {
    var p := if params.Undefined? || !IsObjectType(params) then Obj(map[]) else params;
    if p.Null? then Thrown(TypeError)
    else
      var keys := if params.Obj? then order else if params.Arr? then IndexKeySeq(|params.items|) else [];
      assert params.Obj? && order != [] ==> order[0] in params.fields.Keys;
      if keys == [] then Ok(url)
      else
        var q :- IndexOf(url, Str("?"));
        var base := ToJsString(url) + (if q != -1 then "&" else "?");
        Ok(Str(DropTrailingAmp(base + ParamsWithAmp(p, keys))))
  }

  /** The parameters joined with `&`, as a reader of the URL sees them. */
  function Query(params: Json, keys: seq<string>): string
    requires keys != []
  {
    if |keys| == 1 then Param(params, keys[0]) else Param(params, keys[0]) + "&" + Query(params, keys[1..])
  }

  /** The loop's text is the joined parameters plus one trailing `&`. */
  lemma {:induction false} ParamsWithAmpQuery(params: Json, keys: seq<string>)
    requires keys != []
    ensures ParamsWithAmp(params, keys) == Query(params, keys) + "&"
    decreases |keys|
  {
    if |keys| > 1 {
      ParamsWithAmpQuery(params, keys[1..]);
    } else {
      assert ParamsWithAmp(params, keys[1..]) == "";
    }
  }

  /** With at least one parameter, the URL is the original text, then `?`
      (or `&` when it already has a query), then the parameters joined with
      `&` and no trailing separator. */
  lemma FormUrlQuery(url: string, params: Json, order: seq<string>)
    requires params.Obj? && Enumerates(order, params.fields.Keys) && order != []
    ensures FormUrlWithParams(Str(url), params, order)
      == Ok(Str(url + (if Contains(url, "?") then "&" else "?") + Query(params, order)))
  {
    var base := url + (if Contains(url, "?") then "&" else "?");
    ParamsWithAmpQuery(params, order);
    var t := base + Query(params, order);
    assert base + (Query(params, order) + "&") == t + "&";
    assert (t + "&")[..|t|] == t;
  }
}
