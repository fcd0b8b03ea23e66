/**
 * src/lib/api/client.ts: the browser's API client. It builds Discord CDN
 * image URLs, classifies what a request to the site's own API produced into
 * an `APIError`, and keys concurrent identical requests by method and URL.
 */
module ApiClient {
  import opened Wrappers
  import opened Text
  import opened Json
  import opened Http

  const CdnBase := "https://cdn.discordapp.com/"
  const ApiBase := "/api"
  const RequestFailed := "Request failed"
  const RequestTimeout := "Request timeout"
  const NetworkError := "Network error occurred"

  /** The five `DISCORD_CDN` builders. */
  datatype Asset = Avatar | UserBanner | GuildIcon | GuildBanner | GuildSplash

  function Category(a: Asset): string {
    match a
    case Avatar => "avatars"
    case UserBanner => "banners"
    case GuildIcon => "icons"
    case GuildBanner => "banners"
    case GuildSplash => "splashes"
  }

  /** The `size` query parameter, as written in each template. */
  function SizeText(a: Asset): string {
    match a
    case Avatar => "128"
    case UserBanner => "600"
    case GuildIcon => "128"
    case GuildBanner => "1024"
    case GuildSplash => "1024"
  }

  /** Only avatars are ever animated: `gif` for an `a_` hash, otherwise `png`. */
  function Extension(a: Asset, hash: string): (e: string)
    ensures |e| == 3
    ensures e == "gif" <==> a == Avatar && StartsWith(hash, "a_")
    ensures e != "gif" ==> e == "png"
  {
    if a == Avatar && StartsWith(hash, "a_") then "gif" else "png"
  }

  /** The text after the hash: the extension and the size query. */
  function Suffix(a: Asset, hash: string): string {
    "." + Extension(a, hash) + "?size=" + SizeText(a)
  }

  /** `DISCORD_CDN.<builder>(ownerId, hash)`: `https://cdn.discordapp.com/<category>/<ownerId>/<hash>.<ext>?size=<n>`. */
  function CdnUrl(a: Asset, ownerId: string, hash: string): (url: string)
    ensures StartsWith(url, CdnBase + Category(a) + "/")
    ensures EndsWith(url, Suffix(a, hash))
  {
    var head := CdnBase + Category(a) + "/";
    var url := head + (ownerId + "/" + hash) + Suffix(a, hash);
    assert url[..|head|] == head;
    assert url[|url| - |Suffix(a, hash)|..] == Suffix(a, hash);
    url
  }

  /** Joining at a separator the left parts never hold can be undone. */
  lemma SplitAtSeparator(x1: string, y1: string, x2: string, y2: string, sep: char)
    requires forall i :: 0 <= i < |x1| ==> x1[i] != sep
    requires forall i :: 0 <= i < |x2| ==> x2[i] != sep
    requires x1 + [sep] + y1 == x2 + [sep] + y2
    ensures x1 == x2 && y1 == y2
  {
    var s := x1 + [sep] + y1;
    assert s[|x1|] == sep && s[|x2|] == sep;
    assert |x1| == |x2|;
    assert x1 == s[..|x1|];
    assert x2 == s[..|x2|];
    assert y1 == s[|x1| + 1..];
  }

  /** The URL cut at the slash after the category and at the slash after the owner id. */
  lemma CdnUrlParts(a: Asset, ownerId: string, hash: string)
    ensures CdnUrl(a, ownerId, hash) == (CdnBase + Category(a) + "/") + (ownerId + ['/'] + (hash + Suffix(a, hash)))
  {
    Regroup(CdnBase + Category(a) + "/", ownerId, "/", hash, Suffix(a, hash));
  }

  lemma Regroup(head: string, o: string, sep: string, h: string, z: string)
    ensures head + (o + sep + h) + z == head + (o + sep + (h + z))
  {
  }

  /**
   * The owner id and the hash are consecutive path segments that can be read
   * back: two URLs of one builder are equal only for equal owner ids (without
   * a slash) and equal hashes.
   */
  lemma CdnUrlInjective(a: Asset, o1: string, h1: string, o2: string, h2: string)
    requires forall i :: 0 <= i < |o1| ==> o1[i] != '/'
    requires forall i :: 0 <= i < |o2| ==> o2[i] != '/'
    requires CdnUrl(a, o1, h1) == CdnUrl(a, o2, h2)
    ensures o1 == o2 && h1 == h2
  {
    var head := CdnBase + Category(a) + "/";
    var r1 := h1 + Suffix(a, h1);
    var r2 := h2 + Suffix(a, h2);
    CdnUrlParts(a, o1, h1);
    CdnUrlParts(a, o2, h2);
    assert o1 + ['/'] + r1 == o2 + ['/'] + r2 by {
      assert (head + (o1 + ['/'] + r1))[|head|..] == o1 + ['/'] + r1;
      assert (head + (o2 + ['/'] + r2))[|head|..] == o2 + ['/'] + r2;
    }
    SplitAtSeparator(o1, r1, o2, r2, '/');
    assert |Suffix(a, h1)| == |Suffix(a, h2)|;
    assert h1 == r1[..|h1|] && h2 == r2[..|h2|];
  }

  /** `build*Url(ownerId, hash)`: no URL for a null or empty hash. */
  function BuildUrl(a: Asset, ownerId: string, hash: Option<string>): (url: Option<string>)
    ensures url.None? <==> hash.None? || hash.value == ""
    ensures url.Some? ==> url.value == CdnUrl(a, ownerId, hash.value)
  {
    if hash.Some? && hash.value != "" then Some(CdnUrl(a, ownerId, hash.value)) else None
  }

  /** Two suffixes of equal length: a string ending with one ends with the other exactly when they are equal. */
  lemma SameLengthSuffix(s: string, x: string, y: string)
    requires EndsWith(s, x) && |x| == |y|
    ensures EndsWith(s, y) <==> x == y
  {
  }

  /** An avatar URL is a gif exactly for an `a_` hash. */
  lemma AvatarIsGifIffAnimated(ownerId: string, hash: string)
    ensures EndsWith(CdnUrl(Avatar, ownerId, hash), ".gif?size=128") <==> StartsWith(hash, "a_")
  {
    var e := Extension(Avatar, hash);
    var suffix := Suffix(Avatar, hash);
    assert suffix == "." + e + "?size=128";
    SameLengthSuffix(CdnUrl(Avatar, ownerId, hash), suffix, ".gif?size=128");
    if suffix == ".gif?size=128" {
      assert e == suffix[1..4];
    }
  }

  /** Banners, icons and splashes are png whatever the hash, even an `a_` one. */
  lemma OthersArePng(a: Asset, ownerId: string, hash: string)
    requires a != Avatar
    ensures EndsWith(CdnUrl(a, ownerId, hash), ".png?size=" + SizeText(a))
  {
    assert "." + "png" + "?size=" == ".png?size=";
    assert Suffix(a, hash) == ".png?size=" + SizeText(a);
  }

  // ------------------------------------------------------------ apiRequest errors

  /** `new APIError(message, status, code)`. */
  datatype ApiError = ApiError(message: string, status: int, code: Option<Json>)

  /** What the request produced: an abort by the timeout, another fetch failure, or a response. */
  datatype Fetch = Aborted | NetworkFailure | Answer(response: Response)

  /** How `apiRequest` settles: a value, an `APIError`, or an error that escapes the `try` unchanged. */
  datatype Settled = Value(value: Json) | Rejected(error: ApiError) | Escaped(message: string)

  /** The `APIError` thrown inside the `try` for a non-ok response; a `null` error body throws a TypeError instead. */
  function NonOkError(status: int, body: JsonBody): (r: Option<ApiError>)
    ensures body.Parsed? && body.value == JNull ==> r.None?
    ensures r.Some? ==> r.value.status == status
    ensures body.Unparsable? ==> r == Some(ApiError(RequestFailed, status, None))
  {
    var data := if body.Parsed? then body.value else JObj(map[]);
    if data == JNull then None
    else
      var message := Or(Get(data, "error"), Or(Get(data, "message"), JStr(RequestFailed)));
      Some(ApiError(ToJsString(message), status, Get(data, "code")))
  }

  /** The `catch`: an abort is a timeout, an `APIError` passes unchanged, anything else is a network error. */
  function Classify(thrown: Option<ApiError>, aborted: bool): (e: ApiError)
    ensures aborted ==> e == ApiError(RequestTimeout, 408, None)
    ensures !aborted && thrown.Some? ==> e == thrown.value
    ensures !aborted && thrown.None? ==> e == ApiError(NetworkError, 500, None)
  {
    if aborted then ApiError(RequestTimeout, 408, None)
    else if thrown.Some? then thrown.value
    else ApiError(NetworkError, 500, None)
  }

  /**
   * `apiRequest(endpoint)` once the request has settled. An ok body that
   * fails to parse is returned from the `try` as a pending promise, so its
   * error escapes the `catch`.
   */
  function ApiRequest(f: Fetch): (s: Settled)
    ensures f.Aborted? ==> s == Rejected(ApiError(RequestTimeout, 408, None))
    ensures f.NetworkFailure? ==> s == Rejected(ApiError(NetworkError, 500, None))
    ensures f.Answer? && !IsOk(f.response.status) ==>
      s.Rejected? && s.error == Classify(NonOkError(f.response.status, f.response.body), false)
    ensures f.Answer? && IsOk(f.response.status) ==>
      s == (match f.response.body
            case Parsed(v) => Value(v)
            case Unparsable(e) => Escaped(e))
  {
    match f
    case Aborted => Rejected(Classify(None, true))
    case NetworkFailure => Rejected(Classify(None, false))
    case Answer(response) =>
      if !IsOk(response.status) then Rejected(Classify(NonOkError(response.status, response.body), false))
      else match response.body
        case Parsed(v) => Value(v)
        case Unparsable(e) => Escaped(e)
  }

  /** As written, an ok reply whose body is not JSON settles with the raw parse error, not an `APIError`. */
  lemma ParseErrorEscapesAsWritten()
    ensures ApiRequest(Answer(Response(200, map[], Unparsable("SyntaxError")))) == Escaped("SyntaxError")
  {
  }

  /**
   * `apiRequest` with `return await response.json()`: the parse error of an
   * ok reply is then thrown inside the `try` and reported like any other
   * failure.
   */
  function ApiRequestAwaited(f: Fetch): (s: Settled)
    ensures !s.Escaped?
    ensures f.Answer? && IsOk(f.response.status) && f.response.body.Unparsable? ==>
      s == Rejected(ApiError(NetworkError, 500, None))
    ensures !(f.Answer? && IsOk(f.response.status) && f.response.body.Unparsable?) ==> s == ApiRequest(f)
  {
    match f
    case Answer(response) =>
      if IsOk(response.status) && response.body.Unparsable? then Rejected(Classify(None, false))
      else ApiRequest(f)
    case _ => ApiRequest(f)
  }

  /** A rejected non-ok response carries that response's status, unless its body was `null`. */
  lemma NonOkKeepsStatus(response: Response)
    requires !IsOk(response.status) && response.body != Parsed(JNull)
    ensures ApiRequest(Answer(response)) == Rejected(Classify(NonOkError(response.status, response.body), false))
    ensures ApiRequest(Answer(response)).error.status == response.status
  {
  }

  /** A `null` error body makes the property read throw, which the catch reports as a network error. */
  lemma NullErrorBodyIsNetworkError(status: int)
    requires !IsOk(status)
    ensures ApiRequest(Answer(Response(status, map[], Parsed(JNull)))) == Rejected(ApiError(NetworkError, 500, None))
  {
  }

  // ------------------------------------------------------------ request de-duplication key

  /** The de-duplication key `${options.method || 'GET'}:${API_CONFIG.BASE_URL}${endpoint}`. */
  function CacheKey(requestMethod: Option<string>, endpoint: string): (k: string)
    ensures (requestMethod.None? || requestMethod.value == "") ==> k == "GET:" + ApiBase + endpoint
    ensures requestMethod.Some? && requestMethod.value != "" ==> k == requestMethod.value + ":" + ApiBase + endpoint
  {
    var m := if requestMethod.Some? && requestMethod.value != "" then requestMethod.value else "GET";
    m + ":" + ApiBase + endpoint
  }

  /** Distinct requests (methods without a colon) never share a de-duplication key. */
  lemma CacheKeyInjective(m1: string, e1: string, m2: string, e2: string)
    requires forall i :: 0 <= i < |m1| ==> m1[i] != ':'
    requires forall i :: 0 <= i < |m2| ==> m2[i] != ':'
    requires m1 != "" && m2 != ""
    requires CacheKey(Some(m1), e1) == CacheKey(Some(m2), e2)
    ensures m1 == m2 && e1 == e2
  {
    assert CacheKey(Some(m1), e1) == m1 + [':'] + (ApiBase + e1);
    assert CacheKey(Some(m2), e2) == m2 + [':'] + (ApiBase + e2);
    SplitAtSeparator(m1, ApiBase + e1, m2, ApiBase + e2, ':');
    assert e1 == (ApiBase + e1)[|ApiBase|..];
    assert e2 == (ApiBase + e2)[|ApiBase|..];
  }
}
