/**
 * src/worker.ts: the Cloudflare Worker that serves the API and the single
 * page application. Its two API routes check a per-client platform rate
 * limiter first, then the path parameter, then call Discord directly; every
 * other path goes to the static asset fetcher, with page paths rewritten to
 * /index.html.
 */
module Worker {
  import opened Wrappers
  import opened Text
  import opened Json
  import opened Http

  const RateLimitExceeded := "Rate limit exceeded. Please try again later."
  const RetryAfterSeconds := 60
  const InvalidCode := "Invalid vanity code"
  const InvalidUserId := "Invalid user ID"
  const CheckFallback := "An error occurred while checking the vanity URL"
  /** Stands in for the error a property read on `null` throws. */
  const NullReadError := "TypeError: Cannot read properties of null"
  const UserAgentPrefixLength := 50

  /** The request headers `getClientKey` reads. */
  datatype ClientHeaders = ClientHeaders(cfConnectingIp: Option<string>, userAgent: Option<string>, cfRay: Option<string>)

  /** A header value as `||` sees it: present and non-empty. */
  predicate Given(h: Option<string>) {
    h.Some? && h.value != ""
  }

  /** `getClientKey(request)`. */
  function ClientKey(h: ClientHeaders): (k: string)
    ensures Given(h.cfConnectingIp) ==> k == h.cfConnectingIp.value
    ensures !Given(h.cfConnectingIp) ==>
      var ua := if Given(h.userAgent) then h.userAgent.value else "unknown";
      var ray := if Given(h.cfRay) then h.cfRay.value else "unknown";
      k == Take(ua, UserAgentPrefixLength) + "-" + ray
  {
    if Given(h.cfConnectingIp) then h.cfConnectingIp.value
    else
      var ua := if Given(h.userAgent) then h.userAgent.value else "unknown";
      Take(ua, UserAgentPrefixLength) + "-" + (if Given(h.cfRay) then h.cfRay.value else "unknown")
  }

  /** Without a connecting IP the key is at most 50 characters of agent, a dash and the ray id. */
  lemma FallbackKeyShape(h: ClientHeaders)
    requires !Given(h.cfConnectingIp)
    ensures var k := ClientKey(h);
      var ray := if Given(h.cfRay) then h.cfRay.value else "unknown";
      exists n :: 0 <= n <= UserAgentPrefixLength && n < |k| && k[n] == '-' && k[n + 1..] == ray
  {
    var ua := if Given(h.userAgent) then h.userAgent.value else "unknown";
    var ray := if Given(h.cfRay) then h.cfRay.value else "unknown";
    var head := Take(ua, UserAgentPrefixLength);
    var k := head + "-" + ray;
    assert ClientKey(h) == k;
    assert |head| <= UserAgentPrefixLength && k[|head|] == '-' && k[|head| + 1..] == ray;
  }

  /** The 429 body of both limited routes. */
  function LimitedBody(): Json {
    JObj(map["error" := JStr(RateLimitExceeded), "retryAfter" := JNum(RetryAfterSeconds)])
  }

  function ErrorOnly(message: string): Json {
    JObj(map["error" := JStr(message)])
  }

  // ------------------------------------------------------------ trait sanitiser

  /**
   * One element of `data.traits.map(...)` as written: a string is kept,
   * anything else becomes `trait.label || trait.name || String(trait)`, and a
   * `null` trait throws on the property read.
   */
  function TraitAsWritten(t: Json): (r: Result<Json, string>)
    ensures t.JStr? ==> r == Success(t)
    ensures r.Failure? <==> t == JNull
    ensures r.Failure? ==> r.error == NullReadError
  {
    if t.JStr? then Success(t)
    else if t == JNull then Failure(NullReadError)
    else Success(Or(Get(t, "label"), Or(Get(t, "name"), JStr(ToJsString(t)))))
  }

  /** The as-written sanitiser lets a truthy non-string label through and throws on a `null` trait. */
  lemma TraitAsWrittenLeaksNonStrings()
    ensures TraitAsWritten(JObj(map["label" := JNum(7)])) == Success(JNum(7))
    ensures TraitAsWritten(JNull).Failure?
  {
    var t := JObj(map["label" := JNum(7)]);
    assert Get(t, "label") == Some(JNum(7));
  }

  /** The sanitiser as intended: every trait becomes a string, by `String(...)` of the chosen value. */
  function SanitiseTrait(t: Json): string {
    if t.JStr? then t.s else ToJsString(Or(Get(t, "label"), Or(Get(t, "name"), t)))
  }

  /** Wherever the as-written sanitiser already yields a string, the intended one yields the same string. */
  lemma SanitiseTraitAgrees(t: Json)
    ensures TraitAsWritten(t).Success? && TraitAsWritten(t).value.JStr? ==>
      SanitiseTrait(t) == TraitAsWritten(t).value.s
  {
  }

  /** `items.map(...)` with the as-written sanitiser: the first `null` trait throws out of the whole map. */
  function TraitsAsWritten(items: seq<Json>): (r: Result<seq<Json>, string>)
    ensures r.Failure? <==> exists i :: 0 <= i < |items| && items[i] == JNull
    ensures r.Failure? ==> r.error == NullReadError
    ensures r.Success? ==>
      |r.value| == |items| && forall i :: 0 <= i < |items| ==> TraitAsWritten(items[i]) == Success(r.value[i])
  {
    if items == [] then Success([])
    else match TraitAsWritten(items[0])
      case Failure(e) => Failure(e)
      case Success(t) =>
        match TraitsAsWritten(items[1..])
        case Failure(e) =>
          assert exists i :: 0 <= i < |items[1..]| && items[1..][i] == JNull;
          var i :| 0 <= i < |items[1..]| && items[1..][i] == JNull;
          assert items[i + 1] == JNull;
          Failure(e)
        case Success(rest) =>
          assert forall i :: 1 <= i < |items| ==> items[i] == items[1..][i - 1];
          Success([t] + rest)
  }

  /** `traits` after the sanitiser as written: an array is mapped with `TraitAsWritten`; anything else is left as it is. */
  function SanitisedTraitsAsWritten(traits: Option<Json>): (r: Result<Option<Json>, string>)
    ensures !(traits.Some? && traits.value.JArr?) ==> r == Success(traits)
    ensures traits.Some? && traits.value.JArr? ==>
      && (r.Failure? <==> exists i :: 0 <= i < |traits.value.items| && traits.value.items[i] == JNull)
      && (r.Failure? ==> r.error == NullReadError)
      && (r.Success? ==>
            && r.value.Some? && r.value.value.JArr? && |r.value.value.items| == |traits.value.items|
            && forall i :: 0 <= i < |traits.value.items| ==>
                 TraitAsWritten(traits.value.items[i]) == Success(r.value.value.items[i]))
  {
    if traits.Some? && traits.value.JArr? then
      match TraitsAsWritten(traits.value.items)
      case Failure(e) => Failure(e)
      case Success(items) => Success(Some(JArr(items)))
    else Success(traits)
  }

  /** `traits` after the intended sanitiser: an array has every element mapped to a string; anything else is left as it is. */
  function SanitisedTraits(traits: Option<Json>): (r: Option<Json>)
    ensures traits.Some? && traits.value.JArr? ==>
      r.Some? && r.value.JArr? && |r.value.items| == |traits.value.items|
      && forall i :: 0 <= i < |r.value.items| ==> r.value.items[i] == JStr(SanitiseTrait(traits.value.items[i]))
    ensures !(traits.Some? && traits.value.JArr?) ==> r == traits
  {
    if traits.Some? && traits.value.JArr? then
      var items := traits.value.items;
      Some(JArr(seq(|items|, i requires 0 <= i < |items| => JStr(SanitiseTrait(items[i])))))
    else traits
  }

  /**
   * The body for an ok upstream reply with sanitised traits `traits`: the
   * upstream fields, the traits replaced, two fields dropped, two overridden.
   */
  function TakenWith(data: Json, traits: Option<Json>): (b: Json)
    ensures b.JObj?
    ensures Get(b, "available") == Some(JBool(false)) && Get(b, "error") == Some(JNull)
    ensures "game_activity" !in b.fields && "emojis" !in b.fields
    ensures Get(b, "traits") == traits
    ensures forall k :: k !in {"traits", "game_activity", "emojis", "available", "error"} ==>
      Get(b, k) == Get(data, k)
  {
    var spread := SetField(SetField(SetField(Fields(data), "traits", traits), "game_activity", None), "emojis", None);
    JObj(spread["available" := JBool(false)]["error" := JNull])
  }

  /** The taken body as src/worker.ts builds it: a `null` trait makes it throw. */
  function TakenBodyAsWritten(data: Json): (r: Result<Json, string>)
    ensures r.Failure? <==> SanitisedTraitsAsWritten(Get(data, "traits")).Failure?
    ensures r.Failure? ==> r.error == NullReadError
    ensures r.Success? ==> r.value == TakenWith(data, SanitisedTraitsAsWritten(Get(data, "traits")).value)
  {
    match SanitisedTraitsAsWritten(Get(data, "traits"))
    case Failure(e) => Failure(e)
    case Success(traits) => Success(TakenWith(data, traits))
  }

  /** The taken body as intended, with every trait a string. */
  function TakenBody(data: Json): (b: Json)
    ensures b == TakenWith(data, SanitisedTraits(Get(data, "traits")))
    ensures Get(b, "available") == Some(JBool(false)) && Get(b, "error") == Some(JNull)
    ensures Get(b, "traits") == SanitisedTraits(Get(data, "traits"))
  {
    TakenWith(data, SanitisedTraits(Get(data, "traits")))
  }

  /** Every trait of the taken body is a string. */
  lemma TakenTraitsAreStrings(data: Json)
    ensures var t := Get(TakenBody(data), "traits");
      t.Some? && t.value.JArr? && Get(data, "traits").Some? && Get(data, "traits").value.JArr? ==>
        forall i :: 0 <= i < |t.value.items| ==> t.value.items[i].JStr?
  {
  }

  /** Where every trait is already a string, the as-written and the intended bodies are the same. */
  lemma TakenBodiesAgreeOnStringTraits(data: Json)
    requires var t := Get(data, "traits");
      t.Some? && t.value.JArr? ==> forall i :: 0 <= i < |t.value.items| ==> t.value.items[i].JStr?
    ensures TakenBodyAsWritten(data) == Success(TakenBody(data))
  {
    var t := Get(data, "traits");
    if t.Some? && t.value.JArr? {
      var written := SanitisedTraitsAsWritten(t);
      assert written.Success?;
      var items := written.value.value.items;
      assert forall i :: 0 <= i < |items| ==> items[i] == t.value.items[i];
      assert items == t.value.items;
      var intended := SanitisedTraits(t).value.items;
      assert forall i :: 0 <= i < |items| ==> intended[i] == items[i];
      assert intended == items;
    }
  }

  // ------------------------------------------------------------ routes

  /** Past the limiter, with a code, and not the 404 shortcut: the route looks at Discord's body. */
  predicate Forwarded(h: ClientHeaders, code: string, allow: string -> bool, reply: Response) {
    allow("vanity:" + ClientKey(h)) && code != "" && reply.status != 404
  }

  /** An ok reply with a JSON body other than `null`. */
  predicate OkObject(reply: Response) {
    IsOk(reply.status) && reply.body.Parsed? && reply.body.value != JNull
  }

  /**
   * `GET /api/vanity/:code` with `taken` building the body of an ok reply.
   * `allow` is the vanity limiter's verdict for a key, `reply` Discord's
   * answer; a `Failure` is an exception Hono turns into its default error
   * response.
   */
  function VanityRouteWith(h: ClientHeaders, code: string, allow: string -> bool, reply: Response,
                           taken: Json -> Result<Json, string>): (r: Result<Reply<Json>, string>)
    ensures !allow("vanity:" + ClientKey(h)) ==> r == Success(Reply(429, LimitedBody()))
    ensures allow("vanity:" + ClientKey(h)) && code == "" ==> r == Success(Reply(400, ErrorOnly(InvalidCode)))
    ensures allow("vanity:" + ClientKey(h)) && code != "" && reply.status == 404 ==>
      r == Success(Reply(200, JObj(map["available" := JBool(true), "guild" := JNull])))
    ensures Forwarded(h, code, allow, reply) ==>
      && (reply.body.Unparsable? ==> r == Failure(reply.body.syntaxError))
      && (reply.body == Parsed(JNull) ==> r == Failure(NullReadError))
    ensures Forwarded(h, code, allow, reply) && OkObject(reply) ==>
      r == match taken(reply.body.value)
           case Success(b) => Success(Reply(200, b))
           case Failure(e) => Failure(e)
  {
    if !allow("vanity:" + ClientKey(h)) then Success(Reply(429, LimitedBody()))
    else if code == "" then Success(Reply(400, ErrorOnly(InvalidCode)))
    else if reply.status == 404 then Success(Reply(200, JObj(map["available" := JBool(true), "guild" := JNull])))
    else match reply.body
      case Unparsable(e) => Failure(e)
      case Parsed(data) =>
        if data == JNull then Failure(NullReadError)
        else if IsOk(reply.status) then
          match taken(data)
          case Success(b) => Success(Reply(200, b))
          case Failure(e) => Failure(e)
        else
          var error := Or(Get(data, "message"), JStr(CheckFallback));
          Success(Reply(if reply.status == 429 then 429 else 500,
                        JObj(map["available" := JBool(false), "error" := error])))
  }

  /** The vanity route as src/worker.ts writes it: an ok reply whose traits hold a `null` throws. */
  function VanityRoute(h: ClientHeaders, code: string, allow: string -> bool, reply: Response): (r: Result<Reply<Json>, string>)
    ensures !allow("vanity:" + ClientKey(h)) ==> r == Success(Reply(429, LimitedBody()))
    ensures allow("vanity:" + ClientKey(h)) && code == "" ==> r == Success(Reply(400, ErrorOnly(InvalidCode)))
    ensures allow("vanity:" + ClientKey(h)) && code != "" && reply.status == 404 ==>
      r == Success(Reply(200, JObj(map["available" := JBool(true), "guild" := JNull])))
    ensures Forwarded(h, code, allow, reply) && (reply.body.Unparsable? || reply.body == Parsed(JNull)) ==> r.Failure?
    ensures Forwarded(h, code, allow, reply) && OkObject(reply) ==>
      && (r.Failure? <==> TakenBodyAsWritten(reply.body.value).Failure?)
      && (r.Success? ==> r.value == Reply(200, TakenBodyAsWritten(reply.body.value).value))
  {
    VanityRouteWith(h, code, allow, reply, TakenBodyAsWritten)
  }

  /** The vanity route with the intended sanitiser: an ok reply always gives 200 with the taken body. */
  function VanityRouteIntended(h: ClientHeaders, code: string, allow: string -> bool, reply: Response): (r: Result<Reply<Json>, string>)
    ensures Forwarded(h, code, allow, reply) && OkObject(reply) ==> r == Success(Reply(200, TakenBody(reply.body.value)))
    ensures Forwarded(h, code, allow, reply) && (reply.body.Unparsable? || reply.body == Parsed(JNull)) ==> r.Failure?
    ensures !(Forwarded(h, code, allow, reply) && OkObject(reply)) ==> r == VanityRoute(h, code, allow, reply)
  {
    VanityRouteWith(h, code, allow, reply, (d: Json) => Success(TakenBody(d)))
  }

  /** An ok reply with traits `[null]`: the route as written throws, the intended one answers 200 with the trait "null". */
  lemma NullTraitBreaksRoute(h: ClientHeaders, code: string, allow: string -> bool, headers: map<string, string>)
    requires allow("vanity:" + ClientKey(h)) && code != ""
    ensures var reply := Response(200, headers, Parsed(JObj(map["traits" := JArr([JNull])])));
      && VanityRoute(h, code, allow, reply) == Failure(NullReadError)
      && VanityRouteIntended(h, code, allow, reply).Success?
      && Get(VanityRouteIntended(h, code, allow, reply).value.body, "traits") == Some(JArr([JStr("null")]))
  {
    var data := JObj(map["traits" := JArr([JNull])]);
    assert Get(data, "traits") == Some(JArr([JNull]));
    assert JArr([JNull]).items[0] == JNull;
    var t := SanitisedTraits(Get(data, "traits"));
    assert t.value.items == [JStr("null")];
  }

  /** Where every upstream trait is a string, the route as written and the intended route answer the same. */
  lemma RoutesAgreeOnStringTraits(h: ClientHeaders, code: string, allow: string -> bool, reply: Response)
    requires reply.body.Parsed? && reply.body.value != JNull
    requires var t := Get(reply.body.value, "traits");
      t.Some? && t.value.JArr? ==> forall i :: 0 <= i < |t.value.items| ==> t.value.items[i].JStr?
    ensures VanityRoute(h, code, allow, reply) == VanityRouteIntended(h, code, allow, reply)
  {
    TakenBodiesAgreeOnStringTraits(reply.body.value);
  }

  /** A limited client gets the same 429 whatever code it asks for and whatever Discord would say. */
  lemma LimitComesFirst(h: ClientHeaders, c1: string, c2: string, allow: string -> bool, r1: Response, r2: Response)
    requires !allow("vanity:" + ClientKey(h))
    ensures VanityRoute(h, c1, allow, r1) == VanityRoute(h, c2, allow, r2) == Success(Reply(429, LimitedBody()))
  {
  }

  /**
   * Past the limiter, a 400 means exactly an empty code; a non-ok upstream
   * reply other than 404 becomes 429 when it was 429 and 500 otherwise, with
   * `available = false` and the upstream message or the fallback.
   */
  lemma VanityStatusMapping(h: ClientHeaders, code: string, allow: string -> bool, reply: Response)
    requires allow("vanity:" + ClientKey(h))
    ensures var r := VanityRoute(h, code, allow, reply);
      r.Success? && r.value.status == 400 <==> code == ""
    ensures var r := VanityRoute(h, code, allow, reply);
      code != "" && reply.status != 404 && !IsOk(reply.status) && reply.body.Parsed? && reply.body.value != JNull ==>
        && r.Success?
        && r.value.status == (if reply.status == 429 then 429 else 500)
        && Get(r.value.body, "available") == Some(JBool(false))
        && Get(r.value.body, "error") == Some(Or(Get(reply.body.value, "message"), JStr(CheckFallback)))
  {
  }

  /** Whenever the vanity route says "available", it says so with status 200 and no error. */
  lemma AvailableMeansNoError(h: ClientHeaders, code: string, allow: string -> bool, reply: Response)
    ensures var r := VanityRoute(h, code, allow, reply);
      r.Success? && Get(r.value.body, "available") == Some(JBool(true)) ==>
        r.value.status == 200 && Get(r.value.body, "error").None? && Get(r.value.body, "guild") == Some(JNull)
  {
    var r := VanityRoute(h, code, allow, reply);
    if r.Success? && reply.body.Parsed? && reply.body.value != JNull && IsOk(reply.status) && reply.status != 404
       && allow("vanity:" + ClientKey(h)) && code != "" {
      assert Get(r.value.body, "available") == Some(JBool(false));
    }
  }

  /** `GET /api/users/:userId`: the upstream body passed through, with 200 for ok and the upstream status otherwise. */
  function UserRoute(h: ClientHeaders, userId: string, allow: string -> bool, reply: Response): (r: Result<Reply<Json>, string>)
    ensures !allow("user:" + ClientKey(h)) ==> r == Success(Reply(429, LimitedBody()))
    ensures allow("user:" + ClientKey(h)) && userId == "" ==> r == Success(Reply(400, ErrorOnly(InvalidUserId)))
    ensures allow("user:" + ClientKey(h)) && userId != "" ==>
      r == match reply.body
           case Unparsable(e) => Failure(e)
           case Parsed(data) => Success(Reply(if IsOk(reply.status) then 200 else reply.status, data))
  {
    if !allow("user:" + ClientKey(h)) then Success(Reply(429, LimitedBody()))
    else if userId == "" then Success(Reply(400, ErrorOnly(InvalidUserId)))
    else match reply.body
      case Unparsable(e) => Failure(e)
      case Parsed(data) => Success(Reply(if IsOk(reply.status) then 200 else reply.status, data))
  }

  // ------------------------------------------------------------ static assets

  /** What the catch-all handler asks the asset fetcher for. */
  datatype AssetRequest = IndexHtml | Original

  /** Page paths (outside /api/ and without a dot) are answered with the application shell. */
  function AssetFor(pathname: string): (a: AssetRequest)
    ensures a == IndexHtml <==> !StartsWith(pathname, "/api/") && !Contains(pathname, ".")
  {
    if !StartsWith(pathname, "/api/") && !Contains(pathname, ".") then IndexHtml else Original
  }

  /** Every API path and every path naming a file goes to the asset fetcher unchanged. */
  lemma ApiAndFilePathsPassThrough(pathname: string, i: nat)
    requires StartsWith(pathname, "/api/") || (i < |pathname| && pathname[i] == '.')
    ensures AssetFor(pathname) == Original
  {
    if !StartsWith(pathname, "/api/") {
      assert StartsWith(pathname[i..], ".");
    }
  }

  /** A path of letters, digits, slashes and dashes outside /api/ is a page of the application. */
  lemma PagePathsServeShell(pathname: string)
    requires !StartsWith(pathname, "/api/")
    requires forall i :: 0 <= i < |pathname| ==> pathname[i] != '.'
    ensures AssetFor(pathname) == IndexHtml
  {
    NotContainsWithoutFirstChar(pathname, ".");
  }
}
