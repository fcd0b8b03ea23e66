/**
 * src/lib/api/user.ts: the browser's user lookup. A non-ok answer from the
 * server becomes an `Error` carrying the response status; an ok answer is
 * the user record with its `avatar` and `banner` hashes overwritten, in
 * place, by CDN URLs.
 */
module ApiUser {
  import opened Wrappers
  import opened Text
  import opened Json
  import opened Http
  import ApiClient

  const TooManyRequests := "Too many requests. Please try again later."
  const UserNotFound := "User not found"
  const AuthenticationFailed := "Authentication failed"
  const LookupFailed := "Failed to lookup user"
  /** Stands in for the error a property read on `null` throws. */
  const NullRead := "TypeError: Cannot read properties of null"
  const NotAFunction := "TypeError: userData.avatar.startsWith is not a function"

  /**
   * What `lookupUser` rejects with: an `Error` whose `status` property is
   * set, or an error thrown by `response.json()` or by a property access,
   * which has none.
   */
  datatype Thrown = StatusError(message: string, status: int) | Escaped(message: string)

  /** The error for the response's status and body, or `None` when the response is ok. */
  function StatusFailure(status: int, body: JsonBody): (e: Option<Thrown>)
    ensures e.None? <==> IsOk(status)
    ensures !IsOk(status) && body.Unparsable? ==> e == Some(Escaped(body.syntaxError))
    ensures status == 429 && body.Parsed? && body.value != JNull ==>
      e == Some(StatusError(ToJsString(Or(Get(body.value, "error"), JStr(TooManyRequests))), 429))
    ensures status == 404 && body.Parsed? ==> e == Some(StatusError(UserNotFound, 404))
    ensures status == 401 && body.Parsed? ==> e == Some(StatusError(AuthenticationFailed, 401))
    ensures !IsOk(status) && status != 429 && status != 404 && status != 401 && body.Parsed? && body.value != JNull ==>
      e == Some(StatusError(ToJsString(Or(Get(body.value, "message"), JStr(LookupFailed))), status))
    ensures !IsOk(status) && status != 404 && status != 401 && body == Parsed(JNull) ==> e == Some(Escaped(NullRead))
    ensures e.Some? && e.value.StatusError? ==> e.value.status == status
  {
    if IsOk(status) then None
    else match body
      case Unparsable(syntaxError) => Some(Escaped(syntaxError))
      case Parsed(data) =>
        if status == 429 then
          if data == JNull then Some(Escaped(NullRead))
          else Some(StatusError(ToJsString(Or(Get(data, "error"), JStr(TooManyRequests))), status))
        else if status == 404 then Some(StatusError(UserNotFound, status))
        else if status == 401 then Some(StatusError(AuthenticationFailed, status))
        else if data == JNull then Some(Escaped(NullRead))
        else Some(StatusError(ToJsString(Or(Get(data, "message"), JStr(LookupFailed))), status))
  }

  /** The avatar URL the rewrite stores for avatar hash `hash`. */
  function AvatarUrl(user: Json, hash: string): string {
    ApiClient.CdnUrl(ApiClient.Avatar, Interpolate(Get(user, "id")), hash)
  }

  /** The banner URL the rewrite stores for a truthy `banner`. */
  function BannerUrl(user: Json): string {
    ApiClient.CdnUrl(ApiClient.UserBanner, Interpolate(Get(user, "id")), Interpolate(Get(user, "banner")))
  }

  /**
   * The record `lookupUser` returns for the parsed body `user`, or the
   * message of the TypeError its property accesses throw: a `null` body has
   * no `avatar` to read, and a truthy `avatar` that is not a string has no
   * `startsWith`.
   */
  function Rewritten(user: Json): (r: Result<Json, string>)
    ensures r.Failure? <==> user == JNull || (TruthyValue(Get(user, "avatar")) && !Get(user, "avatar").value.JStr?)
    ensures user == JNull ==> r == Failure(NullRead)
    ensures user != JNull && r.Failure? ==> r.error == NotAFunction
    ensures r.Success? && !user.JObj? ==> r.value == user
    ensures r.Success? ==> (r.value.JObj? <==> user.JObj?)
    ensures r.Success? ==> forall k :: k != "avatar" && k != "banner" ==> Get(r.value, k) == Get(user, k)
    ensures r.Success? ==>
      Get(r.value, "avatar") == if TruthyValue(Get(user, "avatar"))
                                then Some(JStr(AvatarUrl(user, Get(user, "avatar").value.s)))
                                else Get(user, "avatar")
    ensures r.Success? ==>
      Get(r.value, "banner") == if TruthyValue(Get(user, "banner")) then Some(JStr(BannerUrl(user))) else Get(user, "banner")
  {
    if user == JNull then Failure(NullRead)
    else if TruthyValue(Get(user, "avatar")) && !Get(user, "avatar").value.JStr? then Failure(NotAFunction)
    else if !user.JObj? then Success(user)
    else
      var withAvatar := if TruthyValue(Get(user, "avatar"))
                        then user.fields["avatar" := JStr(AvatarUrl(user, Get(user, "avatar").value.s))]
                        else user.fields;
      var withBanner := if TruthyValue(Get(user, "banner"))
                        then withAvatar["banner" := JStr(BannerUrl(user))]
                        else withAvatar;
      Success(JObj(withBanner))
  }

  /**
   * `lookupUser(userId)` for the server's answer `reply`: the status checks,
   * then the in-place rewrite of `userData.avatar` and `userData.banner`.
   */
  method LookupUser(reply: Response) returns (r: Result<Json, Thrown>)
    ensures StatusFailure(reply.status, reply.body).Some? ==> r == Failure(StatusFailure(reply.status, reply.body).value)
    ensures IsOk(reply.status) && reply.body.Unparsable? ==> r == Failure(Escaped(reply.body.syntaxError))
    ensures IsOk(reply.status) && reply.body.Parsed? ==>
      r == match Rewritten(reply.body.value)
           case Success(user) => Success(user)
           case Failure(m) => Failure(Escaped(m))
  {
    var failure := StatusFailure(reply.status, reply.body);
    if failure.Some? {
      return Failure(failure.value);
    }
    if reply.body.Unparsable? {
      return Failure(Escaped(reply.body.syntaxError));
    }
    var userData := reply.body.value;
    if userData == JNull {
      return Failure(Escaped(NullRead));
    }
    var original := userData;
    if TruthyValue(Get(userData, "avatar")) {
      var avatar := Get(userData, "avatar").value;
      if !avatar.JStr? {
        return Failure(Escaped(NotAFunction));
      }
      userData := JObj(userData.fields["avatar" := JStr(AvatarUrl(userData, avatar.s))]);
    }
    assert Get(userData, "id") == Get(original, "id") && Get(userData, "banner") == Get(original, "banner");
    if TruthyValue(Get(userData, "banner")) {
      userData := JObj(userData.fields["banner" := JStr(BannerUrl(userData))]);
    }
    r := Success(userData);
  }

  /** A string avatar hash becomes an avatar URL that is a gif exactly when the hash starts with `a_`. */
  lemma AvatarGifIffAnimated(user: Json, hash: string)
    requires Get(user, "avatar") == Some(JStr(hash)) && hash != ""
    ensures Rewritten(user).Success?
    ensures var url := AvatarUrl(user, hash);
      Get(Rewritten(user).value, "avatar") == Some(JStr(url))
      && (EndsWith(url, ".gif?size=128") <==> StartsWith(hash, "a_"))
  {
    ApiClient.AvatarIsGifIffAnimated(Interpolate(Get(user, "id")), hash);
  }

  /** A truthy banner becomes a png URL at size 600, whatever its hash. */
  lemma BannerIsPngAt600(user: Json)
    requires Rewritten(user).Success? && TruthyValue(Get(user, "banner"))
    ensures Get(Rewritten(user).value, "banner") == Some(JStr(BannerUrl(user)))
    ensures EndsWith(BannerUrl(user), ".png?size=600")
  {
    BannerUrlIsPng(user);
  }

  lemma BannerUrlIsPng(user: Json)
    ensures EndsWith(BannerUrl(user), ".png?size=600")
  {
    ApiClient.OthersArePng(ApiClient.UserBanner, Interpolate(Get(user, "id")), Interpolate(Get(user, "banner")));
    assert ".png?size=" + ApiClient.SizeText(ApiClient.UserBanner) == ".png?size=600";
  }

  /** A user record whose avatar is `null` is rewritten without error and keeps the `null` avatar. */
  lemma NullAvatarStaysNull(user: Json)
    requires user.JObj? && Get(user, "avatar") == Some(JNull)
    ensures Rewritten(user).Success? && Get(Rewritten(user).value, "avatar") == Some(JNull)
  {
  }
}
