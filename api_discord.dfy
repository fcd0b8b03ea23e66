/**
 * src/lib/api/discord.ts: an older browser helper with its own copy of the
 * avatar and banner CDN templates and a vanity check that only tells ok
 * from not ok.
 */
module ApiDiscord {
  import opened Wrappers
  import opened Text
  import opened Json
  import opened Http
  import ApiClient

  const CheckFailed := "Failed to check vanity URL"

  /** This file's `DISCORD_CDN.AVATAR`. */
  function AvatarUrl(userId: string, hash: string): string {
    ApiClient.CdnBase + "avatars" + "/" + userId + "/" + hash + "."
      + (if StartsWith(hash, "a_") then "gif" else "png") + "?size=" + "128"
  }

  /** This file's `DISCORD_CDN.BANNER`. */
  function BannerUrl(userId: string, hash: string): string {
    ApiClient.CdnBase + "banners" + "/" + userId + "/" + hash + "." + "png" + "?size=" + "600"
  }

  /** This file's two templates build exactly the URLs of the client's avatar and user-banner builders. */
  lemma SameAsClientBuilders(userId: string, hash: string)
    ensures AvatarUrl(userId, hash) == ApiClient.CdnUrl(ApiClient.Avatar, userId, hash)
    ensures BannerUrl(userId, hash) == ApiClient.CdnUrl(ApiClient.UserBanner, userId, hash)
  {
    var ext := if StartsWith(hash, "a_") then "gif" else "png";
    RegroupAsCdnUrl(ApiClient.CdnBase, "avatars", "/", userId, "/", hash, ".", ext, "?size=", "128");
    RegroupAsCdnUrl(ApiClient.CdnBase, "banners", "/", userId, "/", hash, ".", "png", "?size=", "600");
  }

  /** Regrouping a ten-piece concatenation the way `ApiClient.CdnUrl` groups it. */
  lemma RegroupAsCdnUrl(b: string, c: string, s1: string, i: string, s2: string, h: string, d: string, e: string, q: string, z: string)
    ensures b + c + s1 + i + s2 + h + d + e + q + z == (b + c + s1) + (i + s2 + h) + (d + e + q + z)
  {
  }

  /** Regrouping a ten-piece concatenation into a head, a middle and a tail. */
  lemma Regroup(b: string, c: string, s1: string, i: string, s2: string, h: string, d: string, e: string, q: string, z: string)
    ensures b + c + s1 + i + s2 + h + d + e + q + z == (b + c) + (s1 + i + s2 + h + d) + (e + q + z)
  {
  }

  /** The user id and the hash stand next to each other as path segments, in that order. */
  lemma OwnerThenHash(userId: string, hash: string)
    ensures Contains(AvatarUrl(userId, hash), "/" + userId + "/" + hash + ".")
    ensures Contains(BannerUrl(userId, hash), "/" + userId + "/" + hash + ".")
  {
    var ext := if StartsWith(hash, "a_") then "gif" else "png";
    Regroup(ApiClient.CdnBase, "avatars", "/", userId, "/", hash, ".", ext, "?size=", "128");
    InfixIsContained(ApiClient.CdnBase + "avatars", "/" + userId + "/" + hash + ".", ext + "?size=" + "128");
    Regroup(ApiClient.CdnBase, "banners", "/", userId, "/", hash, ".", "png", "?size=", "600");
    InfixIsContained(ApiClient.CdnBase + "banners", "/" + userId + "/" + hash + ".", "png" + "?size=" + "600");
  }

  /** `checkVanityUrl(code)` for the server's answer `reply`: any non-ok status is one fixed error. */
  function CheckVanityUrl(code: string, reply: Response): (r: Result<Json, string>)
    ensures !IsOk(reply.status) ==> r == Failure(CheckFailed)
    ensures IsOk(reply.status) && reply.body.Parsed? ==> r == Success(reply.body.value)
    ensures IsOk(reply.status) && reply.body.Unparsable? ==> r == Failure(reply.body.syntaxError)
  {
    if !IsOk(reply.status) then Failure(CheckFailed)
    else match reply.body
      case Parsed(v) => Success(v)
      case Unparsable(e) => Failure(e)
  }
}
