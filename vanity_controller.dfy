/**
 * server/controllers/vanity.ts: the HTTP server's vanity-check handler. It
 * validates the code, asks the Discord service, and turns the outcome into a
 * `{ error, available, guild }` envelope: "Unknown Invite" means available, a
 * body without a guild is a contract violation (500), a "Rate limited" error
 * is a 429, and an error mentioning 404 or "Unknown Invite" also means
 * available.
 */
module VanityController {
  import opened Wrappers
  import opened Text
  import opened Json
  import opened Http
  import DiscordUtils
  import Service = ServerDiscordService

  const TooShort := "Vanity URL must be at least 2 characters"
  const TooLong := "Vanity URL cannot exceed 32 characters"
  const BadCharset := "Vanity URL can only contain letters, numbers, and hyphens"
  const InvalidResponse := "Invalid response from Discord API"
  const CheckFailed := "Failed to check vanity URL"

  /** The `VanityUrlResponse` envelope. */
  datatype VanityBody = VanityBody(error: Option<string>, available: bool, guild: Option<map<string, Json>>)

  predicate IsCodeChar(c: char) {
    ('a' <= c <= 'z') || ('A' <= c <= 'Z') || ('0' <= c <= '9') || c == '-'
  }

  /** `/^[a-zA-Z0-9-]+$/`. */
  predicate MatchesCodePattern(code: string) {
    |code| > 0 && forall i :: 0 <= i < |code| ==> IsCodeChar(code[i])
  }

  /** `vanityCodeSchema`'s first issue (`errors[0]`), in the order min, max, regex. */
  function CodeIssue(code: string): (issue: Option<string>)
    ensures issue.None? <==> 2 <= Utf16Length(code) <= 32 && MatchesCodePattern(code)
    ensures issue.None? ==> 2 <= |code| <= 32
    ensures Utf16Length(code) < 2 ==> issue == Some(TooShort)
    ensures Utf16Length(code) > 32 ==> issue == Some(TooLong)
    ensures 2 <= Utf16Length(code) <= 32 && !MatchesCodePattern(code) ==> issue == Some(BadCharset)
  {
    if Utf16Length(code) < 2 then Some(TooShort)
    else if Utf16Length(code) > 32 then Some(TooLong)
    else if !MatchesCodePattern(code) then Some(BadCharset)
    else None
  }

  /** `createErrorResponse(error)`. */
  function ErrorBody(error: string): (b: VanityBody)
    ensures b.error == Some(error) && !b.available && b.guild.None?
  {
    VanityBody(Some(error), false, None)
  }

  const AvailableBody := VanityBody(None, true, None)

  /** The envelope as `c.json` sends it: `null` for a missing error or guild. */
  function BodyJson(b: VanityBody): (j: Json)
    ensures Get(j, "available") == Some(JBool(b.available))
    ensures Get(j, "error") == Some(if b.error.Some? then JStr(b.error.value) else JNull)
    ensures Get(j, "guild") == Some(if b.guild.Some? then JObj(b.guild.value) else JNull)
  {
    JObj(map["error" := if b.error.Some? then JStr(b.error.value) else JNull,
             "available" := JBool(b.available),
             "guild" := if b.guild.Some? then JObj(b.guild.value) else JNull])
  }

  /** `isUnknownInviteResponse(data)`. */
  predicate IsUnknownInviteResponse(data: Json) {
    Get(data, "message") == Some(JStr("Unknown Invite"))
  }

  /** `isDiscordInviteResponse(data) && data.guild`. */
  predicate HasGuild(data: Json) {
    TruthyValue(Get(data, "guild"))
  }

  /** `{ ...data.guild, approximate_member_count, approximate_presence_count, channel }`, as serialised. */
  function ExtendedGuild(data: Json): (g: map<string, Json>)
    ensures forall k :: (k in g && k != "approximate_member_count" && k != "approximate_presence_count"
                         && k != "channel") ==> Get(Get(data, "guild").GetOr(JNull), k) == Some(g[k])
    ensures forall k :: k in Fields(Get(data, "guild").GetOr(JNull)) && k != "approximate_member_count"
                        && k != "approximate_presence_count" && k != "channel" ==>
      k in g && g[k] == Fields(Get(data, "guild").GetOr(JNull))[k]
    ensures ("channel" in g <==> "channel" in Fields(data))
            && ("channel" in g ==> g["channel"] == Fields(data)["channel"])
    ensures ("approximate_member_count" in g <==> "approximate_member_count" in Fields(data))
            && ("approximate_member_count" in g ==> g["approximate_member_count"] == Fields(data)["approximate_member_count"])
    ensures ("approximate_presence_count" in g <==> "approximate_presence_count" in Fields(data))
            && ("approximate_presence_count" in g ==> g["approximate_presence_count"] == Fields(data)["approximate_presence_count"])
  {
    var base := Fields(Get(data, "guild").GetOr(JNull));
    SetField(SetField(SetField(base,
      "approximate_member_count", Get(data, "approximate_member_count")),
      "approximate_presence_count", Get(data, "approximate_presence_count")),
      "channel", Get(data, "channel"))
  }

  /** The handler's inner `catch`: map a thrown message to a response. */
  function ClassifyFailure(message: string): (r: Reply<VanityBody>)
    ensures Contains(message, "Rate limited") ==> r == Reply(429, ErrorBody(message))
    ensures !Contains(message, "Rate limited") && (Contains(message, "404") || Contains(message, "Unknown Invite"))
      ==> r == Reply(200, AvailableBody)
    ensures !Contains(message, "Rate limited") && !Contains(message, "404") && !Contains(message, "Unknown Invite")
      ==> r == Reply(500, ErrorBody(CheckFailed))
  {
    if Contains(message, "Rate limited") then Reply(429, ErrorBody(message))
    else if Contains(message, "404") || Contains(message, "Unknown Invite") then Reply(200, AvailableBody)
    else Reply(500, ErrorBody(CheckFailed))
  }

  /**
   * `checkVanityUrl(c)` for the path parameter `code`. `service` is what
   * `DiscordService.checkInvite(code)` returns or throws; it is consulted only
   * when the code is valid.
   */
  function CheckVanityUrl(code: string, service: Result<Json, string>): (r: Reply<VanityBody>)
    ensures r.body.error.Some? ==> !r.body.available && r.body.guild.None? && r.status != 200
    ensures r.body.available ==> r.body.error.None? && r.body.guild.None? && r.status == 200
    ensures r.body.guild.Some? ==> !r.body.available && r.body.error.None? && r.status == 200
    ensures CodeIssue(code).Some? ==> r == Reply(400, ErrorBody(CodeIssue(code).value))
    ensures CodeIssue(code).None? && service.Success? && IsUnknownInviteResponse(service.value)
      ==> r == Reply(200, AvailableBody)
    ensures CodeIssue(code).None? && service.Success? && !IsUnknownInviteResponse(service.value)
      ==> r == (if HasGuild(service.value) then Reply(200, VanityBody(None, false, Some(ExtendedGuild(service.value))))
                else Reply(500, ErrorBody(InvalidResponse)))
    ensures CodeIssue(code).None? && service.Failure? ==> r == ClassifyFailure(service.error)
  {
    match CodeIssue(code)
    case Some(issue) => Reply(400, ErrorBody(issue))
    case None =>
      match service
      case Failure(message) => ClassifyFailure(message)
      case Success(data) =>
        if IsUnknownInviteResponse(data) then Reply(200, AvailableBody)
        else if !HasGuild(data) then Reply(500, ErrorBody(InvalidResponse))
        else Reply(200, VanityBody(None, false, Some(ExtendedGuild(data))))
  }

  /** An invalid code is answered without looking at the service at all. */
  lemma InvalidCodeNeedsNoService(code: string, a: Result<Json, string>, b: Result<Json, string>)
    requires CodeIssue(code).Some?
    ensures CheckVanityUrl(code, a) == CheckVanityUrl(code, b)
    ensures CheckVanityUrl(code, a).status == 400
  {
  }

  /** A code of acceptable length holding any character outside `[a-zA-Z0-9-]` is refused with the charset message. */
  lemma ForeignCharacterIsRefused(code: string, i: nat)
    requires 2 <= Utf16Length(code) <= 32 && i < |code| && !IsCodeChar(code[i])
    ensures CodeIssue(code) == Some(BadCharset)
  {
  }

  /**
   * End to end with the server's Discord service on a cache miss: an upstream
   * 404 makes a valid code available, and an upstream 429 is answered 429
   * with the service's "Rate limited" message.
   */
  lemma UpstreamStatusThroughService(code: string, token: Option<string>, reply: Response)
    requires CodeIssue(code).None? && DiscordUtils.Configured(token)
    ensures reply.status == 404 ==>
      CheckVanityUrl(code, Service.FetchInvite(code, token, reply)) == Reply(200, AvailableBody)
    ensures reply.status == 429 ==>
      CheckVanityUrl(code, Service.FetchInvite(code, token, reply))
        == Reply(429, ErrorBody(Service.RateLimitedMessage(HeaderValue(reply, "retry-after"))))
  {
    var m := Service.RateLimitedMessage(HeaderValue(reply, "retry-after"));
    PrefixIsContained(m, "Rate limited");
    assert IsUnknownInviteResponse(Service.UnknownInvite(code)) by {
      assert Get(Service.UnknownInvite(code), "message") == Some(JStr("Unknown Invite"));
    }
  }

  /** A missing bot token surfaces as the generic 500, never as "available". */
  lemma MissingTokenIsServerError(code: string, token: Option<string>, reply: Response)
    requires CodeIssue(code).None? && !DiscordUtils.Configured(token)
    ensures CheckVanityUrl(code, Service.FetchInvite(code, token, reply)) == Reply(500, ErrorBody(CheckFailed))
  {
    var m := DiscordUtils.MissingToken;
    assert Service.FetchInvite(code, token, reply) == Failure(m);
    NotContainsWithoutFirstChar(m, "Rate limited");
    NotContainsWithoutFirstChar(m, "404");
    NotContainsWithoutFirstChar(m, "Unknown Invite");
    assert ClassifyFailure(m) == Reply(500, ErrorBody(CheckFailed));
  }
}
