/**
 * src/lib/api/vanity.ts: the browser's vanity check. It refuses a code
 * outside `[a-zA-Z0-9-]+` without asking the server, maps the server's
 * status and body to a `VanityUrlResponse`, and flattens a taken invite into
 * a `guildInfo` record with CDN image URLs and defaults. Anything thrown on
 * the way (the request, `response.json()`, a property read on `null`) ends
 * in the catch-all "Failed to connect to Discord API".
 */
module ApiVanity {
  import opened Wrappers
  import opened Text
  import opened Json
  import opened Http
  import ApiClient
  import VanityController

  const InvalidFormat := "Invalid vanity URL format"
  const TooManyRequests := "Too many requests. Please wait a moment."
  const FailedPrefix := "Failed to check vanity URL: "
  const InvalidFormatFromServer := "Invalid response format from server"
  const ConnectFailed := "Failed to connect to Discord API"

  /** `inviteChannel`: three property reads of `data.channel`. */
  datatype InviteChannel = InviteChannel(id: Option<Json>, name: Option<Json>, channelType: Option<Json>)

  /**
   * `guildInfo`. Fields copied from the upstream guild keep `undefined`
   * (`None`) when it lacks them; the image URLs are `null` (`None`) for a
   * falsy hash.
   */
  datatype GuildInfo = GuildInfo(
    id: Option<Json>,
    name: Option<Json>,
    memberCount: Option<Json>,
    onlineCount: Option<Json>,
    icon: Option<string>,
    splash: Option<string>,
    banner: Option<string>,
    description: Option<Json>,
    features: Json,
    verificationLevel: Option<Json>,
    nsfwLevel: Option<Json>,
    isNsfw: Json,
    boostCount: Json,
    inviteCode: string,
    inviteChannel: Option<InviteChannel>)

  /** `VanityUrlResponse`; `error` is `JNull` for `null`, and otherwise whatever value the branch put there. */
  datatype VanityUrlResponse = VanityUrlResponse(available: bool, error: Json, guildInfo: Option<GuildInfo>)

  /** A response without guild information, as every branch but the taken one returns. */
  function NotTaken(available: bool, error: Json): (r: VanityUrlResponse)
    ensures r.available == available && r.error == error && r.guildInfo.None?
  {
    VanityUrlResponse(available, error, None)
  }

  /** The sentence an available code gets, in the `error` field. */
  function AvailableSentence(code: string): string {
    "The vanity URL \"discord.com/invite/" + code + "\" is available! You can use it for your server."
  }

  /**
   * One of the guild's image URLs: `null` for a falsy hash, otherwise the
   * png template `https://cdn.discordapp.com/<category>/<id>/<hash>.png?size=<n>`,
   * which this file writes out inline with the same text as the client's
   * builders.
   */
  function ImageUrl(a: ApiClient.Asset, guild: Json, key: string): (url: Option<string>)
    requires a != ApiClient.Avatar
    ensures url.None? <==> !TruthyValue(Get(guild, key))
    ensures url.Some? ==> url.value == ApiClient.CdnUrl(a, Interpolate(Get(guild, "id")), Interpolate(Get(guild, key)))
    ensures url.Some? ==> EndsWith(url.value, ".png?size=" + ApiClient.SizeText(a))
  {
    if TruthyValue(Get(guild, key)) then
      var url := ApiClient.CdnUrl(a, Interpolate(Get(guild, "id")), Interpolate(Get(guild, key)));
      ApiClient.OthersArePng(a, Interpolate(Get(guild, "id")), Interpolate(Get(guild, key)));
      Some(url)
    else None
  }

  /** The `guildInfo` literal for a body `data` whose `guild` is truthy. */
  function GuildInfoOf(code: string, data: Json): (g: GuildInfo)
    ensures var guild := Get(data, "guild").GetOr(JNull);
      && g.id == Get(guild, "id") && g.name == Get(guild, "name")
      && g.memberCount == Get(guild, "approximate_member_count")
      && g.onlineCount == Get(guild, "approximate_presence_count")
      && g.icon == ImageUrl(ApiClient.GuildIcon, guild, "icon")
      && g.splash == ImageUrl(ApiClient.GuildSplash, guild, "splash")
      && g.banner == ImageUrl(ApiClient.GuildBanner, guild, "banner")
      && g.description == Get(guild, "description")
      && g.features == (if TruthyValue(Get(guild, "features")) then Get(guild, "features").value else JArr([]))
      && g.verificationLevel == Get(guild, "verification_level")
      && g.nsfwLevel == Get(guild, "nsfw_level")
      && g.isNsfw == (if TruthyValue(Get(guild, "nsfw")) then Get(guild, "nsfw").value else JBool(false))
      && g.boostCount == (if TruthyValue(Get(guild, "premium_subscription_count"))
                          then Get(guild, "premium_subscription_count").value else JNum(0))
    ensures g.inviteCode == code
    ensures g.inviteChannel.Some? <==> TruthyValue(Get(data, "channel"))
    ensures g.inviteChannel.Some? ==>
      var channel := Get(data, "channel").value;
      g.inviteChannel.value == InviteChannel(Get(channel, "id"), Get(channel, "name"), Get(channel, "type"))
  {
    var guild := Get(data, "guild").GetOr(JNull);
    var channel := Get(data, "channel");
    GuildInfo(
      Get(guild, "id"),
      Get(guild, "name"),
      Get(guild, "approximate_member_count"),
      Get(guild, "approximate_presence_count"),
      ImageUrl(ApiClient.GuildIcon, guild, "icon"),
      ImageUrl(ApiClient.GuildSplash, guild, "splash"),
      ImageUrl(ApiClient.GuildBanner, guild, "banner"),
      Get(guild, "description"),
      Or(Get(guild, "features"), JArr([])),
      Get(guild, "verification_level"),
      Get(guild, "nsfw_level"),
      Or(Get(guild, "nsfw"), JBool(false)),
      Or(Get(guild, "premium_subscription_count"), JNum(0)),
      code,
      if TruthyValue(channel) then
        Some(InviteChannel(Get(channel.value, "id"), Get(channel.value, "name"), Get(channel.value, "type")))
      else None)
  }

  /**
   * `checkVanityUrl(code)`. `reply` is the server's answer to the POST, or
   * `None` when `fetch` itself threw; it is consulted only for a code of the
   * right shape.
   */
  function CheckVanityUrl(code: string, reply: Option<Response>): (r: VanityUrlResponse)
    ensures r.guildInfo.Some? <==> r.error == JNull
    ensures r.available ==> r.guildInfo.None?
    ensures !MatchesCode(code) ==> r == NotTaken(false, JStr(InvalidFormat))
    ensures MatchesCode(code) && reply.None? ==> r == NotTaken(false, JStr(ConnectFailed))
    ensures MatchesCode(code) && reply.Some? && reply.value.body.Unparsable? ==> r == NotTaken(false, JStr(ConnectFailed))
    ensures MatchesCode(code) && reply.Some? && reply.value.status == 429 && reply.value.body.Parsed?
      ==> r == NotTaken(false, JStr(TooManyRequests))
    ensures MatchesCode(code) && reply.Some? && !IsOk(reply.value.status) && reply.value.status != 429
            && reply.value.body.Parsed? && reply.value.body.value != JNull
      ==> r == NotTaken(false, Or(Get(reply.value.body.value, "error"),
                                  JStr(FailedPrefix + IntToString(reply.value.status))))
    ensures MatchesCode(code) && reply.Some? && reply.value.body == Parsed(JNull) && reply.value.status != 429
      ==> r == NotTaken(false, JStr(ConnectFailed))
    ensures MatchesCode(code) && reply.Some? && IsOk(reply.value.status) && reply.value.body.Parsed?
            && reply.value.body.value != JNull
      ==> var data := reply.value.body.value;
          r == if TruthyValue(Get(data, "available")) then NotTaken(true, JStr(AvailableSentence(code)))
               else if !TruthyValue(Get(data, "guild")) then NotTaken(false, JStr(InvalidFormatFromServer))
               else VanityUrlResponse(false, JNull, Some(GuildInfoOf(code, data)))
  {
    if !MatchesCode(code) then NotTaken(false, JStr(InvalidFormat))
    else if reply.None? || reply.value.body.Unparsable? then NotTaken(false, JStr(ConnectFailed))
    else
      var response := reply.value;
      var data := response.body.value;
      if !IsOk(response.status) then
        if response.status == 429 then NotTaken(false, JStr(TooManyRequests))
        else if data == JNull then NotTaken(false, JStr(ConnectFailed))
        else NotTaken(false, Or(Get(data, "error"), JStr(FailedPrefix + IntToString(response.status))))
      else if data == JNull then NotTaken(false, JStr(ConnectFailed))
      else if TruthyValue(Get(data, "available")) then NotTaken(true, JStr(AvailableSentence(code)))
      else if !TruthyValue(Get(data, "guild")) then NotTaken(false, JStr(InvalidFormatFromServer))
      else VanityUrlResponse(false, JNull, Some(GuildInfoOf(code, data)))
  }

  /** `/^[a-zA-Z0-9-]+$/`, the same pattern as the server's schema regex. */
  predicate MatchesCode(code: string) {
    VanityController.MatchesCodePattern(code)
  }

  /** A badly shaped code (the empty one included) is answered without looking at any reply. */
  lemma InvalidFormatNeedsNoRequest(code: string, a: Option<Response>, b: Option<Response>)
    requires !MatchesCode(code)
    ensures CheckVanityUrl(code, a) == CheckVanityUrl(code, b)
    ensures CheckVanityUrl(code, a).error == JStr(InvalidFormat)
  {
  }

  /** A non-ok status whose body has no truthy `error` reports the status number. */
  lemma StatusFallback(code: string, status: int, headers: map<string, string>)
    requires MatchesCode(code) && !IsOk(status) && status != 429
    ensures CheckVanityUrl(code, Some(Response(status, headers, Parsed(JObj(map[])))))
      == NotTaken(false, JStr(FailedPrefix + IntToString(status)))
  {
  }

  /**
   * End to end with the server's vanity controller: whatever the controller
   * answers, serialised by `c.json`, the browser shows the same availability,
   * guild information exactly when the controller sent a guild, and the
   * controller's error message unless the status was 429.
   */
  lemma ServerVerdictReachesClient(code: string, service: Result<Json, string>, headers: map<string, string>)
    ensures var s := VanityController.CheckVanityUrl(code, service);
      var c := CheckVanityUrl(code, Some(Response(s.status, headers, Parsed(VanityController.BodyJson(s.body)))));
      && c.available == s.body.available
      && (c.guildInfo.Some? <==> s.body.guild.Some?)
      && (MatchesCode(code) && s.body.error.Some? && s.status != 429 ==> c.error == JStr(s.body.error.value))
  {
    var s := VanityController.CheckVanityUrl(code, service);
    var body := VanityController.BodyJson(s.body);
    if MatchesCode(code) && s.body.error.Some? && s.status != 429 {
      var m := s.body.error.value;
      assert m != "";
      assert Get(body, "error") == Some(JStr(m));
    }
  }
}
