/**
 * functions/services/discord.ts: the edge functions' Discord client. Every
 * call goes through `fetchWithAuth`, which refuses to send a request without
 * a bot token and turns a non-ok upstream status into a thrown message;
 * `checkInvite` maps the 404 message to an "Unknown Invite" body and
 * `lookupUser` passes the upstream body through.
 */
module EdgeDiscordService {
  import opened Wrappers
  import opened Text
  import opened Json
  import opened Http
  import DiscordUtils
  import Service = ServerDiscordService

  const ApiBase := "https://discord.com/api/v10"
  const MissingToken := "Discord bot token not configured"
  const NotFound := "404 Not Found"
  const RateLimited := "Rate limited by Discord API"
  const ApiErrorPrefix := "Discord API error: "
  const InviteQuery := "?with_counts=true&with_expiration=true"

  /** The request `fetchWithAuth` sends: the URL and its two headers. */
  datatype Request = Request(url: string, authorization: string, contentType: string)

  /** What one `fetchWithAuth` call does: the request it sent, if any, and what it returned or threw. */
  datatype Exchange = Exchange(sent: Option<Request>, outcome: Result<Json, string>)

  /** The message thrown for a non-ok upstream status. */
  function StatusError(status: int): (m: string)
    ensures status == 404 ==> m == NotFound
    ensures status == 429 ==> m == RateLimited
    ensures status != 404 && status != 429 ==> m == ApiErrorPrefix + IntToString(status)
  {
    if status == 404 then NotFound
    else if status == 429 then RateLimited
    else ApiErrorPrefix + IntToString(status)
  }

  /**
   * `fetchWithAuth(endpoint)`; `token` is `DISCORD_BOT_TOKEN` and `reply` the
   * upstream answer to the request, when one is sent.
   */
  function FetchWithAuth(token: Option<string>, endpoint: string, reply: Response): (x: Exchange)
    ensures x.sent.None? <==> !DiscordUtils.Configured(token)
    ensures x.sent.None? ==> x.outcome == Failure(MissingToken)
    ensures x.sent.Some? ==>
      x.sent.value == Request(ApiBase + endpoint, "Bot " + token.value, "application/json")
    ensures x.sent.Some? && !IsOk(reply.status) ==> x.outcome == Failure(StatusError(reply.status))
    ensures x.sent.Some? && IsOk(reply.status) ==>
      x.outcome == (match reply.body
                    case Parsed(v) => Success(v)
                    case Unparsable(e) => Failure(e))
  {
    if !DiscordUtils.Configured(token) then Exchange(None, Failure(MissingToken))
    else
      var request := Request(ApiBase + endpoint, "Bot " + token.value, "application/json");
      if !IsOk(reply.status) then Exchange(Some(request), Failure(StatusError(reply.status)))
      else match reply.body
        case Parsed(v) => Exchange(Some(request), Success(v))
        case Unparsable(e) => Exchange(Some(request), Failure(e))
  }

  /** The invite endpoint for `code`; the code can be read back from between the fixed parts. */
  function InvitePath(code: string): (p: string)
    ensures StartsWith(p, "/invites/") && EndsWith(p, InviteQuery)
    ensures |p| == 9 + |code| + |InviteQuery| && p[9..|p| - |InviteQuery|] == code
  {
    var p := "/invites/" + code + InviteQuery;
    assert p[..9] == "/invites/";
    assert p[|p| - |InviteQuery|..] == InviteQuery;
    p
  }

  /** `checkInvite(code)`: a thrown message containing "404" becomes `{message: 'Unknown Invite', code}`. */
  function CheckInvite(code: string, token: Option<string>, reply: Response): (x: Exchange)
    ensures x.sent == FetchWithAuth(token, InvitePath(code), reply).sent
    ensures FetchWithAuth(token, InvitePath(code), reply).outcome.Success? ==>
      x.outcome == FetchWithAuth(token, InvitePath(code), reply).outcome
    ensures FetchWithAuth(token, InvitePath(code), reply).outcome.Failure? ==>
      var m := FetchWithAuth(token, InvitePath(code), reply).outcome.error;
      x.outcome == if Contains(m, "404") then Success(Service.UnknownInvite(code)) else Failure(m)
  {
    var x := FetchWithAuth(token, InvitePath(code), reply);
    match x.outcome
    case Success(_) => x
    case Failure(m) =>
      if Contains(m, "404") then Exchange(x.sent, Success(Service.UnknownInvite(code))) else x
  }

  /** `lookupUser(id)`: the upstream body, unmodified, from `/users/<id>`. */
  function LookupUser(id: string, token: Option<string>, reply: Response): (x: Exchange)
    ensures x.sent.Some? ==> x.sent.value.url == ApiBase + "/users/" + id
    ensures x.outcome.Success? <==> DiscordUtils.Configured(token) && IsOk(reply.status) && reply.body.Parsed?
    ensures x.outcome.Success? ==> x.outcome.value == reply.body.value
  {
    FetchWithAuth(token, "/users/" + id, reply)
  }

  /** Without a token no invite request is sent and the caller sees the configuration error. */
  lemma MissingTokenSendsNothing(code: string, token: Option<string>, reply: Response)
    requires !DiscordUtils.Configured(token)
    ensures CheckInvite(code, token, reply) == Exchange(None, Failure(MissingToken))
  {
    NotContainsWithoutFirstChar(MissingToken, "404");
  }

  /**
   * For a three-digit non-ok status, `checkInvite` answers "Unknown Invite"
   * exactly on a 404; every other status propagates its thrown message.
   */
  lemma UnknownInviteIffNotFound(code: string, token: Option<string>, reply: Response)
    requires DiscordUtils.Configured(token) && !IsOk(reply.status) && 100 <= reply.status <= 999
    ensures CheckInvite(code, token, reply).outcome == Success(Service.UnknownInvite(code)) <==> reply.status == 404
    ensures reply.status != 404 ==> CheckInvite(code, token, reply).outcome == Failure(StatusError(reply.status))
  {
    var s := reply.status;
    if s == 404 {
      PrefixIsContained(NotFound, "404");
    } else if s == 429 {
      NotContainsWithoutFirstChar(RateLimited, "404");
    } else {
      var digits := NatToString(s);
      ThreeDigitRendering(s);
      if Contains(ApiErrorPrefix + digits, "404") {
        ContainsAfterForeignPrefix(ApiErrorPrefix, digits, "404");
        NatToStringRoundTrip(s);
        assert false;
      }
    }
  }
}
