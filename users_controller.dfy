/**
 * server/controllers/users.ts: the HTTP server's user-lookup handler. It
 * validates the path parameter, asks the Discord service, and answers a
 * `{ error, user }` envelope: a "Rate limited" error is a 429, an error
 * mentioning 404 is a 404 "User not found", and anything else is a 500.
 */
module UsersController {
  import opened Wrappers
  import opened Text
  import opened Json
  import opened Http
  import DiscordUtils
  import Service = ServerDiscordService

  const InvalidId := "Invalid Discord user ID"
  const NotNumeric := "Discord user ID must be numeric"
  const UserNotFound := "User not found"
  const LookupFailed := "Failed to lookup user"

  /** The `{ error, user }` envelope; `user` is the serialised user or `null`. */
  datatype UserBody = UserBody(error: Option<string>, user: Option<Json>)

  /** `userIdSchema`'s first issue (`errors[0]`): min then max (same message), then `/^\d+$/`. */
  function UserIdIssue(id: string): (issue: Option<string>)
    ensures issue.None? <==> 17 <= Utf16Length(id) <= 20 && id != "" && AllDigits(id)
    ensures (Utf16Length(id) < 17 || Utf16Length(id) > 20) ==> issue == Some(InvalidId)
    ensures 17 <= Utf16Length(id) <= 20 && !AllDigits(id) ==> issue == Some(NotNumeric)
    ensures issue.None? ==> 17 <= |id| <= 20
  {
    if Utf16Length(id) < 17 || Utf16Length(id) > 20 then Some(InvalidId)
    else if id == "" || !AllDigits(id) then Some(NotNumeric)
    else
      assert forall i :: 0 <= i < |id| ==> id[i] as int <= 0xFFFF by {
        forall i | 0 <= i < |id| ensures id[i] as int <= 0xFFFF { assert IsDigit(id[i]); }
      }
      Utf16LengthOfBmp(id);
      None
  }

  /** `createErrorResponse(error)`. */
  function ErrorBody(error: string): (b: UserBody)
    ensures b.error == Some(error) && b.user.None?
  {
    UserBody(Some(error), None)
  }

  /** The inner `catch` and its re-throw to the outer one: map a thrown message to a response. */
  function ClassifyFailure(message: string): (r: Reply<UserBody>)
    ensures Contains(message, "Rate limited") ==> r == Reply(429, ErrorBody(message))
    ensures !Contains(message, "Rate limited") && Contains(message, "404") ==> r == Reply(404, ErrorBody(UserNotFound))
    ensures !Contains(message, "Rate limited") && !Contains(message, "404") ==> r == Reply(500, ErrorBody(LookupFailed))
  {
    if Contains(message, "Rate limited") then Reply(429, ErrorBody(message))
    else if Contains(message, "404") then Reply(404, ErrorBody(UserNotFound))
    else Reply(500, ErrorBody(LookupFailed))
  }

  /**
   * `lookupUser(c)` for the path parameter `id`. `service` is what
   * `DiscordService.lookupUser(id)` returns or throws; it is consulted only
   * when the id is valid.
   */
  function LookupUser(id: string, service: Result<Service.DiscordUser, string>): (r: Reply<UserBody>)
    ensures r.body.error.None? <==> r.body.user.Some?
    ensures r.body.error.None? <==> r.status == 200
    ensures UserIdIssue(id).Some? ==> r == Reply(400, ErrorBody(UserIdIssue(id).value))
    ensures UserIdIssue(id).None? && service.Success?
      ==> r == Reply(200, UserBody(None, Some(Service.UserToJson(service.value))))
    ensures UserIdIssue(id).None? && service.Failure? ==> r == ClassifyFailure(service.error)
  {
    match UserIdIssue(id)
    case Some(issue) => Reply(400, ErrorBody(issue))
    case None =>
      match service
      case Success(user) => Reply(200, UserBody(None, Some(Service.UserToJson(user))))
      case Failure(message) => ClassifyFailure(message)
  }

  /** A malformed id is answered without looking at the service at all. */
  lemma InvalidIdNeedsNoService(id: string, a: Result<Service.DiscordUser, string>, b: Result<Service.DiscordUser, string>)
    requires UserIdIssue(id).Some?
    ensures LookupUser(id, a) == LookupUser(id, b)
    ensures LookupUser(id, a).status == 400
  {
  }

  /**
   * End to end with the server's Discord service: an upstream 404 is a 404
   * "User not found", an upstream 429 a 429 carrying the service's "Rate
   * limited" message, and a parsed 2xx body the normalised user.
   */
  lemma UpstreamStatusThroughService(id: string, token: Option<string>, reply: Response)
    requires UserIdIssue(id).None? && DiscordUtils.Configured(token)
    ensures reply.status == 404 ==>
      LookupUser(id, Service.LookupUser(token, reply)) == Reply(404, ErrorBody(UserNotFound))
    ensures reply.status == 429 ==>
      LookupUser(id, Service.LookupUser(token, reply))
        == Reply(429, ErrorBody(Service.RateLimitedMessage(HeaderValue(reply, "retry-after"))))
    ensures IsOk(reply.status) && reply.body.Parsed? && reply.body.value != JNull ==>
      LookupUser(id, Service.LookupUser(token, reply))
        == Reply(200, UserBody(None, Some(Service.UserToJson(Service.NormaliseUser(reply.body.value)))))
    ensures IsOk(reply.status) && reply.body == Parsed(JNull) ==>
      LookupUser(id, Service.LookupUser(token, reply)) == Reply(500, ErrorBody(LookupFailed))
  {
    NotContainsWithoutFirstChar(Service.NullUserRead, "Rate limited");
    NotContainsWithoutFirstChar(Service.NullUserRead, "404");
    var notFound := "404: User not found";
    NotContainsWithoutFirstChar(notFound, "Rate limited");
    PrefixIsContained(notFound, "404");
    PrefixIsContained(Service.RateLimitedMessage(HeaderValue(reply, "retry-after")), "Rate limited");
  }

  /** A missing bot token surfaces as the generic 500. */
  lemma MissingTokenIsServerError(id: string, token: Option<string>, reply: Response)
    requires UserIdIssue(id).None? && !DiscordUtils.Configured(token)
    ensures LookupUser(id, Service.LookupUser(token, reply)) == Reply(500, ErrorBody(LookupFailed))
  {
    var m := DiscordUtils.MissingToken;
    assert Service.LookupUser(token, reply) == Failure(m);
    NotContainsWithoutFirstChar(m, "Rate limited");
    NotContainsWithoutFirstChar(m, "404");
    assert ClassifyFailure(m) == Reply(500, ErrorBody(LookupFailed));
  }
}
