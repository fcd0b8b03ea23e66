/**
 * server/utils/discord.ts: the bot authorization headers, and a single-slot
 * pacer that keeps successive upstream calls at least `rateLimitMs` apart by
 * remembering when the last one was let through.
 */
module DiscordUtils {
  import opened Wrappers
  import opened Text

  const UserAgent := "DiscordBot (https://discordtest.com, 1.0.0)"
  const MissingToken := "Bot token not configured"
  /** `rateLimitMs` of the Discord configuration: two seconds between upstream calls. */
  const RateLimitMs: int := 2000

  datatype BotHeaders = BotHeaders(authorization: string, contentType: string, userAgent: string)

  /** `!discordToken` is false: the variable is set and not empty. */
  predicate Configured(token: Option<string>) {
    token.Some? && token.value != ""
  }

  /** `getDiscordHeaders()`, with `process.env.DISCORD_BOT_TOKEN` passed in. */
  function GetDiscordHeaders(token: Option<string>): (r: Result<BotHeaders, string>)
    ensures r.Failure? <==> !Configured(token)
    ensures r.Failure? ==> r.error == MissingToken
    ensures r.Success? ==>
      && StartsWith(r.value.authorization, "Bot ")
      && r.value.authorization[4..] == token.value
      && r.value.contentType == "application/json"
      && r.value.userAgent == UserAgent
  {
    if !Configured(token) then Failure(MissingToken)
    else Success(BotHeaders("Bot " + token.value, "application/json", UserAgent))
  }

  /** `lastRequest + minTimeBetweenRequests - now`: how long a call must still wait. */
  function TimeToWait(lastRequest: int, minGap: int, now: int): int {
    lastRequest + minGap - now
  }

  /**
   * The clock after `enforceDiscordRateLimit` returns: the timer is armed only
   * for a positive wait and fires `lateness` milliseconds after it is due.
   */
  function PacedStart(lastRequest: int, minGap: int, now: int, lateness: nat): (t: int)
    ensures t >= lastRequest + minGap
    ensures t >= now + lateness
    ensures TimeToWait(lastRequest, minGap, now) <= 0 ==> t == now + lateness
  {
    var wait := TimeToWait(lastRequest, minGap, now);
    now + (if wait > 0 then wait else 0) + lateness
  }

  /** The module-level `discordRateLimit` record. */
  class DiscordRateLimit {
    var lastRequest: int
    const minTimeBetweenRequests: int

    constructor ()
      ensures lastRequest == 0 && minTimeBetweenRequests == RateLimitMs
    {
      lastRequest := 0;
      minTimeBetweenRequests := RateLimitMs;
    }

    /**
     * `enforceDiscordRateLimit()` entered at clock `now`. `waited` is the
     * timer delay it arms (zero when none is needed); the clock read after
     * the wait becomes the new `lastRequest`.
     */
    method Enforce(now: int, lateness: nat) returns (waited: nat)
      modifies this`lastRequest
      ensures waited == (if TimeToWait(old(lastRequest), minTimeBetweenRequests, now) > 0
                         then TimeToWait(old(lastRequest), minTimeBetweenRequests, now) else 0)
      ensures lastRequest == PacedStart(old(lastRequest), minTimeBetweenRequests, now, lateness)
      ensures lastRequest == now + waited + lateness
      ensures lastRequest >= old(lastRequest) + minTimeBetweenRequests
      ensures minTimeBetweenRequests >= 0 ==> lastRequest >= old(lastRequest)
    {
      var timeToWait := lastRequest + minTimeBetweenRequests - now;
      waited := 0;
      if timeToWait > 0 {
        waited := timeToWait;
      }
      lastRequest := now + waited + lateness;
    }
  }
}
