# discordtest.com request proxy, modelled in Dafny

discordtest.com checks two things against Discord: whether a vanity invite
code is free, and what a user ID's profile looks like. The browser never
calls Discord itself. It calls one of two proxies:

- an HTTP server, built from a controller layer, a Discord service with an
  invite cache, a fixed-window rate limiter, and a five-requests-per-five-seconds
  in-memory limiter;
- a Cloudflare Worker, plus its edge-function variant.

This project models the decision logic of that proxy layer and of the
browser helpers that talk to it:

- the input validators;
- the functions that turn an upstream status, body or thrown message into the
  service's own response;
- the three clock-driven state holders (two request limiters and the invite
  cache) and the two-second upstream pacer;
- the CDN URL builders;
- the client-side retry hook.

Modelling conventions:

- Upstream answers are input data: a status, lower-case headers, and a body
  that either parsed as JSON or failed to parse.
- JavaScript values that matter (`undefined` against `null`, truthiness,
  `||`, `??`, `String(x)`, template substitution, object spread) are modelled
  explicitly in `Json`.
- Thrown errors are their message strings. They are classified with
  `Text.Contains`, which models `String.prototype.includes`.
- The clock is an `int` parameter. Waits are returned or added to the clock
  rather than slept.
- Length checks count UTF-16 code units (`Text.Utf16Length`), as JavaScript's
  `.length` does.

There is one module per source file:

- `Validation`
- `VanityController`
- `UsersController`
- `ServerDiscordService`
- `EdgeDiscordService`
- `RateLimit`
- `ServerIndex`
- `DiscordUtils`
- `Worker`
- `ApiClient`
- `ApiDiscord`
- `ApiVanity`
- `ApiUser`
- `UseRetry`

They rest on four helper modules: `Wrappers`, `Text`, `Json` and `Http`.

Where the code mutates state, the model does too:

- `RateLimit.RateLimiter` and `ServerIndex.MemoryRateLimiter` are classes
  over a `map` field.
- `ServerDiscordService.DiscordService` holds the invite cache. Its sweep is
  a loop.
- `DiscordUtils.DiscordRateLimit` holds the pacer's timestamp.
- `UseRetry.RetryHook` holds the hook's React state. Its attempt loop is a
  `while` loop.

Each method is proved against a specification function. The properties
themselves are proved about those functions.

HTTP 429 is the "Too Many Requests" status of RFC 6585 section 4. The
`Retry-After` header it carries is defined in RFC 9110 section 10.2.3.

## Model

| member | source | states |
|---|---|---|
| Validation.ValidateDiscordId | src/lib/validation.ts:2-22 | valid exactly for 17-20 ASCII digits whose snowflake time `id / 2^22 + 1420070400000` is not after `now`; a blank id gets "User ID is required", a non-snowflake the digits message, a future one "Invalid Discord ID format"; valid iff no error |
| Validation.SnowflakeTimestamp | src/lib/validation.ts:13-17 | the decoded time is never before the Discord epoch, so the "before epoch" test cannot fire |
| Validation.SnowflakeShiftIsExact | src/lib/validation.ts:13 | for a 20-digit id the shifted value is below 2^53, so converting it to a JavaScript number loses nothing |
| Validation.ValidateVanityUrl | src/lib/validation.ts:25-45 | valid exactly for 2-32 characters from `[A-Za-z0-9_-]` with an alphanumeric first and last character; checks run required, then length, then charset, then edge; valid iff no error |
| Validation.CharsetIsPrintableBmp | src/lib/validation.ts:35-42 | a code in the charset is not blank, its UTF-16 length is its length, and it has a separator at an edge iff its first or last character is not alphanumeric |
| Validation.LengthIsCheckedBeforeEdges | src/lib/validation.ts:31-42 | the one-character code `_` reports the length error, not the edge error |
| Validation.AstralCharacterCountsTwice | src/lib/validation.ts:31-37 | an emoji counts as two code units: it passes the length rule and fails the charset rule |
| VanityController.CodeIssue | server/controllers/vanity.ts:7-12 | no issue iff the UTF-16 length is 2-32 and the code matches `^[a-zA-Z0-9-]+$`; otherwise the first failing rule's message, in the order min, max, regex |
| VanityController.ErrorBody | server/controllers/vanity.ts:14-18 | an error envelope has `available = false` and no guild |
| VanityController.BodyJson | server/controllers/vanity.ts:37-40 | the serialised envelope has `error`, `available` and `guild` keys, with `null` standing for an absent error or guild |
| VanityController.ExtendedGuild | server/controllers/vanity.ts:61-70 | the guild's own properties are kept, except that `approximate_member_count`, `approximate_presence_count` and `channel` come from the top level of the upstream body |
| VanityController.ClassifyFailure | server/controllers/vanity.ts:71-101 | a message containing "Rate limited" gives 429 with that message, and this test comes first; one containing "404" or "Unknown Invite" gives 200 available; anything else gives 500 "Failed to check vanity URL" |
| VanityController.CheckVanityUrl | server/controllers/vanity.ts:30-103 | an error implies not available, no guild and a non-200 status; available implies no error and no guild; a guild implies no error; an invalid code gets 400 with the schema message; an "Unknown Invite" result is available; a result without a guild gets 500 |
| VanityController.InvalidCodeNeedsNoService | server/controllers/vanity.ts:35-41 | an invalid code gets the same 400 whatever the service would have answered |
| VanityController.ForeignCharacterIsRefused | server/controllers/vanity.ts:7-12 | a code of acceptable length with any character outside `[a-zA-Z0-9-]`, underscore included, gets the charset message |
| VanityController.UpstreamStatusThroughService | server/controllers/vanity.ts:44-95 | combined with the server's Discord service, an upstream 404 makes a valid code available, and an upstream 429 gives 429 with the service's "Rate limited" message |
| VanityController.MissingTokenIsServerError | server/controllers/vanity.ts:91-95 | a missing bot token ends in the generic 500, never in "available" |
| UsersController.UserIdIssue | server/controllers/users.ts:5-10 | no issue iff the length is 17-20 and all characters are digits; a bad length gets "Invalid Discord user ID"; a right-length id with a non-digit gets "Discord user ID must be numeric" |
| UsersController.ErrorBody | server/controllers/users.ts:12-15 | every error envelope has `user = null` |
| UsersController.ClassifyFailure | server/controllers/users.ts:34-61 | "Rate limited" gives 429 with the message, ahead of the 404 test; "404" gives 404 "User not found"; anything else gives 500 "Failed to lookup user" |
| UsersController.LookupUser | server/controllers/users.ts:17-61 | no error iff a user is present iff the status is 200; an invalid id gets 400 with the schema message; a success gets `{error: null, user}` |
| UsersController.InvalidIdNeedsNoService | server/controllers/users.ts:22-29 | an invalid id gets the same 400 whatever the service would have answered |
| UsersController.UpstreamStatusThroughService | server/controllers/users.ts:32-50 | combined with the server's service, an upstream 404 gives 404 "User not found", a 429 gives 429 with the "Rate limited" message, a parsed 2xx object gives the normalised user, and a 2xx JSON `null` body gives 500 "Failed to lookup user" |
| UsersController.MissingTokenIsServerError | server/controllers/users.ts:52-61 | a missing bot token ends in the generic 500 |
| DiscordUtils.GetDiscordHeaders | server/utils/discord.ts:14-25 | fails with "Bot token not configured" iff the token is unset or empty; otherwise Authorization is "Bot " + token, with the fixed content type and User-Agent |
| DiscordUtils.PacedStart | server/utils/discord.ts:27-35 | the call goes out no earlier than `lastRequest + 2000` and no earlier than `now`; with no positive wait, it goes out at `now` |
| DiscordUtils.DiscordRateLimit.Enforce | server/utils/discord.ts:27-35 | the wait is `lastRequest + minTimeBetweenRequests - now` when positive, else 0; the new `lastRequest` is the clock after the wait, at least `old lastRequest + minTimeBetweenRequests`, and never smaller than before |
| ServerDiscordService.DigitPrefix | server/services/discord.ts:64-66 | the longest leading run of digits, the part `parseInt` reads |
| ServerDiscordService.ParseIntRoundTrip | server/services/discord.ts:64-66 | `parseInt` reads back what `String(n)` writes |
| ServerDiscordService.GetRateLimitInfo | server/services/discord.ts:51-71 | null iff any of Limit, Remaining, Reset, Reset-After or Bucket is missing or empty; otherwise the bucket is copied, the numbers are parsed, and the scope is present iff its header is non-empty |
| ServerDiscordService.Lookup | server/services/discord.ts:86-97 | a hit iff an entry exists whose age is at most 60000 ms, and the hit returns the stored data |
| ServerDiscordService.AfterLookup | server/services/discord.ts:86-97 | a lookup deletes only a stale entry for that code and removes nothing else |
| ServerDiscordService.FreshEntries | server/services/discord.ts:105-113 | the sweep keeps exactly the entries that are not expired, unchanged |
| ServerDiscordService.AfterStore | server/services/discord.ts:99-114 | the code maps to `(data, now)`; other entries are kept unchanged, and only expired ones are dropped, and only when the cache holds more than 1000 entries |
| ServerDiscordService.StoredInviteIsServed | server/services/discord.ts:86-103 | a stored invite is served unchanged for one TTL after the store |
| ServerDiscordService.StoredInviteExpires | server/services/discord.ts:86-103 | after one TTL the stored invite misses, and the miss deletes it |
| ServerDiscordService.SweepKeepsFreshEntries | server/services/discord.ts:105-113 | when no entry is expired the sweep deletes nothing, so the size may stay above 1000 |
| ServerDiscordService.DiscordService.GetCachedInvite | server/services/discord.ts:86-97 | returns `Lookup` and leaves the cache as `AfterLookup` |
| ServerDiscordService.DiscordService.SetCachedInvite | server/services/discord.ts:99-114 | the store and the sweep loop leave the cache as `AfterStore` |
| ServerDiscordService.RateLimitedMessage | server/services/discord.ts:148-151 | the 429 message starts with "Rate limited" |
| ServerDiscordService.FetchInvite | server/services/discord.ts:124-170 | a missing token throws "Bot token not configured"; 429 throws the "Rate limited" message; 404 gives `{message: "Unknown Invite", code}`; a parsed 2xx is returned; any other status fails |
| ServerDiscordService.DiscordService.CheckInvite | server/services/discord.ts:116-171 | a cache hit is returned without a request and leaves the cache unchanged; otherwise the reply is classified, and the cache is written only for a parsed 2xx |
| ServerDiscordService.UserToJson | server/services/discord.ts:227-236 | the serialised user always carries `accentColor`, `flags`, `bot` and `verified` |
| ServerDiscordService.NormaliseUser | server/services/discord.ts:224-236 | `accentColor` is `accent_color`, or null when it is missing or null; `flags` is copied when present and not null, and is 0 otherwise; `bot` and `verified` are the truthiness of the upstream fields; id, username, avatar and banner are copied |
| ServerDiscordService.LookupUser | server/services/discord.ts:187-237 | a missing token, a 429 "Rate limited…", a 404 "404: User not found" and other statuses "Failed to fetch user: <status>" fail; success iff configured, 2xx, parsed and not `null`, and then the result is the normalised user; a JSON `null` body throws the TypeError of reading `data.id` |
| EdgeDiscordService.StatusError | functions/services/discord.ts:19-27 | 404 gives "404 Not Found", 429 gives "Rate limited by Discord API", and any other status gives "Discord API error: <status>" |
| EdgeDiscordService.FetchWithAuth | functions/services/discord.ts:6-30 | no request and "Discord bot token not configured" iff there is no token; otherwise one request to the API base plus the endpoint with "Bot " + token; a non-ok status throws its message; an ok reply returns the parsed body |
| EdgeDiscordService.InvitePath | functions/services/discord.ts:34 | the invite path always ends with `?with_counts=true&with_expiration=true`, and the code can be read back from it |
| EdgeDiscordService.CheckInvite | functions/services/discord.ts:32-44 | a thrown message containing "404" becomes `{message: "Unknown Invite", code}` for the input code; other errors propagate unchanged |
| EdgeDiscordService.LookupUser | functions/services/discord.ts:46-48 | succeeds iff configured, ok and parsed, and then returns the upstream body unmodified |
| EdgeDiscordService.MissingTokenSendsNothing | functions/services/discord.ts:7-10 | without a token no invite request is sent, and the configuration error reaches the caller |
| EdgeDiscordService.UnknownInviteIffNotFound | functions/services/discord.ts:19-43 | for a three-digit non-ok status, "Unknown Invite" comes back exactly on 404; any other status propagates its own message |
| RateLimit.CeilDiv | server/middleware/rate-limit.ts:68-71 | `Math.ceil(a / b)`: the least q with `a <= q * b` |
| RateLimit.DefaultKey | server/middleware/rate-limit.ts:29 | the key is x-forwarded-for, or "default" when it is missing or empty |
| RateLimit.Current | server/middleware/rate-limit.ts:54-60 | a fresh window `(0, now + windowMs)` starts exactly when there is no entry or `now >= resetTime`; with a positive window, `now < resetTime` afterwards |
| RateLimit.Record | server/middleware/rate-limit.ts:51-63 | the request is counted (refused ones too) and stored under its key; every other key is unchanged |
| RateLimit.Decide | server/middleware/rate-limit.ts:65-76 | Remaining is `max(0, max - count)`, Reset is `ceil(resetTime / 1000)`; refused iff `count > max`, with 429 and the configured message; Retry-After is `ceil((resetTime - now) / 1000)` and at least 1 |
| RateLimit.Unexpired | server/middleware/rate-limit.ts:36-43 | keeps exactly the windows with `now < resetTime`, unchanged |
| RateLimit.RunWithinWindow | server/middleware/rate-limit.ts:54-63 | requests before the window ends keep the window and each add one to its count |
| RateLimit.Burst | server/middleware/rate-limit.ts:54-75 | in a burst inside one fresh window, the n-th request passes exactly when `n <= max` |
| RateLimit.RateLimiter.constructor | server/middleware/rate-limit.ts:22-30 | empty store; the message defaults to "Too many requests, please try again later" and the status code to 429 |
| RateLimit.RateLimiter.Cleanup | server/middleware/rate-limit.ts:36-43 | the deletion loop leaves exactly `Unexpired(old store, now)` |
| RateLimit.RateLimiter.Handle | server/middleware/rate-limit.ts:49-77 | the store becomes `Record(old store, …)` and the outcome is `Decide` on the stored window |
| ServerIndex.ClientKey | server/index.ts:51-52 | "ratelimit:" + (cf-connecting-ip, else x-forwarded-for, else "unknown") |
| ServerIndex.Current | server/index.ts:60-70 | a missing entry is `{0, now}`, and the entry is reset to `{0, now}` when `now - timestamp > 5000` |
| ServerIndex.Verdict | server/index.ts:72-79 | 429 iff the current count is at least 5, with `available = false` and `guild = null`; the retry delay in ms is `timestamp + 5000 - now`, between 0 and 5000 |
| ServerIndex.AfterRequest | server/index.ts:72-86 | a refused request leaves the store unchanged; an admitted one stores the count plus one |
| ServerIndex.AfterRequestStaysBounded | server/index.ts:72-86 | no stored count ever exceeds 5 |
| ServerIndex.RunInsideWindow | server/index.ts:67-86 | inside one window each request adds one to the count until it reaches 5 |
| ServerIndex.FiveThenRefused | server/index.ts:50-97 | a client with no live window that sends requests within five seconds gets its first five through and every later one refused |
| ServerIndex.NotFound | server/index.ts:112 | unknown routes get 404 `{error: "Not found"}` |
| ServerIndex.OnError | server/index.ts:115-121 | uncaught errors get 500 "Internal server error" with the error's message |
| ServerIndex.MemoryRateLimiter.Limit | server/index.ts:50-97 | the reply is `Verdict` and the store becomes `AfterRequest`, keeping every count at most 5 |
| Worker.ClientKey | src/worker.ts:24-31 | CF-Connecting-IP when present; otherwise the first 50 characters of User-Agent (default "unknown"), "-", and CF-Ray (default "unknown") |
| Worker.FallbackKeyShape | src/worker.ts:27-30 | without an IP, the key is at most 50 characters, a dash, then the ray id |
| Worker.TraitAsWritten | src/worker.ts:88-90 | the trait map as written: a string is kept and a null trait throws |
| Worker.TraitAsWrittenLeaksNonStrings | src/worker.ts:89 | as written, `{label: 7}` yields the number 7, not a string |
| Worker.SanitiseTraitAgrees | src/worker.ts:89 | wherever the as-written map yields a string, the corrected one yields the same string |
| Worker.TraitsAsWritten | src/worker.ts:88-90 | the map as written fails exactly when some trait is `null`, with the null-read TypeError; otherwise each element is the as-written trait |
| Worker.SanitisedTraitsAsWritten | src/worker.ts:88-90 | an array of traits is mapped as written, and throws exactly when it holds a `null`; a non-array is left as it is |
| Worker.SanitisedTraits | src/worker.ts:88-90 | the intended sanitiser: an array of traits becomes strings element by element; a non-array is left as it is |
| Worker.TakenWith | src/worker.ts:83-100 | for given sanitised traits, the upstream fields are kept, `traits` is replaced, `game_activity` and `emojis` are dropped, and `available = false`, `error = null` override |
| Worker.TakenBodyAsWritten | src/worker.ts:83-100 | the body as written throws exactly when the as-written trait map throws; otherwise it is `TakenWith` of the as-written traits |
| Worker.TakenBody | src/worker.ts:83-100 | the intended body: `TakenWith` of the string-only traits, with `available = false` and `error = null` |
| Worker.TakenTraitsAreStrings | src/worker.ts:85-94 | every trait in the intended body is a string |
| Worker.TakenBodiesAgreeOnStringTraits | src/worker.ts:88-90 | when every upstream trait is already a string, the as-written and the intended bodies are equal |
| Worker.VanityRouteWith | src/worker.ts:43-108 | the route's branches for a given ok-body builder: limit 429, empty code 400, upstream 404 available, unparsable or `null` bodies throw, an ok object gives 200 with the built body or its throw |
| Worker.VanityRoute | src/worker.ts:43-108 | as written: a limited client gets 429 with `retryAfter` 60 first; an empty code gets 400; an upstream 404 gives `{available: true, guild: null}`; an unparsable or `null` body throws; an ok object gives 200 with `TakenBodyAsWritten`, and throws exactly when that does |
| Worker.VanityRouteIntended | src/worker.ts:43-108 | with the intended sanitiser an ok object always gives 200 with `TakenBody`; every other case answers as the route as written |
| Worker.NullTraitBreaksRoute | src/worker.ts:88-90 | an ok reply with traits `[null]` makes the route as written throw, while the intended route answers 200 with the trait "null" |
| Worker.RoutesAgreeOnStringTraits | src/worker.ts:43-108 | when every upstream trait is a string, the two routes give the same answer |
| Worker.LimitComesFirst | src/worker.ts:45-60 | a limited client gets the same 429 whatever code it sends and whatever Discord would answer |
| Worker.VanityStatusMapping | src/worker.ts:57-107 | past the limiter, 400 exactly for an empty code; any other non-ok, non-404 status gives 429 when upstream was 429 and 500 otherwise, with the upstream message or the fallback |
| Worker.AvailableMeansNoError | src/worker.ts:72-100 | whenever the route says available, the status is 200, there is no error and `guild` is null |
| Worker.UserRoute | src/worker.ts:110-138 | limit first, then 400 for an empty id, then the upstream body with 200 for ok and the upstream status otherwise |
| Worker.AssetFor | src/worker.ts:158-168 | `/index.html` iff the path does not start with /api/ and contains no "." |
| Worker.ApiAndFilePathsPassThrough | src/worker.ts:162-167 | API paths and file paths go to the asset fetcher unchanged |
| Worker.PagePathsServeShell | src/worker.ts:162-164 | a dot-free path outside /api/ is served the application shell |
| ApiClient.Extension | src/lib/api/client.ts:12-21 | the extension is gif iff the builder is the avatar builder and the hash starts with "a_"; otherwise png |
| ApiClient.CdnUrl | src/lib/api/client.ts:11-22 | every URL starts `https://cdn.discordapp.com/<category>/` and ends `.<ext>?size=<n>` |
| ApiClient.CdnUrlInjective | src/lib/api/client.ts:11-22 | the owner id and the hash are consecutive path segments that can be read back: equal URLs from one builder mean equal ids (ids without a slash) and equal hashes |
| ApiClient.BuildUrl | src/lib/api/client.ts:102-120 | null exactly when the hash is null or empty; otherwise the builder's URL |
| ApiClient.AvatarIsGifIffAnimated | src/lib/api/client.ts:12-13 | an avatar URL ends `.gif?size=128` exactly for an "a_" hash |
| ApiClient.OthersArePng | src/lib/api/client.ts:14-21 | user banners, guild icons, guild banners and splashes are always png at their fixed size |
| ApiClient.NonOkError | src/lib/api/client.ts:69-76 | the APIError carries the response status and the message error, else message, else "Request failed"; an unparsable body gives "Request failed"; a null body throws a TypeError instead |
| ApiClient.Classify | src/lib/api/client.ts:79-90 | an abort gives ("Request timeout", 408), an APIError passes unchanged, and anything else gives ("Network error occurred", 500) |
| ApiClient.ApiRequest | src/lib/api/client.ts:56-95 | network failures and non-ok replies are rejected with the classified APIError; an ok reply settles with its body; an unparsable ok body escapes the catch |
| ApiClient.NonOkKeepsStatus | src/lib/api/client.ts:69-76 | a non-ok reply whose body is not null is rejected carrying that reply's status |
| ApiClient.NullErrorBodyIsNetworkError | src/lib/api/client.ts:70-90 | a null error body is reported as a network error |
| ApiClient.ParseErrorEscapesAsWritten | src/lib/api/client.ts:78 | an ok reply that is not JSON settles with the raw parse error |
| ApiClient.ApiRequestAwaited | src/lib/api/client.ts:56-95 | with the parse awaited, no error escapes, and an unparsable ok body becomes the network error |
| ApiClient.CacheKey | src/lib/api/client.ts:45-46 | the key is (method or "GET") + ":" + "/api" + endpoint |
| ApiClient.CacheKeyInjective | src/lib/api/client.ts:45-46 | requests with different (colon-free) methods or endpoints never share a key |
| ApiDiscord.SameAsClientBuilders | src/lib/api/discord.ts:12-17 | this file's avatar and banner templates build exactly the client builders' URLs, so the avatar is gif iff "a_" at size 128 and the banner is png at 600 |
| ApiDiscord.OwnerThenHash | src/lib/api/discord.ts:13-16 | both URLs contain "/<userId>/<hash>.", the id and the hash as consecutive segments |
| ApiDiscord.CheckVanityUrl | src/lib/api/discord.ts:19-30 | any non-ok status throws "Failed to check vanity URL"; an ok reply returns the body unchanged |
| ApiVanity.ImageUrl | src/lib/api/vanity.ts:77-85 | an image URL is null iff its hash is falsy; otherwise it is the png CDN URL built from the guild id and the hash |
| ApiVanity.GuildInfoOf | src/lib/api/vanity.ts:72-98 | features default to [], isNsfw to false and boostCount to 0; inviteCode is the input code; inviteChannel is present iff the upstream channel is truthy |
| ApiVanity.CheckVanityUrl | src/lib/api/vanity.ts:16-108 | guild info iff the error is null; available implies no guild info; a bad code gets "Invalid vanity URL format"; 429 gets the fixed wait message; other non-ok statuses get the server error or "Failed to check vanity URL: <status>"; available puts the success sentence in `error`; a missing guild gets "Invalid response format from server"; every throw gets "Failed to connect to Discord API" |
| ApiVanity.InvalidFormatNeedsNoRequest | src/lib/api/vanity.ts:19-25 | a code not matching `^[a-zA-Z0-9-]+$`, the empty code included, is answered the same whatever the server would say |
| ApiVanity.StatusFallback | src/lib/api/vanity.ts:42-47 | a non-ok, non-429 reply without an error field reports "Failed to check vanity URL: <status>" |
| ApiVanity.ServerVerdictReachesClient | src/lib/api/vanity.ts:32-99 | combined with the server controller, the browser shows the same availability, guild info exactly when a guild was sent, and the controller's error unless the status was 429 |
| ApiUser.StatusFailure | src/lib/api/user.ts:19-45 | no error iff ok; 429 gives the server's error or "Too many requests. Please try again later."; 404 gives "User not found"; 401 gives "Authentication failed"; others give the server message or "Failed to lookup user"; every status error carries the response status |
| ApiUser.Rewritten | src/lib/api/user.ts:47-58 | a truthy avatar string becomes the avatar CDN URL and a truthy banner the banner URL; every other field is returned untouched; a null body or a truthy non-string avatar throws |
| ApiUser.LookupUser | src/lib/api/user.ts:12-59 | status errors are thrown first; an ok reply gives `Rewritten` of its body, or the error the rewrite throws |
| ApiUser.AvatarGifIffAnimated | src/lib/api/user.ts:50-52 | a non-empty avatar hash becomes a URL that is a gif exactly when the hash starts with "a_" |
| ApiUser.BannerIsPngAt600 | src/lib/api/user.ts:54-56 | a truthy banner becomes a png URL at size 600 |
| ApiUser.NullAvatarStaysNull | src/lib/api/user.ts:50-52 | a null avatar stays null |
| UseRetry.Run | src/lib/hooks/useRetry.ts:16-57 | `fn` is called at most `max(0, maxAttempts)` times, and waited on one time fewer than it is called; the i-th wait is `delay * backoff^i`; with `maxAttempts <= 0` nothing is called and Error("Unknown error") is thrown |
| UseRetry.RunShape | src/lib/hooks/useRetry.ts:19-51 | from any attempt on, the calls stay within `maxAttempts` and the waits follow the geometric schedule |
| UseRetry.StopsAt | src/lib/hooks/useRetry.ts:26-43 | a success, or a 404, 401 or 403, on attempt k after retryable failures ends the run right there after k calls |
| UseRetry.AllRetryable | src/lib/hooks/useRetry.ts:19-56 | when every attempt fails retryably there are exactly `maxAttempts` calls, the last error is thrown, and every attempt but the last is followed by a wait |
| UseRetry.DefaultSchedule | src/lib/hooks/useRetry.ts:11-50 | with the defaults (3, 1000, 2), three retryable failures wait 1000 ms and then 2000 ms |
| UseRetry.NonRetryableIsRethrownAtOnce | src/lib/hooks/useRetry.ts:37-43 | a non-retryable first error is rethrown after one call, with no wait |
| UseRetry.RetryHook.ExecuteWithRetry | src/lib/hooks/useRetry.ts:16-57 | the attempt loop computes exactly `Run`; it ends with both state values reset, and `isRetrying` is set only on attempts from 2 onward |

## Left out

- Every `fetch` and `response.json()` call is replaced by its outcome, passed in as data: a status, headers and a parsed or unparsable body. The request URLs and headers are modelled only where the source classifies them (the edge service's `fetchWithAuth`, the server's bot headers).
- The Hono/Express wiring, the route files, the CORS and response helpers, the health routes, the configuration loaders, server/index.js, src/lib/api.ts, the React pages and components, and the type-only files are not part of this model: they are plumbing, presentation or simulated data.
- `RateLimiterMemory` (server/services/discord.ts:73-84, 128-145, 173-185) is a third-party library whose behaviour cannot be seen. `DiscordService.CheckInvite` does not model the buckets that library keeps.
- The Cloudflare KV branch of server/index.ts:61-64 and 87-90 is an external store, and its fail-open `catch` (93-96) covers that store's errors; only the in-memory path is modelled.
- The in-flight de-duplication map, the AbortController timeout and the `finally` cleanup in src/lib/api/client.ts are concurrency. Only the error classification and the key format are modelled.
- Timers are modelled as clock values. `DiscordRateLimit.Enforce` takes the timer's lateness as a parameter, `UseRetry.RetryHook.ExecuteWithRetry` returns its waits, and the 60-second `cleanup` interval is a plain method call.
- Floating point is not modelled. `parseFloat` of Reset-After is kept as the header text. The server limiter's `retryAfter` is kept in milliseconds rather than divided into fractional seconds. `backoff` is a natural number, so `Math.pow` is integer power. JSON numbers are integers.
- ServerDiscordService.ParseInt: does not read a `0x` prefix as hexadecimal, which `parseInt` with no radix would do; the rate-limit headers are decimal.
- Property reads on non-objects are modelled as `undefined`. Where a read on `null` throws, the model says so (the worker's traits and vanity route, the server's user normalisation, `apiRequest`, and the browser's vanity and user helpers). Where the source only spreads or reads through `||`, a `null` body is treated like `{}`. The `in` operator on a primitive, which throws, is treated the same way.
- Json.Fields: spreading a JSON string or array is modelled as spreading `{}`, although JavaScript copies its indices as keys (`{..."ab"}` is `{"0": "a", "1": "b"}`). This affects `Worker.TakenWith` for a 2xx string or array body and `VanityController.ExtendedGuild` for a truthy string or array `guild`.
- Each call reads the clock once. The source sometimes calls `Date.now()` several times in one function (server/index.ts:60-77, server/services/discord.ts:91-107).
- Worker.ClientKey: `Take` counts Unicode characters rather than UTF-16 units, so an agent string with astral characters may be cut at a different place.
- UseRetry.RetryHook: React state updates are modelled as immediate assignments recorded in order, without batching or re-rendering. `fn`'s arguments are fixed, so `fn(k)` stands for the k-th call's outcome.
- The worker's general `/api/*` limiter (src/worker.ts:141-155) is registered after the two routes, so it never runs for them, and it is not modelled.
- RateLimit.RateLimiter: a custom `keyGenerator` is not modelled; `Handle` takes the generated key. The `statusCode` option is stored, but the middleware always rejects with 429, which is what is modelled.
- VanityController.ForeignCharacterIsRefused: the underscore case is covered as an instance of this general lemma rather than by a lemma of its own.
- ApiUser.LookupUser: a request that fails before any response propagates unchanged, so only answered requests are modelled. The user id only enters the URL.
- ApiVanity.CheckVanityUrl: the `API_BASE` choice between production and development and the POST request itself are not modelled; `reply` is `None` when the request throws.

## Findings

| source | as written | input that shows it | evidently intended | confidence | as-written member | corrected member |
|---|---|---|---|---|---|---|
| src/worker.ts:89 | a non-string trait becomes `trait.label \|\| trait.name \|\| String(trait)`, which is not a string when `label` or `name` is a truthy non-string, and which throws for a `null` trait | a trait `{"label": 7}` yields the number 7; a `null` trait throws a TypeError | every trait in the reply is a string, as the comment "Ensure traits are strings" says | not executed | Worker.TraitAsWritten, Worker.TraitAsWrittenLeaksNonStrings, Worker.VanityRoute, Worker.NullTraitBreaksRoute | Worker.SanitiseTrait, Worker.SanitiseTraitAgrees, Worker.TakenTraitsAreStrings, Worker.VanityRouteIntended, Worker.RoutesAgreeOnStringTraits |
| src/lib/api/client.ts:78 | `return response.json()` without `await` inside the `try`, so a parse failure of an ok body rejects after the `catch` has been left | an ok reply whose body is not JSON settles with the raw SyntaxError, not an `APIError` | every failure of `apiRequest` becomes an `APIError` | not executed | ApiClient.ApiRequest, ApiClient.ParseErrorEscapesAsWritten | ApiClient.ApiRequestAwaited |
