/**
 * server/services/discord.ts: the upstream client of the HTTP server. It
 * reads Discord's rate-limit headers, keeps a one-minute in-memory cache of
 * invite lookups (swept of expired entries once it holds more than a
 * thousand), maps an upstream 404 on an invite to "Unknown Invite", turns an
 * upstream 429 into a "Rate limited" error, and normalises user records so
 * that optional fields always have a value.
 */
module ServerDiscordService {
  import opened Wrappers
  import opened Text
  import opened Json
  import opened Http
  import opened DiscordUtils

  // ------------------------------------------------------------ rate-limit headers

  /** The `RateLimitInfo` record; `None` in a number field is `NaN`. */
  datatype RateLimitInfo = RateLimitInfo(
    limit: Option<int>,
    remaining: Option<int>,
    reset: Option<int>,
    resetAfter: string,
    bucket: string,
    scope: Option<string>)

  /** The longest run of decimal digits at the start of `s`. */
  function DigitPrefix(s: string): (p: string)
    ensures AllDigits(p) && StartsWith(s, p)
    ensures |p| < |s| ==> !IsDigit(s[|p|])
    ensures AllDigits(s) ==> p == s
    decreases |s|
  {
    if |s| > 0 && IsDigit(s[0]) then [s[0]] + DigitPrefix(s[1..]) else ""
  }

  /** `parseInt(s)` in base ten: leading whitespace, an optional sign, then digits; `None` is `NaN`. */
  function ParseInt(s: string): Option<int> {
    var t := TrimStart(s);
    var signed := |t| > 0 && (t[0] == '-' || t[0] == '+');
    var digits := DigitPrefix(if signed then t[1..] else t);
    var magnitude: int := DecimalValue(digits);
    if digits == "" then None
    else if signed && t[0] == '-' then Some(-magnitude)
    else Some(magnitude)
  }

  /** `parseInt` reads back what `String(n)` writes. */
  lemma ParseIntRoundTrip(n: nat)
    ensures ParseInt(NatToString(n)) == Some(n)
  {
    var s := NatToString(n);
    assert IsDigit(s[0]);
    NatToStringRoundTrip(n);
  }

  /** A header value that passes `!value` being false: present and non-empty. */
  predicate Present(v: Option<string>) {
    v.Some? && v.value != ""
  }

  /** `getRateLimitInfo(headers)`. */
  function GetRateLimitInfo(r: Response): (info: Option<RateLimitInfo>)
    ensures info.None? <==>
      !Present(HeaderValue(r, "x-ratelimit-limit")) || !Present(HeaderValue(r, "x-ratelimit-remaining"))
      || !Present(HeaderValue(r, "x-ratelimit-reset")) || !Present(HeaderValue(r, "x-ratelimit-reset-after"))
      || !Present(HeaderValue(r, "x-ratelimit-bucket"))
    ensures info.Some? ==>
      && info.value.bucket == r.headers["x-ratelimit-bucket"]
      && info.value.resetAfter == r.headers["x-ratelimit-reset-after"]
      && info.value.limit == ParseInt(r.headers["x-ratelimit-limit"])
      && info.value.remaining == ParseInt(r.headers["x-ratelimit-remaining"])
      && info.value.reset == ParseInt(r.headers["x-ratelimit-reset"])
      && (info.value.scope.Some? <==> Present(HeaderValue(r, "x-ratelimit-scope")))
      && (info.value.scope.Some? ==> info.value.scope.value == r.headers["x-ratelimit-scope"])
  {
    var limit := HeaderValue(r, "x-ratelimit-limit");
    var remaining := HeaderValue(r, "x-ratelimit-remaining");
    var reset := HeaderValue(r, "x-ratelimit-reset");
    var resetAfter := HeaderValue(r, "x-ratelimit-reset-after");
    var bucket := HeaderValue(r, "x-ratelimit-bucket");
    var scope := HeaderValue(r, "x-ratelimit-scope");
    if !Present(limit) || !Present(remaining) || !Present(reset) || !Present(resetAfter) || !Present(bucket) then None
    else Some(RateLimitInfo(
      ParseInt(limit.value), ParseInt(remaining.value), ParseInt(reset.value),
      resetAfter.value, bucket.value,
      if Present(scope) then scope else None))
  }

  // ------------------------------------------------------------ invite cache

  const CacheTtl: int := 60000
  const CacheCapacity: int := 1000

  datatype CacheEntry = CacheEntry(data: Json, timestamp: int)

  /** An entry is kept until its age is strictly over the TTL. */
  predicate IsFresh(e: CacheEntry, now: int) {
    now - e.timestamp <= CacheTtl
  }

  /** What `getCachedInvite(code)` returns at clock `now`. */
  function Lookup(cache: map<string, CacheEntry>, code: string, now: int): (r: Option<Json>)
    ensures r.Some? <==> code in cache && IsFresh(cache[code], now)
    ensures r.Some? ==> r.value == cache[code].data
  {
    if code in cache && IsFresh(cache[code], now) then Some(cache[code].data) else None
  }

  /** The cache after `getCachedInvite(code)`: a stale entry for `code` is deleted, nothing else changes. */
  function AfterLookup(cache: map<string, CacheEntry>, code: string, now: int): (c: map<string, CacheEntry>)
    ensures c.Keys <= cache.Keys
    ensures forall k :: k in c ==> c[k] == cache[k]
    ensures forall k :: k in cache && k != code ==> k in c
    ensures code in c <==> code in cache && IsFresh(cache[code], now)
  {
    if code in cache && !IsFresh(cache[code], now) then cache - {code} else cache
  }

  /** The entries that survive a sweep at clock `now`. */
  function FreshEntries(cache: map<string, CacheEntry>, now: int): (c: map<string, CacheEntry>)
    ensures forall k :: k in c <==> k in cache && IsFresh(cache[k], now)
    ensures forall k :: k in c ==> c[k] == cache[k]
  {
    map k | k in cache && IsFresh(cache[k], now) :: cache[k]
  }

  /** The cache after `setCachedInvite(code, data)` at clock `now`. */
  function AfterStore(cache: map<string, CacheEntry>, code: string, data: Json, now: int): (c: map<string, CacheEntry>)
    ensures code in c && c[code] == CacheEntry(data, now)
    ensures forall k :: k in c && k != code ==> k in cache && c[k] == cache[k]
    ensures forall k :: k in cache && k != code && IsFresh(cache[k], now) ==> k in c
    ensures |cache[code := CacheEntry(data, now)]| <= CacheCapacity ==> c == cache[code := CacheEntry(data, now)]
    ensures |cache[code := CacheEntry(data, now)]| > CacheCapacity ==>
      forall k :: k in cache && k != code && !IsFresh(cache[k], now) ==> k !in c
  {
    var stored := cache[code := CacheEntry(data, now)];
    if |stored| > CacheCapacity then FreshEntries(stored, now) else stored
  }

  /** A stored invite is served back unchanged for one TTL after it was stored. */
  lemma StoredInviteIsServed(cache: map<string, CacheEntry>, code: string, data: Json, now: int, later: int)
    requires now <= later <= now + CacheTtl
    ensures Lookup(AfterStore(cache, code, data, now), code, later) == Some(data)
  {
  }

  /** Past one TTL the stored invite misses, and the miss deletes it. */
  lemma StoredInviteExpires(cache: map<string, CacheEntry>, code: string, data: Json, now: int, later: int)
    requires later > now + CacheTtl
    ensures Lookup(AfterStore(cache, code, data, now), code, later).None?
    ensures code !in AfterLookup(AfterStore(cache, code, data, now), code, later)
  {
  }

  /** The sweep after a store of `code` deletes only expired entries, and when none are expired it deletes nothing. */
  lemma SweepKeepsFreshEntries(cache: map<string, CacheEntry>, code: string, data: Json, now: int)
    requires forall k :: k in cache ==> IsFresh(cache[k], now)
    ensures AfterStore(cache, code, data, now) == cache[code := CacheEntry(data, now)]
  {
    var stored := cache[code := CacheEntry(data, now)];
    assert FreshEntries(stored, now) == stored;
  }

  /** The entries of `cache` whose key was visited by the sweep loop have been tested against the TTL. */
  function Swept(cache: map<string, CacheEntry>, visited: set<string>, now: int): map<string, CacheEntry> {
    map k | k in cache && (k in visited ==> IsFresh(cache[k], now)) :: cache[k]
  }

  // ------------------------------------------------------------ invite lookup

  /** The value `checkInvite` returns for an upstream 404. */
  function UnknownInvite(code: string): Json {
    JObj(map["message" := JStr("Unknown Invite"), "code" := JStr(code)])
  }

  /** The error thrown for an upstream 429; a missing `Retry-After` header renders as "null". */
  function RateLimitedMessage(retryAfter: Option<string>): (m: string)
    ensures StartsWith(m, "Rate limited")
  {
    "Rate limited. Retry after " + (if retryAfter.Some? then retryAfter.value else "null") + " seconds"
  }

  /** `new Error(data.message || \`Failed to fetch invite: ${status}\`).message`. */
  function InviteFailureMessage(data: Json, status: int): string {
    if TruthyValue(Get(data, "message")) then ToJsString(Get(data, "message").value)
    else "Failed to fetch invite: " + IntToString(status)
  }

  /** `checkInvite(code)` after a cache miss: the headers, the upstream reply and its classification. */
  function FetchInvite(code: string, token: Option<string>, reply: Response): (r: Result<Json, string>)
    ensures !Configured(token) ==> r == Failure(MissingToken)
    ensures Configured(token) && reply.status == 429 ==>
      r == Failure(RateLimitedMessage(HeaderValue(reply, "retry-after")))
    ensures Configured(token) && reply.status == 404 ==> r == Success(UnknownInvite(code))
    ensures Configured(token) && IsOk(reply.status) && reply.body.Parsed? ==> r == Success(reply.body.value)
    ensures Configured(token) && reply.status != 404 && reply.status != 429 && !IsOk(reply.status) ==> r.Failure?
  {
    if GetDiscordHeaders(token).Failure? then Failure(MissingToken)
    else if reply.status == 429 then Failure(RateLimitedMessage(HeaderValue(reply, "retry-after")))
    else if reply.status == 404 then Success(UnknownInvite(code))
    else match reply.body
      case Unparsable(e) => Failure(e)
      case Parsed(data) =>
        if !IsOk(reply.status) then Failure(InviteFailureMessage(data, reply.status)) else Success(data)
  }

  /** Only a 2xx reply whose body parses is stored in the cache. */
  predicate Cacheable(token: Option<string>, reply: Response) {
    Configured(token) && IsOk(reply.status) && reply.body.Parsed?
  }

  // ------------------------------------------------------------ user lookup

  /** The normalised `DiscordUser`; `None` is a property the upstream body did not have. */
  datatype DiscordUser = DiscordUser(
    id: Option<Json>,
    username: Option<Json>,
    avatar: Option<Json>,
    banner: Option<Json>,
    accentColor: Json,
    flags: Json,
    bot: bool,
    verified: bool)

  /** The user record as serialised into a response body. */
  function UserToJson(u: DiscordUser): (j: Json)
    ensures j.JObj?
    ensures "accentColor" in j.fields && "flags" in j.fields && "bot" in j.fields && "verified" in j.fields
    ensures j.fields["bot"] == JBool(u.bot) && j.fields["verified"] == JBool(u.verified)
  {
    var always := map["accentColor" := u.accentColor, "flags" := u.flags,
                      "bot" := JBool(u.bot), "verified" := JBool(u.verified)];
    JObj(SetField(SetField(SetField(SetField(always, "id", u.id), "username", u.username),
                           "avatar", u.avatar), "banner", u.banner))
  }

  /** The transformation at the end of `lookupUser`: snake_case to camelCase with defaults. */
  function NormaliseUser(data: Json): (u: DiscordUser)
    ensures u.accentColor == JNull <==> Get(data, "accent_color") == None || Get(data, "accent_color") == Some(JNull)
    ensures u.accentColor != JNull ==> Get(data, "accent_color") == Some(u.accentColor)
    ensures u.flags == JNum(0) || Get(data, "flags") == Some(u.flags)
    ensures Get(data, "flags") == None || Get(data, "flags") == Some(JNull) ==> u.flags == JNum(0)
    ensures u.flags != JNull
    ensures Get(data, "flags").Some? && Get(data, "flags").value != JNull ==> u.flags == Get(data, "flags").value
    ensures u.bot <==> TruthyValue(Get(data, "bot"))
    ensures u.verified <==> TruthyValue(Get(data, "verified"))
    ensures u.id == Get(data, "id") && u.username == Get(data, "username")
    ensures u.avatar == Get(data, "avatar") && u.banner == Get(data, "banner")
  {
    DiscordUser(
      Get(data, "id"), Get(data, "username"), Get(data, "avatar"), Get(data, "banner"),
      Coalesce(Get(data, "accent_color"), JNull),
      Coalesce(Get(data, "flags"), JNum(0)),
      TruthyValue(Get(data, "bot")),
      TruthyValue(Get(data, "verified")))
  }

  /**
   * Stands in for the error thrown by reading `data.id` when Discord's body
   * is JSON `null`; only its not mentioning "Rate limited" or "404" matters.
   */
  const NullUserRead := "TypeError: Cannot read properties of null"

  /** `lookupUser(id)` with the token and the upstream reply passed in. */
  function LookupUser(token: Option<string>, reply: Response): (r: Result<DiscordUser, string>)
    ensures !Configured(token) ==> r == Failure(MissingToken)
    ensures Configured(token) && reply.status == 429 ==>
      r == Failure(RateLimitedMessage(HeaderValue(reply, "retry-after")))
    ensures Configured(token) && reply.status == 404 ==> r == Failure("404: User not found")
    ensures Configured(token) && reply.status != 429 && !IsOk(reply.status) && reply.status != 404 ==>
      r == Failure("Failed to fetch user: " + IntToString(reply.status))
    ensures r.Success? <==> Configured(token) && IsOk(reply.status) && reply.body.Parsed? && reply.body.value != JNull
    ensures r.Success? ==> r.value == NormaliseUser(reply.body.value)
    ensures Configured(token) && IsOk(reply.status) && reply.body == Parsed(JNull) ==> r == Failure(NullUserRead)
  {
    if GetDiscordHeaders(token).Failure? then Failure(MissingToken)
    else if reply.status == 429 then Failure(RateLimitedMessage(HeaderValue(reply, "retry-after")))
    else if !IsOk(reply.status) then
      if reply.status == 404 then Failure("404: User not found")
      else Failure("Failed to fetch user: " + IntToString(reply.status))
    else match reply.body
      case Unparsable(e) => Failure(e)
      case Parsed(data) => if data == JNull then Failure(NullUserRead) else Success(NormaliseUser(data))
  }

  /** The service's invite cache, the module-level `inviteCache` map of the source. */
  class DiscordService {
    var inviteCache: map<string, CacheEntry>

    constructor ()
      ensures inviteCache == map[]
    {
      inviteCache := map[];
    }

    /** `getCachedInvite(code)` at clock `now`. */
    method GetCachedInvite(code: string, now: int) returns (r: Option<Json>)
      modifies this
      ensures r == Lookup(old(inviteCache), code, now)
      ensures inviteCache == AfterLookup(old(inviteCache), code, now)
    {
      if code !in inviteCache {
        return None;
      }
      var cached := inviteCache[code];
      if now - cached.timestamp > CacheTtl {
        inviteCache := inviteCache - {code};
        return None;
      }
      r := Some(cached.data);
    }

    /** `setCachedInvite(code, data)` at clock `now`, with the oversize sweep. */
    method SetCachedInvite(code: string, data: Json, now: int)
      modifies this
      ensures inviteCache == AfterStore(old(inviteCache), code, data, now)
    {
      inviteCache := inviteCache[code := CacheEntry(data, now)];
      if |inviteCache| > CacheCapacity {
        ghost var stored := inviteCache;
        var pending := inviteCache.Keys;
        while pending != {}
          invariant pending <= stored.Keys
          invariant inviteCache == Swept(stored, stored.Keys - pending, now)
          decreases pending
        {
          var key :| key in pending;
          if now - inviteCache[key].timestamp > CacheTtl {
            inviteCache := inviteCache - {key};
          }
          pending := pending - {key};
        }
        assert inviteCache == FreshEntries(stored, now);
      }
    }

    /**
     * `checkInvite(code)` at clock `now`. A cache hit returns the cached body
     * without a request; otherwise the upstream reply is classified, and only
     * a 2xx body is stored. `fetched` says whether the request was issued.
     */
    method CheckInvite(code: string, now: int, token: Option<string>, reply: Response)
      returns (r: Result<Json, string>, fetched: bool)
      modifies this
      ensures var hit := Lookup(old(inviteCache), code, now);
        if hit.Some? && Truthy(hit.value) then
          r == Success(hit.value) && !fetched && inviteCache == old(inviteCache)
        else
          && r == FetchInvite(code, token, reply)
          && fetched == Configured(token)
          && inviteCache == (if Cacheable(token, reply)
                             then AfterStore(AfterLookup(old(inviteCache), code, now), code, reply.body.value, now)
                             else AfterLookup(old(inviteCache), code, now))
    {
      var cached := GetCachedInvite(code, now);
      if cached.Some? && Truthy(cached.value) {
        return Success(cached.value), false;
      }
      r := FetchInvite(code, token, reply);
      fetched := Configured(token);
      if Cacheable(token, reply) {
        SetCachedInvite(code, reply.body.value, now);
      }
    }
  }
}
