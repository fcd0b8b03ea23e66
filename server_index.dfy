/**
 * server/index.ts: the HTTP server's own request limiter (five requests per
 * client per five seconds, in-memory store) and its not-found and error
 * envelopes.
 */
module ServerIndex {
  import opened Wrappers
  import opened Json
  import opened Http

  const WindowMs := 5000
  const MaxRequests := 5
  const KeyPrefix := "ratelimit:"
  const TooMany := "Too many requests. Please try again later."

  /** One client's entry in `memoryStore`. */
  datatype Counter = Counter(count: nat, timestamp: int)

  /** The 429 body; `retryAfterMs` is `retryAfter` in milliseconds rather than fractional seconds. */
  datatype LimitBody = LimitBody(error: string, available: bool, guild: Option<Json>, retryAfterMs: int)

  /** A header value as the `||` chain sees it: present and non-empty. */
  predicate Given(h: Option<string>) {
    h.Some? && h.value != ""
  }

  /** `cf-connecting-ip || x-forwarded-for || 'unknown'`, prefixed with "ratelimit:". */
  function ClientKey(cfConnectingIp: Option<string>, forwardedFor: Option<string>): (k: string)
    ensures Given(cfConnectingIp) ==> k == KeyPrefix + cfConnectingIp.value
    ensures !Given(cfConnectingIp) && Given(forwardedFor) ==> k == KeyPrefix + forwardedFor.value
    ensures !Given(cfConnectingIp) && !Given(forwardedFor) ==> k == KeyPrefix + "unknown"
    ensures |k| > |KeyPrefix| && k[..|KeyPrefix|] == KeyPrefix
  {
    var ip := if Given(cfConnectingIp) then cfConnectingIp.value
              else if Given(forwardedFor) then forwardedFor.value
              else "unknown";
    KeyPrefix + ip
  }

  /** The entry the request at `now` is judged by: a missing entry is `{0, now}`, and a stale one restarts. */
  function Current(store: map<string, Counter>, key: string, now: int): (c: Counter)
    ensures key !in store ==> c == Counter(0, now)
    ensures key in store && now - store[key].timestamp > WindowMs ==> c == Counter(0, now)
    ensures key in store && now - store[key].timestamp <= WindowMs ==> c == store[key]
    ensures now - c.timestamp <= WindowMs
  {
    var c := if key in store then store[key] else Counter(0, now);
    if now - c.timestamp > WindowMs then Counter(0, now) else c
  }

  /** The 429 reply when the current entry is full, or `None` when the request is passed on. */
  function Verdict(store: map<string, Counter>, key: string, now: int): (r: Option<Reply<LimitBody>>)
    ensures r.Some? <==> Current(store, key, now).count >= MaxRequests
    ensures r.Some? ==> r.value.status == 429 && !r.value.body.available && r.value.body.guild.None?
    ensures r.Some? ==> r.value.body.error == TooMany
    ensures r.Some? ==> r.value.body.retryAfterMs == Current(store, key, now).timestamp + WindowMs - now
    ensures r.Some? ==> r.value.body.retryAfterMs >= 0
    ensures r.Some? && Current(store, key, now).timestamp <= now ==> r.value.body.retryAfterMs <= WindowMs
  {
    var c := Current(store, key, now);
    if c.count >= MaxRequests then
      Some(Reply(429, LimitBody(TooMany, false, None, c.timestamp + WindowMs - now)))
    else
      None
  }

  /** The store after the request: unchanged when refused, otherwise the current entry counted once more. */
  function AfterRequest(store: map<string, Counter>, key: string, now: int): (s: map<string, Counter>)
    ensures Current(store, key, now).count >= MaxRequests ==> s == store
    ensures Current(store, key, now).count < MaxRequests ==>
      s == store[key := Current(store, key, now).(count := Current(store, key, now).count + 1)]
  {
    var c := Current(store, key, now);
    if c.count >= MaxRequests then store else store[key := c.(count := c.count + 1)]
  }

  /** Every stored count is between 1 and the limit. */
  predicate Bounded(store: map<string, Counter>) {
    forall k :: k in store ==> 1 <= store[k].count <= MaxRequests
  }

  /** Requests never push a stored count past the limit. */
  lemma AfterRequestStaysBounded(store: map<string, Counter>, key: string, now: int)
    requires Bounded(store)
    ensures Bounded(AfterRequest(store, key, now))
  {
    var c := Current(store, key, now);
    assert c.count <= MaxRequests;
  }

  /** The store after requests for `key` at the clocks in `times`, in order. */
  function Run(store: map<string, Counter>, key: string, times: seq<int>): map<string, Counter>
    decreases |times|
  {
    if times == [] then store else Run(AfterRequest(store, key, times[0]), key, times[1..])
  }

  /** Inside one window started at `start`, each request adds one to the count until it is full. */
  lemma {:induction false} RunInsideWindow(store: map<string, Counter>, key: string, times: seq<int>, start: int)
    requires key in store && store[key].timestamp == start && store[key].count <= MaxRequests
    requires forall i :: 0 <= i < |times| ==> times[i] - start <= WindowMs
    ensures key in Run(store, key, times)
    ensures Run(store, key, times)[key]
      == Counter(if store[key].count + |times| < MaxRequests then store[key].count + |times| else MaxRequests, start)
    decreases |times|
  {
    if times != [] {
      var next := AfterRequest(store, key, times[0]);
      assert forall i :: 0 <= i < |times[1..]| ==> times[1..][i] == times[i + 1];
      RunInsideWindow(next, key, times[1..], start);
    }
  }

  /**
   * A client with no entry, or a stale one, that sends requests inside the
   * five seconds after its first: the first five pass and every later one is
   * refused.
   */
  lemma FiveThenRefused(store: map<string, Counter>, key: string, times: seq<int>, n: nat)
    requires |times| > 0 && n < |times|
    requires key !in store || times[0] - store[key].timestamp > WindowMs
    requires forall i :: 0 <= i < |times| ==> 0 <= times[i] - times[0] <= WindowMs
    ensures Verdict(Run(store, key, times[..n]), key, times[n]).Some? <==> n >= MaxRequests
  {
    if n > 0 {
      var first := AfterRequest(store, key, times[0]);
      assert first[key] == Counter(1, times[0]);
      var rest := times[..n][1..];
      assert forall i :: 0 <= i < |rest| ==> rest[i] == times[i + 1];
      RunInsideWindow(first, key, rest, times[0]);
      assert Run(store, key, times[..n]) == Run(first, key, rest);
    }
  }

  /** `app.notFound`: a 404 with `{error: 'Not found'}`. */
  function NotFound(): (r: Reply<Json>)
    ensures r.status == 404 && Get(r.body, "error") == Some(JStr("Not found"))
  {
    Reply(404, JObj(map["error" := JStr("Not found")]))
  }

  /** `app.onError(err)`: a 500 with the fixed error and the thrown message. */
  function OnError(message: string): (r: Reply<Json>)
    ensures r.status == 500 && Get(r.body, "error") == Some(JStr("Internal server error"))
    ensures Get(r.body, "message") == Some(JStr(message))
  {
    Reply(500, JObj(map["error" := JStr("Internal server error"), "message" := JStr(message)]))
  }

  /** The development-mode limiter over the module-level `memoryStore`. */
  class MemoryRateLimiter {
    var memoryStore: map<string, Counter>

    predicate Valid()
      reads this
    {
      Bounded(memoryStore)
    }

    constructor ()
      ensures Valid() && memoryStore == map[]
    {
      memoryStore := map[];
    }

    /**
     * `rateLimiter(c, next)` at clock `now`: the 429 reply, or `None` when
     * the request is passed to `next`.
     */
    method Limit(cfConnectingIp: Option<string>, forwardedFor: Option<string>, now: int)
      returns (r: Option<Reply<LimitBody>>)
      requires Valid()
      modifies this
      ensures Valid()
      ensures r == Verdict(old(memoryStore), ClientKey(cfConnectingIp, forwardedFor), now)
      ensures memoryStore == AfterRequest(old(memoryStore), ClientKey(cfConnectingIp, forwardedFor), now)
    {
      var key := KeyPrefix + (if Given(cfConnectingIp) then cfConnectingIp.value
                              else if Given(forwardedFor) then forwardedFor.value
                              else "unknown");
      var current := if key in memoryStore then memoryStore[key] else Counter(0, now);
      if now - current.timestamp > WindowMs {
        current := Counter(0, now);
      }
      if current.count >= MaxRequests {
        return Some(Reply(429, LimitBody(TooMany, false, None, current.timestamp + WindowMs - now)));
      }
      current := current.(count := current.count + 1);
      memoryStore := memoryStore[key := current];
      AfterRequestStaysBounded(old(memoryStore), key, now);
      r := None;
    }
  }
}
