/**
 * server/middleware/rate-limit.ts: a fixed-window request limiter. Each key
 * owns a window `{count, resetTime}`; a request opens a fresh window when
 * the key has none or its window has ended, is counted (even when it is then
 * refused), and is refused with a 429 once the count exceeds `max`.
 */
module RateLimit {
  import opened Wrappers

  const DefaultMessage := "Too many requests, please try again later"
  const DefaultStatusCode := 429
  const DefaultKeyName := "default"

  /** The source's `RateLimitInfo`: one key's window. */
  datatype Window = Window(count: nat, resetTime: int)

  /** The exception the middleware throws: always an `HTTPException(429)` carrying the configured message. */
  datatype Rejection = Rejection(status: int, message: string)

  /**
   * What the middleware does to one request: the `X-RateLimit-*` headers it
   * sets, the `Retry-After` header and rejection when it refuses the request.
   */
  datatype Outcome = Outcome(limit: int, remaining: int, reset: int, retryAfter: Option<int>, rejection: Option<Rejection>)

  /** `Math.ceil(a / b)` for a positive divisor. */
  function CeilDiv(a: int, b: int): (q: int)
    requires b > 0
    ensures (q - 1) * b < a <= q * b
  {
    -((-a) / b)
  }

  /** The default key generator: `x-forwarded-for || 'default'`. */
  function DefaultKey(forwardedFor: Option<string>): (k: string)
    ensures forwardedFor.Some? && forwardedFor.value != "" ==> k == forwardedFor.value
    ensures (forwardedFor.None? || forwardedFor.value == "") ==> k == DefaultKeyName
    ensures k != ""
  {
    if forwardedFor.Some? && forwardedFor.value != "" then forwardedFor.value else DefaultKeyName
  }

  /** The window the request at `now` is counted in, before the increment. */
  function Current(store: map<string, Window>, key: string, now: int, windowMs: int): (w: Window)
    ensures (key !in store || now >= store[key].resetTime) ==> w == Window(0, now + windowMs)
    ensures key in store && now < store[key].resetTime ==> w == store[key]
    ensures windowMs > 0 ==> now < w.resetTime
  {
    if key !in store || now >= store[key].resetTime then Window(0, now + windowMs) else store[key]
  }

  /** The store after the request at `now` is counted: only `key`'s window changes. */
  function Record(store: map<string, Window>, key: string, now: int, windowMs: int): (s: map<string, Window>)
    ensures key in s && s[key].count == Current(store, key, now, windowMs).count + 1
    ensures s[key].resetTime == Current(store, key, now, windowMs).resetTime
    ensures forall k :: k != key ==> (k in s <==> k in store) && (k in s ==> s[k] == store[k])
  {
    var w := Current(store, key, now, windowMs);
    store[key := Window(w.count + 1, w.resetTime)]
  }

  /** The headers and verdict for a request counted into window `w` (after the increment). */
  function Decide(w: Window, max: int, now: int, message: string): (o: Outcome)
    ensures o.limit == max && o.reset == CeilDiv(w.resetTime, 1000)
    ensures o.remaining >= 0
    ensures w.count <= max ==> o.remaining == max - w.count
    ensures w.count > max ==> o.remaining == 0
    ensures o.rejection.Some? <==> w.count > max
    ensures o.rejection.Some? ==> o.rejection.value == Rejection(DefaultStatusCode, message)
    ensures o.retryAfter.Some? <==> o.rejection.Some?
    ensures o.retryAfter.Some? && now < w.resetTime ==> o.retryAfter.value >= 1
    ensures o.retryAfter.Some? ==> (o.retryAfter.value - 1) * 1000 < w.resetTime - now <= o.retryAfter.value * 1000
  {
    var remaining := if max - w.count > 0 then max - w.count else 0;
    if w.count > max then
      Outcome(max, remaining, CeilDiv(w.resetTime, 1000), Some(CeilDiv(w.resetTime - now, 1000)),
              Some(Rejection(DefaultStatusCode, message)))
    else
      Outcome(max, remaining, CeilDiv(w.resetTime, 1000), None, None)
  }

  /** The windows still running at `now`: what `cleanup` keeps. */
  function Unexpired(store: map<string, Window>, now: int): (s: map<string, Window>)
    ensures forall k :: k in s <==> k in store && now < store[k].resetTime
    ensures forall k :: k in s ==> s[k] == store[k]
  {
    map k | k in store && now < store[k].resetTime :: store[k]
  }

  /** The store part-way through `cleanup`: the visited keys have been tested. */
  function Cleaned(store: map<string, Window>, visited: set<string>, now: int): map<string, Window> {
    map k | k in store && (k in visited ==> now < store[k].resetTime) :: store[k]
  }

  /** The store after requests for `key` at the clocks in `times`, in order. */
  function Run(store: map<string, Window>, key: string, times: seq<int>, windowMs: int): map<string, Window>
    decreases |times|
  {
    if times == [] then store else Run(Record(store, key, times[0], windowMs), key, times[1..], windowMs)
  }

  /** Requests that all arrive before the window ends keep it and add one each to its count. */
  lemma {:induction false} RunWithinWindow(store: map<string, Window>, key: string, times: seq<int>, windowMs: int)
    requires key in store
    requires forall i :: 0 <= i < |times| ==> times[i] < store[key].resetTime
    ensures key in Run(store, key, times, windowMs)
    ensures Run(store, key, times, windowMs)[key] == Window(store[key].count + |times|, store[key].resetTime)
    decreases |times|
  {
    if times != [] {
      var next := Record(store, key, times[0], windowMs);
      assert next[key] == Window(store[key].count + 1, store[key].resetTime);
      assert forall i :: 0 <= i < |times[1..]| ==> times[1..][i] == times[i + 1];
      RunWithinWindow(next, key, times[1..], windowMs);
    }
  }

  /**
   * A burst for one key that opens a fresh window at `times[0]` and stays
   * inside it: after the n-th request the window holds count n, so the n-th
   * request passes exactly when n <= max.
   */
  lemma Burst(store: map<string, Window>, key: string, times: seq<int>, windowMs: int, max: int, message: string, n: nat)
    requires windowMs > 0 && 1 <= n <= |times|
    requires key !in store || times[0] >= store[key].resetTime
    requires forall i :: 0 <= i < |times| ==> times[i] < times[0] + windowMs
    ensures key in Run(store, key, times[..n], windowMs)
    ensures Run(store, key, times[..n], windowMs)[key] == Window(n, times[0] + windowMs)
    ensures Decide(Run(store, key, times[..n], windowMs)[key], max, times[n - 1], message).rejection.None? <==> n <= max
  {
    var prefix := times[..n];
    var first := Record(store, key, times[0], windowMs);
    assert first[key] == Window(1, times[0] + windowMs);
    assert forall i :: 0 <= i < |prefix[1..]| ==> prefix[1..][i] == times[i + 1];
    RunWithinWindow(first, key, prefix[1..], windowMs);
    assert Run(store, key, prefix, windowMs) == Run(first, key, prefix[1..], windowMs);
  }

  /** The limiter, with its per-key store and its options after the constructor's defaults. */
  class RateLimiter {
    var store: map<string, Window>
    const windowMs: int
    const max: int
    const message: string
    /** `options.statusCode || 429`; the middleware never reads it. */
    const statusCode: int

    /** `new RateLimiter(options)`: an empty store, `message || default`, `statusCode || 429`. */
    constructor (windowMs: int, max: int, message: Option<string>, statusCode: Option<int>)
      ensures store == map[]
      ensures this.windowMs == windowMs && this.max == max
      ensures this.message == if message.Some? && message.value != "" then message.value else DefaultMessage
      ensures this.statusCode == if statusCode.Some? && statusCode.value != 0 then statusCode.value else DefaultStatusCode
    {
      store := map[];
      this.windowMs := windowMs;
      this.max := max;
      this.message := if message.Some? && message.value != "" then message.value else DefaultMessage;
      this.statusCode := if statusCode.Some? && statusCode.value != 0 then statusCode.value else DefaultStatusCode;
    }

    /** `cleanup()` at clock `now`: delete every window that has ended. */
    method Cleanup(now: int)
      modifies this
      ensures store == Unexpired(old(store), now)
    {
      ghost var start := store;
      var pending := store.Keys;
      while pending != {}
        invariant pending <= start.Keys
        invariant store == Cleaned(start, start.Keys - pending, now)
        decreases pending
      {
        var key :| key in pending;
        if now >= store[key].resetTime {
          store := store - {key};
        }
        pending := pending - {key};
      }
      assert store == Unexpired(start, now);
    }

    /** The middleware step for a request whose generated key is `key`, at clock `now`. */
    method Handle(key: string, now: int) returns (o: Outcome)
      modifies this
      ensures store == Record(old(store), key, now, windowMs)
      ensures o == Decide(store[key], max, now, message)
    {
      var info: Window;
      if key !in store || now >= store[key].resetTime {
        info := Window(0, now + windowMs);
      } else {
        info := store[key];
      }
      info := info.(count := info.count + 1);
      store := store[key := info];
      var remaining := if max - info.count > 0 then max - info.count else 0;
      var reset := CeilDiv(info.resetTime, 1000);
      if info.count > max {
        var retryAfter := CeilDiv(info.resetTime - now, 1000);
        return Outcome(max, remaining, reset, Some(retryAfter), Some(Rejection(DefaultStatusCode, message)));
      }
      o := Outcome(max, remaining, reset, None, None);
    }
  }
}
