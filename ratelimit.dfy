/** The fixed-window rate limiter
    (services/ai-orchestrator/src/middleware/rateLimit.ts): one counter per
    client key, in integer milliseconds. The table of counters is shared by
    every handler the module creates. */
module RateLimit {
  import opened Js

  const DefaultWindowMs := 60000
  const DefaultMax := 30

  /** A key's window: requests counted so far, and when the window ends. */
  datatype Entry = Entry(count: int, resetAt: int)

  /** What the handler does with a request: hand it on (`next()`), or answer
      429 with a `Retry-After` in seconds. */
  datatype Verdict = Next | TooMany(retryAfter: int)

  /** `opts?.windowMs ?? Number(process.env.RATE_LIMIT_WINDOW_MS || 60000)`,
      the variable given as its numeric value when set and non-empty. */
  function WindowMs(option: Option<int>, env: Option<int>): int {
    if option.Some? then option.value else if env.Some? then env.value else DefaultWindowMs
  }

  /** `opts?.max ?? Number(process.env.RATE_LIMIT_MAX || 30)`. */
  function Max(option: Option<int>, env: Option<int>): int {
    if option.Some? then option.value else if env.Some? then env.value else DefaultMax
  }

  /** An explicit option wins, even 0; the environment comes next; then the
      defaults of 60 s and 30 requests. */
  lemma Settings(option: Option<int>, env: Option<int>)
    ensures option.Some? ==> WindowMs(option, env) == option.value && Max(option, env) == option.value
    ensures option.None? && env.Some? ==> WindowMs(option, env) == env.value && Max(option, env) == env.value
    ensures WindowMs(None, None) == 60000 && Max(None, None) == 30
  {
  }

  /** `req.ip || req.headers['x-forwarded-for'] || 'unknown'`. */
  function ClientKey(ip: string, forwarded: Option<string>): (key: string)
    ensures ip != "" ==> key == ip
    ensures ip == "" && forwarded.Some? && forwarded.value != "" ==> key == forwarded.value
    ensures key != ""
  {
    if ip != "" then ip else if forwarded.Some? && forwarded.value != "" then forwarded.value else "unknown"
  }

  /** The window a request at `now` is counted in: the key's entry, or a
      fresh one when there is none or `now` is strictly past its end. */
  function Window(buckets: map<string, Entry>, key: string, now: int, windowMs: int): (e: Entry)
    ensures key in buckets && now <= buckets[key].resetAt ==> e == buckets[key]
    ensures key !in buckets || now > buckets[key].resetAt ==> e == Entry(0, now + windowMs)
  {
    if key !in buckets || now > buckets[key].resetAt then Entry(0, now + windowMs) else buckets[key]
  }

  /** `Math.max(1, Math.ceil((resetAt - now) / 1000))`. */
  function RetryAfter(resetAt: int, now: int): (seconds: int)
    ensures seconds >= 1
    ensures resetAt - now > 0 ==> (seconds - 1) * 1000 < resetAt - now <= seconds * 1000
    ensures resetAt - now <= 0 ==> seconds == 1
  {
    var ceiling := (resetAt - now + 999) / 1000;
    if ceiling < 1 then 1 else ceiling
  }

  /** The table and the verdict after one request. */
  datatype Decision = Decision(buckets: map<string, Entry>, verdict: Verdict)

  /** One request from `key` at `now`: it passes exactly when its window
      holds fewer than `max`, and then counts one more; a refused request
      keeps the window (fresh or not) with its count. No other key is read
      or written. */
  function Admit(buckets: map<string, Entry>, key: string, now: int, windowMs: int, max: int): (d: Decision)
    ensures var e := Window(buckets, key, now, windowMs);
      && key in d.buckets && d.buckets.Keys == buckets.Keys + {key}
      && (forall k :: k in buckets && k != key ==> d.buckets[k] == buckets[k])
      && d.buckets[key].resetAt == e.resetAt
      && (d.verdict.Next? <==> e.count < max)
      && (d.verdict.Next? ==> d.buckets[key].count == e.count + 1)
      && (d.verdict.TooMany? ==> d.buckets[key].count == e.count && d.verdict.retryAfter == RetryAfter(e.resetAt, now))
  {
    var e := Window(buckets, key, now, windowMs);
    if e.count >= max then Decision(buckets[key := e], TooMany(RetryAfter(e.resetAt, now)))
    else Decision(buckets[key := Entry(e.count + 1, e.resetAt)], Next)
  }

  /** A request exactly at the end of the window is still counted in it. */
  lemma NoResetAtBoundary(buckets: map<string, Entry>, key: string, windowMs: int)
    requires key in buckets
    ensures Window(buckets, key, buckets[key].resetAt, windowMs) == buckets[key]
    ensures Window(buckets, key, buckets[key].resetAt + 1, windowMs) == Entry(0, buckets[key].resetAt + 1 + windowMs)
  {
  }

  /** Requests from one key at the given times, one after another: how many
      pass. */
  function Passes(buckets: map<string, Entry>, key: string, times: seq<int>, windowMs: int, max: int): (n: nat)
    ensures n <= |times|
    decreases |times|
  {
    if |times| == 0 then 0
    else
      var d := Admit(buckets, key, times[0], windowMs, max);
      (if d.verdict.Next? then 1 else 0) + Passes(d.buckets, key, times[1..], windowMs, max)
  }

  /** While no request comes after the window ends, at most `max` minus the
      count so far pass. */
  lemma {:induction false} WindowCap(buckets: map<string, Entry>, key: string, times: seq<int>, windowMs: int, max: int)
    requires key in buckets && buckets[key].count >= 0
    requires forall i :: 0 <= i < |times| ==> times[i] <= buckets[key].resetAt
    ensures Passes(buckets, key, times, windowMs, max) <= if max > buckets[key].count then max - buckets[key].count else 0
    decreases |times|
  {
    if |times| > 0 {
      var d := Admit(buckets, key, times[0], windowMs, max);
      assert Window(buckets, key, times[0], windowMs) == buckets[key];
      WindowCap(d.buckets, key, times[1..], windowMs, max);
    }
  }

  /** A window opened by a request at `start` lets at most `max` requests of
      its key through, however many arrive before it ends. */
  lemma AtMostMaxPerWindow(buckets: map<string, Entry>, key: string, start: int, times: seq<int>, windowMs: int, max: int)
    requires key !in buckets || start > buckets[key].resetAt
    requires forall i :: 0 <= i < |times| ==> times[i] <= start + windowMs
    ensures Passes(buckets, key, [start] + times, windowMs, max) <= if max > 0 then max else 0
  {
    var d := Admit(buckets, key, start, windowMs, max);
    assert ([start] + times)[1..] == times;
    WindowCap(d.buckets, key, times, windowMs, max);
  }

  /** The module's `buckets` map, shared by every handler. */
  class Buckets {
    var entries: map<string, Entry>

    constructor ()
      ensures entries == map[]
    {
      entries := map[];
    }
  }

  /** The handler `rateLimit(opts)` returns, with its settings. */
  class Limiter {
    const windowMs: int
    const max: int
    const buckets: Buckets

    constructor (buckets: Buckets, windowOption: Option<int>, maxOption: Option<int>, windowEnv: Option<int>, maxEnv: Option<int>)
      ensures this.buckets == buckets
      ensures windowMs == WindowMs(windowOption, windowEnv) && max == Max(maxOption, maxEnv)
    {
      this.buckets := buckets;
      windowMs := WindowMs(windowOption, windowEnv);
      max := Max(maxOption, maxEnv);
    }

    /** The handler on a request from `ip` / `x-forwarded-for` at `now`. */
    method Handle(ip: string, forwarded: Option<string>, now: int) returns (v: Verdict)
      modifies buckets
      ensures var d := Admit(old(buckets.entries), ClientKey(ip, forwarded), now, windowMs, max);
        buckets.entries == d.buckets && v == d.verdict
    {
      var key := ClientKey(ip, forwarded);
      var e: Entry;
      if key !in buckets.entries || now > buckets.entries[key].resetAt {
        e := Entry(0, now + windowMs);
        buckets.entries := buckets.entries[key := e];
      } else {
        e := buckets.entries[key];
      }
      if e.count >= max {
        return TooMany(RetryAfter(e.resetAt, now));
      }
      buckets.entries := buckets.entries[key := Entry(e.count + 1, e.resetAt)];
      v := Next;
    }
  }
}
