/**
 * The per-client sliding-window rate limiter
 * (whereeatai/middleware/request_middleware.py, `RateLimitMiddleware`).
 *
 * For every client address it keeps the times of its recorded requests.
 * On each request it first forgets the times that have left the window,
 * then refuses the request with 429 when a known client already has
 * `calls` recorded times in the window; otherwise it records the request
 * and passes it on. Times are whole seconds from a clock parameter.
 */
module RequestMiddleware {
  import opened Values
  import opened Seqs

  /** The constructor's defaults for `calls` and `period`. */
  const DefaultCalls := 100
  const DefaultPeriod := 60

  /** What `dispatch` does with a request. */
  datatype Decision =
    | Forwarded
    | Refused(statusCode: int, content: string, retryAfter: string)

  /** The time `t` is still inside the window that ends at `now`. */
  predicate Recent(t: int, window: (int, int))
  {
    window.0 - t < window.1
  }

  /** The comprehension that keeps only the times inside the window, in order. */
  function Prune(log: seq<int>, now: int, period: int): seq<int>
  {
    Filter(log, Recent, (now, period))
  }

  /** The request log after the expired times of a known client are dropped. */
  function Cleaned(requests: map<string, seq<int>>, ip: string, now: int, period: int): (r: map<string, seq<int>>)
    ensures r.Keys == requests.Keys
    ensures ip in requests ==> r[ip] == Prune(requests[ip], now, period)
    ensures forall other :: other in requests && other != ip ==> r[other] == requests[other]
  {
    if ip in requests then requests[ip := Prune(requests[ip], now, period)] else requests
  }

  /** The limit check: the client is known and already has `calls` times in the window. */
  predicate Limited(requests: map<string, seq<int>>, ip: string, now: int, calls: int, period: int)
  {
    ip in requests && |Prune(requests[ip], now, period)| >= calls
  }

  /** The refusal: status 429, its text, and `Retry-After` set to `str(period)`. */
  function Refusal(period: int): Decision
  {
    Refused(429, "Too many requests", PyStr(Int(period)))
  }

  /** The decision `dispatch` takes. */
  function Decide(requests: map<string, seq<int>>, ip: string, now: int, calls: int, period: int): (d: Decision)
    ensures d.Refused? <==> Limited(requests, ip, now, calls, period)
    // a refusal is 429 with the window length as `Retry-After`
    ensures d.Refused? ==> d.statusCode == 429 && d.content == "Too many requests" && d.retryAfter == PyStr(Int(period))
    // an unknown client is never refused
    ensures ip !in requests ==> d == Forwarded
  {
    if Limited(requests, ip, now, calls, period) then Refusal(period) else Forwarded
  }

  /** The request log after `dispatch`: cleaned, and with `now` appended unless the request was refused. */
  function Next(requests: map<string, seq<int>>, ip: string, now: int, calls: int, period: int): (r: map<string, seq<int>>)
    ensures r.Keys == requests.Keys + {ip}
    ensures forall c :: c in requests && c != ip ==> r[c] == requests[c]
    // the client's recent times are kept in order, and at most this request is added
    ensures ip in requests ==> Prune(requests[ip], now, period) <= r[ip]
    ensures |r[ip]| <= (if ip in requests then |Prune(requests[ip], now, period)| else 0) + 1
    // a request that is let through is appended to the client's pruned list, created if absent
    ensures !Limited(requests, ip, now, calls, period) ==>
      r[ip] == (if ip in requests then Prune(requests[ip], now, period) else []) + [now]
  {
    var cleaned := Cleaned(requests, ip, now, period);
    if Limited(requests, ip, now, calls, period) then cleaned
    else cleaned[ip := (if ip in cleaned then cleaned[ip] else []) + [now]]
  }

  /** `RateLimitMiddleware`: the window parameters and the per-client request times. */
  class RateLimitMiddleware {
    const calls: int
    const period: int
    var requests: map<string, seq<int>>

    /** `RateLimitMiddleware(app)`: the default limit and window, and no client has made a request yet. */
    constructor WithDefaults()
      ensures calls == DefaultCalls && period == DefaultPeriod && requests == map[]
    {
      calls := DefaultCalls;
      period := DefaultPeriod;
      requests := map[];
    }

    /** No client has made a request yet. */
    constructor (calls: int, period: int)
      ensures this.calls == calls && this.period == period && requests == map[]
    {
      this.calls := calls;
      this.period := period;
      requests := map[];
    }

    /** No client has more than `calls` recorded times. */
    predicate Bounded()
      reads this
    {
      forall ip :: ip in requests ==> |requests[ip]| <= calls
    }

    /** `dispatch` for a request from `ip` at time `now`. */
    method Dispatch(ip: string, now: int) returns (d: Decision)
      modifies this`requests
      ensures d == Decide(old(requests), ip, now, calls, period)
      ensures requests == Next(old(requests), ip, now, calls, period)
      ensures calls >= 1 && old(Bounded()) ==> Bounded()
    {
      if ip in requests {
        var kept: seq<int> := [];
        var log := requests[ip];
        var i := 0;
        while i < |log|
          invariant 0 <= i <= |log|
          invariant kept == Prune(log[..i], now, period)
          invariant requests == old(requests)
        {
          if now - log[i] < period {
            kept := kept + [log[i]];
          }
          FilterSingleton(log[i], Recent, (now, period));
          FilterAppend(log[..i], [log[i]], Recent, (now, period));
          assert log[..i + 1] == log[..i] + [log[i]];
          i := i + 1;
        }
        assert log[..|log|] == log;
        requests := requests[ip := kept];
      }
      if ip in requests && |requests[ip]| >= calls {
        if calls >= 1 && old(Bounded()) {
          BoundKept(old(requests), ip, now, calls, period);
        }
        return Refusal(period);
      }
      if ip !in requests {
        requests := requests[ip := []];
      }
      requests := requests[ip := requests[ip] + [now]];
      if calls >= 1 && old(Bounded()) {
        BoundKept(old(requests), ip, now, calls, period);
      }
      d := Forwarded;
    }
  }

  /** The window keeps exactly the recent times of the log, in their order. */
  lemma PruneKeepsRecent(log: seq<int>, now: int, period: int)
    ensures forall i :: 0 <= i < |Prune(log, now, period)| ==>
      Prune(log, now, period)[i] in log && now - Prune(log, now, period)[i] < period
    ensures forall i :: 0 <= i < |log| && now - log[i] < period ==> log[i] in Prune(log, now, period)
    ensures |Prune(log, now, period)| <= |log|
  {
    FilterMembers(log, Recent, (now, period));
  }

  /** With `calls` at least 1, no client's log ever grows beyond `calls` times. */
  lemma BoundKept(requests: map<string, seq<int>>, ip: string, now: int, calls: int, period: int)
    requires calls >= 1
    requires forall c :: c in requests ==> |requests[c]| <= calls
    ensures forall c :: c in Next(requests, ip, now, calls, period) ==> |Next(requests, ip, now, calls, period)[c]| <= calls
  {
    if ip in requests {
      PruneKeepsRecent(requests[ip], now, period);
    }
  }

  /** A client's first request is always passed on and recorded, whatever `calls` is. */
  lemma FirstRequestForwarded(requests: map<string, seq<int>>, ip: string, now: int, calls: int, period: int)
    requires ip !in requests
    ensures Decide(requests, ip, now, calls, period) == Forwarded
    ensures Next(requests, ip, now, calls, period) == requests[ip := [now]]
  {
    assert [] + [now] == [now];
  }

  /** A refused request is not recorded; a passed one is recorded last. */
  lemma OnlyOwnLog(requests: map<string, seq<int>>, ip: string, now: int, calls: int, period: int)
    ensures Decide(requests, ip, now, calls, period).Refused? ==>
      Next(requests, ip, now, calls, period)[ip] == Prune(requests[ip], now, period) &&
      Decide(requests, ip, now, calls, period) == Refused(429, "Too many requests", PyStr(Int(period)))
    ensures Decide(requests, ip, now, calls, period) == Forwarded ==>
      var log := Next(requests, ip, now, calls, period)[ip];
      |log| >= 1 && log[|log| - 1] == now
  {
  }

  /**
   * With a positive window, after a request the client's log holds only
   * times inside the window ending now: the limit counts exactly the
   * requests of the last `period` seconds.
   */
  lemma LogStaysInWindow(requests: map<string, seq<int>>, ip: string, now: int, calls: int, period: int)
    requires period > 0
    ensures ip in Next(requests, ip, now, calls, period)
    ensures forall k :: 0 <= k < |Next(requests, ip, now, calls, period)[ip]| ==>
      now - Next(requests, ip, now, calls, period)[ip][k] < period
  {
    if ip in requests {
      PruneKeepsRecent(requests[ip], now, period);
    }
  }

  /** A known client is refused exactly when it already has `calls` requests inside the window. */
  lemma RefusedIff(requests: map<string, seq<int>>, ip: string, now: int, calls: int, period: int)
    requires ip in requests
    ensures Decide(requests, ip, now, calls, period).Refused? <==>
      |Filter(requests[ip], Recent, (now, period))| >= calls
  {
  }
}
