/** The sliding-window rate limiter middleware: a module-level map from client IP to the
    timestamps (milliseconds) of its recent requests. `Date.now()` is the `now` parameter. */
module RateLimiter {
  import opened Seqs

  const RateLimitWindowMs: int := 60 * 1000
  const MaxRequests: nat := 60

  /** `timestamps.filter(ts => now - ts < rateLimitWindowMs)`. */
  function Recent(ts: seq<int>, now: int): seq<int>
  {
    Filter(ts, (t: int) => now - t < RateLimitWindowMs)
  }

  /** The list stored for an IP after a request at `now`: the recent timestamps, then `now`. */
  function Retained(prev: seq<int>, now: int): seq<int>
  {
    Recent(prev, now) + [now]
  }

  /** The request passes on to `next()` unless the retained list holds more than the maximum. */
  predicate Allows(retained: seq<int>)
  {
    |retained| <= MaxRequests
  }

  predicate Sorted(ts: seq<int>)
  {
    forall i, j :: 0 <= i < j < |ts| ==> ts[i] <= ts[j]
  }

  /** The response of the middleware. */
  datatype Verdict = Next | TooManyRequests(status: nat, error: string)

  const Rejection := TooManyRequests(429, "Too many requests, slow down.")

  class RateLimiter {
    var ipMap: map<string, seq<int>>

    constructor ()
      ensures ipMap == map[]
    {
      ipMap := map[];
    }

    /** The stored timestamps for `ip`, or none when the IP was never seen. */
    function History(ip: string): seq<int>
      reads this
    {
      if ip in ipMap then ipMap[ip] else []
    }

    /** Every stored list is sorted and no stored timestamp is later than `now`. */
    ghost predicate OrderedUpTo(now: int)
      reads this
    {
      forall ip :: ip in ipMap ==> Sorted(ipMap[ip]) && forall i :: 0 <= i < |ipMap[ip]| ==> ipMap[ip][i] <= now
    }

    /** One pass of the middleware. Rejected requests are recorded too. */
    method Handle(ip: string, now: int) returns (v: Verdict)
      modifies this
      ensures ipMap == old(ipMap)[ip := Retained(old(History(ip)), now)]
      ensures v == (if Allows(Retained(old(History(ip)), now)) then Next else Rejection)
      ensures old(OrderedUpTo(now)) ==> OrderedUpTo(now)
    {
      ghost var wasOrdered := OrderedUpTo(now);
      if ip !in ipMap {
        ipMap := ipMap[ip := []];
      }
      var timestamps := Recent(ipMap[ip], now);
      timestamps := timestamps + [now];
      if wasOrdered {
        RetainedOrdered(History(ip), now);
      }
      ipMap := ipMap[ip := timestamps];
      if |timestamps| > MaxRequests {
        return Rejection;
      }
      v := Next;
    }
  }

  /** The first request from an unseen IP is always let through. */
  lemma FirstRequestAllowed(now: int)
    ensures Retained([], now) == [now]
    ensures Allows(Retained([], now))
  {
  }

  /** Filtering keeps a sorted list sorted. */
  lemma {:induction false} FilterSorted(ts: seq<int>, p: int -> bool)
    requires Sorted(ts)
    ensures Sorted(Filter(ts, p))
  {
    if ts != [] {
      FilterSorted(ts[1..], p);
      var rest := Filter(ts[1..], p);
      if p(ts[0]) {
        forall j | 0 <= j < |rest| ensures ts[0] <= rest[j] {
          assert rest[j] in ts[1..];
        }
      }
    }
  }

  /** If timestamps never go backwards, the retained list is sorted, ends with `now`,
      and lies inside the window. */
  lemma {:induction false} RetainedOrdered(prev: seq<int>, now: int)
    requires Sorted(prev) && forall i :: 0 <= i < |prev| ==> prev[i] <= now
    ensures var r := Retained(prev, now);
      && Sorted(r) && r[|r| - 1] == now
      && forall i :: 0 <= i < |r| ==> now - RateLimitWindowMs < r[i] <= now
  {
    FilterSorted(prev, (t: int) => now - t < RateLimitWindowMs);
    var rec := Recent(prev, now);
    forall i | 0 <= i < |rec| ensures rec[i] <= now && now - RateLimitWindowMs < rec[i] {
      assert rec[i] in prev;
    }
  }
}
