/** The rendezvous server's rate limit: per client, the times of the requests admitted lately. */
module RateLimiter {
  import opened Wrappers
  import opened Bytes

  type Address = string

  /** A refusal says after how many seconds to come back. */
  type Verdict = Result<(), nat>

  datatype Request = Request(ip: Address, now: nat)

  datatype Limits = Limits(limit: nat, window: nat)

  type Buckets = map<Address, seq<nat>>

  function WindowStart(limits: Limits, now: nat): nat {
    SaturatingSub(now, limits.window)
  }

  /** The front of the queue goes as long as it is too old. */
  function DropOld(bucket: seq<nat>, start: nat): seq<nat> {
    if bucket != [] && bucket[0] <= start then DropOld(bucket[1..], start) else bucket
  }

  function RetryAfter(limits: Limits, kept: seq<nat>, now: nat): nat {
    if kept == [] then 1
    else Max(SaturatingSub(kept[0] + limits.window, now), 1)
  }

  function Max(a: nat, b: nat): nat {
    if a < b then b else a
  }

  function Bucket(buckets: Buckets, ip: Address): seq<nat> {
    if ip in buckets then buckets[ip] else []
  }

  function Check(limits: Limits, buckets: Buckets, request: Request): (Buckets, Verdict) {
    var kept := DropOld(Bucket(buckets, request.ip), WindowStart(limits, request.now));
    if |kept| >= limits.limit then
      (buckets[request.ip := kept], Failure(RetryAfter(limits, kept, request.now)))
    else
      (buckets[request.ip := kept + [request.now]], Success(()))
  }

  function Run(limits: Limits, requests: seq<Request>): Buckets {
    if requests == [] then map[]
    else Check(limits, Run(limits, requests[..|requests| - 1]), requests[|requests| - 1]).0
  }

  /** The times of one client's admitted requests. */
  function Admitted(limits: Limits, requests: seq<Request>, ip: Address): seq<nat> {
    if requests == [] then []
    else
      var n := |requests| - 1;
      var before := Admitted(limits, requests[..n], ip);
      if requests[n].ip == ip && Check(limits, Run(limits, requests[..n]), requests[n]).1.Success?
      then before + [requests[n].now]
      else before
  }

  ghost predicate Ordered(requests: seq<Request>) {
    forall i, j | 0 <= i < j < |requests| :: requests[i].now <= requests[j].now
  }

  ghost predicate Sorted(times: seq<nat>) {
    forall i, j | 0 <= i < j < |times| :: times[i] <= times[j]
  }

  // ----- what a bucket holds -----

  lemma {:induction false} DropOldIsSuffix(bucket: seq<nat>, start: nat) returns (k: nat)
    ensures k <= |bucket| && DropOld(bucket, start) == bucket[k..]
    ensures forall i | 0 <= i < k :: bucket[i] <= start
    ensures k < |bucket| ==> bucket[k] > start
  {
    if bucket != [] && bucket[0] <= start {
      var j := DropOldIsSuffix(bucket[1..], start);
      k := j + 1;
      assert forall i | 0 < i < k :: bucket[i] == bucket[1..][i - 1];
    } else {
      k := 0;
    }
  }

  /** A bucket is the end of the admitted times; what it lacks is out of the window at `now`. */
  ghost predicate Tracks(limits: Limits, bucket: seq<nat>, admitted: seq<nat>, now: nat) {
    && |bucket| <= |admitted|
    && bucket == admitted[|admitted| - |bucket|..]
    && (forall i | 0 <= i < |admitted| - |bucket| :: admitted[i] <= WindowStart(limits, now))
    && (forall i | 0 <= i < |admitted| :: admitted[i] <= now)
    && |bucket| <= limits.limit
  }

  /** Of any `limit + 1` admitted requests in a row, the last comes at least a window after the first. */
  ghost predicate Spread(limits: Limits, admitted: seq<nat>) {
    forall i, j | 0 <= i && i + limits.limit <= j < |admitted| && admitted[i] >= 1 ::
      admitted[j] >= admitted[i] + limits.window
  }

  lemma DropOldTracks(limits: Limits, bucket: seq<nat>, admitted: seq<nat>, before: nat, now: nat)
    requires Tracks(limits, bucket, admitted, before) && before <= now
    ensures Tracks(limits, DropOld(bucket, WindowStart(limits, now)), admitted, now)
  {
    var k := DropOldIsSuffix(bucket, WindowStart(limits, now));
    var gone := |admitted| - |bucket|;
    assert bucket[k..] == admitted[gone + k..];
    assert forall i | gone <= i < gone + k :: admitted[i] == bucket[i - gone];
  }

  lemma AdmissionTracks(limits: Limits, kept: seq<nat>, admitted: seq<nat>, now: nat)
    requires Tracks(limits, kept, admitted, now) && |kept| < limits.limit
    requires Sorted(admitted) && Spread(limits, admitted)
    ensures Tracks(limits, kept + [now], admitted + [now], now)
    ensures Sorted(admitted + [now]) && Spread(limits, admitted + [now])
  {
    var after := admitted + [now];
    var gone := |admitted| - |kept|;
    assert after[gone..] == kept + [now];
    forall i, j | 0 <= i && i + limits.limit <= j < |after| && after[i] >= 1
      ensures after[j] >= after[i] + limits.window {
      if j == |admitted| {
        assert i < gone;
      }
    }
  }

  function Clock(requests: seq<Request>): nat {
    if requests == [] then 0 else requests[|requests| - 1].now
  }

  ghost predicate Holds(limits: Limits, bucket: seq<nat>, admitted: seq<nat>, now: nat) {
    Tracks(limits, bucket, admitted, now) && Sorted(admitted) && Spread(limits, admitted)
  }

  lemma {:induction false} CheckTracks(limits: Limits, buckets: Buckets, request: Request, admitted: seq<nat>,
                                       before: nat)
    requires Holds(limits, Bucket(buckets, request.ip), admitted, before) && before <= request.now
    ensures var next := Check(limits, buckets, request);
            Holds(limits, Bucket(next.0, request.ip),
                  if next.1.Success? then admitted + [request.now] else admitted, request.now)
  {
    var bucket := Bucket(buckets, request.ip);
    var kept := DropOld(bucket, WindowStart(limits, request.now));
    DropOldTracks(limits, bucket, admitted, before, request.now);
    if |kept| < limits.limit {
      AdmissionTracks(limits, kept, admitted, request.now);
    }
  }

  lemma {:induction false} RunTracks(limits: Limits, requests: seq<Request>, ip: Address)
    requires Ordered(requests)
    ensures Holds(limits, Bucket(Run(limits, requests), ip), Admitted(limits, requests, ip), Clock(requests))
  {
    if requests != [] {
      var n := |requests| - 1;
      var before := Run(limits, requests[..n]);
      var admitted := Admitted(limits, requests[..n], ip);
      RunTracks(limits, requests[..n], ip);
      if requests[n].ip == ip {
        CheckTracks(limits, before, requests[n], admitted, Clock(requests[..n]));
      } else {
        LaterTracks(limits, Bucket(before, ip), admitted, Clock(requests[..n]), requests[n].now);
      }
    }
  }

  lemma LaterTracks(limits: Limits, bucket: seq<nat>, admitted: seq<nat>, before: nat, now: nat)
    requires Tracks(limits, bucket, admitted, before) && before <= now
    ensures Tracks(limits, bucket, admitted, now)
  {
  }

  // ----- the window -----

  /** How many of the times lie after `lo` and not after `hi`. */
  function CountBetween(times: seq<nat>, lo: int, hi: int): nat {
    if times == [] then 0
    else CountBetween(times[..|times| - 1], lo, hi) + (if lo < times[|times| - 1] <= hi then 1 else 0)
  }

  lemma {:induction false} FewBetween(times: seq<nat>, lo: int, hi: int, k: nat)
    requires k <= |times| && forall i | 0 <= i < k :: times[i] <= lo
    ensures CountBetween(times, lo, hi) <= |times| - k
  {
    if |times| > k {
      FewBetween(times[..|times| - 1], lo, hi, k);
    } else if times != [] {
      FewBetween(times[..|times| - 1], lo, hi, k - 1);
    }
  }

  lemma {:induction false} SpreadBounds(limits: Limits, admitted: seq<nat>, lo: int)
    requires Sorted(admitted) && Spread(limits, admitted)
    requires 0 <= lo
    requires admitted != [] ==> limits.limit > 0
    ensures CountBetween(admitted, lo, lo + limits.window) <= limits.limit
  {
    if admitted != [] {
      var n := |admitted| - 1;
      if lo < admitted[n] <= lo + limits.window && n >= limits.limit {
        var k := n - limits.limit + 1;
        forall i | 0 <= i < k ensures admitted[i] <= lo {
          assert i + limits.limit <= n;
        }
        FewBetween(admitted, lo, lo + limits.window, k);
      } else if n < limits.limit {
        FewBetween(admitted, lo, lo + limits.window, 0);
      } else {
        SpreadBounds(limits, admitted[..n], lo);
      }
    }
  }

  lemma {:induction false} NoneAtLimitZero(window: nat, requests: seq<Request>, ip: Address)
    ensures Admitted(Limits(0, window), requests, ip) == []
  {
    if requests != [] {
      NoneAtLimitZero(window, requests[..|requests| - 1], ip);
    }
  }

  // ----- the first window -----

  /** The times of one client's requests. */
  function Asked(requests: seq<Request>, ip: Address): seq<nat> {
    if requests == [] then []
    else
      var n := |requests| - 1;
      if requests[n].ip == ip then Asked(requests[..n], ip) + [requests[n].now] else Asked(requests[..n], ip)
  }

  lemma {:induction false} CountSuffix(times: seq<nat>, lo: int, hi: int, k: nat)
    requires k <= |times| && forall i | 0 <= i < k :: times[i] <= lo
    requires forall i | k <= i < |times| :: lo < times[i] <= hi
    ensures CountBetween(times, lo, hi) == |times| - k
  {
    if |times| > k {
      CountSuffix(times[..|times| - 1], lo, hi, k);
    } else if times != [] {
      CountSuffix(times[..|times| - 1], lo, hi, k - 1);
    }
  }

  lemma KeptIsCounted(limits: Limits, bucket: seq<nat>, admitted: seq<nat>, before: nat, now: nat)
    requires Holds(limits, bucket, admitted, before) && before <= now
    ensures var start := WindowStart(limits, now);
            |DropOld(bucket, start)| == CountBetween(admitted, start, now)
  {
    var start := WindowStart(limits, now);
    var kept := DropOld(bucket, start);
    var k := DropOldIsSuffix(bucket, start);
    DropOldTracks(limits, bucket, admitted, before, now);
    var gone := |admitted| - |kept|;
    assert kept == admitted[gone..];
    forall i | gone <= i < |admitted| ensures start < admitted[i] <= now {
      assert admitted[gone] == kept[0] == bucket[k];
    }
    CountSuffix(admitted, start, now, gone);
  }

  /**
    A request is refused if and only if as many of its client's requests as the limit allows have been admitted in the
    window that ends with it; whether others come too often makes no difference.
  */
  lemma {:induction false} WhenARequestIsRefused(limits: Limits, requests: seq<Request>, next: Request)
    requires Ordered(requests) && Clock(requests) <= next.now
    ensures Check(limits, Run(limits, requests), next).1.Failure? <==>
            CountBetween(Admitted(limits, requests, next.ip),
                         if next.now <= limits.window then 0 else next.now - limits.window, next.now) >= limits.limit
  {
    RunTracks(limits, requests, next.ip);
    KeptIsCounted(limits, Bucket(Run(limits, requests), next.ip), Admitted(limits, requests, next.ip),
                  Clock(requests), next.now);
  }

  lemma {:induction false} CountSplits(times: seq<nat>, lo: int, hi: int)
    requires lo < 0
    ensures CountBetween(times, lo, hi) ==
            if hi < 0 then 0 else CountBetween(times, -1, 0) + CountBetween(times, 0, hi)
  {
    if times != [] {
      CountSplits(times[..|times| - 1], lo, hi);
    }
  }

  /** Within the first window only the times 0 are dropped, and what is left of a bucket is all that counts. */
  lemma KeptEarly(limits: Limits, bucket: seq<nat>, admitted: seq<nat>, before: nat, now: nat, hi: nat)
    requires Holds(limits, bucket, admitted, before) && before <= now <= hi <= limits.window
    ensures |DropOld(bucket, WindowStart(limits, now))| == CountBetween(admitted, 0, hi)
    ensures now == 0 ==> DropOld(bucket, WindowStart(limits, now)) == []
  {
    var kept := DropOld(bucket, WindowStart(limits, now));
    var k := DropOldIsSuffix(bucket, WindowStart(limits, now));
    DropOldTracks(limits, bucket, admitted, before, now);
    var gone := |admitted| - |kept|;
    assert kept == admitted[gone..];
    forall i | gone <= i < |admitted| ensures 0 < admitted[i] <= hi {
      assert admitted[gone] == kept[0] == bucket[k];
    }
    CountSuffix(admitted, 0, hi, gone);
  }

  lemma CountAppend(times: seq<nat>, t: nat, lo: int, hi: int)
    ensures CountBetween(times + [t], lo, hi) == CountBetween(times, lo, hi) + (if lo < t <= hi then 1 else 0)
  {
    assert (times + [t])[..|times|] == times;
  }

  /** Everything at time 0 has been admitted, and of what came later up to `hi` as much as the limit allows. */
  ghost predicate EarlyCounts(limit: nat, admitted: seq<nat>, asked: seq<nat>, hi: nat) {
    && CountBetween(admitted, -1, 0) == CountBetween(asked, -1, 0)
    && CountBetween(admitted, 0, hi) == Min(limit, CountBetween(asked, 0, hi))
  }

  lemma {:induction false} EarlyAdmission(limit: nat, admitted: seq<nat>, asked: seq<nat>, hi: nat, now: nat)
    requires EarlyCounts(limit, admitted, asked, hi)
    requires 0 < now <= hi ==> CountBetween(admitted, 0, hi) < limit
    ensures EarlyCounts(limit, admitted + [now], asked + [now], hi)
  {
    CountAppend(admitted, now, -1, 0);
    CountAppend(admitted, now, 0, hi);
    CountAppend(asked, now, -1, 0);
    CountAppend(asked, now, 0, hi);
  }

  lemma {:induction false} EarlyRefusal(limit: nat, admitted: seq<nat>, asked: seq<nat>, hi: nat, now: nat)
    requires EarlyCounts(limit, admitted, asked, hi)
    requires now > 0 && (now <= hi ==> CountBetween(admitted, 0, hi) >= limit)
    ensures EarlyCounts(limit, admitted, asked + [now], hi)
  {
    CountAppend(asked, now, -1, 0);
    CountAppend(asked, now, 0, hi);
  }

  lemma {:induction false} AdmittedEarly(limits: Limits, requests: seq<Request>, ip: Address, hi: nat)
    requires Ordered(requests) && limits.limit >= 1 && hi <= limits.window
    ensures EarlyCounts(limits.limit, Admitted(limits, requests, ip), Asked(requests, ip), hi)
  {
    if requests != [] {
      var n := |requests| - 1;
      AdmittedEarly(limits, requests[..n], ip, hi);
      if requests[n].ip == ip {
        var admitted := Admitted(limits, requests[..n], ip);
        var before := Run(limits, requests[..n]);
        RunTracks(limits, requests[..n], ip);
        if requests[n].now <= hi {
          KeptEarly(limits, Bucket(before, ip), admitted, Clock(requests[..n]), requests[n].now, hi);
        }
        if Check(limits, before, requests[n]).1.Success? {
          EarlyAdmission(limits.limit, admitted, Asked(requests[..n], ip), hi, requests[n].now);
        } else {
          EarlyRefusal(limits.limit, admitted, Asked(requests[..n], ip), hi, requests[n].now);
        }
      }
    }
  }

  /**
    While the clock does not go back, no window from time 0 on contains more than `limit` admitted requests of one
    client. One that begins earlier does, if and only if the client asks at time 0 and more than `limit` times in all
    before the window's end.
  */
  lemma WindowIsRespected(limits: Limits, requests: seq<Request>, ip: Address, lo: int)
    requires Ordered(requests)
    ensures var hi := lo + limits.window;
            var atZero := CountBetween(Asked(requests, ip), -1, 0);
            CountBetween(Admitted(limits, requests, ip), lo, hi) > limits.limit <==>
              && lo < 0 <= hi && limits.limit >= 1
              && atZero > 0 && atZero + CountBetween(Asked(requests, ip), 0, hi) > limits.limit
  {
    var admitted := Admitted(limits, requests, ip);
    if limits.limit == 0 {
      NoneAtLimitZero(limits.window, requests, ip);
    } else if 0 <= lo {
      RunTracks(limits, requests, ip);
      SpreadBounds(limits, admitted, lo);
    } else {
      CountSplits(admitted, lo, lo + limits.window);
      if 0 <= lo + limits.window {
        AdmittedEarly(limits, requests, ip, lo + limits.window);
      }
    }
  }

  /** A request at time 0 is forgotten as soon as the next one comes. */
  lemma TimeZeroIsForgotten()
    ensures var limits := Limits(1, 10);
            var requests := [Request("a", 0), Request("a", 5)];
            Ordered(requests) && CountBetween(Admitted(limits, requests, "a"), -1, 9) == 2
  {
    var limits := Limits(1, 10);
    var requests := [Request("a", 0), Request("a", 5)];
    assert requests[..1] == [Request("a", 0)] && requests[..1][..0] == [];
    assert Run(limits, requests[..1])["a"] == [0];
    assert DropOld([0], 0) == [];
    assert Admitted(limits, requests[..1], "a") == [0];
    assert Admitted(limits, requests, "a") == [0, 5];
    assert [0, 5][..1] == [0] && [0][..0] == [];
  }

  // ----- coming back -----

  /** From a full queue nothing or something goes, depending on its front alone. */
  lemma ComingBack(limits: Limits, kept: seq<nat>, now: nat, wait: nat)
    requires kept != [] && kept[0] > WindowStart(limits, now)
    ensures |DropOld(kept, WindowStart(limits, now + wait))| < |kept| <==> wait >= RetryAfter(limits, kept, now)
  {
    var gone := DropOldIsSuffix(kept, WindowStart(limits, now + wait));
  }

  lemma RefusedFull(limits: Limits, buckets: Buckets, request: Request)
    requires limits.limit >= 1 && |Bucket(buckets, request.ip)| <= limits.limit
    requires Check(limits, buckets, request).1.Failure?
    ensures var refused := Check(limits, buckets, request);
            var kept := Bucket(refused.0, request.ip);
            && |kept| == limits.limit && kept[0] > WindowStart(limits, request.now)
            && refused.1.error == RetryAfter(limits, kept, request.now)
  {
    var k := DropOldIsSuffix(Bucket(buckets, request.ip), WindowStart(limits, request.now));
  }

  /**
    With a limit of at least one, the number of seconds in a refusal is exactly the least after which the client, having
    asked for nothing else, is admitted.
  */
  lemma RetryAfterIsExact(limits: Limits, requests: seq<Request>, last: Request, wait: nat)
    requires limits.limit >= 1 && Ordered(requests)
    requires Check(limits, Run(limits, requests), last).1.Failure?
    ensures var refused := Check(limits, Run(limits, requests), last);
            Check(limits, refused.0, Request(last.ip, last.now + wait)).1.Success? <==> wait >= refused.1.error
  {
    RunTracks(limits, requests, last.ip);
    RefusedFull(limits, Run(limits, requests), last);
    var refused := Check(limits, Run(limits, requests), last);
    ComingBack(limits, Bucket(refused.0, last.ip), last.now, wait);
  }

  /** With a limit of zero everybody is turned away, and told to come back in a second. */
  lemma NothingPassesLimitZero(window: nat, requests: seq<Request>, last: Request)
    ensures Check(Limits(0, window), Run(Limits(0, window), requests), last).1 == Failure(1)
  {
    EmptyBuckets(window, requests, last.ip);
  }

  lemma {:induction false} EmptyBuckets(window: nat, requests: seq<Request>, ip: Address)
    ensures Bucket(Run(Limits(0, window), requests), ip) == []
  {
    if requests != [] {
      EmptyBuckets(window, requests[..|requests| - 1], ip);
    }
  }

  // ----- the limiter -----

  class IpRateLimiter {
    const limit: nat
    const windowSeconds: nat
    var buckets: Buckets

    constructor (limit: nat, windowSeconds: nat)
      ensures this.limit == limit && this.windowSeconds == windowSeconds && buckets == map[]
    {
      this.limit, this.windowSeconds, buckets := limit, windowSeconds, map[];
    }

    method CheckRequest(ip: Address, now: nat) returns (verdict: Verdict)
      requires forall i | 0 <= i < |Bucket(buckets, ip)| :: Bucket(buckets, ip)[i] + windowSeconds <= U64_MAX
      modifies this`buckets
      ensures (buckets, verdict) == Check(Limits(limit, windowSeconds), old(buckets), Request(ip, now))
    {
      var windowStart := SaturatingSub(now, windowSeconds);
      var bucket := if ip in buckets then buckets[ip] else [];
      while bucket != [] && bucket[0] <= windowStart
        invariant DropOld(bucket, windowStart) == DropOld(Bucket(old(buckets), ip), windowStart)
        decreases |bucket|
      {
        bucket := bucket[1..];
      }
      if |bucket| >= limit {
        var retryAfter := 1;
        if bucket != [] {
          retryAfter := Max(SaturatingSub(bucket[0] + windowSeconds, now), 1);
        }
        buckets := buckets[ip := bucket];
        return Failure(retryAfter);
      }
      buckets := buckets[ip := bucket + [now]];
      verdict := Success(());
    }
  }
}
