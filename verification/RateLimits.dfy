// The per-IP limiter in front of the server: one token bucket for each source address.
module RateLimits {
  import opened TokenBuckets

  type Ip = string

  datatype Arrival = Arrival(ip: Ip, at: real)

  // rate_limit_per_ip and burst_per_ip
  datatype Limits = Limits(rate: real, burst: real)

  function Full(l: Limits, now: real): Bucket {
    Bucket(l.rate, l.burst, l.burst, now)
  }

  // _rate_allow(ip) at time `now`
  function Charged(l: Limits, buckets: map<Ip, Bucket>, ip: Ip, now: real): (map<Ip, Bucket>, bool) {
    var (b, ok) := Drawn(if ip in buckets then buckets[ip] else Full(l, now), now, 1.0);
    (buckets[ip := b], ok)
  }

  function Buckets(l: Limits, arrivals: seq<Arrival>): map<Ip, Bucket> {
    if arrivals == [] then map[]
    else
      var n := |arrivals| - 1;
      Charged(l, Buckets(l, arrivals[..n]), arrivals[n].ip, arrivals[n].at).0
  }

  predicate Passes(l: Limits, arrivals: seq<Arrival>, k: nat)
    requires k < |arrivals|
  {
    Charged(l, Buckets(l, arrivals[..k]), arrivals[k].ip, arrivals[k].at).1
  }

  // How many datagrams from `ip` get past the limiter from arrival k on.
  function Passed(l: Limits, arrivals: seq<Arrival>, ip: Ip, k: nat): nat
    requires k <= |arrivals|
  {
    var n := |arrivals|;
    if n == k then 0
    else Passed(l, arrivals[..n - 1], ip, k) + (if arrivals[n - 1].ip == ip && Passes(l, arrivals, n - 1) then 1 else 0)
  }

  // The arrivals from `ip`, as calls on its bucket.
  function CallsOf(arrivals: seq<Arrival>, ip: Ip): seq<Call> {
    if arrivals == [] then []
    else
      var last := arrivals[|arrivals| - 1];
      CallsOf(arrivals[..|arrivals| - 1], ip) + (if last.ip == ip then [Call(last.at, 1.0)] else [])
  }

  // Addresses do not influence each other: the bucket of `ip` is the one it would have alone.
  lemma {:induction false} Independent(l: Limits, arrivals: seq<Arrival>, ip: Ip)
    ensures var calls := CallsOf(arrivals, ip);
            var buckets := Buckets(l, arrivals);
            if calls == [] then ip !in buckets
            else ip in buckets && buckets[ip] == After(Full(l, calls[0].at), calls)
  {
    hide Drawn, Full;
    if arrivals != [] {
      var n := |arrivals| - 1;
      Independent(l, arrivals[..n], ip);
      var before, calls := CallsOf(arrivals[..n], ip), CallsOf(arrivals, ip);
      if arrivals[n].ip == ip {
        assert calls[..|calls| - 1] == before && calls[|calls| - 1] == Call(arrivals[n].at, 1.0);
        assert before != [] ==> calls[0] == before[0];
      } else {
        assert calls == before;
      }
    }
  }

  lemma {:induction false} CallsGrow(arrivals: seq<Arrival>, ip: Ip, k: nat)
    requires k <= |arrivals|
    ensures CallsOf(arrivals[..k], ip) <= CallsOf(arrivals, ip)
  {
    if k < |arrivals| {
      assert arrivals[..|arrivals| - 1][..k] == arrivals[..k];
      CallsGrow(arrivals[..|arrivals| - 1], ip, k);
    } else {
      assert arrivals[..k] == arrivals;
    }
  }

  // The limiter's verdict on the last arrival is the verdict of the address's own bucket.
  lemma LastPasses(l: Limits, arrivals: seq<Arrival>, start: real)
    requires arrivals != []
    requires var calls := CallsOf(arrivals, arrivals[|arrivals| - 1].ip); calls != [] ==> start == calls[0].at
    ensures var n := |arrivals| - 1;
            var before, calls := CallsOf(arrivals[..n], arrivals[n].ip), CallsOf(arrivals, arrivals[n].ip);
            && calls != [] && calls[..|calls| - 1] == before && calls[|calls| - 1] == Call(arrivals[n].at, 1.0)
            && (before != [] ==> calls[0] == before[0])
            && Passes(l, arrivals, n) == Admitted(Full(l, start), calls, |calls| - 1)
  {
    hide Drawn, Full, Buckets;
    var n := |arrivals| - 1;
    Independent(l, arrivals[..n], arrivals[n].ip);
    var before, calls := CallsOf(arrivals[..n], arrivals[n].ip), CallsOf(arrivals, arrivals[n].ip);
    assert calls == before + [Call(arrivals[n].at, 1.0)];
    assert calls[..|calls| - 1] == before;
  }

  // Counting datagrams is adding up admitted costs.
  lemma {:induction false} PassedIsSpent(l: Limits, arrivals: seq<Arrival>, ip: Ip, k: nat, start: real)
    requires k <= |arrivals|
    requires CallsOf(arrivals, ip) != [] ==> start == CallsOf(arrivals, ip)[0].at
    ensures |CallsOf(arrivals[..k], ip)| <= |CallsOf(arrivals, ip)|
    ensures Passed(l, arrivals, ip, k) as real == Spent(Full(l, start), CallsOf(arrivals, ip), |CallsOf(arrivals[..k], ip)|)
  {
    hide Drawn, Full, Buckets, Passes, Admitted;
    var n := |arrivals| - 1;
    CallsGrow(arrivals, ip, k);
    if k == |arrivals| {
      assert arrivals[..k] == arrivals;
    } else {
      var init := arrivals[..n];
      var before, calls := CallsOf(init, ip), CallsOf(arrivals, ip);
      assert init[..k] == arrivals[..k];
      CallsGrow(init, ip, k);
      PassedIsSpent(l, init, ip, k, start);
      if arrivals[n].ip == ip {
        LastPasses(l, arrivals, start);
        SpentGrows(Full(l, start), calls, |CallsOf(arrivals[..k], ip)|);
      } else {
        assert calls == before;
      }
    }
  }

  predicate InOrder(arrivals: seq<Arrival>) {
    forall i, j | 0 <= i < j < |arrivals| :: arrivals[i].at <= arrivals[j].at
  }

  // The calls of one address are in order, and lie between the arrivals they come from.
  lemma {:induction false} CallsInOrder(l: Limits, arrivals: seq<Arrival>, ip: Ip, start: real)
    requires InOrder(arrivals) && l.rate >= 0.0 && l.burst >= 0.0
    requires CallsOf(arrivals, ip) != [] ==> start == CallsOf(arrivals, ip)[0].at
    ensures Sensible(Full(l, start), CallsOf(arrivals, ip))
    ensures forall c | c in CallsOf(arrivals, ip) :: c.at <= arrivals[|arrivals| - 1].at
  {
    if arrivals != [] {
      var calls := CallsOf(arrivals, ip);
      var init := arrivals[..|arrivals| - 1];
      var before := CallsOf(init, ip);
      assert before != [] ==> calls[0] == before[0];
      CallsInOrder(l, init, ip, start);
      forall i | 0 <= i < |calls| ensures calls[i].cost >= 0.0 && Now(Full(l, start), calls[..i]) <= calls[i].at {
        if i < |before| {
          assert calls[..i] == before[..i] && calls[i] == before[i];
        } else if i > 0 {
          assert calls[..i] == before && before[i - 1] in before;
        }
      }
    }
  }

  lemma {:induction false} LaterCalls(arrivals: seq<Arrival>, ip: Ip, k: nat)
    requires InOrder(arrivals) && k < |arrivals|
    ensures |CallsOf(arrivals[..k], ip)| <= |CallsOf(arrivals, ip)|
    ensures forall i | |CallsOf(arrivals[..k], ip)| <= i < |CallsOf(arrivals, ip)| :: arrivals[k].at <= CallsOf(arrivals, ip)[i].at
  {
    var init := arrivals[..|arrivals| - 1];
    assert init[..|init|] == init;
    if k < |init| {
      assert init[..k] == arrivals[..k];
      LaterCalls(init, ip, k);
    }
  }

  // Whatever arrives in between, from k on at most burst + rate * elapsed datagrams of one address
  // get past the limiter.
  lemma AtMostBurstPlusRate(l: Limits, arrivals: seq<Arrival>, ip: Ip, k: nat)
    requires InOrder(arrivals) && l.rate >= 0.0 && l.burst >= 0.0 && k < |arrivals|
    ensures Passed(l, arrivals, ip, k) as real <= l.burst + Refill(l.rate, arrivals[k].at, arrivals[|arrivals| - 1].at)
  {
    hide CallsOf, Passed, Refill;
    var calls := CallsOf(arrivals, ip);
    var p := |CallsOf(arrivals[..k], ip)|;
    var start := if calls == [] then 0.0 else calls[0].at;
    PassedIsSpent(l, arrivals, ip, k, start);
    CallsInOrder(l, arrivals, ip, start);
    LaterCalls(arrivals, ip, k);
    var from, to := arrivals[k].at, arrivals[|arrivals| - 1].at;
    if p < |calls| {
      var last := calls[|calls| - 1];
      assert last in calls;
      IntervalBound(Full(l, start), calls, p);
      CallsSpan(l, calls, p, start);
      RefillAdds(l.rate, from, calls[p].at, to);
      RefillAdds(l.rate, calls[p].at, last.at, to);
      RefillAdds(l.rate, last.at, to, to);
    }
    RefillAdds(l.rate, from, to, to);
  }

  lemma {:induction false} CallsSpan(l: Limits, calls: seq<Call>, p: nat, start: real)
    requires Sensible(Full(l, start), calls) && p < |calls|
    ensures calls[p].at <= calls[|calls| - 1].at
    decreases |calls| - p
  {
    if p + 1 < |calls| {
      CallsSpan(l, calls, p + 1, start);
      assert Now(Full(l, start), calls[..p + 1]) <= calls[p + 1].at;
    }
  }

  // ---------- exactly which datagrams pass ----------

  // An arrival from `ip` is a call on its bucket, at the index of the calls before it.
  lemma {:induction false} CallOfArrival(arrivals: seq<Arrival>, ip: Ip, j: nat)
    requires j < |arrivals| && arrivals[j].ip == ip
    ensures |CallsOf(arrivals[..j], ip)| < |CallsOf(arrivals, ip)|
    ensures CallsOf(arrivals, ip)[|CallsOf(arrivals[..j], ip)|] == Call(arrivals[j].at, 1.0)
  {
    var init := arrivals[..|arrivals| - 1];
    if j < |init| {
      assert init[..j] == arrivals[..j];
      CallOfArrival(init, ip, j);
    } else {
      assert init == arrivals[..j];
    }
  }

  // And every call is one of those.
  lemma {:induction false} ArrivalOfCall(arrivals: seq<Arrival>, ip: Ip, i: nat) returns (j: nat)
    requires i < |CallsOf(arrivals, ip)|
    ensures j < |arrivals| && arrivals[j].ip == ip && |CallsOf(arrivals[..j], ip)| == i
  {
    var init := arrivals[..|arrivals| - 1];
    if i < |CallsOf(init, ip)| {
      j := ArrivalOfCall(init, ip, i);
      assert init[..j] == arrivals[..j];
    } else {
      j := |init|;
    }
  }

  // Arrival k, and the earlier arrival j of the same address: counting from j, one more is within the
  // burst and what the rate has added since.
  predicate WithinSince(l: Limits, arrivals: seq<Arrival>, j: nat, k: nat)
    requires j < k < |arrivals|
  {
    1.0 + Passed(l, arrivals[..k], arrivals[k].ip, j) as real <= l.burst + l.rate * (arrivals[k].at - arrivals[j].at)
  }

  // A datagram passes exactly if the burst allows one at all and, counted from every earlier arrival of
  // its address, one more stays within burst + rate * elapsed. What other addresses send is nowhere in it.
  lemma PassesIff(l: Limits, arrivals: seq<Arrival>, k: nat)
    requires k < |arrivals|
    ensures Passes(l, arrivals, k)
       <==> 1.0 <= l.burst && forall j | 0 <= j < k && arrivals[j].ip == arrivals[k].ip :: WithinSince(l, arrivals, j, k)
  {
    hide Passes, Passed, CallsOf, Admitted, Drawn, Spent, After, Refill, WithinSince, Buckets;
    var ip, before, t := arrivals[k].ip, arrivals[..k], arrivals[k].at;
    var calls := CallsOf(before, ip);
    var start := if calls == [] then t else calls[0].at;
    LastVerdict(l, arrivals, k, start);
    AdmitsExactly(Full(l, start), calls, Call(t, 1.0));
    FromTheStart(l, calls, start, t);
    if Passes(l, arrivals, k) {
      forall j | 0 <= j < k && arrivals[j].ip == ip ensures WithinSince(l, arrivals, j, k) {
        SinceArrival(l, arrivals, j, k, start);
      }
    } else if 1.0 <= l.burst {
      assert SinceStart(Full(l, start), calls, t) < 1.0 ==> FullSince(Full(l, start), calls, 0, t) < 1.0;
      var i :| 0 <= i < |calls| && FullSince(Full(l, start), calls, i, t) < 1.0;
      var j := ArrivalOfCall(before, ip, i);
      SinceArrival(l, arrivals, j, k, start);
    }
  }

  lemma LastVerdict(l: Limits, arrivals: seq<Arrival>, k: nat, start: real)
    requires k < |arrivals|
    requires var calls := CallsOf(arrivals[..k], arrivals[k].ip); start == if calls == [] then arrivals[k].at else calls[0].at
    ensures Passes(l, arrivals, k)
         == Drawn(After(Full(l, start), CallsOf(arrivals[..k], arrivals[k].ip)), arrivals[k].at, 1.0).1
  {
    hide Drawn, Full;
    Independent(l, arrivals[..k], arrivals[k].ip);
  }

  // A bucket made full at the first call has nothing of its own left to say.
  lemma FromTheStart(l: Limits, calls: seq<Call>, start: real, t: real)
    requires start == if calls == [] then t else calls[0].at
    ensures SinceStart(Full(l, start), calls, t) == if calls == [] then l.burst else FullSince(Full(l, start), calls, 0, t)
    ensures Full(l, start).burst == l.burst
  {
    RefillAdds(l.rate, t, t, t);
  }

  lemma SinceArrival(l: Limits, arrivals: seq<Arrival>, j: nat, k: nat, start: real)
    requires j < k < |arrivals| && arrivals[j].ip == arrivals[k].ip
    requires CallsOf(arrivals[..k], arrivals[k].ip) != [] ==> start == CallsOf(arrivals[..k], arrivals[k].ip)[0].at
    ensures var ip, before := arrivals[k].ip, arrivals[..k];
            var i := |CallsOf(before[..j], ip)|;
            && i < |CallsOf(before, ip)|
            && (WithinSince(l, arrivals, j, k) <==> 1.0 <= FullSince(Full(l, start), CallsOf(before, ip), i, arrivals[k].at))
  {
    hide Passed, CallsOf, Spent, Drawn, Admitted, After;
    CallOfArrival(arrivals[..k], arrivals[k].ip, j);
    PassedIsSpent(l, arrivals[..k], arrivals[k].ip, j, start);
  }

  function CountOf(arrivals: seq<Arrival>, ip: Ip): nat {
    if arrivals == [] then 0 else CountOf(arrivals[..|arrivals| - 1], ip) + if arrivals[|arrivals| - 1].ip == ip then 1 else 0
  }

  lemma {:induction false} PassedAtMostCount(l: Limits, arrivals: seq<Arrival>, ip: Ip, j: nat)
    requires j <= |arrivals|
    ensures Passed(l, arrivals, ip, j) <= CountOf(arrivals, ip)
  {
    hide Passes;
    if j < |arrivals| {
      PassedAtMostCount(l, arrivals[..|arrivals| - 1], ip, j);
    }
  }

  // So the first floor(burst) datagrams of every address pass, its first of all.
  lemma FirstBurstPasses(l: Limits, arrivals: seq<Arrival>, k: nat)
    requires InOrder(arrivals) && l.rate >= 0.0 && k < |arrivals|
    requires 1.0 + CountOf(arrivals[..k], arrivals[k].ip) as real <= l.burst
    ensures Passes(l, arrivals, k)
  {
    hide Passes, Passed, CountOf;
    PassesIff(l, arrivals, k);
    forall j | 0 <= j < k && arrivals[j].ip == arrivals[k].ip ensures WithinSince(l, arrivals, j, k) {
      PassedAtMostCount(l, arrivals[..k], arrivals[k].ip, j);
      assert arrivals[j].at <= arrivals[k].at;
      assert l.rate * (arrivals[k].at - arrivals[j].at) >= 0.0;
    }
  }

  class RateLimiter {
    const limits: Limits
    var buckets: map<Ip, TokenBucket>
    ghost var model: map<Ip, Bucket>

    ghost predicate Valid()
      reads this, buckets.Values
    {
      && buckets.Keys == model.Keys
      && (forall ip | ip in buckets :: buckets[ip].View() == model[ip])
      && (forall a, b | a in buckets && b in buckets && a != b :: buckets[a] != buckets[b])
    }

    constructor (limits: Limits)
      ensures Valid() && model == map[] && this.limits == limits && fresh(buckets.Values)
    {
      this.limits := limits;
      buckets, model := map[], map[];
    }

    method RateAllow(ip: Ip, now: real) returns (ok: bool)
      requires Valid()
      modifies this, buckets.Values
      ensures Valid() && fresh(buckets.Values - old(buckets.Values))
      ensures (model, ok) == Charged(limits, old(model), ip, now)
    {
      if ip !in buckets {
        var bucket := new TokenBucket(limits.rate, limits.burst, now);
        buckets := buckets[ip := bucket];
      }
      model := Charged(limits, model, ip, now).0;
      ok := buckets[ip].Allow(now, 1.0);
    }
  }
}
