// The token bucket of fastudp/security.py, over the reals.
module TokenBuckets {
  import opened Common

  datatype Bucket = Bucket(rate: real, burst: real, tokens: real, updated: real)

  // What the rate adds between two times.
  function Refill(rate: real, from: real, to: real): real {
    (to - from) * rate
  }

  lemma RefillAdds(rate: real, a: real, b: real, c: real)
    ensures Refill(rate, a, c) == Refill(rate, a, b) + Refill(rate, b, c)
    ensures Refill(rate, a, a) == 0.0
    ensures rate >= 0.0 && a <= b ==> Refill(rate, a, b) >= 0.0
  {
  }

  // allow(cost) at time `now`: the new bucket and the verdict.
  function Drawn(b: Bucket, now: real, cost: real): (Bucket, bool) {
    var level := Min(b.burst, b.tokens + Refill(b.rate, b.updated, now));
    if level >= cost then (b.(tokens := level - cost, updated := now), true)
    else (b.(tokens := level, updated := now), false)
  }

  datatype Call = Call(at: real, cost: real)

  function After(b: Bucket, calls: seq<Call>): Bucket {
    if calls == [] then b else Drawn(After(b, calls[..|calls| - 1]), calls[|calls| - 1].at, calls[|calls| - 1].cost).0
  }

  predicate Admitted(b: Bucket, calls: seq<Call>, k: nat)
    requires k < |calls|
  {
    Drawn(After(b, calls[..k]), calls[k].at, calls[k].cost).1
  }

  // The cost admitted from call k on.
  function Spent(b: Bucket, calls: seq<Call>, k: nat): real
    requires k <= |calls|
    decreases |calls| - k
  {
    if k == |calls| then 0.0 else (if Admitted(b, calls, k) then calls[k].cost else 0.0) + Spent(b, calls, k + 1)
  }

  // When the last of `calls` was made.
  function Now(b: Bucket, calls: seq<Call>): real {
    if calls == [] then b.updated else calls[|calls| - 1].at
  }

  // What a bucket full at call k has left at time `now`, after the admissions from k on.
  function FullSince(b: Bucket, calls: seq<Call>, k: nat, now: real): real
    requires k < |calls|
  {
    b.burst + Refill(b.rate, calls[k].at, now) - Spent(b, calls, k)
  }

  // What the initial tokens have left.
  function SinceStart(b: Bucket, calls: seq<Call>, now: real): real {
    b.tokens + Refill(b.rate, b.updated, now) - Spent(b, calls, 0)
  }

  // One more call adds its cost, if admitted, to every sum.
  lemma {:induction false} SpentGrows(b: Bucket, calls: seq<Call>, k: nat)
    requires k < |calls|
    ensures var init := calls[..|calls| - 1];
            Spent(b, calls, k) == Spent(b, init, k) + (if Admitted(b, calls, |calls| - 1) then calls[|calls| - 1].cost else 0.0)
    decreases |calls| - k
  {
    var init := calls[..|calls| - 1];
    if k < |init| {
      assert init[..k] == calls[..k];
      SpentGrows(b, calls, k + 1);
    } else {
      assert Spent(b, calls, k + 1) == 0.0;
    }
  }

  // The closed form: after any calls, the tokens are the least of what each "full at call k" and the
  // start would have left.
  lemma {:induction false} ClosedForm(b: Bucket, calls: seq<Call>)
    ensures var after := After(b, calls);
            var now := Now(b, calls);
            && after.rate == b.rate && after.burst == b.burst && after.updated == now
            && after.tokens <= SinceStart(b, calls, now)
            && (forall k | 0 <= k < |calls| :: after.tokens <= FullSince(b, calls, k, now))
            && (after.tokens == SinceStart(b, calls, now) || exists k :: 0 <= k < |calls| && after.tokens == FullSince(b, calls, k, now))
  {
    hide Refill, Admitted;
    if calls == [] {
      RefillAdds(b.rate, b.updated, b.updated, b.updated);
    } else {
      var init := calls[..|calls| - 1];
      var n := |init|;
      ClosedForm(b, init);
      var before, was, now := After(b, init), Now(b, init), calls[n].at;
      var gain := Refill(b.rate, was, now);
      var paid := if Admitted(b, calls, n) then calls[n].cost else 0.0;
      assert init[..n] == init && calls[..n] == init;
      var after := After(b, calls);
      assert after.tokens == Min(b.burst, before.tokens + gain) - paid by {
        PaidByAdmission(b, calls);
      }
      RefillAdds(b.rate, b.updated, was, now);
      SpentGrows(b, calls, 0);
      assert SinceStart(b, calls, now) == SinceStart(b, init, was) + gain - paid;
      forall k | 0 <= k < n
        ensures FullSince(b, calls, k, now) == FullSince(b, init, k, was) + gain - paid
      {
        SpentGrows(b, calls, k);
        RefillAdds(b.rate, calls[k].at, was, now);
      }
      SpentGrows(b, calls, n);
      RefillAdds(b.rate, now, now, now);
      assert FullSince(b, calls, n, now) == b.burst - paid;
      if after.tokens != b.burst - paid && before.tokens != SinceStart(b, init, was) {
        var k :| 0 <= k < n && before.tokens == FullSince(b, init, k, was);
        assert after.tokens == FullSince(b, calls, k, now);
      }
    }
  }

  lemma PaidByAdmission(b: Bucket, calls: seq<Call>)
    requires calls != []
    ensures var n := |calls| - 1;
            var before := After(b, calls[..n]);
            After(b, calls).tokens == Min(before.burst, before.tokens + Refill(before.rate, before.updated, calls[n].at))
                                      - (if Admitted(b, calls, n) then calls[n].cost else 0.0)
  {
    hide Refill;
  }

  // The next call is admitted exactly when admitting it keeps every one of those sums non-negative.
  lemma AdmitsExactly(b: Bucket, calls: seq<Call>, next: Call)
    ensures Drawn(After(b, calls), next.at, next.cost).1
       <==> && next.cost <= b.burst
            && next.cost <= SinceStart(b, calls, next.at)
            && forall k | 0 <= k < |calls| :: next.cost <= FullSince(b, calls, k, next.at)
  {
    hide Refill, Admitted, Spent, After;
    ClosedForm(b, calls);
    var after, now := After(b, calls), Now(b, calls);
    RefillAdds(b.rate, b.updated, now, next.at);
    forall k | 0 <= k < |calls|
      ensures FullSince(b, calls, k, next.at) == FullSince(b, calls, k, now) + Refill(b.rate, now, next.at)
    {
      RefillAdds(b.rate, calls[k].at, now, next.at);
    }
    if after.tokens != SinceStart(b, calls, now) {
      var k :| 0 <= k < |calls| && after.tokens == FullSince(b, calls, k, now);
    }
  }

  // Non-negative rate, burst, tokens and costs; calls in order of time.
  predicate Sensible(b: Bucket, calls: seq<Call>) {
    && b.rate >= 0.0 && b.burst >= 0.0 && b.tokens >= 0.0
    && forall k | 0 <= k < |calls| :: calls[k].cost >= 0.0 && Now(b, calls[..k]) <= calls[k].at
  }

  lemma {:induction false} NeverNegative(b: Bucket, calls: seq<Call>)
    requires Sensible(b, calls)
    ensures After(b, calls).tokens >= 0.0
    ensures After(b, calls).rate == b.rate && After(b, calls).burst == b.burst && After(b, calls).updated == Now(b, calls)
  {
    hide Refill;
    if calls != [] {
      var n := |calls| - 1;
      var init := calls[..n];
      forall k | 0 <= k < n ensures init[k].cost >= 0.0 && Now(b, init[..k]) <= init[k].at {
        assert init[..k] == calls[..k] && calls[k].cost >= 0.0;
      }
      NeverNegative(b, init);
      var before, last := After(b, init), calls[n];
      assert last.cost >= 0.0 && Now(b, init) <= last.at;
      RefillAdds(b.rate, Now(b, init), last.at, last.at);
      assert After(b, calls) == Drawn(before, last.at, last.cost).0;
    }
  }

  // Over any interval of calls, from call k to the last, the admitted cost is at most
  // burst + rate * elapsed.
  lemma IntervalBound(b: Bucket, calls: seq<Call>, k: nat)
    requires Sensible(b, calls) && k < |calls|
    ensures Spent(b, calls, k) <= b.burst + Refill(b.rate, calls[k].at, calls[|calls| - 1].at)
  {
    hide Refill, Spent, After;
    NeverNegative(b, calls);
    ClosedForm(b, calls);
    assert After(b, calls).tokens <= FullSince(b, calls, k, Now(b, calls));
  }

  class TokenBucket {
    const rate: real
    const burst: real
    var tokens: real
    var updated: real

    function View(): Bucket
      reads this
    {
      Bucket(rate, burst, tokens, updated)
    }

    constructor (rate: real, burst: real, now: real)
      ensures View() == Bucket(rate, burst, burst, now)
    {
      this.rate, this.burst := rate, burst;
      tokens, updated := burst, now;
    }

    method Allow(now: real, cost: real) returns (ok: bool)
      modifies this
      ensures (View(), ok) == Drawn(old(View()), now, cost)
    {
      var elapsed := now - updated;
      assert elapsed * rate == Refill(rate, updated, now);
      updated := now;
      tokens := Min(burst, tokens + elapsed * rate);
      if tokens >= cost {
        tokens := tokens - cost;
        return true;
      }
      return false;
    }
  }
}
