/** The per-tenant token bucket. Times are seconds on a monotonic clock; amounts are reals, so
    floating-point rounding is not part of the model. */
module RateLimiter {

  /** The value of a bucket between calls. */
  datatype Bucket = Bucket(tokens: real, capacity: real, refill: real, last: real)

  predicate Sound(b: Bucket)
  {
    0.0 <= b.tokens <= b.capacity && 0.0 <= b.refill
  }

  function Min(x: real, y: real): real { if x < y then x else y }

  function Full(capacity: real, refill: real, now: real): Bucket
  {
    Bucket(capacity, capacity, refill, now)
  }

  /** Tokens that flow in between two times. */
  function Pour(refill: real, from: real, to: real): real
  {
    (to - from) * refill
  }

  /** Tokens available at a later time. */
  function Level(b: Bucket, now: real): real
  {
    Min(b.tokens + Pour(b.refill, b.last, now), b.capacity)
  }

  lemma PourAdds(refill: real, a: real, b: real, c: real)
    ensures Pour(refill, a, b) + Pour(refill, b, c) == Pour(refill, a, c)
  {
  }

  lemma PourMonotone(refill: real, a: real, b: real, s: real, t: real)
    requires 0.0 <= refill && 0.0 <= b - a <= t - s
    ensures 0.0 <= Pour(refill, a, b) <= Pour(refill, s, t)
  {
    assert Pour(refill, s, t) - Pour(refill, a, b) == ((t - s) - (b - a)) * refill;
  }

  predicate Admits(b: Bucket, now: real) { Level(b, now) >= 1.0 }

  function After(b: Bucket, now: real): Bucket
  {
    b.(tokens := if Admits(b, now) then Level(b, now) - 1.0 else Level(b, now), last := now)
  }

  lemma Grows(b: Bucket, now: real)
    requires Sound(b) && b.last <= now
    ensures b.tokens <= Level(b, now) <= b.capacity
    ensures Sound(After(b, now))
  {
    PourMonotone(b.refill, b.last, now, b.last, now);
  }

  // ---------------------------------------------------------------------------------------
  // Sequences of calls
  // ---------------------------------------------------------------------------------------

  predicate Ordered(b: Bucket, ts: seq<real>)
  {
    && (forall i :: 0 <= i < |ts| ==> b.last <= ts[i])
    && (forall i, j :: 0 <= i <= j < |ts| ==> ts[i] <= ts[j])
  }

  function Final(b: Bucket, ts: seq<real>): Bucket
    decreases |ts|
  {
    if ts == [] then b else Final(After(b, ts[0]), ts[1..])
  }

  /** Which calls of a sequence are admitted. */
  function Outcomes(b: Bucket, ts: seq<real>): (os: seq<bool>)
    ensures |os| == |ts|
    decreases |ts|
  {
    if ts == [] then [] else [Admits(b, ts[0])] + Outcomes(After(b, ts[0]), ts[1..])
  }

  function Count(os: seq<bool>): nat
    decreases |os|
  {
    if os == [] then 0 else (if os[0] then 1 else 0) + Count(os[1..])
  }

  lemma {:induction false} StaysSound(b: Bucket, ts: seq<real>)
    requires Sound(b) && Ordered(b, ts)
    ensures Sound(Final(b, ts)) && Final(b, ts).capacity == b.capacity && Final(b, ts).refill == b.refill
    ensures Final(b, ts).last == if ts == [] then b.last else ts[|ts| - 1]
    decreases |ts|
  {
    if ts != [] {
      Grows(b, ts[0]);
      StaysSound(After(b, ts[0]), ts[1..]);
    }
  }

  /** One call: what it spends and leaves is what was there and flowed in. */
  lemma OneCall(b: Bucket, t: real)
    ensures After(b, t).tokens + (if Admits(b, t) then 1.0 else 0.0) <= b.tokens + Pour(b.refill, b.last, t)
  {
  }

  /** Tokens spent never exceed tokens held plus tokens poured in since. */
  lemma {:induction false} Spent(b: Bucket, ts: seq<real>)
    requires Sound(b) && Ordered(b, ts)
    ensures Count(Outcomes(b, ts)) as real + Final(b, ts).tokens <= b.tokens + Pour(b.refill, b.last, Final(b, ts).last)
    decreases |ts|
  {
    if ts != [] {
      var t := ts[0];
      var b' := After(b, t);
      Grows(b, t);
      Spent(b', ts[1..]);
      CountHead(b, ts);
      OneCall(b, t);
      PourAdds(b.refill, b.last, t, Final(b, ts).last);
    }
  }

  lemma CountHead(b: Bucket, ts: seq<real>)
    requires ts != []
    ensures Count(Outcomes(b, ts)) as real
            == (if Admits(b, ts[0]) then 1.0 else 0.0) + Count(Outcomes(After(b, ts[0]), ts[1..])) as real
  {
    var os := Outcomes(After(b, ts[0]), ts[1..]);
    assert ([Admits(b, ts[0])] + os)[1..] == os;
  }

  lemma {:induction false} SplitRun(b: Bucket, ts: seq<real>, n: nat)
    requires n <= |ts|
    ensures Outcomes(b, ts) == Outcomes(b, ts[..n]) + Outcomes(Final(b, ts[..n]), ts[n..])
    decreases |ts|
  {
    if n > 0 {
      SplitRun(After(b, ts[0]), ts[1..], n - 1);
      assert ts[..n][1..] == ts[1..][..n - 1] && ts[n..] == ts[1..][n - 1..];
    } else {
      assert ts[..n] == [] && ts[n..] == ts;
    }
  }

  /** The bucket topped up at a time, with nothing taken. */
  function Topped(b: Bucket, now: real): Bucket
  {
    b.(tokens := Level(b, now), last := now)
  }

  lemma ToppedSame(b: Bucket, ts: seq<real>)
    requires Sound(b) && Ordered(b, ts) && ts != []
    ensures Sound(Topped(b, ts[0])) && Ordered(Topped(b, ts[0]), ts)
    ensures Outcomes(b, ts) == Outcomes(Topped(b, ts[0]), ts)
  {
    Grows(b, ts[0]);
    assert Pour(b.refill, ts[0], ts[0]) == 0.0;
    assert After(b, ts[0]) == After(Topped(b, ts[0]), ts[0]);
  }

  /** The calls of a window get at most a full bucket and what flows in during the window. */
  lemma WindowFromStart(b: Bucket, ts: seq<real>, s: real, t: real)
    requires Sound(b) && Ordered(b, ts) && ts != [] && s <= ts[0] && ts[|ts| - 1] <= t
    ensures Count(Outcomes(b, ts)) as real <= b.capacity + Pour(b.refill, s, t)
  {
    var c := Topped(b, ts[0]);
    ToppedSame(b, ts);
    Spent(c, ts);
    StaysSound(c, ts);
    PourMonotone(b.refill, ts[0], ts[|ts| - 1], s, t);
  }

  lemma {:induction false} WindowIsRun(b: Bucket, ts: seq<real>, m: nat, n: nat)
    requires m <= n <= |ts|
    ensures Outcomes(b, ts)[m..n] == Outcomes(Final(b, ts[..m]), ts[m..n])
  {
    var c := Final(b, ts[..m]);
    SplitRun(b, ts, m);
    SplitRun(c, ts[m..], n - m);
    assert ts[m..][..n - m] == ts[m..n];
    assert Outcomes(b, ts)[m..n] == Outcomes(c, ts[m..])[..n - m];
  }

  lemma WindowBound(b: Bucket, ts: seq<real>, m: nat, n: nat, s: real, t: real)
    requires Sound(b) && Ordered(b, ts) && m <= n <= |ts| && s <= t
    requires forall i :: m <= i < n ==> s <= ts[i] <= t
    ensures Count(Outcomes(b, ts)[m..n]) as real <= b.capacity + Pour(b.refill, s, t)
  {
    WindowIsRun(b, ts, m, n);
    StaysSound(b, ts[..m]);
    PourMonotone(b.refill, s, s, s, t);
    if m < n {
      WindowFromStart(Final(b, ts[..m]), ts[m..n], s, t);
    }
  }

  lemma PourIs(refill: real, s: real, t: real)
    ensures Pour(refill, s, t) == refill * (t - s)
  {
  }

  /** For every sequence of calls at non-decreasing times, the number admitted between times s
      and t is at most the capacity plus the refill rate times t - s. */
  lemma RateBound(b: Bucket, ts: seq<real>, m: nat, n: nat, s: real, t: real)
    requires Sound(b) && Ordered(b, ts) && m <= n <= |ts| && s <= t
    requires forall i :: m <= i < n ==> s <= ts[i] <= t
    ensures Count(Outcomes(b, ts)[m..n]) as real <= b.capacity + b.refill * (t - s)
  {
    hide *;
    WindowBound(b, ts, m, n, s, t);
    PourIs(b.refill, s, t);
  }

  // ---------------------------------------------------------------------------------------
  // Nobody is refused who has a token
  // ---------------------------------------------------------------------------------------

  /** Tokens held and poured in since, cut at the capacity. */
  function Available(b: Bucket, t: real): real
  {
    var all := b.tokens + b.refill * (t - b.last);
    if all < b.capacity then all else b.capacity
  }

  /** A call is admitted exactly when a whole token is available, and takes exactly one. */
  lemma CallTakesOne(b: Bucket, t: real)
    ensures Admits(b, t) <==> Available(b, t) >= 1.0
    ensures After(b, t) == Bucket(if Available(b, t) >= 1.0 then Available(b, t) - 1.0 else Available(b, t), b.capacity, b.refill, t)
  {
    PourIs(b.refill, b.last, t);
  }

  /** As many calls are admitted as there are tokens to begin with, whenever they come. */
  lemma {:induction false} TokensAdmit(b: Bucket, ts: seq<real>)
    requires Sound(b) && Ordered(b, ts) && b.tokens >= |ts| as real
    ensures AllTrue(Outcomes(b, ts))
    decreases |ts|
  {
    if ts != [] {
      Grows(b, ts[0]);
      TokensAdmit(After(b, ts[0]), ts[1..]);
    }
  }

  function Times(t: real, n: nat): seq<real>
  {
    seq(n, _ => t)
  }

  /** At any time, as many calls in a row are admitted as whole tokens are available. */
  lemma BurstAdmitted(b: Bucket, t: real, n: nat)
    requires Sound(b) && b.last <= t && Available(b, t) >= n as real
    ensures AllTrue(Outcomes(b, Times(t, n)))
  {
    AvailableIs(b, t);
    LevelAdmits(b, t, n);
  }

  lemma AvailableIs(b: Bucket, t: real)
    ensures Available(b, t) == Level(b, t)
  {
    PourIs(b.refill, b.last, t);
  }

  lemma LevelAdmits(b: Bucket, t: real, n: nat)
    requires Sound(b) && b.last <= t && Level(b, t) >= n as real
    ensures AllTrue(Outcomes(b, Times(t, n)))
  {
    if n > 0 {
      Grows(b, t);
      ToppedSame(b, Times(t, n));
      TokensAdmit(Topped(b, t), Times(t, n));
    }
  }

  /** And no more than that: the next one at the same time is refused. */
  lemma {:induction false} BurstEnds(b: Bucket, t: real, n: nat)
    requires Sound(b) && b.last == t && n as real <= b.tokens < n as real + 1.0
    ensures Outcomes(b, Times(t, n + 1))[n] == false
    decreases n
  {
    PourIs(b.refill, t, t);
    assert Times(t, n + 1)[1..] == Times(t, n);
    CallTakesOne(b, t);
    if n > 0 {
      BurstEnds(After(b, t), t, n - 1);
    }
  }

  // ---------------------------------------------------------------------------------------
  // Refused calls leave no trace
  // ---------------------------------------------------------------------------------------

  /** Refilling in two steps is refilling once. */
  lemma LazyRefill(b: Bucket, u: real, t: real)
    requires Sound(b) && b.last <= u <= t
    ensures Level(Topped(b, u), t) == Level(b, t)
  {
    PourAdds(b.refill, b.last, u, t);
    PourMonotone(b.refill, b.last, u, b.last, u);
    PourMonotone(b.refill, u, t, u, t);
  }

  /** Two buckets that will always hold the same. */
  predicate Alike(b: Bucket, c: Bucket, now: real)
  {
    b.capacity == c.capacity && b.refill == c.refill && Sound(b) && Sound(c)
    && b.last <= now && c.last <= now && Level(b, now) == Level(c, now)
  }

  lemma AlikeLater(b: Bucket, c: Bucket, u: real, t: real)
    requires Alike(b, c, u) && u <= t
    ensures Alike(b, c, t)
  {
    LazyRefill(b, u, t);
    LazyRefill(c, u, t);
    Grows(b, u);
    Grows(c, u);
    assert Topped(b, u) == Topped(c, u);
  }

  function Admitted(b: Bucket, ts: seq<real>): (as_: seq<real>)
    decreases |ts|
  {
    if ts == [] then []
    else (if Admits(b, ts[0]) then [ts[0]] else []) + Admitted(After(b, ts[0]), ts[1..])
  }

  ghost predicate AllTrue(os: seq<bool>) { forall i :: 0 <= i < |os| ==> os[i] }

  /** Dropping every refused call from a sequence changes no other outcome and, at any later
      time, no level: a refused call never affects a later one. */
  lemma {:induction false} RefusedCallsInvisible(b: Bucket, c: Bucket, ts: seq<real>, now: real)
    requires Ordered(b, ts) && Ordered(c, ts) && (ts == [] ==> Alike(b, c, now)) && (ts != [] ==> Alike(b, c, ts[0]))
    requires forall i :: 0 <= i < |ts| ==> ts[i] <= now
    ensures AllTrue(Outcomes(c, Admitted(b, ts)))
    ensures Alike(Final(b, ts), Final(c, Admitted(b, ts)), now)
    decreases |ts|
  {
    if ts != [] {
      var t, rest := ts[0], ts[1..];
      var next := if rest == [] then now else rest[0];
      Grows(b, t);
      Grows(c, t);
      AlikeLater(b, c, t, next);
      if Admits(b, t) {
        var b', c' := After(b, t), After(c, t);
        assert Level(b', t) == b'.tokens && Level(c', t) == c'.tokens;
        AlikeLater(b', c', t, next);
        RefusedCallsInvisible(b', c', rest, now);
        assert ([t] + Admitted(b', rest))[1..] == Admitted(b', rest);
        assert Admitted(b, ts) == [t] + Admitted(b', rest);
      } else {
        LazyRefill(b, t, next);
        RefusedCallsInvisible(After(b, t), c, rest, now);
        assert Admitted(b, ts) == Admitted(After(b, t), rest);
      }
    }
  }

  // ---------------------------------------------------------------------------------------
  // The retry hint
  // ---------------------------------------------------------------------------------------

  /** Whole seconds a refused caller is told to wait. */
  function Retry(b: Bucket): int
    requires b.tokens >= 1.0 || b.refill > 0.0
  {
    if 1.0 - b.tokens <= 0.0 then 0 else ((1.0 - b.tokens) / b.refill).Floor + 1
  }

  /** A waiting time reaches a whole token exactly when it covers the missing part. */
  lemma EnoughIff(missing: real, refill: real, wait: real)
    requires refill > 0.0
    ensures wait >= missing / refill <==> wait * refill >= missing
  {
    var need := missing / refill;
    assert need * refill == missing;
    if wait >= need {
      assert (wait - need) * refill >= 0.0;
    } else {
      assert (need - wait) * refill > 0.0;
    }
  }

  /** After a refusal, with no other call, waiting the hinted seconds always admits and waiting
      less than a second short of them never does. */
  lemma RetryHintIsRight(b: Bucket, wait: real)
    requires Sound(b) && b.capacity >= 1.0 && b.refill > 0.0 && b.tokens < 1.0 && wait >= 0.0
    ensures wait >= Retry(b) as real ==> Admits(b, b.last + wait)
    ensures wait < (Retry(b) - 1) as real ==> !Admits(b, b.last + wait)
  {
    EnoughIff(1.0 - b.tokens, b.refill, wait);
    assert Pour(b.refill, b.last, b.last + wait) == wait * b.refill;
  }

  // ---------------------------------------------------------------------------------------
  // Many tenants
  // ---------------------------------------------------------------------------------------

  /** A request of a tenant: its bucket is fetched at one clock reading, consumed from at another. */
  datatype Call = Call(tenant: string, got: real, at: real)

  datatype Limits = Limits(capacity: real, refill: real)

  function BucketFor(m: map<string, Bucket>, l: Limits, c: Call): Bucket
  {
    if c.tenant in m then m[c.tenant] else Full(l.capacity, l.refill, c.got)
  }

  function Serve(m: map<string, Bucket>, l: Limits, c: Call): map<string, Bucket>
  {
    m[c.tenant := After(BucketFor(m, l, c), c.at)]
  }

  /** The outcomes of one tenant's calls among everybody's. */
  function OutcomesOf(m: map<string, Bucket>, l: Limits, calls: seq<Call>, x: string): seq<bool>
    decreases |calls|
  {
    if calls == [] then []
    else
      (if calls[0].tenant == x then [Admits(BucketFor(m, l, calls[0]), calls[0].at)] else [])
      + OutcomesOf(Serve(m, l, calls[0]), l, calls[1..], x)
  }

  function TimesOf(calls: seq<Call>, x: string): seq<real>
    decreases |calls|
  {
    if calls == [] then []
    else (if calls[0].tenant == x then [calls[0].at] else []) + TimesOf(calls[1..], x)
  }

  /** A tenant's outcomes depend on its own bucket and its own calls only. */
  lemma {:induction false} TenantsAreIsolated(m: map<string, Bucket>, l: Limits, calls: seq<Call>, x: string)
    requires x in m
    ensures OutcomesOf(m, l, calls, x) == Outcomes(m[x], TimesOf(calls, x))
    decreases |calls|
  {
    if calls != [] {
      var c := calls[0];
      TenantsAreIsolated(Serve(m, l, c), l, calls[1..], x);
      if c.tenant == x {
        var ts := TimesOf(calls[1..], x);
        assert ([c.at] + ts)[1..] == ts;
      } else {
        assert TimesOf(calls, x) == TimesOf(calls[1..], x);
        assert OutcomesOf(m, l, calls, x) == OutcomesOf(Serve(m, l, c), l, calls[1..], x);
      }
    }
  }

  ghost predicate InOrder(calls: seq<Call>)
  {
    forall i, j :: 0 <= i <= j < |calls| ==> calls[i].got <= calls[i].at <= calls[j].at
  }

  lemma {:induction false} TimesInOrder(calls: seq<Call>, x: string)
    requires InOrder(calls)
    ensures forall i, j :: 0 <= i <= j < |TimesOf(calls, x)| ==> TimesOf(calls, x)[i] <= TimesOf(calls, x)[j]
    ensures forall i :: 0 <= i < |TimesOf(calls, x)| && calls != [] ==> calls[0].at <= TimesOf(calls, x)[i]
    decreases |calls|
  {
    if calls != [] {
      TimesInOrder(calls[1..], x);
      assert |calls| > 1 ==> calls[0].at <= calls[1].at;
    }
  }

  /** From an empty store, a tenant sees one bucket that was full when first asked for. */
  lemma {:induction false} FreshTenant(m: map<string, Bucket>, l: Limits, calls: seq<Call>, x: string) returns (b: Bucket)
    requires x !in m && InOrder(calls) && 0.0 <= l.capacity && 0.0 <= l.refill
    ensures OutcomesOf(m, l, calls, x) == Outcomes(b, TimesOf(calls, x))
    ensures Sound(b) && b.capacity == l.capacity && b.refill == l.refill && Ordered(b, TimesOf(calls, x))
    ensures b.tokens == l.capacity
    decreases |calls|
  {
    TimesInOrder(calls, x);
    if calls == [] {
      b := Full(l.capacity, l.refill, 0.0);
    } else if calls[0].tenant == x {
      b := Full(l.capacity, l.refill, calls[0].got);
      TenantsAreIsolated(Serve(m, l, calls[0]), l, calls[1..], x);
      var ts := TimesOf(calls[1..], x);
      assert ([calls[0].at] + ts)[1..] == ts;
      assert calls[0].got <= calls[0].at;
    } else {
      b := FreshTenant(Serve(m, l, calls[0]), l, calls[1..], x);
      assert TimesOf(calls, x) == TimesOf(calls[1..], x);
    }
  }

  /** In any interleaving of all tenants' calls, no tenant is admitted more than capacity plus
      refill times the width of the window. */
  lemma TenantRateBound(l: Limits, calls: seq<Call>, x: string, m: nat, n: nat, s: real, t: real)
    requires InOrder(calls) && 0.0 <= l.capacity && 0.0 <= l.refill && s <= t
    requires m <= n <= |TimesOf(calls, x)| && forall i :: m <= i < n ==> s <= TimesOf(calls, x)[i] <= t
    ensures |OutcomesOf(map[], l, calls, x)| == |TimesOf(calls, x)|
    ensures Count(OutcomesOf(map[], l, calls, x)[m..n]) as real <= l.capacity + l.refill * (t - s)
  {
    hide *;
    var b := FreshTenant(map[], l, calls, x);
    RateBound(b, TimesOf(calls, x), m, n, s, t);
  }

  /** From an empty store a tenant's first calls are all admitted, as many as the capacity allows, whenever they come
      and whatever the others do. */
  lemma FirstCallsAdmitted(l: Limits, calls: seq<Call>, x: string, n: nat)
    requires InOrder(calls) && 0.0 <= l.refill && n as real <= l.capacity && n <= |TimesOf(calls, x)|
    ensures |OutcomesOf(map[], l, calls, x)| == |TimesOf(calls, x)| && AllTrue(OutcomesOf(map[], l, calls, x)[..n])
  {
    var b := FreshTenant(map[], l, calls, x);
    var ts := TimesOf(calls, x);
    SplitRun(b, ts, n);
    TokensAdmit(b, ts[..n]);
  }

  // ---------------------------------------------------------------------------------------
  // The mutable bucket and store
  // ---------------------------------------------------------------------------------------

  class TokenBucket {
    var tokens: real
    const capacity: real
    const refill: real
    var lastRefill: real

    constructor (capacity: real, refill: real, now: real)
      ensures Value() == Full(capacity, refill, now)
    {
      this.tokens, this.capacity, this.refill, this.lastRefill := capacity, capacity, refill, now;
    }

    function Value(): Bucket
      reads this
    {
      Bucket(tokens, capacity, refill, lastRefill)
    }

    method Consume(now: real) returns (ok: bool)
      modifies this
      ensures Value() == After(old(Value()), now) && ok == Admits(old(Value()), now)
      ensures ok <==> Available(old(Value()), now) >= 1.0
      ensures tokens == Available(old(Value()), now) - (if ok then 1.0 else 0.0) && lastRefill == now
    {
      CallTakesOne(Value(), now);
      var elapsed := now - lastRefill;
      tokens := tokens + elapsed * refill;
      if tokens > capacity {
        tokens := capacity;
      }
      lastRefill := now;
      assert tokens == Level(old(Value()), now);
      if tokens >= 1.0 {
        tokens := tokens - 1.0;
        return true;
      }
      return false;
    }

    method RemainingTokens(now: real) returns (r: real)
      ensures r == Level(Value(), now)
    {
      var elapsed := now - lastRefill;
      r := tokens + elapsed * refill;
      if r > capacity {
        r := capacity;
      }
    }

    method RetryAfter() returns (seconds: int)
      requires tokens >= 1.0 || refill > 0.0
      ensures seconds == Retry(Value())
    {
      var tokensNeeded := 1.0 - tokens;
      if tokensNeeded <= 0.0 {
        return 0;
      }
      seconds := (tokensNeeded / refill).Floor + 1;
    }
  }

  class RateLimiterStore {
    var buckets: map<string, TokenBucket>
    const limits: Limits

    constructor (limits: Limits)
      ensures Valid() && Values() == map[] && this.limits == limits
    {
      this.buckets, this.limits := map[], limits;
    }

    ghost predicate Valid()
      reads this
    {
      forall x, y :: x in buckets && y in buckets && x != y ==> buckets[x] != buckets[y]
    }

    function Values(): map<string, Bucket>
      reads this, buckets.Values
    {
      map x | x in buckets :: buckets[x].Value()
    }

    method GetBucket(tenant: string, now: real) returns (b: TokenBucket)
      requires Valid()
      modifies this
      ensures Valid() && tenant in buckets && buckets[tenant] == b
      ensures b.Value() == BucketFor(old(Values()), limits, Call(tenant, now, now))
      ensures forall x :: x in old(buckets) ==> x in buckets && buckets[x] == old(buckets[x])
      ensures forall x :: x in buckets && x != tenant ==> x in old(buckets)
      ensures old(tenant in buckets) ==> buckets == old(buckets)
      ensures old(tenant !in buckets) ==> fresh(b)
    {
      if tenant in buckets {
        b := buckets[tenant];
      } else {
        b := new TokenBucket(limits.capacity, limits.refill, now);
        buckets := buckets[tenant := b];
      }
    }

    /** What the middleware does for one request: fetch the tenant's bucket, take a token. */
    method Allow(tenant: string, got: real, at: real) returns (ok: bool)
      requires Valid()
      modifies this, buckets.Values
      ensures Valid() && Values() == Serve(old(Values()), limits, Call(tenant, got, at))
      ensures ok == Admits(BucketFor(old(Values()), limits, Call(tenant, got, at)), at)
    {
      var b := GetBucket(tenant, got);
      ok := b.Consume(at);
    }
  }
}
