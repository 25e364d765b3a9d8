/** The AI-query rate limit: refill and consume in one conditional UPDATE. Times are in
    seconds; the columns are SQL doubles, taken here as reals. */
module TokenBucket {
  import opened Foundations

  datatype Limits = Limits(cap: real, perMinute: real) {
    predicate Valid() {
      cap > 0.0 && perMinute > 0.0
    }
  }

  datatype Bucket = Bucket(tokens: real, lastRefillAt: real)

  function Least(x: real, y: real): real {
    if x <= y then x else y
  }

  /** What `elapsed` seconds refill. */
  function Refill(l: Limits, elapsed: real): real {
    elapsed / 60.0 * l.perMinute
  }

  /** LEAST(cap, tokens + elapsed / 60 * rate); elapsed may be negative. */
  function Refilled(l: Limits, b: Bucket, now: real): real {
    Least(l.cap, b.tokens + Refill(l, now - b.lastRefillAt))
  }

  /** The guard: writes only when it admits. */
  function Consume(l: Limits, b: Bucket, now: real): (Bucket, bool) {
    var tokens := Refilled(l, b, now);
    if tokens >= 1.0 then (Bucket(tokens - 1.0, now), true) else (b, false)
  }

  /** A bucket that refills and caps at every request, admitted or not. */
  function ConsumeEagerly(l: Limits, b: Bucket, now: real): (Bucket, bool) {
    var tokens := Refilled(l, b, now);
    if tokens >= 1.0 then (Bucket(tokens - 1.0, now), true) else (Bucket(tokens, now), false)
  }

  function Serve(l: Limits, b: Bucket, times: seq<real>): (Bucket, seq<bool>) {
    if times == [] then (b, [])
    else
      var (c, admitted) := Serve(l, b, times[..|times| - 1]);
      var (d, ok) := Consume(l, c, times[|times| - 1]);
      (d, admitted + [ok])
  }

  function ServeEagerly(l: Limits, b: Bucket, times: seq<real>): (Bucket, seq<bool>) {
    if times == [] then (b, [])
    else
      var (c, admitted) := ServeEagerly(l, b, times[..|times| - 1]);
      var (d, ok) := ConsumeEagerly(l, c, times[|times| - 1]);
      (d, admitted + [ok])
  }

  function Admissions(admitted: seq<bool>): nat {
    if admitted == [] then 0
    else Admissions(admitted[..|admitted| - 1]) + (if admitted[|admitted| - 1] then 1 else 0)
  }

  predicate InRange(l: Limits, b: Bucket) {
    0.0 <= b.tokens <= l.cap
  }

  lemma RefillZero(l: Limits)
    ensures Refill(l, 0.0) == 0.0
  {
    TimesZero(l.perMinute);
  }

  lemma TimesZero(x: real)
    ensures 0.0 * x == 0.0
  {
  }

  lemma RefillAdds(l: Limits, x: real, y: real)
    ensures Refill(l, x) + Refill(l, y) == Refill(l, x + y)
  {
    assert x / 60.0 + y / 60.0 == (x + y) / 60.0;
    Distribute(x / 60.0, y / 60.0, l.perMinute);
  }

  lemma Distribute(x: real, y: real, rate: real)
    ensures x * rate + y * rate == (x + y) * rate
  {
  }

  lemma ConsumeStep(l: Limits, b: Bucket, now: real)
    requires InRange(l, b)
    ensures var (c, ok) := Consume(l, b, now);
            && InRange(l, c)
            && (if ok then 1.0 else 0.0) <= b.tokens - c.tokens + Refill(l, c.lastRefillAt - b.lastRefillAt)
  {
    RefillZero(l);
  }

  /** For every request sequence, timestamps in any order: the tokens stay in [0, cap], and
      the admissions between two states of the bucket are at most its capacity plus what was
      refilled between the two `last_refill_at`. */
  lemma {:induction false} BurstBound(l: Limits, b: Bucket, times: seq<real>)
    requires InRange(l, b)
    ensures var (c, admitted) := Serve(l, b, times);
            && InRange(l, c) && |admitted| == |times|
            && Admissions(admitted) as real <= b.tokens - c.tokens + Refill(l, c.lastRefillAt - b.lastRefillAt)
            && Admissions(admitted) as real <= l.cap + Refill(l, c.lastRefillAt - b.lastRefillAt)
  {
    if times == [] {
      RefillZero(l);
    } else {
      var earlier, now := times[..|times| - 1], times[|times| - 1];
      BurstBound(l, b, earlier);
      var (c, admitted) := Serve(l, b, earlier);
      ConsumeStep(l, c, now);
      var (d, ok) := Consume(l, c, now);
      assert (admitted + [ok])[..|admitted|] == admitted;
      RefillAdds(l, c.lastRefillAt - b.lastRefillAt, d.lastRefillAt - c.lastRefillAt);
    }
  }

  lemma Rated(l: Limits, admissions: real, elapsed: real)
    requires admissions <= l.cap + Refill(l, elapsed)
    ensures admissions <= l.cap + elapsed / 60.0 * l.perMinute
  {
  }

  /** The bound in plain figures, from any state of the bucket to any later one. */
  lemma {:induction false} AdmissionsBounded(l: Limits, from: Bucket, times: seq<real>, to: Bucket, admitted: seq<bool>)
    requires InRange(l, from) && Serve(l, from, times) == (to, admitted)
    ensures Admissions(admitted) as real <= l.cap + (to.lastRefillAt - from.lastRefillAt) / 60.0 * l.perMinute
  {
    BurstBound(l, from, times);
    Rated(l, Admissions(admitted) as real, to.lastRefillAt - from.lastRefillAt);
  }

  lemma ConsumeAtOnce(l: Limits, b: Bucket)
    requires b.tokens <= l.cap
    ensures Consume(l, b, b.lastRefillAt) == if b.tokens >= 1.0 then (Bucket(b.tokens - 1.0, b.lastRefillAt), true)
            else (b, false)
  {
    assert b.lastRefillAt - b.lastRefillAt == 0.0;
    RefillZero(l);
  }

  /** The bound is reached: from a full bucket of a whole capacity, that many requests at one
      instant are admitted and the next one is not. */
  lemma {:induction false} BurstReached(l: Limits, now: real, n: nat)
    requires l.cap >= n as real
    ensures var (c, admitted) := Serve(l, Bucket(l.cap, now), seq(n, _ => now));
            c == Bucket(l.cap - n as real, now) && Admissions(admitted) == n
    ensures l.cap < (n + 1) as real ==> !Consume(l, Bucket(l.cap - n as real, now), now).1
  {
    ConsumeAtOnce(l, Bucket(l.cap - n as real, now));
    if n > 0 {
      BurstReached(l, now, n - 1);
      var times := seq(n, _ => now);
      assert times[..n - 1] == seq(n - 1, _ => now);
      var (c, admitted) := Serve(l, Bucket(l.cap, now), times[..n - 1]);
      assert c == Bucket(l.cap - (n - 1) as real, now);
      ConsumeAtOnce(l, c);
      assert Serve(l, Bucket(l.cap, now), times) == (Bucket(c.tokens - 1.0, now), admitted + [true]);
      assert (admitted + [true])[..|admitted|] == admitted;
    }
  }

  // -------------------------------------------------------------- what was saved is served

  /** What a bucket holds at `now` in plain figures: what it held, what has been refilled
      since, and no more than its capacity. */
  function Saved(l: Limits, b: Bucket, now: real): real {
    var tokens := b.tokens + (now - b.lastRefillAt) / 60.0 * l.perMinute;
    if l.cap <= tokens then l.cap else tokens
  }

  predicate WholeTokens(saved: real, whole: nat) {
    saved < whole as real + 1.0 && (whole == 0 || whole as real <= saved)
  }

  function Fewer(x: nat, y: nat): nat {
    if x <= y then x else y
  }

  /** A bucket that held `saved` at `now`, after `k` admissions at that instant. */
  function After(b: Bucket, saved: real, k: nat, now: real): Bucket {
    if k == 0 then b else Bucket(saved - k as real, now)
  }

  lemma ConsumeTakesOne(l: Limits, b: Bucket, now: real)
    ensures Consume(l, b, now) == if Saved(l, b, now) >= 1.0 then (Bucket(Saved(l, b, now) - 1.0, now), true)
                                  else (b, false)
  {
  }

  lemma CanTakeOneMore(saved: real, whole: nat, k: nat)
    requires k <= whole && WholeTokens(saved, whole)
    ensures saved - k as real >= 1.0 <==> k < whole
    ensures saved - k as real - 1.0 == saved - (k + 1) as real
  {
  }

  lemma OneAfter(l: Limits, b: Bucket, now: real, whole: nat, k: nat)
    requires k <= whole && WholeTokens(Saved(l, b, now), whole)
    ensures var saved := Saved(l, b, now);
            Consume(l, After(b, saved, k, now), now)
            == if k < whole then (After(b, saved, k + 1, now), true) else (After(b, saved, k, now), false)
  {
    CanTakeOneMore(Saved(l, b, now), whole, k);
    if k == 0 {
      ConsumeTakesOne(l, b, now);
    } else {
      ConsumeAtOnce(l, After(b, Saved(l, b, now), k, now));
    }
  }

  lemma {:induction false} ServesWhole(l: Limits, b: Bucket, now: real, whole: nat, n: nat)
    requires WholeTokens(Saved(l, b, now), whole)
    ensures var (c, admitted) := Serve(l, b, seq(n, _ => now));
            && c == After(b, Saved(l, b, now), Fewer(n, whole), now) && |admitted| == n
            && Admissions(admitted) == Fewer(n, whole) && forall i :: 0 <= i < n ==> (admitted[i] <==> i < whole)
  {
    if n > 0 {
      ServesWhole(l, b, now, whole, n - 1);
      var times := seq(n, _ => now);
      assert times[..n - 1] == seq(n - 1, _ => now);
      var (c, admitted) := Serve(l, b, times[..n - 1]);
      OneAfter(l, b, now, whole, Fewer(n - 1, whole));
      assert forall ok :: (admitted + [ok])[..|admitted|] == admitted;
    }
  }

  /** From any bucket, however long it has been idle: of `n` requests at one instant the first
      ones are admitted, one for each of the `whole` tokens saved up by then, and no others. */
  lemma {:induction false} SavedIsServed(l: Limits, b: Bucket, now: real, whole: nat, n: nat)
    requires Saved(l, b, now) < whole as real + 1.0 && (whole == 0 || whole as real <= Saved(l, b, now))
    ensures var (c, admitted) := Serve(l, b, seq(n, _ => now));
            && |admitted| == n && (forall i :: 0 <= i < n ==> (admitted[i] <==> i < whole))
            && Admissions(admitted) == (if n <= whole then n else whole)
            && c == if n == 0 || whole == 0 then b
                    else Bucket(Saved(l, b, now) - (if n <= whole then n else whole) as real, now)
  {
    ServesWhole(l, b, now, whole, n);
  }

  /** The eager bucket lies on the line the lazy one refills along. A bucket that cannot hold
      one token never admits, and its line does not matter. */
  predicate OnOneLine(l: Limits, lazy: Bucket, eager: Bucket) {
    l.cap < 1.0 || eager.tokens == lazy.tokens + Refill(l, eager.lastRefillAt - lazy.lastRefillAt)
  }

  lemma SameRefill(l: Limits, lazy: Bucket, eager: Bucket, now: real)
    requires l.cap >= 1.0 && OnOneLine(l, lazy, eager)
    ensures Refilled(l, eager, now) == Refilled(l, lazy, now)
  {
    RefillAdds(l, eager.lastRefillAt - lazy.lastRefillAt, now - eager.lastRefillAt);
  }

  lemma SameDecision(l: Limits, lazy: Bucket, eager: Bucket, now: real)
    requires OnOneLine(l, lazy, eager)
    ensures Consume(l, lazy, now).1 == ConsumeEagerly(l, eager, now).1
    ensures OnOneLine(l, Consume(l, lazy, now).0, ConsumeEagerly(l, eager, now).0)
  {
    if l.cap >= 1.0 {
      SameRefill(l, lazy, eager, now);
      if Consume(l, lazy, now).1 {
        assert now - now == 0.0;
        RefillZero(l);
      } else {
        RefillAdds(l, eager.lastRefillAt - lazy.lastRefillAt, now - eager.lastRefillAt);
      }
    }
  }

  /** The guard writes nothing when it rejects, and still makes exactly the decisions of a
      bucket that refills and caps at every request, whatever the order of the timestamps:
      a rejection means the cap was not reached, so there was nothing to cut off. */
  lemma {:induction false} LazyRefinesEager(l: Limits, b: Bucket, times: seq<real>)
    ensures Serve(l, b, times).1 == ServeEagerly(l, b, times).1
    ensures OnOneLine(l, Serve(l, b, times).0, ServeEagerly(l, b, times).0)
  {
    if times == [] {
      assert b.lastRefillAt - b.lastRefillAt == 0.0;
      RefillZero(l);
    } else {
      var earlier, now := times[..|times| - 1], times[|times| - 1];
      LazyRefinesEager(l, b, earlier);
      SameDecision(l, Serve(l, b, earlier).0, ServeEagerly(l, b, earlier).0, now);
    }
  }

  // -------------------------------------------------------------------------- the guard

  class AiQuotaGuard {
    const limits: Limits
    // One row per (organization, user).
    var buckets: map<(string, string), Bucket>

    constructor (limits: Limits)
      requires limits.Valid()
      ensures this.limits == limits && buckets == map[]
    {
      this.limits := limits;
      buckets := map[];
    }

    predicate Valid()
      reads this
    {
      limits.Valid() && forall k <- buckets :: InRange(limits, buckets[k])
    }

    /** What a caller has once the insert has run: its bucket, or a full one dated then. */
    function BucketOf(k: (string, string), inserted: real): Bucket
      reads this
    {
      if k in buckets then buckets[k] else Bucket(limits.cap, inserted)
    }

    /** Insert a full bucket if there is none, then one conditional UPDATE, each statement at
        its own instant. A rejected request costs nothing, and no other caller's bucket is
        touched. */
    method ConsumeToken(orgId: string, userId: string, inserted: real, now: real) returns (admitted: bool)
      requires Valid()
      modifies this
      ensures Valid()
      ensures var (after, ok) := Consume(limits, old(BucketOf((orgId, userId), inserted)), now);
              admitted == ok && buckets == old(buckets)[(orgId, userId) := after]
      ensures var b := if (orgId, userId) in old(buckets) then old(buckets)[(orgId, userId)]
                       else Bucket(limits.cap, inserted);
              (admitted <==> Saved(limits, b, now) >= 1.0)
              && buckets[(orgId, userId)] == if admitted then Bucket(Saved(limits, b, now) - 1.0, now) else b
    {
      var k := (orgId, userId);
      if k !in buckets {
        buckets := buckets[k := Bucket(limits.cap, inserted)];
      }
      var b := buckets[k];
      ConsumeStep(limits, b, now);
      var refilled := b.tokens + (now - b.lastRefillAt) / 60.0 * limits.perMinute;
      var tokens := if limits.cap <= refilled then limits.cap else refilled;
      assert tokens == Saved(limits, b, now);
      ConsumeTakesOne(limits, b, now);
      if tokens >= 1.0 {
        buckets := buckets[k := Bucket(tokens - 1.0, now)];
        admitted := true;
      } else {
        admitted := false;
      }
    }

    /** Without a verified organization and user the guard lets through and charges nobody;
        otherwise it allows exactly what the caller's bucket admits. */
    method CanActivate(orgId: Option<string>, userId: Option<string>, inserted: real, now: real) returns (allowed: bool)
      requires Valid()
      modifies this
      ensures Valid()
      ensures if orgId in {None, Some("")} || userId in {None, Some("")} then allowed && buckets == old(buckets)
              else var (after, ok) := Consume(limits, old(BucketOf((orgId.value, userId.value), inserted)), now);
                   allowed == ok && buckets == old(buckets)[(orgId.value, userId.value) := after]
    {
      if orgId in {None, Some("")} || userId in {None, Some("")} { return true; }
      allowed := ConsumeToken(orgId.value, userId.value, inserted, now);
    }
  }
}
