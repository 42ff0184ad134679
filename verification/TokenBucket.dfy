/** The per-subject rate limiter (RateLimit in internal/platform/middleware/middleware.go). Times are
    nanoseconds of a monotonic clock; tokens are exact reals. */
module TokenBucket {
  import opened Base

  datatype Bucket = Bucket(tokens: real, last: nat)

  /** One request at the limiter, and whether it was let through. */
  datatype Request = Request(subject: string, at: nat)

  const SECOND: nat := 1_000_000_000

  /** Nanoseconds per token; 0 disables the limiter.  An integer division: rates above 10^9 give 0 too. */
  function Refill(rate: int): nat { if rate > 0 then SECOND / rate else 0 }

  function Min(a: real, b: real): real { if a <= b then a else b }

  /** Tokens at a request, before it takes one; a new subject starts full. */
  function Available(buckets: map<string, Bucket>, burst: int, refill: nat, q: Request): real
    requires refill > 0
  {
    if q.subject !in buckets then burst as real
    else
      var b := buckets[q.subject];
      Min(b.tokens + (q.at - b.last) as real / refill as real, burst as real)
  }

  function Serve(buckets: map<string, Bucket>, burst: int, refill: nat, q: Request): map<string, Bucket>
    requires refill > 0
  {
    var have := Available(buckets, burst, refill, q);
    buckets[q.subject := Bucket(if have >= 1.0 then have - 1.0 else have, q.at)]
  }

  function After(qs: seq<Request>, burst: int, refill: nat): map<string, Bucket>
    requires refill > 0
    decreases |qs|
  {
    if qs == [] then map[] else Serve(After(qs[..|qs| - 1], burst, refill), burst, refill, qs[|qs| - 1])
  }

  /** The last request of the sequence is admitted. */
  predicate Admits(qs: seq<Request>, burst: int, refill: nat)
    requires refill > 0 && qs != []
  {
    Available(After(qs[..|qs| - 1], burst, refill), burst, refill, qs[|qs| - 1]) >= 1.0
  }

  predicate InWindow(q: Request, subject: string, from: nat, to: nat) { q.subject == subject && from <= q.at <= to }

  /** Admitted requests of the subject with times in [from, to]. */
  function Admitted(qs: seq<Request>, burst: int, refill: nat, subject: string, from: nat, to: nat): nat
    requires refill > 0
    decreases |qs|
  {
    if qs == [] then 0
    else
      Admitted(qs[..|qs| - 1], burst, refill, subject, from, to)
      + if InWindow(qs[|qs| - 1], subject, from, to) && Admits(qs, burst, refill) then 1 else 0
  }

  /** The clock never goes back. */
  predicate Monotonic(qs: seq<Request>) { forall i, j :: 0 <= i < j < |qs| ==> qs[i].at <= qs[j].at }

  // ---- tokens stay within 0..burst ----

  predicate BucketOk(b: Bucket, burst: int, now: nat) { 0.0 <= b.tokens <= burst as real && b.last <= now }

  predicate BucketsOk(buckets: map<string, Bucket>, burst: int, now: nat) {
    forall u :: u in buckets ==> BucketOk(buckets[u], burst, now)
  }

  lemma QuotientIs(x: real, r: real, q: real)
    requires r > 0.0 && q * r == x
    ensures x / r == q
  {
  }

  lemma Distribute(a: real, b: real, r: real)
    ensures (a + b) * r == a * r + b * r
  {
  }

  lemma FactorIsNonNegative(p: real, r: real)
    requires r > 0.0 && p * r >= 0.0
    ensures p >= 0.0
  {
  }

  lemma AtLeastOne(x: real, r: real)
    requires r > 0.0
    ensures x >= 0.0 ==> x / r >= 0.0
    ensures x >= r ==> x / r >= 1.0
  {
    var q := x / r;
    assert q * r == x;
    Distribute(q, -1.0, r);
    assert (q + -1.0) * r == x - r;
    if x >= r { FactorIsNonNegative(q + -1.0, r); }
  }

  lemma FractionsAdd(x: int, y: int, d: nat)
    requires d > 0
    ensures x as real / d as real + y as real / d as real == (x + y) as real / d as real
    ensures x >= 0 ==> x as real / d as real >= 0.0
    ensures x >= d ==> x as real / d as real >= 1.0
  {
    var r := d as real;
    var a, b := x as real / r, y as real / r;
    assert a * r == x as real && b * r == y as real;
    Distribute(a, b, r);
    QuotientIs((x + y) as real, r, a + b);
    AtLeastOne(x as real, r);
  }

  lemma AvailableBounds(buckets: map<string, Bucket>, burst: int, refill: nat, q: Request)
    requires refill > 0 && burst >= 0 && BucketsOk(buckets, burst, q.at)
    ensures 0.0 <= Available(buckets, burst, refill, q) <= burst as real
  {
    if q.subject in buckets { FractionsAdd(q.at - buckets[q.subject].last, 0, refill); }
  }

  lemma {:induction false} TokensStayInRange(qs: seq<Request>, burst: int, refill: nat, now: nat)
    requires refill > 0 && burst >= 0 && Monotonic(qs) && (qs != [] ==> qs[|qs| - 1].at <= now)
    ensures BucketsOk(After(qs, burst, refill), burst, now)
    decreases |qs|
  {
    if qs != [] {
      var n := |qs| - 1;
      TokensStayInRange(qs[..n], burst, refill, qs[n].at);
      AvailableBounds(After(qs[..n], burst, refill), burst, refill, qs[n]);
    }
  }

  // ---- the bound ----

  /** What the subject's bucket says about its admissions in the window so far. */
  ghost predicate Budget(qs: seq<Request>, burst: int, refill: nat, subject: string, from: nat, to: nat)
    requires refill > 0
  {
    var n, buckets := Admitted(qs, burst, refill, subject, from, to), After(qs, burst, refill);
    && n as real <= burst as real + (to - from) as real / refill as real
    && (subject !in buckets ==> n == 0)
    && (subject in buckets && buckets[subject].last < from ==> n == 0)
    && (subject in buckets && from <= buckets[subject].last <= to ==>
          n as real + buckets[subject].tokens <= burst as real + (buckets[subject].last - from) as real / refill as real)
  }

  lemma SpendKeepsBudget(qs: seq<Request>, burst: int, refill: nat, subject: string, from: nat, to: nat)
    requires refill > 0 && burst >= 0 && qs != [] && from <= to
    requires InWindow(qs[|qs| - 1], subject, from, to)
    requires BucketsOk(After(qs[..|qs| - 1], burst, refill), burst, qs[|qs| - 1].at)
    requires Budget(qs[..|qs| - 1], burst, refill, subject, from, to)
    ensures Budget(qs, burst, refill, subject, from, to)
  {
    var init, q := qs[..|qs| - 1], qs[|qs| - 1];
    var buckets := After(init, burst, refill);
    AvailableBounds(buckets, burst, refill, q);
    var n, have := Admitted(init, burst, refill, subject, from, to), Available(buckets, burst, refill, q);
    FractionsAdd(q.at - from, to - q.at, refill);
    FractionsAdd(to - q.at, 0, refill);
    FractionsAdd(q.at - from, 0, refill);
    assert n as real + have <= burst as real + (q.at - from) as real / refill as real by {
      if subject in buckets && buckets[subject].last >= from {
        FractionsAdd(buckets[subject].last - from, q.at - buckets[subject].last, refill);
      }
    }
    assert Admits(qs, burst, refill) <==> have >= 1.0;
  }

  lemma {:induction false} EveryWindowIsBounded(qs: seq<Request>, burst: int, refill: nat, subject: string, from: nat, to: nat)
    requires refill > 0 && burst >= 0 && Monotonic(qs) && from <= to
    ensures Budget(qs, burst, refill, subject, from, to)
    decreases |qs|
  {
    if qs == [] {
      FractionsAdd(to - from, 0, refill);
    } else {
      var n := |qs| - 1;
      EveryWindowIsBounded(qs[..n], burst, refill, subject, from, to);
      TokensStayInRange(qs[..n], burst, refill, qs[n].at);
      if InWindow(qs[n], subject, from, to) {
        SpendKeepsBudget(qs, burst, refill, subject, from, to);
      } else {
        OthersKeepBudget(qs, burst, refill, subject, from, to);
      }
    }
  }

  lemma OthersKeepBudget(qs: seq<Request>, burst: int, refill: nat, subject: string, from: nat, to: nat)
    requires refill > 0 && qs != [] && !InWindow(qs[|qs| - 1], subject, from, to) && from <= to
    requires BucketsOk(After(qs[..|qs| - 1], burst, refill), burst, qs[|qs| - 1].at)
    requires Budget(qs[..|qs| - 1], burst, refill, subject, from, to)
    ensures Budget(qs, burst, refill, subject, from, to)
  {
    hide Available;
  }

  /** For every subject and every interval, over every history of requests: admissions are at most
      burst plus the interval over the refill time. */
  lemma AdmissionsAreBounded(qs: seq<Request>, burst: int, refill: nat, subject: string, from: nat, to: nat)
    requires refill > 0 && burst >= 0 && Monotonic(qs) && from <= to
    ensures Admitted(qs, burst, refill, subject, from, to) as real <= burst as real + (to - from) as real / refill as real
  {
    EveryWindowIsBounded(qs, burst, refill, subject, from, to);
  }

  // ---- patience is rewarded ----

  lemma {:induction false} LastServed(qs: seq<Request>, burst: int, refill: nat, subject: string)
    requires refill > 0
    ensures subject in After(qs, burst, refill) <==> exists i :: 0 <= i < |qs| && qs[i].subject == subject
    ensures subject in After(qs, burst, refill) ==>
              exists i :: 0 <= i < |qs| && qs[i].subject == subject && qs[i].at == After(qs, burst, refill)[subject].last
    decreases |qs|
  {
    hide Available;
    if qs != [] {
      var n := |qs| - 1;
      LastServed(qs[..n], burst, refill, subject);
      if subject in After(qs[..n], burst, refill) {
        var i :| 0 <= i < n && qs[..n][i].subject == subject && qs[..n][i].at == After(qs[..n], burst, refill)[subject].last;
        assert qs[i].subject == subject;
      }
      if i :| 0 <= i < |qs| && qs[i].subject == subject && i < n {
        assert qs[..n][i].subject == subject;
      }
    }
  }

  /** A request at least one refill time after its subject's previous one, or its first, is admitted. */
  lemma PatientRequestsAreAdmitted(qs: seq<Request>, burst: int, refill: nat)
    requires refill > 0 && burst >= 1 && qs != [] && Monotonic(qs)
    requires var q := qs[|qs| - 1];
             forall i :: 0 <= i < |qs| - 1 && qs[i].subject == q.subject ==> qs[i].at + refill <= q.at
    ensures Admits(qs, burst, refill)
  {
    var init, q := qs[..|qs| - 1], qs[|qs| - 1];
    TokensStayInRange(init, burst, refill, q.at);
    LastServed(init, burst, refill, q.subject);
    var buckets := After(init, burst, refill);
    if q.subject in buckets {
      var i :| 0 <= i < |init| && init[i].subject == q.subject && init[i].at == buckets[q.subject].last;
      assert qs[i] == init[i];
      FractionsAdd(q.at - buckets[q.subject].last, 0, refill);
    }
  }

  /** Whatever the subject asked before time from is long enough ago for its bucket to be full again. */
  predicate Rested(qs: seq<Request>, burst: int, refill: nat, subject: string, from: nat) {
    forall i :: 0 <= i < |qs| && qs[i].subject == subject && qs[i].at < from ==> qs[i].at + burst * refill <= from
  }

  /** What a rested subject still has: its burst less what it was let through since. */
  ghost predicate Granted(qs: seq<Request>, burst: int, refill: nat, subject: string, from: nat, to: nat)
    requires refill > 0
  {
    var buckets := After(qs, burst, refill);
    subject in buckets && buckets[subject].last >= from ==>
      buckets[subject].tokens >= burst as real - Admitted(qs, burst, refill, subject, from, to) as real
  }

  lemma FullAgain(elapsed: int, burst: int, refill: nat)
    requires refill > 0 && burst >= 0 && elapsed >= burst * refill
    ensures elapsed as real / refill as real >= burst as real
  {
    FractionsAdd(burst * refill, elapsed - burst * refill, refill);
    FractionsAdd(elapsed - burst * refill, 0, refill);
    assert burst as real * refill as real == (burst * refill) as real;
    QuotientIs((burst * refill) as real, refill as real, burst as real);
  }

  lemma RestedHasItsBurst(qs: seq<Request>, burst: int, refill: nat, q: Request, from: nat, to: nat)
    requires refill > 0 && burst >= 0 && Rested(qs, burst, refill, q.subject, from) && from <= q.at
    requires BucketsOk(After(qs, burst, refill), burst, q.at) && Granted(qs, burst, refill, q.subject, from, to)
    ensures Available(After(qs, burst, refill), burst, refill, q)
            >= burst as real - Admitted(qs, burst, refill, q.subject, from, to) as real
  {
    var buckets := After(qs, burst, refill);
    LastServed(qs, burst, refill, q.subject);
    if q.subject in buckets {
      var last := buckets[q.subject].last;
      FractionsAdd(q.at - last, 0, refill);
      if last < from {
        var i :| 0 <= i < |qs| && qs[i].subject == q.subject && qs[i].at == last;
        FullAgain(q.at - last, burst, refill);
      }
    }
  }

  lemma {:induction false} RestedIsGranted(qs: seq<Request>, burst: int, refill: nat, subject: string, from: nat, to: nat)
    requires refill > 0 && burst >= 0 && Monotonic(qs) && Rested(qs, burst, refill, subject, from)
    requires forall i :: 0 <= i < |qs| ==> qs[i].at <= to
    ensures Granted(qs, burst, refill, subject, from, to)
    decreases |qs|
  {
    hide Available;
    if qs != [] {
      var init, q := qs[..|qs| - 1], qs[|qs| - 1];
      forall i | 0 <= i < |init| && init[i].subject == subject && init[i].at < from ensures init[i].at + burst * refill <= from {
        assert init[i] == qs[i];
      }
      RestedIsGranted(init, burst, refill, subject, from, to);
      TokensStayInRange(init, burst, refill, q.at);
      if q.subject == subject && from <= q.at { RestedHasItsBurst(init, burst, refill, q, from, to); }
    }
  }

  /** A subject that is new at time from, or has rested long enough by then, is let through as long as it has been
      let through fewer than burst times since, however fast it asks. */
  lemma BurstIsSpendable(qs: seq<Request>, burst: int, refill: nat, from: nat)
    requires refill > 0 && burst >= 0 && qs != [] && Monotonic(qs) && from <= qs[|qs| - 1].at
    requires var q := qs[|qs| - 1];
             Rested(qs, burst, refill, q.subject, from) && Admitted(qs[..|qs| - 1], burst, refill, q.subject, from, q.at) < burst
    ensures Admits(qs, burst, refill)
  {
    var init, q := qs[..|qs| - 1], qs[|qs| - 1];
    forall i | 0 <= i < |init| && init[i].subject == q.subject && init[i].at < from ensures init[i].at + burst * refill <= from {
      assert init[i] == qs[i];
    }
    RestedIsGranted(init, burst, refill, q.subject, from, q.at);
    TokensStayInRange(init, burst, refill, q.at);
    RestedHasItsBurst(init, burst, refill, q, from, q.at);
  }

  /** The limiter is off exactly for rates that are not positive or exceed 10^9. */
  lemma DisabledExactlyWhen(rate: int)
    ensures Refill(rate) == 0 <==> rate <= 0 || rate > SECOND
  {
    if 0 < rate <= SECOND { assert SECOND / rate >= 1; }
  }

  class Limiter {
    const burst: int
    const refill: nat
    var buckets: map<string, Bucket>

    constructor (rate: int, burst: int)
      ensures buckets == map[] && this.burst == burst && refill == Refill(rate)
    {
      this.burst := burst;
      refill := if rate > 0 then SECOND / rate else 0;
      buckets := map[];
    }

    /** One request under the mutex; no identity means the shared anonymous bucket. */
    method Allow(subject: Option<string>, now: nat) returns (allowed: bool)
      modifies this`buckets
      ensures var q := Request(if subject.Some? then subject.value else "anonymous", now);
              && (refill == 0 ==> allowed && buckets == old(buckets))
              && (refill > 0 ==> buckets == Serve(old(buckets), burst, refill, q)
                                 && (allowed <==> Available(old(buckets), burst, refill, q) >= 1.0))
    {
      if refill == 0 { return true; }
      var key := if subject.Some? then subject.value else "anonymous";
      var b := if key in buckets then buckets[key] else Bucket(burst as real, now);
      var elapsed := now - b.last;
      var tokens := b.tokens + elapsed as real / refill as real;
      if tokens > burst as real { tokens := burst as real; }
      allowed := tokens >= 1.0;
      if allowed { tokens := tokens - 1.0; }
      buckets := buckets[key := Bucket(tokens, now)];
    }
  }
}
