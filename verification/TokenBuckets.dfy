/**
  The token bucket behind both rate limits, in real arithmetic. The clock is a parameter: a steady
  clock, so the times of successive calls never decrease.
*/
module TokenBuckets {

  datatype Bucket = Bucket(tokens: real, rate: real, burst: real, last: real)

  function Min(a: real, b: real): real {
    if a <= b then a else b
  }

  // What a span of time is worth.
  function Earned(rate: real, from: real, to: real): real {
    (to - from) * rate
  }

  function Refill(b: Bucket, now: real): Bucket {
    b.(tokens := Min(b.burst, b.tokens + Earned(b.rate, b.last, now)), last := now)
  }

  predicate Ready(b: Bucket, now: real) {
    Refill(b, now).tokens >= 1.0
  }

  function Take(b: Bucket, now: real): Bucket {
    var r := Refill(b, now);
    if r.tokens >= 1.0 then r.(tokens := r.tokens - 1.0) else r
  }

  function Wait(b: Bucket, now: real): real
    requires b.rate > 0.0
  {
    if Ready(b, now) then 0.0 else (1.0 - Refill(b, now).tokens) / b.rate
  }

  predicate Valid(b: Bucket) {
    0.0 <= b.tokens <= b.burst && b.rate >= 0.0
  }

  /** The waiting time is the shortest: from now on the bucket is ready if and only if it is over. */
  lemma ReadyIffWaited(b: Bucket, now: real, t: real)
    requires Valid(b) && b.rate > 0.0 && b.burst >= 1.0 && b.last <= now <= t
    ensures Ready(b, t) <==> now + Wait(b, now) <= t
  {
    hide Ready, Wait, Refill;
    WaitPays(b, now);
    ReadyLater(b, now, t);
    EarnedOrder(b.rate, t - now, Wait(b, now));
  }

  // The waiting time is worth what is missing.
  lemma WaitPays(b: Bucket, now: real)
    requires b.rate > 0.0
    ensures Wait(b, now) * b.rate == if Ready(b, now) then 0.0 else 1.0 - Refill(b, now).tokens
    ensures Ready(b, now) ==> Wait(b, now) == 0.0
  {
    hide Refill;
  }

  lemma ReadyLater(b: Bucket, now: real, t: real)
    requires Valid(b) && b.burst >= 1.0 && b.last <= now <= t
    ensures Ready(b, t) <==> Refill(b, now).tokens + (t - now) * b.rate >= 1.0
    ensures Refill(b, now).tokens >= 1.0 <==> Ready(b, now)
  {
    RefillTwice(b, now, t);
    assert Earned(b.rate, now, t) == (t - now) * b.rate;
    hide Earned;
  }

  lemma EarnedOrder(rate: real, x: real, y: real)
    requires rate > 0.0
    ensures x * rate >= y * rate <==> x >= y
  {
    if x >= y { assert (x - y) * rate >= 0.0; } else { assert (y - x) * rate > 0.0; }
  }

  // ---- a run of attempts -----------------------------------------------------

  ghost predicate Ordered(b: Bucket, times: seq<real>) {
    && (forall i :: 0 <= i < |times| ==> b.last <= times[i])
    && (forall i, j :: 0 <= i < j < |times| ==> times[i] <= times[j])
  }

  function AfterAll(b: Bucket, times: seq<real>): Bucket {
    if times == [] then b else Take(AfterAll(b, times[..|times| - 1]), times[|times| - 1])
  }

  // How many of the attempts got a token.
  function Takes(b: Bucket, times: seq<real>): nat {
    if times == [] then 0
    else
      var n := |times| - 1;
      Takes(b, times[..n]) + (if Ready(AfterAll(b, times[..n]), times[n]) then 1 else 0)
  }

  lemma Later(rate: real, a: real, b: real, c: real)
    requires rate >= 0.0 && a <= b
    ensures Earned(rate, a, b) >= 0.0 && Earned(rate, a, a) == 0.0 && Earned(rate, b, b) == 0.0
    ensures Earned(rate, c, a) + Earned(rate, a, b) == Earned(rate, c, b)
  {
  }

  lemma TakeValid(b: Bucket, now: real)
    requires Valid(b) && b.last <= now
    ensures Valid(Take(b, now)) && Valid(Refill(b, now))
  {
    hide Earned;
    Later(b.rate, b.last, now, b.last);
  }

  lemma {:induction false} RunValid(b: Bucket, times: seq<real>)
    requires Valid(b) && Ordered(b, times)
    ensures var a := AfterAll(b, times);
            && Valid(a) && a.rate == b.rate && a.burst == b.burst
            && a.last == (if times == [] then b.last else times[|times| - 1])
  {
    hide Earned;
    if times != [] {
      var n := |times| - 1;
      RunValid(b, times[..n]);
      TakeValid(AfterAll(b, times[..n]), times[n]);
    }
  }

  lemma {:induction false} RunConcat(b: Bucket, s: seq<real>, t: seq<real>)
    ensures AfterAll(b, s + t) == AfterAll(AfterAll(b, s), t)
    ensures Takes(b, s + t) == Takes(b, s) + Takes(AfterAll(b, s), t)
  {
    if t == [] {
      assert s + t == s;
    } else {
      var n := |t| - 1;
      RunConcat(b, s, t[..n]);
      assert (s + t)[..|s + t| - 1] == s + t[..n];
    }
  }

  // Refilling twice is refilling once: asking how long to wait changes nothing.
  lemma RefillTwice(b: Bucket, t: real, u: real)
    requires Valid(b) && b.last <= t <= u
    ensures Refill(Refill(b, t), u) == Refill(b, u)
  {
    hide Earned;
    Later(b.rate, t, u, b.last);
  }

  // What is left and what was taken came from the first moment's tokens and the time since.
  lemma {:induction false} Conservation(b: Bucket, times: seq<real>)
    requires Valid(b) && Ordered(b, times) && times != []
    ensures AfterAll(b, times).tokens + Takes(b, times) as real
            <= Refill(b, times[0]).tokens + Earned(b.rate, times[0], times[|times| - 1])
  {
    hide Earned;
    var n := |times| - 1;
    if n == 0 {
      assert times[..n] == [];
      Later(b.rate, times[0], times[0], times[0]);
    } else {
      Conservation(b, times[..n]);
      RunValid(b, times[..n]);
      Later(b.rate, times[n - 1], times[n], times[0]);
    }
  }

  lemma RunBound(b: Bucket, times: seq<real>)
    requires Valid(b) && Ordered(b, times) && times != []
    ensures Takes(b, times) as real <= b.burst + Earned(b.rate, times[0], times[|times| - 1])
  {
    hide Earned, AfterAll, Takes;
    Conservation(b, times);
    RunValid(b, times);
    TakeValid(b, times[0]);
  }

  // The rest of an ordered run is an ordered run of the bucket at that point.
  lemma OrderedRest(b: Bucket, times: seq<real>, i: nat, j: nat)
    requires Valid(b) && Ordered(b, times) && i < j <= |times|
    ensures var c := AfterAll(b, times[..i]); Valid(c) && c.rate == b.rate && c.burst == b.burst && Ordered(c, times[i..j])
    ensures Takes(b, times[..j]) == Takes(b, times[..i]) + Takes(AfterAll(b, times[..i]), times[i..j])
  {
    hide AfterAll, Takes;
    assert times[..j] == times[..i] + times[i..j];
    RunConcat(b, times[..i], times[i..j]);
    RunValid(b, times[..i]);
  }

  /**
    In any window of any run, the attempts that got a token are at most the burst plus the rate times
    the length of the window.
  */
  lemma WindowBound(b: Bucket, times: seq<real>, i: nat, j: nat)
    requires Valid(b) && Ordered(b, times) && i < j <= |times|
    ensures (Takes(b, times[..j]) - Takes(b, times[..i])) as real <= b.burst + Earned(b.rate, times[i], times[j - 1])
  {
    hide Earned, AfterAll, Takes, Ordered;
    OrderedRest(b, times, i, j);
    RunBound(AfterAll(b, times[..i]), times[i..j]);
  }

  // ---- the arrival curve -----------------------------------------------------

  ghost predicate Conforms(times: seq<real>, burst: real, rate: real) {
    forall i, j :: 0 <= i <= j < |times| ==> Within(times, i, j, burst, rate)
  }

  predicate Within(times: seq<real>, i: nat, j: nat, burst: real, rate: real)
    requires i <= j < |times|
  {
    (j - i + 1) as real <= burst + Earned(rate, times[i], times[j])
  }

  // While nothing is refused, the tokens at an attempt are those of the curve through an earlier one.
  lemma {:induction false} TokensOnCurve(b: Bucket, times: seq<real>, k: nat) returns (i: nat)
    requires Valid(b) && b.tokens == b.burst && Ordered(b, times) && k < |times| && Takes(b, times[..k]) == k
    ensures i <= k && Refill(AfterAll(b, times[..k]), times[k]).tokens == b.burst + Earned(b.rate, times[i], times[k]) - (k - i) as real
  {
    hide Earned;
    if k == 0 {
      assert times[..k] == [];
      Later(b.rate, b.last, times[0], b.last);
      i := 0;
    } else {
      var s := times[..k];
      assert s[..k - 1] == times[..k - 1];
      TakesAtMost(b, times[..k - 1]);
      i := TokensOnCurve(b, times, k - 1);
      RunValid(b, times[..k - 1]);
      RunValid(b, s);
      assert AfterAll(b, s) == Take(AfterAll(b, times[..k - 1]), times[k - 1]);
      hide AfterAll, Takes;
      Later(b.rate, times[k - 1], times[k], times[i]);
      if Refill(AfterAll(b, s), times[k]).tokens == b.burst { i := k; }
    }
  }

  lemma {:induction false} TakesAtMost(b: Bucket, times: seq<real>)
    ensures Takes(b, times) <= |times|
  {
    if times != [] { TakesAtMost(b, times[..|times| - 1]); }
  }

  lemma {:induction false} TakesPrefix(b: Bucket, times: seq<real>, k: nat)
    requires k <= |times| && Takes(b, times) == |times|
    ensures Takes(b, times[..k]) == k
  {
    if k == |times| {
      assert times[..k] == times;
    } else {
      var n := |times| - 1;
      TakesAtMost(b, times[..n]);
      TakesPrefix(b, times[..n], k);
      assert times[..n][..k] == times[..k];
    }
  }

  /**
    Starting from a full bucket, every attempt gets a token if and only if the stream of attempts
    conforms to the curve burst + rate * t.
  */
  lemma {:induction false} ServedIffConforming(b: Bucket, times: seq<real>)
    requires Valid(b) && b.tokens == b.burst && Ordered(b, times)
    ensures Takes(b, times) == |times| <==> Conforms(times, b.burst, b.rate)
  {
    hide Earned;
    if Takes(b, times) == |times| {
      forall i, j | 0 <= i <= j < |times| ensures Within(times, i, j, b.burst, b.rate) {
        TakesPrefix(b, times, i);
        TakesPrefix(b, times, j + 1);
        WindowBound(b, times, i, j + 1);
      }
    } else {
      var n := |times| - 1;
      var s := times[..n];
      ServedIffConforming(b, s);
      TakesAtMost(b, s);
      if Takes(b, s) == n {
        var i := TokensOnCurve(b, times, n);
        assert !Within(times, i, n, b.burst, b.rate);
      } else {
        var i, j :| 0 <= i <= j < n && !Within(s, i, j, b.burst, b.rate);
        assert !Within(times, i, j, b.burst, b.rate);
      }
    }
  }

  // ---- the code --------------------------------------------------------------

  class TokenBucket {
    var tokens: real
    var rate: real
    var burst: real
    var last: real

    function View(): Bucket
      reads this
    {
      Bucket(tokens, rate, burst, last)
    }

    // A full bucket.
    constructor (rate: real, burst: real, now: real)
      ensures View() == Bucket(burst, rate, burst, now)
    {
      this.tokens, this.rate, this.burst, this.last := burst, rate, burst, now;
    }

    method RefillNow(now: real)
      modifies this`tokens, this`last
      ensures View() == Refill(old(View()), now)
    {
      var elapsed := now - last;
      last := now;
      tokens := tokens + elapsed * rate;
      if burst < tokens { tokens := burst; }
    }

    method TryTake(now: real) returns (ok: bool)
      modifies this`tokens, this`last
      ensures View() == Take(old(View()), now) && ok == old(Ready(View(), now))
    {
      RefillNow(now);
      ok := tokens >= 1.0;
      if ok { tokens := tokens - 1.0; }
    }

    method SecondsUntilToken(now: real) returns (s: real)
      requires rate > 0.0
      modifies this`tokens, this`last
      ensures View() == Refill(old(View()), now) && s == old(Wait(View(), now))
    {
      RefillNow(now);
      if tokens >= 1.0 { return 0.0; }
      return (1.0 - tokens) / rate;
    }
  }
}
