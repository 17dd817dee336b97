/**
  The two uses of the token bucket: requests on a connection are delayed, and the connection is cut
  after too many delays in a row; handshakes of a user are refused.
*/
module RateLimits {
  import opened TokenBuckets

  // ---- requests --------------------------------------------------------------

  // A request: when it is looked at, when the wait is computed, and when the sleep is over.
  datatype Arrival = Arrival(at: real, asked: real, wake: real)

  // `served` records when requests were let through.
  datatype Limiter = Limiter(bucket: Bucket, delayed: nat, open: bool, served: seq<real>)

  predicate Delays(l: Limiter, a: Arrival) {
    !Ready(l.bucket, a.at)
  }

  function Waiting(l: Limiter, a: Arrival): Bucket {
    Refill(Take(l.bucket, a.at), a.asked)
  }

  function Step(l: Limiter, limit: nat, a: Arrival): Limiter {
    if !Delays(l, a) then l.(bucket := Take(l.bucket, a.at), delayed := 0, served := l.served + [a.at])
    else if l.delayed + 1 > limit then l.(bucket := Take(l.bucket, a.at), delayed := l.delayed + 1, open := false)
    else l.(bucket := Take(Waiting(l, a), a.wake), delayed := l.delayed + 1, served := l.served + [a.wake])
  }

  // The clock goes on, and a sleep lasts at least as long as it was asked to.
  ghost predicate Punctual(l: Limiter, a: Arrival) {
    && l.bucket.rate > 0.0 && l.bucket.last <= a.at <= a.asked
    && a.asked + Wait(Take(l.bucket, a.at), a.asked) <= a.wake
  }

  ghost predicate Run(ls: seq<Limiter>, limit: nat, arrivals: seq<Arrival>) {
    && |ls| == |arrivals| + 1
    && forall i :: 0 <= i < |arrivals| ==> ls[i].open && Punctual(ls[i], arrivals[i]) && ls[i + 1] == Step(ls[i], limit, arrivals[i])
  }

  ghost predicate Fresh(l: Limiter) {
    Valid(l.bucket) && l.bucket.tokens == l.bucket.burst && l.bucket.burst >= 1.0 && l.open && l.delayed == 0 && l.served == []
  }

  lemma Reached(b: Bucket, now: real, wake: real)
    requires Valid(b) && b.rate > 0.0 && b.burst >= 1.0 && b.last <= now && now + Wait(b, now) <= wake
    ensures now <= wake && Ready(Refill(b, now), wake)
  {
    var r := Refill(b, now);
    if r.tokens < 1.0 {
      var w := Wait(b, now);
      assert w * b.rate == 1.0 - r.tokens;
      assert (wake - now) * b.rate >= w * b.rate;
    } else {
      assert (wake - now) * b.rate >= 0.0;
    }
  }

  /**
    A request that had to wait finds its token: the second attempt takes exactly one, just as if the
    first attempt and the question how long to wait had not been made.
  */
  lemma DelayedTakesOne(l: Limiter, a: Arrival)
    requires Valid(l.bucket) && l.bucket.burst >= 1.0 && Punctual(l, a) && Delays(l, a)
    ensures a.at <= a.wake && Ready(l.bucket, a.wake)
    ensures Take(Waiting(l, a), a.wake) == Take(l.bucket, a.wake)
    ensures Take(l.bucket, a.wake).tokens == Refill(l.bucket, a.wake).tokens - 1.0
  {
    var b := Refill(l.bucket, a.at);
    TakeValid(l.bucket, a.at);
    Reached(b, a.asked, a.wake);
    hide Earned, Wait;
    RefillTwice(b, a.asked, a.wake);
    RefillTwice(l.bucket, a.at, a.wake);
  }

  // The requests let through are attempts that all got their token.
  ghost predicate Served(l0: Limiter, l: Limiter) {
    && Ordered(l0.bucket, l.served) && Takes(l0.bucket, l.served) == |l.served|
    && Valid(l.bucket) && l.bucket.rate == l0.bucket.rate && l.bucket.burst == l0.bucket.burst
    && (l.open ==> l.bucket == AfterAll(l0.bucket, l.served))
  }

  lemma ServedNext(l0: Limiter, l: Limiter, limit: nat, a: Arrival)
    requires Fresh(l0) && Served(l0, l) && l.open && Punctual(l, a)
    ensures Served(l0, Step(l, limit, a))
  {
    RunValid(l0.bucket, l.served);
    TakeValid(l.bucket, a.at);
    if Delays(l, a) { DelayedTakesOne(l, a); }
    var m := Step(l, limit, a);
    hide Earned, Refill, Wait, Waiting;
    if m.open {
      var t := if Delays(l, a) then a.wake else a.at;
      assert m.served == l.served + [t] && m.served[..|m.served| - 1] == l.served;
      TakeValid(l.bucket, t);
    }
  }

  lemma {:induction false} RunServed(ls: seq<Limiter>, limit: nat, arrivals: seq<Arrival>)
    requires Run(ls, limit, arrivals) && Fresh(ls[0])
    ensures Served(ls[0], ls[|arrivals|])
  {
    var n := |arrivals|;
    if n > 0 {
      RunServed(ls[..n], limit, arrivals[..n - 1]);
      ServedNext(ls[0], ls[n - 1], limit, arrivals[n - 1]);
    }
  }

  /**
    Whatever the requests, those that are served, the delayed ones included, conform to the curve:
    in any window no more than the burst and the rate times its length.
  */
  lemma ServedConform(ls: seq<Limiter>, limit: nat, arrivals: seq<Arrival>)
    requires Run(ls, limit, arrivals) && Fresh(ls[0])
    ensures Conforms(ls[|arrivals|].served, ls[0].bucket.burst, ls[0].bucket.rate)
  {
    RunServed(ls, limit, arrivals);
    ServedIffConforming(ls[0].bucket, ls[|arrivals|].served);
  }

  function Times(arrivals: seq<Arrival>): seq<real> {
    seq(|arrivals|, i requires 0 <= i < |arrivals| => arrivals[i].at)
  }

  // As long as nothing is delayed, requests are served when they arrive.
  lemma {:induction false} UndelayedServed(ls: seq<Limiter>, limit: nat, arrivals: seq<Arrival>)
    requires Run(ls, limit, arrivals) && Fresh(ls[0])
    requires forall i :: 0 <= i < |arrivals| ==> !Delays(ls[i], arrivals[i])
    ensures ls[|arrivals|].served == Times(arrivals) && ls[|arrivals|].open
  {
    var n := |arrivals|;
    if n > 0 {
      UndelayedServed(ls[..n], limit, arrivals[..n - 1]);
      assert Times(arrivals) == Times(arrivals[..n - 1]) + [arrivals[n - 1].at];
    }
  }

  lemma OrderedNext(b: Bucket, times: seq<real>)
    requires times != [] && Ordered(b, times[..|times| - 1])
    requires (if |times| == 1 then b.last else times[|times| - 2]) <= times[|times| - 1]
    ensures Ordered(b, times)
  {
    var n := |times| - 1;
    forall i | 0 <= i <= n ensures b.last <= times[i] && times[i] <= times[n] {
      if i < n { assert times[i] == times[..n][i] && times[n - 1] == times[..n][n - 1]; }
      else if n > 0 { assert times[n - 1] == times[..n][n - 1]; }
    }
    forall i, j | 0 <= i < j < n ensures times[i] <= times[j] { assert times[i] == times[..n][i] && times[j] == times[..n][j]; }
  }

  // The next arrival, when none before it was delayed.
  lemma NextArrival(ls: seq<Limiter>, limit: nat, arrivals: seq<Arrival>)
    requires Run(ls, limit, arrivals) && Fresh(ls[0]) && arrivals != []
    requires forall i :: 0 <= i < |arrivals| - 1 ==> !Delays(ls[i], arrivals[i])
    ensures !Delays(ls[|arrivals| - 1], arrivals[|arrivals| - 1]) <==> Conforms(Times(arrivals), ls[0].bucket.burst, ls[0].bucket.rate)
  {
    var n := |arrivals| - 1;
    var b, times := ls[0].bucket, Times(arrivals);
    UndelayedServed(ls[..n + 1], limit, arrivals[..n]);
    RunServed(ls[..n + 1], limit, arrivals[..n]);
    RunValid(b, ls[n].served);
    assert times[..n] == ls[n].served;
    hide Times, Refill, Wait;
    OrderedNext(b, times);
    ServedIffConforming(b, times);
  }

  /**
    No request is delayed or refused if and only if the times at which requests arrive conform to
    the curve.
  */
  lemma {:induction false} NeverDelayedIffConforming(ls: seq<Limiter>, limit: nat, arrivals: seq<Arrival>)
    requires Run(ls, limit, arrivals) && Fresh(ls[0])
    ensures (forall i :: 0 <= i < |arrivals| ==> !Delays(ls[i], arrivals[i]))
            <==> Conforms(Times(arrivals), ls[0].bucket.burst, ls[0].bucket.rate)
  {
    var n := |arrivals| - 1;
    if n >= 0 {
      hide Delays, Step, Punctual, Within, Fresh;
      NeverDelayedIffConforming(ls[..n + 1], limit, arrivals[..n]);
      if forall i :: 0 <= i < n ==> !Delays(ls[i], arrivals[i]) {
        NextArrival(ls, limit, arrivals);
      } else {
        var burst, rate := ls[0].bucket.burst, ls[0].bucket.rate;
        var k :| 0 <= k < n && Delays(ls[k], arrivals[k]);
        assert Delays(ls[..n + 1][k], arrivals[..n][k]);
        var i, j :| 0 <= i <= j < n && !Within(Times(arrivals[..n]), i, j, burst, rate);
        SameCurve(arrivals, n, i, j, burst, rate);
      }
    }
  }

  lemma SameCurve(arrivals: seq<Arrival>, n: nat, i: nat, j: nat, burst: real, rate: real)
    requires i <= j < n <= |arrivals|
    ensures Within(Times(arrivals[..n]), i, j, burst, rate) == Within(Times(arrivals), i, j, burst, rate)
  {
  }

  // `delayed` counts the delays since the last request that did not wait.
  lemma {:induction false} DelayedInARow(ls: seq<Limiter>, limit: nat, arrivals: seq<Arrival>)
    requires Run(ls, limit, arrivals) && Fresh(ls[0])
    ensures var n, d := |arrivals|, ls[|arrivals|].delayed;
            && d <= n && (ls[n].open <==> d <= limit)
            && (forall k :: n - d <= k < n ==> Delays(ls[k], arrivals[k]))
            && (d < n ==> !Delays(ls[n - d - 1], arrivals[n - d - 1]))
  {
    var n := |arrivals|;
    if n > 0 {
      DelayedInARow(ls[..n], limit, arrivals[..n - 1]);
      hide Delays, Waiting, Punctual;
    }
  }

  /**
    The connection is cut if and only if more requests in a row than the limit allows, the last one
    included, found no token.
  */
  lemma CutIffTooManyDelays(ls: seq<Limiter>, limit: nat, arrivals: seq<Arrival>)
    requires Run(ls, limit, arrivals) && Fresh(ls[0])
    ensures !ls[|arrivals|].open <==>
            |arrivals| > limit && forall k :: |arrivals| - limit - 1 <= k < |arrivals| ==> Delays(ls[k], arrivals[k])
  {
    hide Delays, Step, Punctual;
    DelayedInARow(ls, limit, arrivals);
  }

  // ---- handshakes ------------------------------------------------------------

  datatype Attempt = Attempt(uid: int, at: real)

  function FullBucket(rate: real, burst: real, now: real): Bucket {
    Bucket(burst, rate, burst, now)
  }

  function BucketOf(buckets: map<int, Bucket>, rate: real, burst: real, a: Attempt): Bucket {
    if a.uid in buckets then buckets[a.uid] else FullBucket(rate, burst, a.at)
  }

  function Admit(buckets: map<int, Bucket>, rate: real, burst: real, a: Attempt): map<int, Bucket> {
    buckets[a.uid := Take(BucketOf(buckets, rate, burst, a), a.at)]
  }

  function AdmitAll(rate: real, burst: real, attempts: seq<Attempt>): map<int, Bucket> {
    if attempts == [] then map[]
    else Admit(AdmitAll(rate, burst, attempts[..|attempts| - 1]), rate, burst, attempts[|attempts| - 1])
  }

  // When this user tried, and how often it was let in.
  function Own(attempts: seq<Attempt>, uid: int): seq<real> {
    if attempts == [] then []
    else
      var n := |attempts| - 1;
      Own(attempts[..n], uid) + (if attempts[n].uid == uid then [attempts[n].at] else [])
  }

  function Admitted(rate: real, burst: real, attempts: seq<Attempt>, uid: int): nat {
    if attempts == [] then 0
    else
      var n := |attempts| - 1;
      Admitted(rate, burst, attempts[..n], uid) +
      (if attempts[n].uid == uid && Ready(BucketOf(AdmitAll(rate, burst, attempts[..n]), rate, burst, attempts[n]), attempts[n].at)
       then 1 else 0)
  }

  /**
    What a user is let in for depends on its own attempts only: they are served from a bucket that
    was full at the first of them, whatever other users do.
  */
  lemma {:induction false} UsersDoNotShare(rate: real, burst: real, attempts: seq<Attempt>, uid: int)
    ensures var own, buckets := Own(attempts, uid), AdmitAll(rate, burst, attempts);
            && (uid in buckets <==> own != [])
            && (own != [] ==> buckets[uid] == AfterAll(FullBucket(rate, burst, own[0]), own))
            && Admitted(rate, burst, attempts, uid) == if own == [] then 0 else Takes(FullBucket(rate, burst, own[0]), own)
  {
    if attempts != [] {
      var n := |attempts| - 1;
      UsersDoNotShare(rate, burst, attempts[..n], uid);
      var own, before := Own(attempts, uid), Own(attempts[..n], uid);
      hide Ready, Take;
      if attempts[n].uid == uid {
        assert own == before + [attempts[n].at] && own[..|own| - 1] == before;
        if before == [] { assert own == [attempts[n].at]; }
      } else {
        assert own == before;
      }
    }
  }

  ghost predicate InOrder(attempts: seq<Attempt>) {
    forall i, j :: 0 <= i < j < |attempts| ==> attempts[i].at <= attempts[j].at
  }

  lemma {:induction false} OwnConcat(s: seq<Attempt>, t: seq<Attempt>, uid: int)
    ensures Own(s + t, uid) == Own(s, uid) + Own(t, uid)
  {
    if t == [] {
      assert s + t == s;
    } else {
      var n := |t| - 1;
      OwnConcat(s, t[..n], uid);
      assert (s + t)[..|s + t| - 1] == s + t[..n];
    }
  }

  lemma {:induction false} OwnBetween(attempts: seq<Attempt>, uid: int, lo: real, hi: real)
    requires forall k :: 0 <= k < |attempts| ==> lo <= attempts[k].at <= hi
    ensures forall i :: 0 <= i < |Own(attempts, uid)| ==> lo <= Own(attempts, uid)[i] <= hi
  {
    if attempts != [] { OwnBetween(attempts[..|attempts| - 1], uid, lo, hi); }
  }

  lemma {:induction false} OwnInOrder(attempts: seq<Attempt>, uid: int)
    requires InOrder(attempts)
    ensures forall i, j :: 0 <= i < j < |Own(attempts, uid)| ==> Own(attempts, uid)[i] <= Own(attempts, uid)[j]
    ensures Own(attempts, uid) != [] ==>
      attempts != [] && attempts[0].at <= Own(attempts, uid)[0] && Own(attempts, uid)[|Own(attempts, uid)| - 1] <= attempts[|attempts| - 1].at
  {
    if attempts != [] {
      var n := |attempts| - 1;
      OwnInOrder(attempts[..n], uid);
      OwnBetween(attempts, uid, attempts[0].at, attempts[n].at);
    }
  }

  lemma OwnOrdered(rate: real, burst: real, attempts: seq<Attempt>, uid: int)
    requires rate >= 0.0 && burst >= 0.0 && InOrder(attempts) && Own(attempts, uid) != []
    ensures var own := Own(attempts, uid);
            var b := FullBucket(rate, burst, own[0]);
            Valid(b) && b.tokens == b.burst && Ordered(b, own)
  {
    OwnInOrder(attempts, uid);
  }

  lemma EarnsMore(rate: real, a: real, b: real, c: real, d: real)
    requires rate >= 0.0 && a <= b <= c <= d
    ensures Earned(rate, b, c) <= Earned(rate, a, d)
  {
    hide Earned;
    Later(rate, a, b, a);
    Later(rate, b, c, a);
    Later(rate, c, d, a);
  }

  // Of a user's attempts, those that get a token.
  function Tally(rate: real, burst: real, own: seq<real>): nat {
    if own == [] then 0 else Takes(FullBucket(rate, burst, own[0]), own)
  }

  lemma TallyWindow(rate: real, burst: real, before: seq<real>, mid: seq<real>)
    requires rate >= 0.0 && burst >= 0.0 && mid != []
    requires Ordered(FullBucket(rate, burst, (before + mid)[0]), before + mid)
    ensures (Tally(rate, burst, before + mid) - Tally(rate, burst, before)) as real
            <= burst + Earned(rate, mid[0], mid[|mid| - 1])
  {
    hide Earned, Ordered;
    var own := before + mid;
    var b := FullBucket(rate, burst, own[0]);
    WindowBound(b, own, |before|, |own|);
    assert own[..|own|] == own && own[..|before|] == before;
    assert own[|before|] == mid[0] && own[|own| - 1] == mid[|mid| - 1];
    assert before == [] ==> Takes(b, before) == 0;
  }

  /**
    Whatever the other users do, in any window a user is let in at most as often as the burst and the
    rate times the length of the window say.
  */
  lemma UserWindowBound(rate: real, burst: real, attempts: seq<Attempt>, uid: int, i: nat, j: nat)
    requires rate >= 0.0 && burst >= 0.0 && InOrder(attempts) && i < j <= |attempts|
    ensures (Admitted(rate, burst, attempts[..j], uid) - Admitted(rate, burst, attempts[..i], uid)) as real
            <= burst + Earned(rate, attempts[i].at, attempts[j - 1].at)
  {
    hide Admitted, AdmitAll, Own, Takes, Earned, AfterAll, Ordered;
    var before, mid, own := Own(attempts[..i], uid), Own(attempts[i..j], uid), Own(attempts[..j], uid);
    UsersDoNotShare(rate, burst, attempts[..i], uid);
    UsersDoNotShare(rate, burst, attempts[..j], uid);
    assert attempts[..j] == attempts[..i] + attempts[i..j];
    OwnConcat(attempts[..i], attempts[i..j], uid);
    if mid == [] {
      assert own == before;
      Later(rate, attempts[i].at, attempts[j - 1].at, 0.0);
    } else {
      OwnInOrder(attempts[i..j], uid);
      OwnOrdered(rate, burst, attempts[..j], uid);
      TallyWindow(rate, burst, before, mid);
      EarnsMore(rate, attempts[i].at, mid[0], mid[|mid| - 1], attempts[j - 1].at);
    }
  }

  // The k-th attempt is let in.
  predicate LetIn(rate: real, burst: real, attempts: seq<Attempt>, k: nat)
    requires k < |attempts|
  {
    Ready(BucketOf(AdmitAll(rate, burst, attempts[..k]), rate, burst, attempts[k]), attempts[k].at)
  }

  lemma {:induction false} AllLetIn(rate: real, burst: real, attempts: seq<Attempt>, uid: int)
    ensures Admitted(rate, burst, attempts, uid) <= |Own(attempts, uid)|
    ensures Admitted(rate, burst, attempts, uid) == |Own(attempts, uid)|
            <==> forall k :: 0 <= k < |attempts| && attempts[k].uid == uid ==> LetIn(rate, burst, attempts, k)
  {
    if attempts != [] {
      var n := |attempts| - 1;
      AllLetIn(rate, burst, attempts[..n], uid);
      forall k | 0 <= k < n ensures LetIn(rate, burst, attempts, k) == LetIn(rate, burst, attempts[..n], k) {
        assert attempts[..n][..k] == attempts[..k];
      }
    }
  }

  /**
    A user is never refused if and only if its own attempts conform to the curve, whatever the other
    users do.
  */
  lemma UserNeverRefusedIffConforming(rate: real, burst: real, attempts: seq<Attempt>, uid: int)
    requires rate >= 0.0 && burst >= 0.0 && InOrder(attempts)
    ensures (forall k :: 0 <= k < |attempts| && attempts[k].uid == uid ==> LetIn(rate, burst, attempts, k))
            <==> Conforms(Own(attempts, uid), burst, rate)
  {
    hide LetIn, Admitted, AdmitAll, Own, Takes, AfterAll, Within;
    AllLetIn(rate, burst, attempts, uid);
    UsersDoNotShare(rate, burst, attempts, uid);
    var own := Own(attempts, uid);
    if own != [] {
      OwnOrdered(rate, burst, attempts, uid);
      ServedIffConforming(FullBucket(rate, burst, own[0]), own);
    }
  }

  // ---- the code --------------------------------------------------------------

  // A burst of 0 stands for 1.
  function Depth(burst: nat): real {
    if burst > 0 then burst as real else 1.0
  }

  class RequestLimiter {
    const bucket: TokenBucket
    const limit: nat
    var delayed: nat
    var open: bool
    ghost var served: seq<real>

    ghost function View(): Limiter
      reads this, bucket
    {
      Limiter(bucket.View(), delayed, open, served)
    }

    constructor (rate: nat, burst: nat, limit: nat, now: real)
      requires rate > 0
      ensures fresh(bucket) && this.limit == limit
      ensures View().bucket == FullBucket(rate as real, Depth(burst), now) && Fresh(View())
      ensures View().bucket.burst == (if burst == 0 then 1.0 else burst as real) && View().bucket.rate == rate as real
    {
      this.bucket := new TokenBucket(rate as real, Depth(burst), now);
      this.limit, this.delayed, this.open, this.served := limit, 0, true, [];
    }

    // Called at `a.at`; the clock reads `a.asked` before the sleep and `a.wake` after it.
    method Admit(a: Arrival) returns (ok: bool)
      requires bucket.rate > 0.0
      modifies this, bucket
      ensures View() == Step(old(View()), limit, a) && (old(open) ==> ok == open)
    {
      var taken := bucket.TryTake(a.at);
      if taken {
        delayed, served := 0, served + [a.at];
        return true;
      }
      delayed := delayed + 1;
      if delayed > limit {
        open := false;
        return false;
      }
      var wait := bucket.SecondsUntilToken(a.asked);
      var _ := bucket.TryTake(a.wake);
      served := served + [a.wake];
      return true;
    }
  }

  class HandshakeLimiter {
    const rate: nat
    const burst: nat
    var buckets: map<int, Bucket>
    ghost var attempts: seq<Attempt>

    ghost predicate Valid()
      reads this
    {
      rate > 0 ==> buckets == AdmitAll(rate as real, Depth(burst), attempts)
    }

    constructor (rate: nat, burst: nat)
      ensures Valid() && this.rate == rate && this.burst == burst && buckets == map[] && attempts == []
    {
      this.rate, this.burst, this.buckets, this.attempts := rate, burst, map[], [];
    }

    // A rate of 0 means no limit.
    method AdmitConnection(uid: int, now: real) returns (ok: bool)
      requires Valid()
      modifies this`buckets, this`attempts
      ensures Valid() && attempts == old(attempts) + [Attempt(uid, now)]
      ensures rate == 0 ==> ok && buckets == old(buckets)
      ensures rate > 0 ==>
        && buckets == Admit(old(buckets), rate as real, Depth(burst), Attempt(uid, now))
        && ok == LetIn(rate as real, Depth(burst), attempts, |old(attempts)|)
      ensures rate > 0 && uid !in old(buckets) ==>
        && buckets[uid].burst == (if burst == 0 then 1.0 else burst as real) && buckets[uid].rate == rate as real && ok
    {
      attempts := attempts + [Attempt(uid, now)];
      assert attempts[..|attempts| - 1] == old(attempts);
      if rate == 0 { return true; }
      var b := if uid in buckets then buckets[uid] else FullBucket(rate as real, Depth(burst), now);
      b := Refill(b, now);
      ok := b.tokens >= 1.0;
      if ok { b := b.(tokens := b.tokens - 1.0); }
      buckets := buckets[uid := b];
    }
  }
}
