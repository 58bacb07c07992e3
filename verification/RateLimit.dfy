/**
 The two token buckets: the API's, which forgets idle buckets, and the coordinator's, which keeps them
 all. Tokens and times (in seconds) are reals.
 */
module RateLimit {
  import opened Common

  /** Configuration admits positive rates and bursts only. */
  datatype Limits = Limits(rps: real, burst: nat) {
    predicate Valid() { rps > 0.0 && burst >= 1 }
  }

  const CLEANUP_EVERY := 300.0
  const IDLE_FOR := 600.0

  datatype Bucket = Bucket(tokens: real, updated: real)

  type Buckets = map<Token, Bucket>

  datatype Request = Request(key: Token, at: real)

  /** What a stretch of time adds. */
  function Earned(l: Limits, elapsed: real): real { elapsed * l.rps }

  /** Every request refills first: elapsed time times rate, capped at the burst. */
  function Refill(l: Limits, bucket: Bucket, now: real): real {
    var tokens := bucket.tokens + Earned(l, now - bucket.updated);
    if tokens > l.burst as real then l.burst as real else tokens
  }

  /** A key seen for the first time starts with a full bucket. */
  function Refilled(l: Limits, b: Buckets, key: Token, now: real): real {
    Refill(l, if key in b then b[key] else Bucket(l.burst as real, now), now)
  }

  /** The coordinator's bucket. */
  function Allow(l: Limits, b: Buckets, r: Request): (Buckets, bool) {
    var tokens := Refilled(l, b, r.key, r.at);
    if tokens < 1.0 then (b[r.key := Bucket(tokens, r.at)], false)
    else (b[r.key := Bucket(tokens - 1.0, r.at)], true)
  }

  datatype Limiter = Limiter(buckets: Buckets, lastCleanup: real)

  function Evicted(b: Buckets, now: real): Buckets {
    map k | k in b && now - b[k].updated <= IDLE_FOR :: b[k]
  }

  /** The API's bucket: the same decision, then idle buckets are dropped every five minutes. */
  function AllowEvicting(l: Limits, s: Limiter, r: Request): (Limiter, bool) {
    var (b, ok) := Allow(l, s.buckets, r);
    if r.at - s.lastCleanup > CLEANUP_EVERY then (Limiter(Evicted(b, r.at), r.at), ok)
       else (Limiter(b, s.lastCleanup), ok)
  }

  /** A bucket is dropped exactly by a request that comes more than five minutes after the last clean-up and finds
      it idle for more than ten. */
  lemma ForgottenExactlyWhen(l: Limits, s: Limiter, r: Request, key: Token)
    ensures var s' := AllowEvicting(l, s, r).0;
            key in s'.buckets <==>
              key == r.key || (key in s.buckets &&
                               (r.at - s.lastCleanup <= 300.0 || r.at - s.buckets[key].updated <= 600.0))
    ensures AllowEvicting(l, s, r).0.lastCleanup == if r.at - s.lastCleanup > 300.0 then r.at else s.lastCleanup
  {
  }

  class CoordinatorLimiter {
    const limits: Limits
    var buckets: Buckets

    constructor (limits: Limits)
      ensures this.limits == limits && buckets == map[]
    {
      this.limits, buckets := limits, map[];
    }

    method AllowRequest(key: Token, now: real) returns (ok: bool)
      modifies this
      ensures (buckets, ok) == Allow(limits, old(buckets), Request(key, now))
    {
      var bucket := Bucket(limits.burst as real, now);
      if key in buckets { bucket := buckets[key]; }
      var tokens := bucket.tokens + Earned(limits, now - bucket.updated);
      if tokens > limits.burst as real { tokens := limits.burst as real; }
      if tokens < 1.0 {
        buckets := buckets[key := Bucket(tokens, now)];
        return false;
      }
      buckets := buckets[key := Bucket(tokens - 1.0, now)];
      return true;
    }
  }

  class ApiLimiter {
    const limits: Limits
    var buckets: Buckets
    var lastCleanup: real

    constructor (limits: Limits, lastCleanup: real)
      ensures this.limits == limits && buckets == map[] && this.lastCleanup == lastCleanup
    {
      this.limits, buckets, this.lastCleanup := limits, map[], lastCleanup;
    }

    method AllowRequest(key: Token, now: real) returns (ok: bool)
      modifies this
      ensures (Limiter(buckets, lastCleanup), ok)
              == AllowEvicting(limits, Limiter(old(buckets), old(lastCleanup)), Request(key, now))
    {
      var bucket := Bucket(limits.burst as real, now);
      if key in buckets { bucket := buckets[key]; }
      var tokens := bucket.tokens + Earned(limits, now - bucket.updated);
      if tokens > limits.burst as real { tokens := limits.burst as real; }
      ok := tokens >= 1.0;
      if ok { tokens := tokens - 1.0; }
      buckets := buckets[key := Bucket(tokens, now)];
      if now - lastCleanup > CLEANUP_EVERY {
        DropIdle(now);
        lastCleanup := now;
      }
    }

    method DropIdle(now: real)
      modifies `buckets
      ensures buckets == Evicted(old(buckets), now)
    {
      var rest := buckets.Keys;
      while rest != {}
        invariant rest <= old(buckets).Keys
        invariant buckets == map k | k in old(buckets) && (k in rest || now - old(buckets)[k].updated <= IDLE_FOR) ::
                  old(buckets)[k]
        decreases rest
      {
        var k :| k in rest;
        if now - buckets[k].updated > IDLE_FOR { buckets := buckets - {k}; }
        rest := rest - {k};
      }
    }
  }

  // ---------- Request sequences ----------

  function Run(l: Limits, rs: seq<Request>): (Buckets, seq<bool>) {
    if rs == [] then (map[], [])
    else
      var (b, answers) := Run(l, rs[..|rs| - 1]);
      var (b', ok) := Allow(l, b, rs[|rs| - 1]);
      (b', answers + [ok])
  }

  type Step = (Limiter, Request) -> (Limiter, bool)

  /** A limiter after the first n requests. */
  function StateAt(step: Step, start: real, rs: seq<Request>, n: nat): (Limiter, seq<bool>)
    requires n <= |rs|
  {
    if n == 0 then (Limiter(map[], start), [])
    else
      var (s, answers) := StateAt(step, start, rs, n - 1);
      var (s', ok) := step(s, rs[n - 1]);
      (s', answers + [ok])
  }

  function Evicting(l: Limits): Step {
    (s, r) => AllowEvicting(l, s, r)
  }

  function RunEvicting(l: Limits, start: real, rs: seq<Request>): (Limiter, seq<bool>) {
    StateAt(Evicting(l), start, rs, |rs|)
  }

  lemma {:induction false} StateLength(step: Step, start: real, rs: seq<Request>, n: nat)
    requires n <= |rs|
    ensures |StateAt(step, start, rs, n).1| == n
  {
    if n > 0 { StateLength(step, start, rs, n - 1); }
  }

  /** Later requests do not change earlier answers. */
  lemma {:induction false} StateAgrees(step: Step, start: real, rs: seq<Request>, more: seq<Request>, n: nat)
    requires n <= |rs| && n <= |more| && forall i | 0 <= i < n :: rs[i] == more[i]
    ensures StateAt(step, start, rs, n) == StateAt(step, start, more, n)
  {
    if n > 0 { StateAgrees(step, start, rs, more, n - 1); }
  }

  lemma {:induction false} RunLength(l: Limits, rs: seq<Request>)
    ensures |Run(l, rs).1| == |rs|
  {
    if rs != [] { RunLength(l, rs[..|rs| - 1]); }
  }

  lemma RunStep(l: Limits, rs: seq<Request>, r: Request)
    ensures var (b, answers) := Run(l, rs); var (b', ok) := Allow(l, b, r); Run(l, rs + [r]) == (b', answers + [ok])
  {
    assert (rs + [r])[..|rs|] == rs;
  }

  lemma RunEvictingStep(l: Limits, start: real, rs: seq<Request>, r: Request)
    ensures var (s, answers) := RunEvicting(l, start, rs); var (s', ok) := AllowEvicting(l, s, r);
            RunEvicting(l, start, rs + [r]) == (s', answers + [ok])
  {
    StateAgrees(Evicting(l), start, rs, rs + [r], |rs|);
  }

  // ---------- How much is admitted ----------

  /** The requests of one key admitted from position i on. */
  function Admitted(rs: seq<Request>, answers: seq<bool>, key: Token, i: nat): nat
    requires |answers| == |rs|
  {
    if |rs| <= i then 0
    else
      var n := |rs| - 1;
      Admitted(rs[..n], answers[..n], key, i) + if rs[n].key == key && answers[n] then 1 else 0
  }

  lemma EarnedAdds(l: Limits, a: real, b: real)
    ensures Earned(l, a) + Earned(l, b) == Earned(l, a + b)
  {
  }

  lemma MulMono(a: real, b: real, c: real)
    requires a <= b && c >= 0.0
    ensures a * c <= b * c
  {
  }

  lemma EarnedGrows(l: Limits, a: real, b: real)
    requires l.Valid() && a <= b
    ensures Earned(l, a) <= Earned(l, b)
    ensures Earned(l, 0.0) == 0.0
  {
    MulMono(a, b, l.rps);
  }

  /** A refill pays with the time that passed. */
  lemma RefillIsPaid(l: Limits, bucket: Bucket, now: real, since: real, count: real)
    requires count + bucket.tokens <= l.burst as real + Earned(l, bucket.updated - since)
    ensures count + Refill(l, bucket, now) <= l.burst as real + Earned(l, now - since)
  {
    EarnedAdds(l, bucket.updated - since, now - bucket.updated);
    assert (bucket.updated - since) + (now - bucket.updated) == now - since;
  }

  lemma AdmittedOne(rs: seq<Request>, answers: seq<bool>, key: Token, i: nat, r: Request, ok: bool)
    requires |answers| == |rs| && i <= |rs|
    ensures Admitted(rs + [r], answers + [ok], key, i) ==
              Admitted(rs, answers, key, i) + if r.key == key && ok then 1 else 0
  {
    assert (rs + [r])[..|rs|] == rs && (answers + [ok])[..|rs|] == answers;
  }

  /** A bucket after its first request from position i on has spent what it admitted. */
  predicate Paid(l: Limits, b: Buckets, key: Token, since: real, count: nat) {
    key in b && count as real + b[key].tokens <= l.burst as real + Earned(l, b[key].updated - since)
  }

  lemma FirstIsPaid(l: Limits, b: Buckets, r: Request)
    ensures var (b', ok) := Allow(l, b, r); Paid(l, b', r.key, r.at, if ok then 1 else 0)
  {
    assert Earned(l, r.at - r.at) == 0.0;
  }

  lemma LaterIsPaid(l: Limits, b: Buckets, r: Request, key: Token, since: real, count: nat)
    requires Paid(l, b, key, since, count)
    ensures var (b', ok) := Allow(l, b, r); Paid(l, b', key, since, count + if r.key == key && ok then 1 else 0)
  {
    if r.key == key { RefillIsPaid(l, b[key], r.at, since, count as real); }
  }

  lemma NoneYet(rs: seq<Request>, answers: seq<bool>, key: Token)
    requires |answers| == |rs|
    ensures Admitted(rs, answers, key, |rs|) == 0
  {
  }

  /** Admissions and the tokens left never outrun the burst plus what the elapsed time refilled. Times
      need not be ordered. */
  lemma {:induction false} AdmissionsArePaid(l: Limits, rs: seq<Request>, i: nat)
    requires i < |rs|
    ensures |Run(l, rs).1| == |rs|
    ensures Paid(l, Run(l, rs).0, rs[i].key, rs[i].at, Admitted(rs, Run(l, rs).1, rs[i].key, i))
  {
    var n := |rs| - 1;
    var before := rs[..n];
    assert rs == before + [rs[n]];
    RunLength(l, before);
    RunStep(l, before, rs[n]);
    var (b, answers) := Run(l, before);
    var ok := Allow(l, b, rs[n]).1;
    AdmittedOne(before, answers, rs[i].key, i, rs[n], ok);
    if i < n {
      AdmissionsArePaid(l, before, i);
      LaterIsPaid(l, b, rs[n], rs[i].key, rs[i].at, Admitted(before, answers, rs[i].key, i));
    } else {
      NoneYet(before, answers, rs[i].key);
      FirstIsPaid(l, b, rs[n]);
    }
  }

  lemma LastLeavesTokens(l: Limits, rs: seq<Request>)
    requires rs != []
    ensures |Run(l, rs).1| == |rs|
    ensures var r := rs[|rs| - 1]; var (b, answers) := Run(l, rs);
            r.key in b && b[r.key].updated == r.at && (answers[|rs| - 1] ==> b[r.key].tokens >= 0.0)
  {
    RunLength(l, rs);
    RunLength(l, rs[..|rs| - 1]);
  }

  /** Between any request and any later admitted request of its key, both included, at most
      burst + rps * (elapsed time) requests are admitted. */
  lemma WindowBound(l: Limits, rs: seq<Request>, i: nat)
    requires i < |rs| && rs[|rs| - 1].key == rs[i].key
    ensures |Run(l, rs).1| == |rs|
    ensures Run(l, rs).1[|rs| - 1] ==>
              Admitted(rs, Run(l, rs).1, rs[i].key, i) as real
              <= l.burst as real + Earned(l, rs[|rs| - 1].at - rs[i].at)
  {
    AdmissionsArePaid(l, rs, i);
    LastLeavesTokens(l, rs);
  }

  // ---------- How much is refused ----------

  /** A bucket that since then has admitted all it could. */
  predicate Spent(l: Limits, b: Buckets, key: Token, since: real, count: nat) {
    key in b && count as real + b[key].tokens == l.burst as real + Earned(l, b[key].updated - since)
  }

  lemma StaysSpent(l: Limits, b: Buckets, r: Request, since: real, count: nat)
    requires Spent(l, b, r.key, since, count) && Refill(l, b[r.key], r.at) != l.burst as real
    ensures var (b', ok) := Allow(l, b, r); Spent(l, b', r.key, since, count + if ok then 1 else 0)
  {
    EarnedAdds(l, b[r.key].updated - since, r.at - b[r.key].updated);
    assert (b[r.key].updated - since) + (r.at - b[r.key].updated) == r.at - since;
  }

  lemma FullIsSpent(l: Limits, b: Buckets, r: Request)
    requires Refilled(l, b, r.key, r.at) == l.burst as real
    ensures var (b', ok) := Allow(l, b, r); Spent(l, b', r.key, r.at, if ok then 1 else 0)
  {
    assert Earned(l, r.at - r.at) == 0.0;
  }

  lemma FirstIsFull(l: Limits, b: Buckets, r: Request)
    requires r.key !in b
    ensures Refilled(l, b, r.key, r.at) == l.burst as real
  {
    assert Earned(l, r.at - r.at) == 0.0;
  }

  /** One request later, some request of the key is still one since which the bucket has spent all it could. */
  lemma SpentAfterOne(l: Limits, before: seq<Request>, r: Request, key: Token, i: nat) returns (k: nat)
    requires key in Run(l, before + [r]).0 && |Run(l, before).1| == |before|
    requires key in Run(l, before).0 ==>
               && i < |before| && before[i].key == key
               && Spent(l, Run(l, before).0, key, before[i].at, Admitted(before, Run(l, before).1, key, i))
    ensures |Run(l, before + [r]).1| == |before + [r]| && k < |before + [r]| && (before + [r])[k].key == key
    ensures Spent(l, Run(l, before + [r]).0, key, (before + [r])[k].at,
                  Admitted(before + [r], Run(l, before + [r]).1, key, k))
  {
    var (b, answers) := Run(l, before);
    var (b', ok) := Allow(l, b, r);
    RunStep(l, before, r);
    if r.key != key {
      k := i;
      AdmittedOne(before, answers, key, k, r, ok);
    } else if Refilled(l, b, key, r.at) == l.burst as real {
      k := |before|;
      AdmittedOne(before, answers, key, k, r, ok);
      NoneYet(before, answers, key);
      FullIsSpent(l, b, r);
    } else {
      k := i;
      if key !in b { FirstIsFull(l, b, r); }
      AdmittedOne(before, answers, key, k, r, ok);
      StaysSpent(l, b, r, before[k].at, Admitted(before, answers, key, k));
    }
  }

  lemma {:induction false} SomeWindowIsSpent(l: Limits, rs: seq<Request>, key: Token) returns (k: nat)
    requires key in Run(l, rs).0
    ensures |Run(l, rs).1| == |rs| && k < |rs| && rs[k].key == key
    ensures Spent(l, Run(l, rs).0, key, rs[k].at, Admitted(rs, Run(l, rs).1, key, k))
  {
    var n := |rs| - 1;
    var before := rs[..n];
    assert rs == before + [rs[n]];
    RunLength(l, before);
    var i := 0;
    if key in Run(l, before).0 { i := SomeWindowIsSpent(l, before, key); }
    k := SpentAfterOne(l, before, rs[n], key, i);
  }

  /** There is room for one more request since the i-th: with it the admissions stay within the burst plus what the
      elapsed time refilled. */
  predicate RoomSince(l: Limits, rs: seq<Request>, answers: seq<bool>, r: Request, i: nat)
    requires |answers| == |rs| && i < |rs|
  {
    Admitted(rs, answers, r.key, i) as real + 1.0 <= l.burst as real + Earned(l, r.at - rs[i].at)
  }

  lemma RoomInTheBucket(l: Limits, rs: seq<Request>, r: Request, i: nat)
    requires |Run(l, rs).1| == |rs| && i < |rs| && rs[i].key == r.key && Allow(l, Run(l, rs).0, r).1
    ensures RoomSince(l, rs, Run(l, rs).1, r, i)
  {
    AdmissionsArePaid(l, rs, i);
    var b := Run(l, rs).0;
    RefillIsPaid(l, b[r.key], r.at, rs[i].at, Admitted(rs, Run(l, rs).1, r.key, i) as real);
  }

  lemma NoRoomSince(l: Limits, rs: seq<Request>, r: Request) returns (i: nat)
    requires l.Valid() && |Run(l, rs).1| == |rs| && !Allow(l, Run(l, rs).0, r).1
    ensures i < |rs| && rs[i].key == r.key && !RoomSince(l, rs, Run(l, rs).1, r, i)
  {
    var b := Run(l, rs).0;
    if r.key !in b { FirstIsFull(l, b, r); }
    i := SomeWindowIsSpent(l, rs, r.key);
    EarnedAdds(l, b[r.key].updated - rs[i].at, r.at - b[r.key].updated);
    assert (b[r.key].updated - rs[i].at) + (r.at - b[r.key].updated) == r.at - rs[i].at;
  }

  /** A request is admitted if and only if it keeps the bound of burst plus rate times elapsed time in every window
      that starts at an earlier request of its key: nothing is admitted beyond the bound and nothing is refused
      within it, for times in any order. */
  lemma AdmittedExactlyWhen(l: Limits, rs: seq<Request>, r: Request)
    requires l.Valid()
    ensures |Run(l, rs).1| == |rs|
    ensures Allow(l, Run(l, rs).0, r).1 <==>
              forall i | 0 <= i < |rs| && rs[i].key == r.key :: RoomSince(l, rs, Run(l, rs).1, r, i)
  {
    RunLength(l, rs);
    if Allow(l, Run(l, rs).0, r).1 {
      forall i | 0 <= i < |rs| && rs[i].key == r.key ensures RoomSince(l, rs, Run(l, rs).1, r, i) {
        RoomInTheBucket(l, rs, r, i);
      }
    } else {
      var i := NoRoomSince(l, rs, r);
    }
  }

  // ---------- Eviction is invisible ----------

  predicate Ordered(rs: seq<Request>) {
    forall i, j :: 0 <= i < j < |rs| ==> rs[i].at <= rs[j].at
  }

  /** What the evicting limiter remembers is what the other one remembers, and what it forgot has been
      idle for longer than ten minutes. */
  predicate Remembers(b: Buckets, e: Buckets, now: real) {
    && (forall k | k in e :: k in b && b[k] == e[k])
    && (forall k | k in b :: b[k].tokens >= 0.0 && b[k].updated <= now && (k !in e ==> now - b[k].updated > IDLE_FOR))
  }

  lemma IdleRefillsFully(l: Limits, bucket: Bucket, now: real)
    requires l.Valid() && l.burst as real <= Earned(l, IDLE_FOR) && bucket.tokens >= 0.0
             && now - bucket.updated > IDLE_FOR
    ensures Refill(l, bucket, now) == l.burst as real
  {
    EarnedGrows(l, IDLE_FOR, now - bucket.updated);
  }

  lemma RefillIsSound(l: Limits, bucket: Bucket, now: real)
    requires l.Valid() && bucket.tokens >= 0.0 && now >= bucket.updated
    ensures Refill(l, bucket, now) >= 0.0
  {
    EarnedGrows(l, 0.0, now - bucket.updated);
  }

  lemma FreshIsFull(l: Limits, now: real)
    ensures Refill(l, Bucket(l.burst as real, now), now) == l.burst as real
  {
  }

  lemma SameRefill(l: Limits, b: Buckets, e: Buckets, before: real, r: Request)
    requires l.Valid() && l.burst as real <= Earned(l, IDLE_FOR)
    requires Remembers(b, e, before) && before <= r.at
    ensures Refilled(l, b, r.key, r.at) == Refilled(l, e, r.key, r.at) && Refilled(l, b, r.key, r.at) >= 0.0
  {
    FreshIsFull(l, r.at);
    if r.key in b {
      RefillIsSound(l, b[r.key], r.at);
      if r.key !in e { IdleRefillsFully(l, b[r.key], r.at); }
    }
  }

  lemma StillRemembers(b: Buckets, e: Buckets, before: real, now: real, key: Token, tokens: real)
    requires Remembers(b, e, before) && before <= now && tokens >= 0.0
    ensures Remembers(b[key := Bucket(tokens, now)], e[key := Bucket(tokens, now)], now)
    ensures Remembers(b[key := Bucket(tokens, now)], Evicted(e[key := Bucket(tokens, now)], now), now)
  {
  }

  lemma SameDecision(l: Limits, b: Buckets, s: Limiter, before: real, r: Request)
    requires l.Valid() && l.burst as real <= Earned(l, IDLE_FOR)
    requires Remembers(b, s.buckets, before) && before <= r.at
    ensures var (b', ok) := Allow(l, b, r); var (s', ok') := AllowEvicting(l, s, r);
            ok == ok' && Remembers(b', s'.buckets, r.at)
  {
    SameRefill(l, b, s.buckets, before, r);
    var tokens := Refilled(l, b, r.key, r.at);
    StillRemembers(b, s.buckets, before, r.at, r.key, if tokens < 1.0 then tokens else tokens - 1.0);
  }

  lemma {:induction false} RunsAgree(l: Limits, start: real, rs: seq<Request>)
    requires l.Valid() && l.burst as real <= Earned(l, IDLE_FOR) && Ordered(rs)
    ensures Run(l, rs).1 == RunEvicting(l, start, rs).1
    ensures rs != [] ==> Remembers(Run(l, rs).0, RunEvicting(l, start, rs).0.buckets, rs[|rs| - 1].at)
  {
    if rs != [] {
      var n := |rs| - 1;
      RunsAgree(l, start, rs[..n]);
      RunEvictingStep(l, start, rs[..n], rs[n]);
      RunStep(l, rs[..n], rs[n]);
      assert rs == rs[..n] + [rs[n]];
      var before := if n == 0 then rs[0].at else rs[n - 1].at;
      SameDecision(l, Run(l, rs[..n]).0, RunEvicting(l, start, rs[..n]).0, before, rs[n]);
    }
  }

  function Repeat(r: Request, n: nat): seq<Request> { seq(n, _ => r) }

  lemma RepeatMore(rs: seq<Request>, r: Request, n: nat)
    ensures rs + Repeat(r, 0) == rs
    ensures rs + Repeat(r, n + 1) == (rs + Repeat(r, n)) + [r]
  {
  }

  type Decision = (Buckets, Request) -> (Buckets, bool)

  function Plain(l: Limits): Decision {
    (b, r) => Allow(l, b, r)
  }

  /** The same request n times, and whether all were admitted. */
  function SpendWith(allow: Decision, b: Buckets, r: Request, n: nat): (Buckets, bool) {
    if n == 0 then (b, true)
    else
      var (b', all) := SpendWith(allow, b, r, n - 1);
      var (b'', ok) := allow(b', r);
      (b'', all && ok)
  }

  function Spend(l: Limits, b: Buckets, r: Request, n: nat): (Buckets, bool) { SpendWith(Plain(l), b, r, n) }

  lemma SameInstant(l: Limits, bucket: Bucket, now: real)
    requires bucket.updated == now && bucket.tokens <= l.burst as real
    ensures Refill(l, bucket, now) == bucket.tokens
  {
  }

  /** n requests at one instant are all admitted exactly when n tokens are there. */
  lemma {:induction false} SpendCounts(l: Limits, b: Buckets, r: Request, n: nat)
    requires l.Valid()
    ensures var tokens := Refilled(l, b, r.key, r.at); var (b', all) := Spend(l, b, r, n);
            && (all <==> n == 0 || tokens >= n as real)
            && (n > 0 ==> r.key in b' && b'[r.key].updated == r.at && b'[r.key].tokens <= l.burst as real)
            && (n > 0 && all ==> b'[r.key].tokens == tokens - n as real)
            && (n > 0 && !all ==> b'[r.key].tokens < 1.0)
  {
    if n > 0 {
      SpendCounts(l, b, r, n - 1);
      var b' := Spend(l, b, r, n - 1).0;
      if n > 1 { SameInstant(l, b'[r.key], r.at); }
      assert n == 1 ==> b' == b;
    }
  }

  predicate AllTrue(answers: seq<bool>, from: nat) {
    forall i :: from <= i < |answers| ==> answers[i]
  }

  lemma {:induction false} RunSpends(l: Limits, rs: seq<Request>, r: Request, n: nat)
    ensures var (b, answers) := Run(l, rs + Repeat(r, n)); var (b', all) := Spend(l, Run(l, rs).0, r, n);
            b == b' && |answers| == |rs| + n && (all <==> AllTrue(answers, |rs|))
  {
    RunLength(l, rs + Repeat(r, n));
    if n == 0 {
      RepeatMore(rs, r, 0);
    } else {
      RunSpends(l, rs, r, n - 1);
      RunLength(l, rs + Repeat(r, n - 1));
      RepeatMore(rs, r, n - 1);
      RunStep(l, rs + Repeat(r, n - 1), r);
      AllTrueGrows(Run(l, rs + Repeat(r, n - 1)).1, Run(l, rs + Repeat(r, n)).1, |rs|);
    }
  }

  lemma AllTrueGrows(before: seq<bool>, after: seq<bool>, from: nat)
    requires |after| == |before| + 1 && after[..|before|] == before && from <= |before|
    ensures AllTrue(after, from) <==> AllTrue(before, from) && after[|before|]
  {
    if AllTrue(after, from) {
      forall i | from <= i < |before| ensures before[i] { assert after[..|before|][i] == after[i]; }
    } else if AllTrue(before, from) && after[|before|] {
      forall i | from <= i < |after| ensures after[i] { assert i < |before| ==> after[..|before|][i] == after[i]; }
    }
  }

  /** Until the next clean-up is due the evicting limiter is the other one. */
  lemma NoCleanupYet(l: Limits, s: Limiter, r: Request)
    requires r.at - s.lastCleanup <= CLEANUP_EVERY
    ensures AllowEvicting(l, s, r) == (Limiter(Allow(l, s.buckets, r).0, s.lastCleanup), Allow(l, s.buckets, r).1)
  {
  }

  lemma AllTrueAppend(answers: seq<bool>, ok: bool, from: nat)
    requires from <= |answers|
    ensures AllTrue(answers + [ok], from) <==> AllTrue(answers, from) && ok
  {
    AllTrueGrows(answers, answers + [ok], from);
  }

  /** With this much on the clock the step is the plain decision. */
  ghost predicate NoCleanup(step: Step, allow: Decision, r: Request, cleaned: real) {
    forall s: Limiter | s.lastCleanup == cleaned ::
        step(s, r) == (Limiter(allow(s.buckets, r).0, cleaned), allow(s.buckets, r).1)
  }

  /** A stretch of n equal requests before the next clean-up spends n tokens of the bucket it finds. */
  lemma {:induction false} StretchSpends(step: Step, allow: Decision, start: real, all: seq<Request>, i: nat,
                                         r: Request, n: nat)
    requires i + n <= |all| && forall j | i <= j < i + n :: all[j] == r
    requires NoCleanup(step, allow, r, StateAt(step, start, all, i).0.lastCleanup)
    ensures var s := StateAt(step, start, all, i).0; var (s', answers) := StateAt(step, start, all, i + n);
            && s' == Limiter(SpendWith(allow, s.buckets, r, n).0, s.lastCleanup) && |answers| == i + n
            && (SpendWith(allow, s.buckets, r, n).1 <==> AllTrue(answers, i))
  {
    StateLength(step, start, all, i + n);
    if n > 0 {
      StretchSpends(step, allow, start, all, i, r, n - 1);
      var (s, answers) := StateAt(step, start, all, i + n - 1);
      AllTrueAppend(answers, allow(s.buckets, r).1, i);
    }
  }

  lemma EvictingHasNoCleanup(l: Limits, r: Request, cleaned: real)
    requires r.at - cleaned <= CLEANUP_EVERY
    ensures NoCleanup(Evicting(l), Plain(l), r, cleaned)
  {
    forall s: Limiter | s.lastCleanup == cleaned
      ensures Evicting(l)(s, r) == (Limiter(Plain(l)(s.buckets, r).0, cleaned), Plain(l)(s.buckets, r).1)
    {
      NoCleanupYet(l, s, r);
    }
  }

  lemma SpendsAfter(step: Step, allow: Decision, start: real, rs: seq<Request>, r: Request, n: nat)
    requires NoCleanup(step, allow, r, StateAt(step, start, rs, |rs|).0.lastCleanup)
    ensures var all := rs + Repeat(r, n); var answers := StateAt(step, start, all, |all|).1;
            |answers| == |rs| + n
                && (SpendWith(allow, StateAt(step, start, rs, |rs|).0.buckets, r, n).1 <==> AllTrue(answers, |rs|))
  {
    var all := rs + Repeat(r, n);
    StateAgrees(step, start, rs, all, |rs|);
    StretchSpends(step, allow, start, all, |rs|, r, n);
  }

  lemma RunEvictingSpends(l: Limits, start: real, rs: seq<Request>, r: Request, n: nat)
    requires r.at - RunEvicting(l, start, rs).0.lastCleanup <= CLEANUP_EVERY
    ensures var answers := RunEvicting(l, start, rs + Repeat(r, n)).1;
            |answers| == |rs| + n && (Spend(l, RunEvicting(l, start, rs).0.buckets, r, n).1 <==> AllTrue(answers, |rs|))
  {
    EvictingHasNoCleanup(l, r, RunEvicting(l, start, rs).0.lastCleanup);
    SpendsAfter(Evicting(l), Plain(l), start, rs, r, n);
  }

  /** Halfway between ten minutes and the time a full refill takes. */
  function Absence(l: Limits): real
    requires l.Valid()
  {
    (IDLE_FOR + l.burst as real / l.rps) / 2.0
  }

  lemma AbsenceIsShort(l: Limits)
    requires l.Valid() && l.burst as real > Earned(l, IDLE_FOR)
    ensures Absence(l) > IDLE_FOR && Earned(l, Absence(l)) < l.burst as real
  {
    var full := l.burst as real / l.rps;
    assert Earned(l, full) == l.burst as real;
    if full <= IDLE_FOR { EarnedGrows(l, full, IDLE_FOR); }
    EarnedAdds(l, IDLE_FOR / 2.0, full / 2.0);
    EarnedAdds(l, IDLE_FOR / 2.0, IDLE_FOR / 2.0);
    EarnedAdds(l, full / 2.0, full / 2.0);
    assert Absence(l) == IDLE_FOR / 2.0 + full / 2.0;
  }

  /** A caller spends the whole burst at once, and another caller's request comes when it has been idle for a
      little more than ten minutes. */
  function Leaving(l: Limits, t0: real): seq<Request>
    requires l.Valid()
  {
    Repeat(Request(0, t0), l.burst) + [Request(1, t0 + Absence(l))]
  }

  function Returning(l: Limits, t0: real): Request
    requires l.Valid()
  {
    Request(0, t0 + Absence(l))
  }

  /** Then it spends the burst again: if the burst exceeds what ten minutes refill, forgetting its bucket
      hands out tokens it never earned. */
  function Comeback(l: Limits, t0: real): seq<Request>
    requires l.Valid()
  {
    Leaving(l, t0) + Repeat(Returning(l, t0), l.burst)
  }

  /** The burst is spent to the last token. */
  lemma BurstIsSpent(l: Limits, t0: real)
    requires l.Valid()
    ensures var (b, all) := Spend(l, map[], Request(0, t0), l.burst); all && 0 in b && b[0] == Bucket(0.0, t0)
  {
    SpendCounts(l, map[], Request(0, t0), l.burst);
    FreshIsFull(l, t0);
  }

  /** Requests at one instant on a fresh limiter: a clean-up may fall among them, and drops nothing. */
  lemma {:induction false} FreshSpends(l: Limits, start: real, r: Request, n: nat)
    requires start <= r.at
    ensures var (s, answers) := RunEvicting(l, start, Repeat(r, n)); var (b, all) := Spend(l, map[], r, n);
            && s.buckets == b && |answers| == n && (all <==> AllTrue(answers, 0))
            && s.lastCleanup <= r.at && (forall k | k in b :: b[k].updated == r.at)
  {
    if n > 0 {
      FreshSpends(l, start, r, n - 1);
      assert Repeat(r, n) == Repeat(r, n - 1) + [r];
      RunEvictingStep(l, start, Repeat(r, n - 1), r);
      var s := RunEvicting(l, start, Repeat(r, n - 1)).0;
      FreshStep(l, s, r);
      AllTrueGrows(RunEvicting(l, start, Repeat(r, n - 1)).1, RunEvicting(l, start, Repeat(r, n)).1, 0);
    }
  }

  lemma FreshStep(l: Limits, s: Limiter, r: Request)
    requires s.lastCleanup <= r.at && forall k | k in s.buckets :: s.buckets[k].updated == r.at
    ensures var (s', ok) := AllowEvicting(l, s, r); var (b, ok') := Allow(l, s.buckets, r);
            s'.buckets == b && ok == ok' && s'.lastCleanup <= r.at && forall k | k in b :: b[k].updated == r.at
  {
  }

  lemma AfterBurst(l: Limits, t0: real)
    requires l.Valid()
    ensures Run(l, Repeat(Request(0, t0), l.burst)).0 == Spend(l, map[], Request(0, t0), l.burst).0
  {
    var first := Request(0, t0);
    assert [] + Repeat(first, l.burst) == Repeat(first, l.burst);
    RunSpends(l, [], first, l.burst);
  }

  lemma OtherKeyStays(l: Limits, b: Buckets, r: Request, key: Token)
    requires key in b && r.key != key
    ensures var b' := Allow(l, b, r).0; key in b' && b'[key] == b[key]
  {
  }

  /** The plain limiter still has the empty bucket, and refills it for the absence only. */
  lemma PlainReturn(l: Limits, t0: real)
    requires l.Valid() && l.burst as real > Earned(l, IDLE_FOR)
    ensures Refilled(l, Run(l, Leaving(l, t0)).0, 0, t0 + Absence(l)) < l.burst as real
  {
    AbsenceIsShort(l);
    BurstIsSpent(l, t0);
    AfterBurst(l, t0);
    var first, probe := Repeat(Request(0, t0), l.burst), Request(1, t0 + Absence(l));
    RunStep(l, first, probe);
    OtherKeyStays(l, Run(l, first).0, probe, 0);
    assert Run(l, Leaving(l, t0)).0 == Allow(l, Run(l, first).0, probe).0;
  }

  lemma SweepForgets(l: Limits, s: Limiter, r: Request, key: Token)
    requires key in s.buckets && r.key != key && r.at - s.buckets[key].updated > IDLE_FOR
             && r.at - s.lastCleanup > CLEANUP_EVERY
    ensures var s' := AllowEvicting(l, s, r).0; key !in s'.buckets && s'.lastCleanup == r.at
  {
    OtherKeyStays(l, s.buckets, r, key);
  }

  /** The evicting limiter admitted the burst, forgot the empty bucket, and starts a full one. */
  lemma EvictingReturn(l: Limits, start: real, t0: real)
    requires l.Valid() && l.burst as real > Earned(l, IDLE_FOR) && start <= t0
    ensures var (s, answers) := RunEvicting(l, start, Leaving(l, t0));
            0 !in s.buckets && s.lastCleanup == t0 + Absence(l) && |answers| == l.burst + 1
                && AllTrue(answers[..l.burst], 0)
  {
    AbsenceIsShort(l);
    BurstIsSpent(l, t0);
    var first, probe := Repeat(Request(0, t0), l.burst), Request(1, t0 + Absence(l));
    FreshSpends(l, start, Request(0, t0), l.burst);
    RunEvictingStep(l, start, first, probe);
    SweepForgets(l, RunEvicting(l, start, first).0, probe, 0);
    var answers := RunEvicting(l, start, first).1;
    assert (answers + [AllowEvicting(l, RunEvicting(l, start, first).0, probe).1])[..l.burst] == answers;
    assert Leaving(l, t0) == first + [probe];
  }

  lemma PlainComeback(l: Limits, t0: real)
    requires l.Valid() && l.burst as real > Earned(l, IDLE_FOR)
    ensures !AllTrue(Run(l, Comeback(l, t0)).1, l.burst + 1)
  {
    var rs, again := Leaving(l, t0), Returning(l, t0);
    PlainReturn(l, t0);
    SpendCounts(l, Run(l, rs).0, again, l.burst);
    RunSpends(l, rs, again, l.burst);
    assert Comeback(l, t0) == rs + Repeat(again, l.burst);
  }

  /** Both bursts are admitted. */
  lemma EvictingComeback(l: Limits, start: real, t0: real)
    requires l.Valid() && l.burst as real > Earned(l, IDLE_FOR) && start <= t0
    ensures var answers := RunEvicting(l, start, Comeback(l, t0)).1;
            |answers| == 2 * l.burst + 1 && AllTrue(answers[..l.burst], 0) && AllTrue(answers, l.burst + 1)
  {
    var rs, again := Leaving(l, t0), Returning(l, t0);
    EvictingReturn(l, start, t0);
    FreshIsFull(l, again.at);
    var b := RunEvicting(l, start, rs).0.buckets;
    assert Refilled(l, b, again.key, again.at) == l.burst as real;
    SpendCounts(l, b, again, l.burst);
    RunEvictingSpends(l, start, rs, again, l.burst);
    var all := Comeback(l, t0);
    assert all == rs + Repeat(again, l.burst) && all[..|rs|] == rs;
    AnswersStay(l, start, all, |rs|);
    var before, after := RunEvicting(l, start, rs).1, RunEvicting(l, start, all).1;
    assert after[..l.burst] == after[..|before|][..l.burst] == before[..l.burst];
  }

  /** The answers to a beginning are the beginning of the answers. */
  lemma AnswersStay(l: Limits, start: real, rs: seq<Request>, n: nat)
    requires n <= |rs|
    ensures |RunEvicting(l, start, rs).1| == |rs| && |RunEvicting(l, start, rs[..n]).1| == n
    ensures RunEvicting(l, start, rs).1[..n] == RunEvicting(l, start, rs[..n]).1
  {
    StateLength(Evicting(l), start, rs, |rs|);
    StateLength(Evicting(l), start, rs, n);
    StateAgrees(Evicting(l), start, rs, rs[..n], n);
    AnswersGrow(Evicting(l), start, rs, n, |rs|);
  }

  lemma {:induction false} AnswersGrow(step: Step, start: real, rs: seq<Request>, n: nat, m: nat)
    requires n <= m <= |rs|
    ensures StateAt(step, start, rs, n).1 <= StateAt(step, start, rs, m).1
  {
    if n < m { AnswersGrow(step, start, rs, n, m - 1); }
  }

  // ---------- When forgetting shows ----------

  predicate From(rs: seq<Request>, t0: real) {
    forall i | 0 <= i < |rs| :: t0 <= rs[i].at
  }

  lemma ComebackIsOrdered(l: Limits, t0: real)
    requires l.Valid() && l.burst as real > Earned(l, IDLE_FOR)
    ensures Ordered(Comeback(l, t0)) && From(Comeback(l, t0), t0)
  {
    AbsenceIsShort(l);
  }

  /** Forgetting idle buckets is invisible to every ordered request sequence exactly when ten minutes
      refill a whole burst. The limiter may be as old as it likes when the first request comes. */
  lemma EvictionIsInvisibleExactlyWhen(l: Limits, start: real, t0: real)
    requires l.Valid() && start <= t0
    ensures (forall rs | Ordered(rs) && From(rs, t0) :: Run(l, rs).1 == RunEvicting(l, start, rs).1) <==>
            l.burst as real <= Earned(l, IDLE_FOR)
  {
    if l.burst as real <= Earned(l, IDLE_FOR) {
      forall rs | Ordered(rs) && From(rs, t0)
        ensures Run(l, rs).1 == RunEvicting(l, start, rs).1
      {
        RunsAgree(l, start, rs);
      }
    } else {
      PlainComeback(l, t0);
      EvictingComeback(l, start, t0);
      ComebackIsOrdered(l, t0);
    }
  }

  /** A window of an ordered sequence: from request i to the last one, both of one key. */
  predicate Window(rs: seq<Request>, i: nat, t0: real) {
    Ordered(rs) && From(rs, t0) && i < |rs| && rs[|rs| - 1].key == rs[i].key
  }

  /** If the last request is admitted, the window admitted no more than the burst and what it earned. */
  ghost predicate WithinBound(l: Limits, start: real, rs: seq<Request>, i: nat)
    requires i < |rs|
  {
    var answers := RunEvicting(l, start, rs).1;
    |answers| == |rs| &&
    (answers[|rs| - 1] ==>
        Admitted(rs, answers, rs[i].key, i) as real <= l.burst as real + Earned(l, rs[|rs| - 1].at - rs[i].at))
  }

  lemma {:induction false} AdmittedJoin(a: seq<Request>, x: seq<bool>, b: seq<Request>, y: seq<bool>, key: Token)
    requires |a| == |x| && |b| == |y|
    ensures Admitted(a + b, x + y, key, 0) == Admitted(a, x, key, 0) + Admitted(b, y, key, 0)
  {
    if b == [] {
      assert a + b == a && x + y == x;
    } else {
      var n := |b| - 1;
      assert (a + b)[..|a + b| - 1] == a + b[..n] && (x + y)[..|x + y| - 1] == x + y[..n];
      AdmittedJoin(a, x, b[..n], y[..n], key);
    }
  }

  lemma {:induction false} AdmittedRepeat(r: Request, n: nat, answers: seq<bool>)
    requires |answers| == n && AllTrue(answers, 0)
    ensures Admitted(Repeat(r, n), answers, r.key, 0) == n
  {
    if n > 0 {
      assert Repeat(r, n)[..n - 1] == Repeat(r, n - 1);
      AdmittedRepeat(r, n - 1, answers[..n - 1]);
    }
  }

  lemma PartsAdmit(l: Limits, t0: real, x: seq<bool>, y: seq<bool>, z: seq<bool>)
    requires l.Valid() && |x| == l.burst && |y| == 1 && |z| == l.burst && AllTrue(x, 0) && AllTrue(z, 0)
    ensures |Comeback(l, t0)| == |x + y + z| && Admitted(Comeback(l, t0), x + y + z, 0, 0) >= 2 * l.burst
  {
    var first, probe, again := Repeat(Request(0, t0), l.burst), [Request(1, t0 + Absence(l))],
        Repeat(Returning(l, t0), l.burst);
    AdmittedJoin(first + probe, x + y, again, z, 0);
    AdmittedJoin(first, x, probe, y, 0);
    AdmittedRepeat(Request(0, t0), l.burst, x);
    AdmittedRepeat(Returning(l, t0), l.burst, z);
  }

  lemma ComebackAdmits(l: Limits, t0: real, answers: seq<bool>)
    requires l.Valid() && |answers| == 2 * l.burst + 1 && AllTrue(answers[..l.burst], 0)
             && AllTrue(answers, l.burst + 1)
    ensures |Comeback(l, t0)| == |answers| && Admitted(Comeback(l, t0), answers, 0, 0) >= 2 * l.burst
  {
    var n := l.burst;
    var x, y, z := answers[..n], answers[n..n + 1], answers[n + 1..];
    forall i | 0 <= i < |z| ensures z[i] { assert z[i] == answers[n + 1 + i]; }
    PartsAdmit(l, t0, x, y, z);
    assert answers == x + y + z;
  }

  lemma ComebackExceedsBound(l: Limits, start: real, t0: real)
    requires l.Valid() && l.burst as real > Earned(l, IDLE_FOR) && start <= t0
    ensures Window(Comeback(l, t0), 0, t0) && !WithinBound(l, start, Comeback(l, t0), 0)
  {
    var rs := Comeback(l, t0);
    EvictingComeback(l, start, t0);
    ComebackAdmits(l, t0, RunEvicting(l, start, rs).1);
    AbsenceIsShort(l);
    ComebackIsOrdered(l, t0);
    assert rs[0] == Request(0, t0) && rs[|rs| - 1] == Returning(l, t0);
  }

  lemma BoundWithoutForgetting(l: Limits, start: real, rs: seq<Request>, i: nat, t0: real)
    requires l.Valid() && l.burst as real <= Earned(l, IDLE_FOR) && Window(rs, i, t0)
    ensures WithinBound(l, start, rs, i)
  {
    RunsAgree(l, start, rs);
    WindowBound(l, rs, i);
  }

  /** The evicting limiter keeps the window bound on every ordered sequence exactly when ten minutes refill a
      whole burst; otherwise the comeback is admitted twice the burst. */
  lemma EvictingWindowBoundExactlyWhen(l: Limits, start: real, t0: real)
    requires l.Valid() && start <= t0
    ensures (forall rs, i: nat | Window(rs, i, t0) :: WithinBound(l, start, rs, i)) <==>
            l.burst as real <= Earned(l, IDLE_FOR)
  {
    if l.burst as real <= Earned(l, IDLE_FOR) {
      forall rs, i: nat | Window(rs, i, t0)
        ensures WithinBound(l, start, rs, i)
      {
        BoundWithoutForgetting(l, start, rs, i, t0);
      }
    } else {
      ComebackExceedsBound(l, start, t0);
    }
  }
}
