/** The token bucket, apps/api/src/rate-limit.ts. */
module RateLimit {
  import opened Arithmetic

  // Tokens are carried in units of 1/windowMs of a request, which makes every
  // refill exact: a bucket gains `limit` units a millisecond, and a request costs
  // `windowMs` of them.

  datatype Rule = Rule(limit: nat, windowMs: nat)

  datatype Bucket = Bucket(tokens: int, at: int)

  const SWEEP_EVERY: nat := 1_000

  ghost predicate ValidRule(rule: Rule) {
    rule.limit > 0 && rule.windowMs > 0
  }

  function Full(rule: Rule): nat {
    rule.limit * rule.windowMs
  }

  function Min(a: int, b: int): int {
    if a <= b then a else b
  }

  function CeilDiv(a: nat, b: nat): nat
    requires b > 0
  {
    (a + b - 1) / b
  }

  function Refilled(bucket: Bucket, rule: Rule, at: int): Bucket {
    var elapsed := at - bucket.at;
    if elapsed > 0 then Bucket(Min(Full(rule), bucket.tokens + elapsed * rule.limit), at) else bucket
  }

  /** The bucket after one request, and how long the caller must wait. */
  function Spent(bucket: Bucket, rule: Rule, at: int): (Bucket, nat)
    requires rule.limit > 0
  {
    var b := Refilled(bucket, rule, at);
    if b.tokens < rule.windowMs then (b, CeilDiv(rule.windowMs - b.tokens, rule.limit))
    else (b.(tokens := b.tokens - rule.windowMs), 0)
  }

  method Spend(bucket: Bucket, rule: Rule, at: int) returns (after: Bucket, waitMs: nat)
    requires rule.limit > 0
    ensures (after, waitMs) == Spent(bucket, rule, at)
  {
    var tokens, when := bucket.tokens, bucket.at;
    var elapsed := at - when;
    if elapsed > 0 {
      tokens := Min(rule.limit * rule.windowMs, tokens + elapsed * rule.limit);
      when := at;
    }
    if tokens < rule.windowMs {
      return Bucket(tokens, when), CeilDiv(rule.windowMs - tokens, rule.limit);
    }
    tokens := tokens - rule.windowMs;
    return Bucket(tokens, when), 0;
  }

  // ---------------------------------------------------------------------
  // The limiter
  // ---------------------------------------------------------------------

  type Buckets = map<string, Bucket>

  datatype Request = Request(key: string, rule: Rule, at: int)

  function BucketOf(buckets: Buckets, key: string, rule: Rule, at: int): Bucket {
    if key in buckets then buckets[key] else Bucket(Full(rule), at)
  }

  function Swept(buckets: Buckets, windowMs: nat, at: int): Buckets {
    map id | id in buckets && at - buckets[id].at < windowMs :: buckets[id]
  }

  /** A limiter that never sweeps. */
  function Charged(buckets: Buckets, q: Request): (Buckets, nat)
    requires q.rule.limit > 0
  {
    var (b, waitMs) := Spent(BucketOf(buckets, q.key, q.rule, q.at), q.rule, q.at);
    (buckets[q.key := b], waitMs)
  }

  datatype Limiter = Limiter(buckets: Buckets, sinceSweep: nat)

  /** The limiter as it is: one call in a thousand sweeps first. */
  function Step(s: Limiter, q: Request): (Limiter, nat)
    requires q.rule.limit > 0
  {
    var sweeps := s.sinceSweep + 1 >= SWEEP_EVERY;
    var buckets := if sweeps then Swept(s.buckets, q.rule.windowMs, q.at) else s.buckets;
    var (after, waitMs) := Charged(buckets, q);
    (Limiter(after, if sweeps then 0 else s.sinceSweep + 1), waitMs)
  }

  class MemoryRateLimit {
    var buckets: Buckets
    var sinceSweep: nat

    constructor ()
      ensures buckets == map[] && sinceSweep == 0
    {
      buckets, sinceSweep := map[], 0;
    }

    method Charge(key: string, rule: Rule, at: int) returns (waitMs: nat)
      requires rule.limit > 0
      modifies this
      ensures (Limiter(buckets, sinceSweep), waitMs)
           == Step(Limiter(old(buckets), old(sinceSweep)), Request(key, rule, at))
    {
      sinceSweep := sinceSweep + 1;
      if sinceSweep >= SWEEP_EVERY {
        sinceSweep := 0;
        Sweep(rule.windowMs, at);
      }
      var bucket := BucketOf(buckets, key, rule, at);
      var after;
      after, waitMs := Spend(bucket, rule, at);
      buckets := buckets[key := after];
    }

    method Sweep(windowMs: nat, at: int)
      modifies `buckets
      ensures buckets == Swept(old(buckets), windowMs, at)
    {
      var before := buckets;
      var ids := before.Keys;
      while ids != {}
        invariant ids <= before.Keys
        invariant forall id | id in before.Keys - ids :: id in buckets <==> at - before[id].at < windowMs
        invariant forall id | id in ids :: id in buckets
        invariant forall id | id in buckets :: id in before && buckets[id] == before[id]
        decreases ids
      {
        var id :| id in ids;
        if at - before[id].at >= windowMs {
          buckets := buckets - {id};
        }
        ids := ids - {id};
      }
    }
  }

  // ---------------------------------------------------------------------
  // Sweeping shows nowhere
  // ---------------------------------------------------------------------

  /** Requests under one window length, on a clock that does not run backwards. */
  ghost predicate Orderly(qs: seq<Request>, windowMs: nat) {
    && (forall q | q in qs :: ValidRule(q.rule) && q.rule.windowMs == windowMs)
    && (forall i, j | 0 <= i < j < |qs| :: qs[i].at <= qs[j].at)
  }

  ghost function Answers(s: Limiter, qs: seq<Request>): (r: seq<nat>)
    requires forall q | q in qs :: ValidRule(q.rule)
    ensures |r| == |qs|
    decreases |qs|
  {
    if qs == [] then [] else
      assert qs[0] in qs && ValidRule(qs[0].rule);
      var r := Step(s, qs[0]);
      [r.1] + Answers(r.0, qs[1..])
  }

  ghost function PlainAnswers(buckets: Buckets, qs: seq<Request>): (r: seq<nat>)
    requires forall q | q in qs :: ValidRule(q.rule)
    ensures |r| == |qs|
    decreases |qs|
  {
    if qs == [] then [] else
      assert qs[0] in qs && ValidRule(qs[0].rule);
      var r := Charged(buckets, qs[0]);
      [r.1] + PlainAnswers(r.0, qs[1..])
  }

  /** A bucket nothing can tell from a fresh one at `now` or later. */
  ghost predicate Rested(bucket: Bucket, windowMs: nat, now: int) {
    bucket.tokens >= 0 && now - bucket.at >= windowMs
  }

  /** The kept buckets agree; whatever the sweeps dropped has rested a whole window. */
  ghost predicate Agree(kept: Buckets, plain: Buckets, windowMs: nat, now: int) {
    && (forall id | id in kept :: id in plain && kept[id] == plain[id])
    && (forall id | id in plain :: 0 <= plain[id].tokens && plain[id].at <= now)
    && (forall id | id in plain && id !in kept :: Rested(plain[id], windowMs, now))
  }

  /** After a whole window a bucket is full, whatever the limit asked of it. */
  lemma RestedIsFull(bucket: Bucket, rule: Rule, at: int)
    requires ValidRule(rule) && Rested(bucket, rule.windowMs, at)
    ensures Refilled(bucket, rule, at) == Bucket(Full(rule), at)
    ensures Spent(bucket, rule, at) == Spent(Bucket(Full(rule), at), rule, at)
  {
    MulMonotone(rule.windowMs, at - bucket.at, rule.limit);
  }

  lemma SpentStaysSane(bucket: Bucket, rule: Rule, at: int)
    requires ValidRule(rule) && bucket.tokens >= 0 && bucket.at <= at
    ensures var b := Spent(bucket, rule, at).0; b.tokens >= 0 && b.at == at
  {
    if at > bucket.at {
      MulMonotone(0, at - bucket.at, rule.limit);
      MulMonotone(0, rule.limit, rule.windowMs);
    }
  }

  lemma ChargeAgrees(kept: Buckets, plain: Buckets, q: Request, now: int)
    requires ValidRule(q.rule) && Agree(kept, plain, q.rule.windowMs, now) && now <= q.at
    ensures Charged(kept, q).1 == Charged(plain, q).1
    ensures Agree(Charged(kept, q).0, Charged(plain, q).0, q.rule.windowMs, q.at)
  {
    var k, p := BucketOf(kept, q.key, q.rule, q.at), BucketOf(plain, q.key, q.rule, q.at);
    if q.key in plain && q.key !in kept {
      RestedIsFull(p, q.rule, q.at);
    }
    MulMonotone(0, q.rule.limit, q.rule.windowMs);
    SpentStaysSane(p, q.rule, q.at);
    hide Spent;
  }

  lemma SweepAgrees(kept: Buckets, plain: Buckets, windowMs: nat, now: int, at: int)
    requires Agree(kept, plain, windowMs, now) && now <= at
    ensures Agree(Swept(kept, windowMs, at), plain, windowMs, at)
  {
  }

  lemma {:induction false} SweepingAgrees(s: Limiter, plain: Buckets, qs: seq<Request>, windowMs: nat, now: int)
    requires Orderly(qs, windowMs) && Agree(s.buckets, plain, windowMs, now)
    requires qs != [] ==> now <= qs[0].at
    ensures Answers(s, qs) == PlainAnswers(plain, qs)
    decreases |qs|
  {
    if qs != [] {
      var q := qs[0];
      assert q in qs;
      SweepAgrees(s.buckets, plain, windowMs, now, q.at);
      ChargeAgrees(s.buckets, plain, q, now);
      ChargeAgrees(Swept(s.buckets, windowMs, q.at), plain, q, q.at);
      assert Agree(Step(s, q).0.buckets, Charged(plain, q).0, windowMs, q.at);
      hide Agree, Charged, Step, Swept;
      SweepingAgrees(Step(s, q).0, Charged(plain, q).0, qs[1..], windowMs, q.at);
    }
  }

  /** On every run under one window, the sweeping limiter answers as one that never sweeps. */
  lemma SweepingIsInvisible(qs: seq<Request>, windowMs: nat)
    requires Orderly(qs, windowMs)
    ensures Answers(Limiter(map[], 0), qs) == PlainAnswers(map[], qs)
  {
    if qs != [] {
      SweepingAgrees(Limiter(map[], 0), map[], qs, windowMs, qs[0].at);
    }
  }

  // ---------------------------------------------------------------------
  // Two windows, and the sweep shows
  // ---------------------------------------------------------------------

  ghost predicate ValidRules(qs: seq<Request>) {
    forall q | q in qs :: ValidRule(q.rule)
  }

  /** The limiter, and the limiter that never sweeps, after a run. */
  ghost function After(s: Limiter, qs: seq<Request>): Limiter
    requires ValidRules(qs)
    decreases |qs|
  {
    if qs == [] then s else
      assert qs[0] in qs;
      After(Step(s, qs[0]).0, qs[1..])
  }

  ghost function PlainState(buckets: Buckets, qs: seq<Request>): Buckets
    requires ValidRules(qs)
    decreases |qs|
  {
    if qs == [] then buckets else
      assert qs[0] in qs;
      PlainState(Charged(buckets, qs[0]).0, qs[1..])
  }

  lemma ValidParts(a: seq<Request>, b: seq<Request>)
    requires ValidRules(a + b)
    ensures ValidRules(a) && ValidRules(b)
    ensures a != [] ==> ValidRule(a[0].rule) && (a + b)[0] == a[0] && (a + b)[1..] == a[1..] + b && ValidRules(a[1..] + b)
  {
    assert forall q | q in a :: q in a + b;
    assert forall q | q in b :: q in a + b;
    if a != [] {
      assert a[0] in a && (a + b)[1..] == a[1..] + b;
      assert forall q | q in a[1..] + b :: q in a + b;
    }
  }

  lemma HeadFirst(s: Limiter, buckets: Buckets, q: Request, rest: seq<Request>)
    requires ValidRule(q.rule) && ValidRules(rest)
    ensures ValidRules([q] + rest)
    ensures Answers(s, [q] + rest) == [Step(s, q).1] + Answers(Step(s, q).0, rest)
    ensures After(s, [q] + rest) == After(Step(s, q).0, rest)
    ensures PlainAnswers(buckets, [q] + rest) == [Charged(buckets, q).1] + PlainAnswers(Charged(buckets, q).0, rest)
    ensures PlainState(buckets, [q] + rest) == PlainState(Charged(buckets, q).0, rest)
  {
    hide Step, Charged;
    assert ([q] + rest)[1..] == rest;
  }

  lemma Regrouped(x: nat, a: seq<nat>, b: seq<nat>)
    ensures [x] + (a + b) == [x] + a + b
  {
  }

  /** What is answered after a run is answered from the state it leaves. */
  lemma {:induction false} AnswersJoin(s: Limiter, buckets: Buckets, a: seq<Request>, b: seq<Request>)
    requires ValidRules(a) && ValidRules(b) && ValidRules(a + b)
    ensures Answers(s, a + b) == Answers(s, a) + Answers(After(s, a), b)
    ensures PlainAnswers(buckets, a + b) == PlainAnswers(buckets, a) + PlainAnswers(PlainState(buckets, a), b)
    decreases |a|
  {
    if a == [] {
      assert a + b == b;
    } else {
      var q, rest := a[0], a[1..];
      ValidParts(a, b);
      assert a == [q] + rest && a + b == [q] + (rest + b);
      ValidParts([q], rest);
      hide *;
      HeadFirst(s, buckets, q, rest);
      HeadFirst(s, buckets, q, rest + b);
      var t, u := Step(s, q), Charged(buckets, q);
      AnswersJoin(t.0, u.0, rest, b);
      Regrouped(t.1, Answers(t.0, rest), Answers(After(t.0, rest), b));
      Regrouped(u.1, PlainAnswers(u.0, rest), PlainAnswers(PlainState(u.0, rest), b));
    }
  }

  /** One request of the rule spends its bucket; `n` of another key's follow at once. */
  function Filler(quick: Rule, n: nat): seq<Request> {
    seq(n, _ => Request("quick", quick, 0))
  }

  /** The slow key's bucket is empty, and no sweep is due for `n` more requests. */
  ghost predicate Drained(s: Limiter, n: nat) {
    "slow" in s.buckets && s.buckets["slow"] == Bucket(0, 0) && s.sinceSweep + n < SWEEP_EVERY
  }

  lemma {:induction false} FillerKeeps(s: Limiter, quick: Rule, n: nat)
    requires ValidRule(quick) && Drained(s, n)
    ensures ValidRules(Filler(quick, n))
    ensures var t := After(s, Filler(quick, n));
            && t.sinceSweep == s.sinceSweep + n && t.buckets == PlainState(s.buckets, Filler(quick, n))
            && Drained(t, 0)
    decreases n
  {
    if n > 0 {
      var q := Request("quick", quick, 0);
      assert Filler(quick, n)[0] == q && Filler(quick, n)[1..] == Filler(quick, n - 1);
      hide Spent;
      FillerKeeps(Step(s, q).0, quick, n - 1);
    }
  }

  /** A slow request at once, requests of the quick rule up to the next sweep, the sweep one quick window later, and the slow key again. */
  function SlowThenSweep(slow: Rule, quick: Rule): seq<Request> {
    [Request("slow", slow, 0)] + Filler(quick, SWEEP_EVERY - 2) + SweepAndAsk(slow, quick)
  }

  function SweepAndAsk(slow: Rule, quick: Rule): seq<Request> {
    [Request("quick", quick, quick.windowMs), Request("slow", slow, quick.windowMs)]
  }

  lemma FirstSpends(slow: Rule)
    requires ValidRule(slow) && slow.limit == 1
    ensures Step(Limiter(map[], 0), Request("slow", slow, 0)) == (Limiter(map["slow" := Bucket(0, 0)], 1), 0)
    ensures Charged(map[], Request("slow", slow, 0)) == (map["slow" := Bucket(0, 0)], 0)
  {
  }

  /** The sweep drops the slow bucket before it has refilled: the limiter admits what it should refuse. */
  lemma SweepForgets(s: Limiter, slow: Rule, quick: Rule)
    requires ValidRule(slow) && ValidRule(quick) && slow.limit == 1 && quick.windowMs < slow.windowMs
    requires Drained(s, 0) && s.sinceSweep == SWEEP_EVERY - 1
    ensures ValidRules(SweepAndAsk(slow, quick))
    ensures Answers(s, SweepAndAsk(slow, quick)) != PlainAnswers(s.buckets, SweepAndAsk(slow, quick))
  {
    var qs := SweepAndAsk(slow, quick);
    var q0, q1 := qs[0], qs[1];
    var s1, p1 := Step(s, q0).0, Charged(s.buckets, q0).0;
    assert qs[1..] == [q1];
    assert q0 in qs && q1 in qs;
    assert "slow" !in s1.buckets && p1["slow"] == Bucket(0, 0);
    assert Step(s1, q1).1 == 0;
    CeilDivIs(slow.windowMs - quick.windowMs, 1, 0);
    assert Charged(p1, q1).1 > 0;
    hide Step, Charged;
    assert Answers(s, qs)[1] == Answers(s1, [q1])[0] == 0;
    assert PlainAnswers(s.buckets, qs)[1] == PlainAnswers(p1, [q1])[0];
  }

  lemma SlowThenSweepIs(slow: Rule, quick: Rule)
    requires ValidRule(slow) && ValidRule(quick)
    ensures var qs := SlowThenSweep(slow, quick);
            && ValidRules(qs) && (forall i, j | 0 <= i < j < |qs| :: qs[i].at <= qs[j].at)
            && (forall q | q in qs :: q.rule == slow || q.rule == quick)
  {
  }

  /** The run up to the sweep: the slow bucket is empty, the sweep is due. */
  lemma BeforeSweep(slow: Rule, quick: Rule)
    requires ValidRule(slow) && ValidRule(quick) && slow.limit == 1
    ensures var head := [Request("slow", slow, 0)] + Filler(quick, SWEEP_EVERY - 2);
            && ValidRules(head)
            && var s := After(Limiter(map[], 0), head);
            s.sinceSweep == SWEEP_EVERY - 1 && s.buckets == PlainState(map[], head) && Drained(s, 0)
  {
    var first, filler := Request("slow", slow, 0), Filler(quick, SWEEP_EVERY - 2);
    var head, spent := [first] + filler, Limiter(map["slow" := Bucket(0, 0)], 1);
    FirstSpends(slow);
    FillerKeeps(spent, quick, SWEEP_EVERY - 2);
    hide Step, Charged, Filler;
    assert head[0] == first && head[1..] == filler;
  }

  /**
   For any two window lengths some run from the empty limiter is answered differently
   than by one that never sweeps.
  */
  lemma SweepShowsUnderTwo(slow: Rule, quick: Rule)
    requires ValidRule(slow) && ValidRule(quick) && slow.limit == 1 && quick.windowMs < slow.windowMs
    ensures ValidRules(SlowThenSweep(slow, quick))
    ensures Answers(Limiter(map[], 0), SlowThenSweep(slow, quick)) != PlainAnswers(map[], SlowThenSweep(slow, quick))
  {
    var head, last := [Request("slow", slow, 0)] + Filler(quick, SWEEP_EVERY - 2), SweepAndAsk(slow, quick);
    SlowThenSweepIs(slow, quick);
    assert SlowThenSweep(slow, quick) == head + last;
    BeforeSweep(slow, quick);
    var start := Limiter(map[], 0);
    var s := After(start, head);
    SweepForgets(s, slow, quick);
    hide *;
    AnswersJoin(start, map[], head, last);
    SuffixDiffers(Answers(start, head), Answers(s, last), PlainAnswers(map[], head), PlainAnswers(s.buckets, last));
  }

  lemma SuffixDiffers(a: seq<nat>, x: seq<nat>, b: seq<nat>, y: seq<nat>)
    requires |a| == |b| && x != y
    ensures a + x != b + y
  {
    assert x == (a + x)[|a|..] && y == (b + y)[|b|..];
  }

  /** Requests under windows of a given set of lengths, on a clock that does not run backwards. */
  ghost predicate Under(qs: seq<Request>, windows: set<nat>) {
    && (forall q | q in qs :: ValidRule(q.rule) && q.rule.windowMs in windows)
    && (forall i, j | 0 <= i < j < |qs| :: qs[i].at <= qs[j].at)
  }

  ghost predicate Invisible(qs: seq<Request>) {
    ValidRules(qs) && Answers(Limiter(map[], 0), qs) == PlainAnswers(map[], qs)
  }

  /** The sweep shows in no run exactly when all windows are of one length. */
  lemma SweepNeedsOneWindow(windows: set<nat>)
    requires forall w | w in windows :: w > 0
    ensures (forall qs | Under(qs, windows) :: Invisible(qs)) <==> (forall v, w | v in windows && w in windows :: v == w)
  {
    hide Answers, PlainAnswers;
    if forall v, w | v in windows && w in windows :: v == w {
      forall qs: seq<Request> | Under(qs, windows)
        ensures Invisible(qs)
      {
        if qs != [] {
          assert qs[0] in qs;
          SweepingIsInvisible(qs, qs[0].rule.windowMs);
        } else {
          SweepingIsInvisible(qs, 1);
        }
      }
    } else {
      var v, w :| v in windows && w in windows && v != w;
      var slow, quick := Rule(1, if v < w then w else v), Rule(1, if v < w then v else w);
      SweepShowsUnderTwo(slow, quick);
      SlowThenSweepIs(slow, quick);
      var qs := SlowThenSweep(slow, quick);
      hide SlowThenSweep;
      assert Under(qs, windows) && !Invisible(qs);
    }
  }

  // ---------------------------------------------------------------------
  // The wait is exact
  // ---------------------------------------------------------------------

  lemma CeilDivIs(a: nat, b: nat, t: int)
    requires b > 0
    ensures t >= CeilDiv(a, b) <==> t * b >= a
  {
    var c := CeilDiv(a, b);
    FloorIs(a + b - 1, b, c);
    if t >= c {
      MulMonotone(c, t, b);
    } else {
      MulMonotone(t + 1, c, b);
      assert (t + 1) * b == t * b + b;
    }
  }

  lemma AdmittedIff(bucket: Bucket, rule: Rule, at: int)
    requires ValidRule(rule)
    ensures Spent(bucket, rule, at).1 == 0 <==> Refilled(bucket, rule, at).tokens >= rule.windowMs
  {
    var tokens := Refilled(bucket, rule, at).tokens;
    if tokens < rule.windowMs {
      CeilDivIs(rule.windowMs - tokens, rule.limit, 0);
    }
  }

  /** A refused caller who comes back alone is admitted exactly when the wait it was told has passed. */
  lemma WaitIsExact(bucket: Bucket, rule: Rule, at: int, later: int)
    requires ValidRule(rule) && bucket.at <= at <= later
    requires Spent(bucket, rule, at).1 > 0
    ensures var (after, waitMs) := Spent(bucket, rule, at);
            Spent(after, rule, later).1 == 0 <==> later >= at + waitMs
  {
    var (after, waitMs) := Spent(bucket, rule, at);
    AdmittedIff(bucket, rule, at);
    AdmittedIff(after, rule, later);
    CeilDivIs(rule.windowMs - after.tokens, rule.limit, later - at);
    MulMonotone(1, rule.limit, rule.windowMs);
    hide CeilDiv;
  }

  // ---------------------------------------------------------------------
  // The rate
  // ---------------------------------------------------------------------

  /** How many requests for `key` among `qs[i..j]` were admitted. */
  ghost function Admitted(key: string, qs: seq<Request>, answers: seq<nat>, i: nat, j: nat): nat
    requires i <= j <= |qs| == |answers|
    decreases j - i
  {
    if i == j then 0
    else Admitted(key, qs, answers, i, j - 1) + if qs[j - 1].key == key && answers[j - 1] == 0 then 1 else 0
  }

  /** The buckets after the first `j` requests. */
  ghost function PlainAfter(buckets: Buckets, qs: seq<Request>, j: nat): Buckets
    requires j <= |qs| && forall q | q in qs :: ValidRule(q.rule)
  {
    if j == 0 then buckets else Charged(PlainAfter(buckets, qs, j - 1), qs[j - 1]).0
  }

  lemma {:induction false} PlainAnswerIs(buckets: Buckets, qs: seq<Request>, j: nat)
    requires j < |qs| && forall q | q in qs :: ValidRule(q.rule)
    ensures PlainAnswers(buckets, qs)[j] == Charged(PlainAfter(buckets, qs, j), qs[j]).1
    decreases j
  {
    var next := Charged(buckets, qs[0]).0;
    if j > 0 {
      PlainAnswerIs(next, qs[1..], j - 1);
      PlainAfterTail(buckets, qs, j);
    }
  }

  lemma {:induction false} PlainAfterTail(buckets: Buckets, qs: seq<Request>, j: nat)
    requires 0 < j <= |qs| && forall q | q in qs :: ValidRule(q.rule)
    ensures PlainAfter(buckets, qs, j) == PlainAfter(Charged(buckets, qs[0]).0, qs[1..], j - 1)
    decreases j
  {
    hide Charged;
    if j > 1 {
      PlainAfterTail(buckets, qs, j - 1);
    } else {
      assert PlainAfter(buckets, qs, 0) == buckets;
    }
  }

  /** The units `key` could spend at `now`. */
  ghost function Allowance(buckets: Buckets, key: string, rule: Rule, now: int): int {
    Refilled(BucketOf(buckets, key, rule, now), rule, now).tokens
  }

  /** Buckets as this rule leaves them: between empty and full, and not from the future. */
  ghost predicate Sane(buckets: Buckets, rule: Rule, now: int) {
    forall id | id in buckets :: 0 <= buckets[id].tokens <= Full(rule) && buckets[id].at <= now
  }

  lemma RefillGrows(bucket: Bucket, rule: Rule, now: int, later: int)
    requires ValidRule(rule) && 0 <= bucket.tokens <= Full(rule) && bucket.at <= now <= later
    ensures 0 <= Refilled(bucket, rule, now).tokens <= Full(rule)
    ensures Refilled(bucket, rule, later).tokens <= Refilled(bucket, rule, now).tokens + (later - now) * rule.limit
  {
    MulMonotone(0, now - bucket.at, rule.limit);
    MulMonotone(0, later - now, rule.limit);
    assert (later - bucket.at) * rule.limit == (later - now) * rule.limit + (now - bucket.at) * rule.limit;
  }

  /** A request costs the allowance its price when admitted and nothing when refused. */
  lemma SpentCosts(bucket: Bucket, rule: Rule, at: int)
    requires ValidRule(rule) && 0 <= bucket.tokens <= Full(rule) && bucket.at <= at
    ensures var r := Spent(bucket, rule, at);
            && r.0.at == at && 0 <= r.0.tokens <= Full(rule)
            && r.0.tokens == Refilled(bucket, rule, at).tokens - if r.1 == 0 then rule.windowMs else 0
  {
    RefillGrows(bucket, rule, at, at);
    AdmittedIff(bucket, rule, at);
    hide CeilDiv;
  }

  lemma SaneBucket(buckets: Buckets, key: string, rule: Rule, now: int, at: int)
    requires ValidRule(rule) && Sane(buckets, rule, now) && now <= at
    ensures var b := BucketOf(buckets, key, rule, at); 0 <= b.tokens <= Full(rule) && b.at <= at
  {
    MulMonotone(0, rule.limit, rule.windowMs);
  }

  lemma AllowanceGrows(buckets: Buckets, key: string, rule: Rule, now: int, later: int)
    requires ValidRule(rule) && Sane(buckets, rule, now) && now <= later
    ensures 0 <= Allowance(buckets, key, rule, later) <= Full(rule)
    ensures Allowance(buckets, key, rule, later) <= Allowance(buckets, key, rule, now) + (later - now) * rule.limit
  {
    SaneBucket(buckets, key, rule, now, now);
    SaneBucket(buckets, key, rule, now, later);
    MulMonotone(0, later - now, rule.limit);
    RefillGrows(BucketOf(buckets, key, rule, now), rule, now, later);
    RefillGrows(BucketOf(buckets, key, rule, later), rule, later, later);
  }

  lemma ChargeKeepsSane(buckets: Buckets, q: Request, now: int)
    requires ValidRule(q.rule) && Sane(buckets, q.rule, now) && now <= q.at
    ensures Sane(Charged(buckets, q).0, q.rule, q.at)
  {
    SaneBucket(buckets, q.key, q.rule, now, q.at);
    SpentCosts(BucketOf(buckets, q.key, q.rule, q.at), q.rule, q.at);
    hide Spent, Full, BucketOf;
  }

  ghost function Cost(buckets: Buckets, q: Request, key: string): nat
    requires ValidRule(q.rule)
  {
    if q.key == key && Charged(buckets, q).1 == 0 then q.rule.windowMs else 0
  }

  lemma ChargeCosts(buckets: Buckets, q: Request, key: string, now: int)
    requires ValidRule(q.rule) && Sane(buckets, q.rule, now) && now <= q.at
    ensures Allowance(Charged(buckets, q).0, key, q.rule, q.at) + Cost(buckets, q, key)
         == Allowance(buckets, key, q.rule, q.at)
  {
    SaneBucket(buckets, q.key, q.rule, now, q.at);
    SpentCosts(BucketOf(buckets, q.key, q.rule, q.at), q.rule, q.at);
    hide Spent, Full;
  }

  lemma ChargeUses(buckets: Buckets, q: Request, key: string, now: int)
    requires ValidRule(q.rule) && Sane(buckets, q.rule, now) && now <= q.at
    ensures Sane(Charged(buckets, q).0, q.rule, q.at)
    ensures var after := Allowance(Charged(buckets, q).0, key, q.rule, q.at);
            && 0 <= after
            && after + Cost(buckets, q, key) <= Full(q.rule)
            && after + Cost(buckets, q, key) <= Allowance(buckets, key, q.rule, now) + (q.at - now) * q.rule.limit
  {
    ChargeKeepsSane(buckets, q, now);
    ChargeCosts(buckets, q, key, now);
    AllowanceGrows(buckets, key, q.rule, now, q.at);
    AllowanceGrows(Charged(buckets, q).0, key, q.rule, q.at, q.at);
    hide Charged, Sane, Allowance, Full, Cost;
  }

  lemma SplitSpan(a: int, b: int, c: int, limit: nat)
    ensures (c - a) * limit == (c - b) * limit + (b - a) * limit
  {
  }

  /** From any sane start, the units admitted never outrun a full bucket and the refill since. */
  lemma {:induction false} AdmittedFrom(key: string, rule: Rule, qs: seq<Request>, answers: seq<nat>, i: nat, j: nat)
    requires ValidRule(rule) && i < j <= |qs| == |answers|
    requires Orderly(qs, rule.windowMs) && forall q | q in qs :: q.rule == rule
    requires answers == PlainAnswers(map[], qs)
    ensures Sane(PlainAfter(map[], qs, j), rule, qs[j - 1].at)
    ensures Times(Admitted(key, qs, answers, i, j), rule.windowMs)
              + Allowance(PlainAfter(map[], qs, j), key, rule, qs[j - 1].at)
            <= Full(rule) + (qs[j - 1].at - qs[i].at) * rule.limit
    ensures Allowance(PlainAfter(map[], qs, j), key, rule, qs[j - 1].at) >= 0
    decreases j
  {
    hide Charged, Sane, Allowance, Full, PlainAnswers, Times;
    var q := qs[j - 1];
    assert q in qs;
    var before := PlainAfter(map[], qs, j - 1);
    PlainAnswerIs(map[], qs, j - 1);
    if j - 1 > i {
      AdmittedFrom(key, rule, qs, answers, i, j - 1);
      ChargeUses(before, q, key, qs[j - 2].at);
      SplitSpan(qs[i].at, qs[j - 2].at, q.at, rule.limit);
    } else {
      SaneBefore(rule, qs, i);
      ChargeUses(before, q, key, q.at);
      TimesSucc(0, rule.windowMs);
    }
    TimesSucc(Admitted(key, qs, answers, i, j - 1), rule.windowMs);
  }

  lemma {:induction false} SaneBefore(rule: Rule, qs: seq<Request>, i: nat)
    requires ValidRule(rule) && i < |qs|
    requires Orderly(qs, rule.windowMs) && forall q | q in qs :: q.rule == rule
    ensures Sane(PlainAfter(map[], qs, i), rule, qs[i].at)
  {
    if i > 0 {
      SaneBefore(rule, qs, i - 1);
      assert qs[i - 1] in qs;
      ChargeUses(PlainAfter(map[], qs, i - 1), qs[i - 1], "", qs[i - 1].at);
      hide Charged;
    }
  }

  /**
   The limit, over every run of one rule: any stretch of requests `i .. j`
   admits of one key at most a full bucket and what refills from its first
   instant to its last.
   */
  lemma RateIsBounded(key: string, rule: Rule, qs: seq<Request>, i: nat, j: nat)
    requires ValidRule(rule) && i < j <= |qs|
    requires Orderly(qs, rule.windowMs) && forall q | q in qs :: q.rule == rule
    ensures Times(Admitted(key, qs, Answers(Limiter(map[], 0), qs), i, j), rule.windowMs)
            <= Times(rule.limit, rule.windowMs) + Times(qs[j - 1].at - qs[i].at, rule.limit)
  {
    SweepingIsInvisible(qs, rule.windowMs);
    AdmittedFrom(key, rule, qs, PlainAnswers(map[], qs), i, j);
  }
}
