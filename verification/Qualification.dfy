/**
 Which chain activity counts, packages/pons-indexer/src/qualification.ts.
 */
module Qualification {
  import opened Counting
  import opened Ordering
  import opened Text
  import opened Wrappers

  type Ticker = nat
  type Wallet = string

  datatype Activity = Activity(eventId: string, wallet: Wallet, ticker: Ticker, amount: int, blockNumber: nat, at: int, counterparty: Option<Wallet>)

  datatype Policy = Policy(minimumAmount: int, maxIdentical: int, excluded: set<Wallet>)

  datatype Span = Span(first: int, end: int)

  datatype Reason = Dust | RepeatedLoop | SelfRouting | ExcludedAddress | OutOfWindow | Duplicate

  /** A wallet and an amount. */
  type LoopKey = (Wallet, int)

  datatype Totals = Totals(
    qualifiedCount: nat,
    qualifiedAmount: int,
    active: set<Wallet>,
    excludedCount: nat,
    excludedAmount: int,
    counts: map<Reason, nat>,
    seen: set<string>,
    identical: map<LoopKey, nat>)

  const NOTHING: Totals := Totals(0, 0, {}, 0, 0, map[], {}, map[])

  function CountOf<K>(m: map<K, nat>, k: K): nat {
    if k in m then m[k] else 0
  }

  predicate Sensible(window: Span, policy: Policy) {
    window.first < window.end && policy.minimumAmount > 0 && policy.maxIdentical >= 1
  }

  /** Why an event not seen before does not count, short of repetition. */
  function Refused(e: Activity, window: Span, policy: Policy): Option<Reason> {
    if e.at < window.first || e.at >= window.end then Some(OutOfWindow)
    else if e.wallet in policy.excluded then Some(ExcludedAddress)
    else if e.counterparty == Some(e.wallet) then Some(SelfRouting)
    else if e.amount < policy.minimumAmount then Some(Dust)
    else None
  }

  function Exclude(t: Totals, reason: Reason, amount: int): Totals {
    t.(counts := t.counts[reason := CountOf(t.counts, reason) + 1], excludedCount := t.excludedCount + 1, excludedAmount := t.excludedAmount + amount)
  }

  function Consider(t: Totals, e: Activity, ticker: Ticker, window: Span, policy: Policy): Totals {
    if e.ticker != ticker then t
    else if e.eventId in t.seen then Exclude(t, Duplicate, e.amount)
    else
      var noted := t.(seen := t.seen + {e.eventId});
      var refused := Refused(e, window, policy);
      if refused.Some? then Exclude(noted, refused.value, e.amount)
      else
        var key := (e.wallet, e.amount);
        var repeats := CountOf(t.identical, key);
        if repeats >= policy.maxIdentical then Exclude(noted, RepeatedLoop, e.amount)
        else
          noted.(identical := t.identical[key := repeats + 1],
                 qualifiedCount := t.qualifiedCount + 1,
                 qualifiedAmount := t.qualifiedAmount + e.amount,
                 active := t.active + {e.wallet})
  }

  function ConsiderAll(events: seq<Activity>, ticker: Ticker, window: Span, policy: Policy): Totals
    decreases |events|
  {
    if events == [] then NOTHING
    else
      var n := |events| - 1;
      Consider(ConsiderAll(events[..n], ticker, window, policy), events[n], ticker, window, policy)
  }

  /** By block, then by event id. */
  function InOrder(a: Activity, b: Activity): bool {
    if a.blockNumber != b.blockNumber then a.blockNumber < b.blockNumber
    else NotAfter(a.eventId, b.eventId)
  }

  method Qualify(ticker: Ticker, events: seq<Activity>, window: Span, policy: Policy) returns (r: Result<Totals, string>)
    ensures r.Ok? <==> Sensible(window, policy)
    ensures r.Ok? ==> r.value == ConsiderAll(Sort(events, InOrder), ticker, window, policy)
  {
    if window.end <= window.first {
      return Err("Qualification window must be non-empty");
    }
    if policy.minimumAmount <= 0 {
      return Err("Minimum amount must be positive");
    }
    if policy.maxIdentical < 1 {
      return Err("At least one event per identical amount must be allowed to count");
    }
    var ordered := Sort(events, InOrder);
    var t := NOTHING;
    hide Consider;
    assert ordered[..0] == [];
    for i := 0 to |ordered|
      invariant t == ConsiderAll(ordered[..i], ticker, window, policy)
    {
      assert ordered[..i + 1][..i] == ordered[..i];
      t := Consider(t, ordered[i], ticker, window, policy);
    }
    assert ordered[..|ordered|] == ordered;
    return Ok(t);
  }

  // ---------------------------------------------------------------------
  // The order events arrive in
  // ---------------------------------------------------------------------

  lemma InOrderIsTotal()
    ensures TotalPreorder(InOrder)
  {
    forall a, b
      ensures InOrder(a, b) || InOrder(b, a)
    {
      BeforeIsTotal(a.eventId, b.eventId);
    }
    forall a, b, c | InOrder(a, b) && InOrder(b, c)
      ensures InOrder(a, c)
    {
      OrderChains(a, b, c);
    }
  }

  lemma OrderChains(a: Activity, b: Activity, c: Activity)
    requires InOrder(a, b) && InOrder(b, c)
    ensures InOrder(a, c)
  {
    if a.blockNumber == b.blockNumber == c.blockNumber {
      NotAfterIsTransitive(a.eventId, b.eventId, c.eventId);
    }
  }

  /** An id names one event. */
  ghost predicate IdsName(events: seq<Activity>) {
    forall x, y | x in events && y in events && x.eventId == y.eventId :: x == y
  }

  lemma InOrderIsStrict(events: seq<Activity>)
    requires IdsName(events)
    ensures Strict(events, InOrder)
  {
    forall x, y | x in events && y in events && InOrder(x, y) && InOrder(y, x)
      ensures x == y
    {
      BeforeIsTotal(x.eventId, y.eventId);
    }
  }

  /** Events are taken by block, and in a block by their id. */
  lemma TakenInOrder(events: seq<Activity>, i: nat, j: nat)
    requires i < j < |Sort(events, InOrder)|
    ensures var a, b := Sort(events, InOrder)[i], Sort(events, InOrder)[j];
            a.blockNumber < b.blockNumber || (a.blockNumber == b.blockNumber && !Before(b.eventId, a.eventId))
  {
    InOrderIsTotal();
    SortSorts(events, InOrder);
    assert InOrder(Sort(events, InOrder)[i], Sort(events, InOrder)[j]);
    hide Sort;
  }

  /** Two nodes that indexed the same events, in whatever order, reach the same totals. */
  lemma ArrivalOrderIsIrrelevant(a: seq<Activity>, b: seq<Activity>, ticker: Ticker, window: Span, policy: Policy)
    requires multiset(a) == multiset(b) && IdsName(a)
    ensures ConsiderAll(Sort(a, InOrder), ticker, window, policy) == ConsiderAll(Sort(b, InOrder), ticker, window, policy)
  {
    InOrderIsTotal();
    InOrderIsStrict(a);
    SortIgnoresOrder(a, b, InOrder);
  }

  // ---------------------------------------------------------------------
  // Nothing lost, no loop paid
  // ---------------------------------------------------------------------

  function OfTicker(ticker: Ticker): Activity -> int {
    (e: Activity) => if e.ticker == ticker then 1 else 0
  }

  function AmountOf(ticker: Ticker): Activity -> int {
    (e: Activity) => if e.ticker == ticker then e.amount else 0
  }

  lemma SumByFront<T>(s: seq<T>, f: T -> int)
    requires s != []
    ensures SumBy(s, f) == SumBy(s[..|s| - 1], f) + f(s[|s| - 1])
  {
    var n := |s| - 1;
    assert s == s[..n] + [s[n]];
    SumByJoins(s[..n], [s[n]], f);
    SumByOne(s[n], f);
  }

  /** Included and excluded together are every event of the ticker, in number and in amount. */
  lemma {:induction false} EverythingAccountedFor(events: seq<Activity>, ticker: Ticker, window: Span, policy: Policy)
    ensures var t := ConsiderAll(events, ticker, window, policy);
            && t.qualifiedCount + t.excludedCount == SumBy(events, OfTicker(ticker))
            && t.qualifiedAmount + t.excludedAmount == SumBy(events, AmountOf(ticker))
    decreases |events|
  {
    if events != [] {
      var n := |events| - 1;
      EverythingAccountedFor(events[..n], ticker, window, policy);
      ConsiderLast(events, ticker, window, policy);
      OneAccountedFor(ConsiderAll(events[..n], ticker, window, policy), events[n], ticker, window, policy);
      hide SumBy, Consider, ConsiderAll;
      SumByFront(events, OfTicker(ticker));
      SumByFront(events, AmountOf(ticker));
    }
  }

  lemma OneAccountedFor(t: Totals, e: Activity, ticker: Ticker, window: Span, policy: Policy)
    ensures var s := Consider(t, e, ticker, window, policy);
            && s.qualifiedCount + s.excludedCount == t.qualifiedCount + t.excludedCount + OfTicker(ticker)(e)
            && s.qualifiedAmount + s.excludedAmount == t.qualifiedAmount + t.excludedAmount + AmountOf(ticker)(e)
  {
    hide Refused;
  }

  /** The event is the first under its id, and nothing but repetition could refuse it. */
  ghost predicate Admissible(events: seq<Activity>, i: nat, ticker: Ticker, window: Span, policy: Policy)
    requires i < |events|
  {
    && events[i].ticker == ticker && Refused(events[i], window, policy).None?
    && forall j | 0 <= j < i && events[j].ticker == ticker :: events[j].eventId != events[i].eventId
  }

  /** How many admissible events a wallet has of one amount. */
  ghost function Repeats(events: seq<Activity>, key: LoopKey, ticker: Ticker, window: Span, policy: Policy): nat
    decreases |events|
  {
    if events == [] then 0
    else
      var n := |events| - 1;
      Repeats(events[..n], key, ticker, window, policy)
      + if Admissible(events, n, ticker, window, policy) && (events[n].wallet, events[n].amount) == key then 1 else 0
  }

  lemma {:induction false} SeenIs(events: seq<Activity>, ticker: Ticker, window: Span, policy: Policy, id: string)
    ensures id in ConsiderAll(events, ticker, window, policy).seen <==>
              exists j :: 0 <= j < |events| && events[j].ticker == ticker && events[j].eventId == id
    decreases |events|
  {
    if events != [] {
      var n := |events| - 1;
      SeenIs(events[..n], ticker, window, policy, id);
      assert forall j | 0 <= j < n :: events[..n][j] == events[j];
    }
  }

  /** Of each wallet's identical amounts exactly the allowed number counts, however many there are. */
  lemma {:induction false} LoopsAreCapped(events: seq<Activity>, key: LoopKey, ticker: Ticker, window: Span,
      policy: Policy)
    requires Sensible(window, policy)
    ensures var n := Repeats(events, key, ticker, window, policy);
            CountOf(ConsiderAll(events, ticker, window, policy).identical, key) == if n < policy.maxIdentical then n else policy.maxIdentical
    decreases |events|
  {
    if events != [] {
      var n := |events| - 1;
      var front, e := events[..n], events[n];
      LoopsAreCapped(front, key, ticker, window, policy);
      SeenIs(front, ticker, window, policy, e.eventId);
      assert forall j | 0 <= j < n :: front[j] == events[j];
      hide ConsiderAll;
      ConsiderLast(events, ticker, window, policy);
    }
  }

  lemma ConsiderLast(events: seq<Activity>, ticker: Ticker, window: Span, policy: Policy)
    requires events != []
    ensures var n := |events| - 1;
            ConsiderAll(events, ticker, window, policy) == Consider(ConsiderAll(events[..n], ticker, window, policy), events[n], ticker, window, policy)
  {
    hide Consider;
  }

  // ---------------------------------------------------------------------
  // The totals in closed form
  // ---------------------------------------------------------------------

  /** A sum over wallets and amounts. */
  ghost function Over(keys: set<LoopKey>, f: LoopKey -> int): int
    decreases |keys|
  {
    if keys == {} then 0
    else
      var k :| k in keys;
      f(k) + Over(keys - {k}, f)
  }

  lemma {:induction false} OverPicks(keys: set<LoopKey>, k: LoopKey, f: LoopKey -> int)
    requires k in keys
    ensures Over(keys, f) == f(k) + Over(keys - {k}, f)
    decreases |keys|
  {
    var x :| x in keys && Over(keys, f) == f(x) + Over(keys - {x}, f);
    if x != k {
      OverPicks(keys - {x}, k, f);
      OverPicks(keys - {k}, x, f);
      assert keys - {x} - {k} == keys - {k} - {x};
    }
  }

  lemma {:induction false} OverAgrees(keys: set<LoopKey>, f: LoopKey -> int, g: LoopKey -> int)
    requires forall k | k in keys :: f(k) == g(k)
    ensures Over(keys, f) == Over(keys, g)
    decreases |keys|
  {
    if keys != {} {
      var k :| k in keys;
      OverPicks(keys, k, f);
      OverPicks(keys, k, g);
      OverAgrees(keys - {k}, f, g);
    }
  }

  /** Keys that add nothing may be left out. */
  lemma {:induction false} OverLess(keys: set<LoopKey>, more: set<LoopKey>, f: LoopKey -> int)
    requires keys <= more && forall k | k in more - keys :: f(k) == 0
    ensures Over(keys, f) == Over(more, f)
    decreases |more|
  {
    if more - keys != {} {
      var k :| k in more - keys;
      OverPicks(more, k, f);
      OverLess(keys, more - {k}, f);
    } else {
      assert keys == more;
    }
  }

  /** Raising one key's part by `d`. */
  lemma OverRaised(keys: set<LoopKey>, k: LoopKey, f: LoopKey -> int, g: LoopKey -> int, d: int)
    requires k in keys && g(k) == f(k) + d && forall x | x in keys && x != k :: f(x) == g(x)
    ensures Over(keys, g) == Over(keys, f) + d
  {
    OverPicks(keys, k, f);
    OverPicks(keys, k, g);
    OverAgrees(keys - {k}, f, g);
  }

  ghost function CountIn(m: map<LoopKey, nat>): LoopKey -> int {
    (k: LoopKey) => CountOf(m, k)
  }

  ghost function AmountIn(m: map<LoopKey, nat>): LoopKey -> int {
    (k: LoopKey) => k.1 * CountOf(m, k)
  }

  ghost function KeysIn(events: seq<Activity>): set<LoopKey> {
    set e | e in events :: (e.wallet, e.amount)
  }

  /** What has been counted is what the repeat map holds, over any keys that cover it. */
  ghost predicate Counted(t: Totals, keys: set<LoopKey>) {
    && t.identical.Keys <= keys
    && t.qualifiedCount == Over(keys, CountIn(t.identical)) && t.qualifiedAmount == Over(keys, AmountIn(t.identical))
  }

  lemma ConsiderCounts(t: Totals, e: Activity, ticker: Ticker, window: Span, policy: Policy, keys: set<LoopKey>)
    requires Counted(t, keys) && (e.wallet, e.amount) in keys
    ensures Counted(Consider(t, e, ticker, window, policy), keys)
  {
    hide Over, Refused;
    var s := Consider(t, e, ticker, window, policy);
    if s.identical != t.identical {
      var key := (e.wallet, e.amount);
      OverRaised(keys, key, CountIn(t.identical), CountIn(s.identical), 1);
      assert key.1 * (CountOf(t.identical, key) + 1) == key.1 * CountOf(t.identical, key) + e.amount;
      OverRaised(keys, key, AmountIn(t.identical), AmountIn(s.identical), e.amount);
    } else {
      SameCounts(t, e, ticker, window, policy);
    }
  }

  lemma SameCounts(t: Totals, e: Activity, ticker: Ticker, window: Span, policy: Policy)
    ensures var s := Consider(t, e, ticker, window, policy);
            s.identical == t.identical ==> s.qualifiedCount == t.qualifiedCount && s.qualifiedAmount == t.qualifiedAmount
  {
    var key := (e.wallet, e.amount);
    assert t.identical[key := CountOf(t.identical, key) + 1][key] == CountOf(t.identical, key) + 1;
  }

  lemma {:induction false} AllCounted(events: seq<Activity>, ticker: Ticker, window: Span, policy: Policy, keys: set<LoopKey>)
    requires KeysIn(events) <= keys
    ensures Counted(ConsiderAll(events, ticker, window, policy), keys)
    decreases |events|
  {
    if events == [] {
      NothingCounted(keys);
    } else {
      var n := |events| - 1;
      assert events[n] in events && forall e | e in events[..n] :: e in events;
      AllCounted(events[..n], ticker, window, policy, keys);
      ConsiderLast(events, ticker, window, policy);
      hide Consider, ConsiderAll, Counted;
      ConsiderCounts(ConsiderAll(events[..n], ticker, window, policy), events[n], ticker, window, policy, keys);
    }
  }

  lemma {:induction false} NothingCounted(keys: set<LoopKey>)
    ensures Counted(NOTHING, keys)
    decreases |keys|
  {
    OverLess({}, keys, CountIn(map[]));
    OverLess({}, keys, AmountIn(map[]));
  }

  /** How many of a wallet's identical amounts count: as many as there are, up to the allowance. */
  ghost function Allowed(events: seq<Activity>, ticker: Ticker, window: Span, policy: Policy): LoopKey -> int {
    (k: LoopKey) => var n := Repeats(events, k, ticker, window, policy); if n < policy.maxIdentical then n else policy.maxIdentical
  }

  ghost function AllowedAmount(events: seq<Activity>, ticker: Ticker, window: Span, policy: Policy): LoopKey -> int {
    (k: LoopKey) => k.1 * Allowed(events, ticker, window, policy)(k)
  }

  /** The qualified totals without the loop: over every wallet and amount, the repeats up to the allowance. */
  lemma QualifiedInClosedForm(events: seq<Activity>, ticker: Ticker, window: Span, policy: Policy)
    requires Sensible(window, policy)
    ensures var t := ConsiderAll(events, ticker, window, policy);
            && t.qualifiedCount == Over(KeysIn(events), Allowed(events, ticker, window, policy))
            && t.qualifiedAmount == Over(KeysIn(events), AllowedAmount(events, ticker, window, policy))
  {
    var t, keys := ConsiderAll(events, ticker, window, policy), KeysIn(events);
    AllCounted(events, ticker, window, policy, keys);
    hide ConsiderAll, Over, Repeats;
    forall k | k in keys
      ensures CountIn(t.identical)(k) == Allowed(events, ticker, window, policy)(k)
    {
      LoopsAreCapped(events, k, ticker, window, policy);
    }
    OverAgrees(keys, CountIn(t.identical), Allowed(events, ticker, window, policy));
    OverAgrees(keys, AmountIn(t.identical), AllowedAmount(events, ticker, window, policy));
  }

  // ---------------------------------------------------------------------
  // Event by event
  // ---------------------------------------------------------------------

  /** Why an event is excluded, from itself and the events before it; `None` where it counts. */
  ghost function Ground(before: seq<Activity>, e: Activity, ticker: Ticker, window: Span, policy: Policy): Option<Reason> {
    if exists j :: 0 <= j < |before| && before[j].ticker == ticker && before[j].eventId == e.eventId then Some(Duplicate)
    else if !(window.first <= e.at < window.end) then Some(OutOfWindow)
    else if e.wallet in policy.excluded then Some(ExcludedAddress)
    else if e.counterparty == Some(e.wallet) then Some(SelfRouting)
    else if e.amount < policy.minimumAmount then Some(Dust)
    else if Repeats(before, (e.wallet, e.amount), ticker, window, policy) >= policy.maxIdentical then Some(RepeatedLoop)
    else None
  }

  /** How many events of the ticker are excluded on a ground. */
  ghost function CountOn(reason: Reason, events: seq<Activity>, ticker: Ticker, window: Span, policy: Policy): nat
    decreases |events|
  {
    if events == [] then 0
    else
      var n := |events| - 1;
      CountOn(reason, events[..n], ticker, window, policy)
      + if events[n].ticker == ticker && Ground(events[..n], events[n], ticker, window, policy) == Some(reason) then 1 else 0
  }

  /** The wallet has an event of the ticker that counts. */
  ghost predicate Active(wallet: Wallet, events: seq<Activity>, ticker: Ticker, window: Span, policy: Policy) {
    exists i :: 0 <= i < |events| && events[i].ticker == ticker && events[i].wallet == wallet
                && Ground(events[..i], events[i], ticker, window, policy).None?
  }

  /** The same, as the running totals tell it. */
  ghost function GroundIn(t: Totals, e: Activity, window: Span, policy: Policy): Option<Reason> {
    if e.eventId in t.seen then Some(Duplicate)
    else if Refused(e, window, policy).Some? then Refused(e, window, policy)
    else if CountOf(t.identical, (e.wallet, e.amount)) >= policy.maxIdentical then Some(RepeatedLoop)
    else None
  }

  lemma GroundTold(before: seq<Activity>, e: Activity, ticker: Ticker, window: Span, policy: Policy)
    requires Sensible(window, policy)
    ensures GroundIn(ConsiderAll(before, ticker, window, policy), e, window, policy) == Ground(before, e, ticker, window, policy)
  {
    SeenIs(before, ticker, window, policy, e.eventId);
    LoopsAreCapped(before, (e.wallet, e.amount), ticker, window, policy);
    hide ConsiderAll, Repeats;
  }

  lemma OneOnItsGround(t: Totals, e: Activity, reason: Reason, ticker: Ticker, window: Span, policy: Policy)
    ensures var s, ground := Consider(t, e, ticker, window, policy), GroundIn(t, e, window, policy);
            && CountOf(s.counts, reason) == CountOf(t.counts, reason) + (if e.ticker == ticker && ground == Some(reason) then 1 else 0)
            && s.active == t.active + (if e.ticker == ticker && ground.None? then {e.wallet} else {})
  {
    hide Refused;
  }

  lemma ActiveGrows(events: seq<Activity>, wallet: Wallet, ticker: Ticker, window: Span, policy: Policy)
    requires events != []
    ensures var n := |events| - 1;
            Active(wallet, events, ticker, window, policy) <==>
              || Active(wallet, events[..n], ticker, window, policy)
              || (events[n].ticker == ticker && events[n].wallet == wallet && Ground(events[..n], events[n], ticker, window, policy).None?)
  {
    var n := |events| - 1;
    hide Ground;
    forall i | 0 <= i < n
      ensures events[..n][i] == events[i] && events[..n][..i] == events[..i]
    {
    }
    if Active(wallet, events[..n], ticker, window, policy) {
      var i :| 0 <= i < n && events[..n][i].ticker == ticker && events[..n][i].wallet == wallet
               && Ground(events[..n][..i], events[..n][i], ticker, window, policy).None?;
      assert events[i].ticker == ticker && Ground(events[..i], events[i], ticker, window, policy).None?;
    }
  }

  /** Every exclusion is counted under its own ground, and the active wallets are those with an event that counts. */
  lemma {:induction false} EachOnItsGround(events: seq<Activity>, reason: Reason, wallet: Wallet, ticker: Ticker, window: Span,
      policy: Policy)
    requires Sensible(window, policy)
    ensures var t := ConsiderAll(events, ticker, window, policy);
            && CountOf(t.counts, reason) == CountOn(reason, events, ticker, window, policy)
            && (wallet in t.active <==> Active(wallet, events, ticker, window, policy))
    decreases |events|
  {
    if events != [] {
      var n := |events| - 1;
      EachOnItsGround(events[..n], reason, wallet, ticker, window, policy);
      ConsiderLast(events, ticker, window, policy);
      GroundTold(events[..n], events[n], ticker, window, policy);
      ActiveGrows(events, wallet, ticker, window, policy);
      hide Ground, GroundIn, Consider, ConsiderAll, Active;
      OneOnItsGround(ConsiderAll(events[..n], ticker, window, policy), events[n], reason, ticker, window, policy);
    }
  }
}
