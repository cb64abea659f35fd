/** Matchmaking, packages/battle-math/src/matchmaking.ts. */
module Matchmaking {
  import opened Counting
  import opened Prng
  import opened Text
  import opened Wrappers

  // A backtracking search for pairings of a shuffled roster that avoids the
  // matchups of the last two rounds.

  /** Tickers are upper-case names; none holds the key separator. */
  type Ticker = t: string | ':' !in t

  datatype Pairing = Pairing(left: Ticker, right: Ticker)

  const BATTLES_PER_ROUND: nat := 5
  const MATCHUP_COOLDOWN_ROUNDS: nat := 2

  // ---------------------------------------------------------------------
  // Matchup keys
  // ---------------------------------------------------------------------

  function MatchupKey(a: Ticker, b: Ticker): string {
    if Before(a, b) then a + ":" + b else b + ":" + a
  }

  /** One key per unordered matchup, and no key for two of them. */
  lemma MatchupKeyIsUnordered(a: Ticker, b: Ticker, c: Ticker, d: Ticker)
    ensures MatchupKey(a, b) == MatchupKey(c, d) <==> (a == c && b == d) || (a == d && b == c)
  {
    BeforeIsTotal(a, b);
    BeforeIsTotal(c, d);
    var (p, q) := if Before(a, b) then (a, b) else (b, a);
    var (r, s) := if Before(c, d) then (c, d) else (d, c);
    assert ":" == [':'];
    if p + ":" + q == r + ":" + s {
      SeparatorSplits(':', p, q, r, s);
    }
  }

  // ---------------------------------------------------------------------
  // Schedules
  // ---------------------------------------------------------------------

  predicate Free(blocked: set<string>, a: Ticker, b: Ticker) {
    MatchupKey(a, b) !in blocked
  }

  lemma FreeIsSymmetric(blocked: set<string>, a: Ticker, b: Ticker)
    ensures Free(blocked, a, b) == Free(blocked, b, a)
  {
    MatchupKeyIsUnordered(a, b, b, a);
  }

  ghost function Elements(order: seq<Ticker>): set<Ticker> {
    set t | t in order
  }

  ghost predicate Holds(p: Pairing, t: Ticker) {
    p.left == t || p.right == t
  }

  ghost function Covered(ps: seq<Pairing>): set<Ticker> {
    if ps == [] then {} else {ps[0].left, ps[0].right} + Covered(ps[1..])
  }

  /** No ticker faces itself and none fights twice. */
  ghost predicate Disjoint(ps: seq<Pairing>) {
    && (forall i | 0 <= i < |ps| :: ps[i].left != ps[i].right)
    && (forall i, j, t: Ticker | 0 <= i < |ps| && 0 <= j < |ps| && Holds(ps[i], t) && Holds(ps[j], t) :: i == j)
  }

  /** A set of battles among the tickers of `v`, none of them on cooldown. */
  ghost predicate IsMatching(v: set<Ticker>, ps: seq<Pairing>, blocked: set<string>) {
    && Disjoint(ps)
    && Covered(ps) <= v
    && forall i | 0 <= i < |ps| :: Free(blocked, ps[i].left, ps[i].right)
  }

  /** A schedule: every ticker of `v` in exactly one battle. */
  ghost predicate IsSchedule(v: set<Ticker>, ps: seq<Pairing>, blocked: set<string>) {
    IsMatching(v, ps, blocked) && Covered(ps) == v
  }

  lemma {:induction false} CoveredIs(ps: seq<Pairing>, t: Ticker)
    ensures t in Covered(ps) <==> exists i :: 0 <= i < |ps| && Holds(ps[i], t)
  {
    if ps != [] {
      CoveredIs(ps[1..], t);
      if t in Covered(ps[1..]) {
        var i :| 0 <= i < |ps[1..]| && Holds(ps[1..][i], t);
        assert Holds(ps[i + 1], t);
      } else if i :| 0 <= i < |ps| && Holds(ps[i], t) {
        assert i == 0 || Holds(ps[1..][i - 1], t);
      }
    }
  }

  lemma {:induction false} CoveredSize(ps: seq<Pairing>)
    requires Disjoint(ps)
    ensures |Covered(ps)| == 2 * |ps|
  {
    if ps != [] {
      var rest := ps[1..];
      var pair := {ps[0].left, ps[0].right};
      forall i, j, t: Ticker | 0 <= i < |rest| && 0 <= j < |rest| && Holds(rest[i], t) && Holds(rest[j], t)
        ensures i == j
      {
        assert Holds(ps[i + 1], t) && Holds(ps[j + 1], t);
      }
      CoveredSize(rest);
      forall t | t in pair
        ensures t !in Covered(rest)
      {
        CoveredIs(rest, t);
        assert Holds(ps[0], t);
        assert forall i | 0 <= i < |rest| :: rest[i] == ps[i + 1];
      }
      UnionSize(pair, Covered(rest), Covered(ps));
    }
  }

  // ---------------------------------------------------------------------
  // The search
  // ---------------------------------------------------------------------

  function Without(rest: seq<Ticker>, i: nat): (r: seq<Ticker>)
    requires i < |rest|
    ensures |r| == |rest| - 1
  {
    rest[..i] + rest[i + 1..]
  }

  function Search(order: seq<Ticker>, blocked: set<string>): Option<seq<Pairing>>
    decreases |order|, 1, 0
  {
    if order == [] then Some([]) else SearchFrom(order[0], order[1..], 0, blocked)
  }

  /** The partners of `head` from index `i` on. */
  function SearchFrom(head: Ticker, rest: seq<Ticker>, i: nat, blocked: set<string>): Option<seq<Pairing>>
    requires i <= |rest|
    decreases |rest| + 1, 0, |rest| - i
  {
    if i == |rest| then None
    else if !Free(blocked, head, rest[i]) then SearchFrom(head, rest, i + 1, blocked)
    else
      match Search(Without(rest, i), blocked)
      case Some(tail) => Some([Pairing(head, rest[i])] + tail)
      case None => SearchFrom(head, rest, i + 1, blocked)
  }

  method PairInOrder(order: seq<Ticker>, blocked: set<string>) returns (r: Option<seq<Pairing>>)
    ensures r == Search(order, blocked)
    decreases |order|
  {
    if |order| == 0 {
      return Some([]);
    }
    var head, rest := order[0], order[1..];
    for i := 0 to |rest|
      invariant SearchFrom(head, rest, 0, blocked) == SearchFrom(head, rest, i, blocked)
    {
      var partner := rest[i];
      if MatchupKey(head, partner) !in blocked {
        var tail := PairInOrder(Without(rest, i), blocked);
        if tail.Some? {
          return Some([Pairing(head, partner)] + tail.value);
        }
      }
    }
    return None;
  }

  /**
   A path through the search: for each head in turn, which of the remaining
   tickers it takes. The search tries these in lexicographic order.
   */
  ghost predicate Path(order: seq<Ticker>, cs: seq<nat>, blocked: set<string>)
    decreases |order|
  {
    if order == [] then cs == []
    else
      && cs != [] && cs[0] < |order| - 1
      && Free(blocked, order[0], order[1..][cs[0]])
      && Path(Without(order[1..], cs[0]), cs[1..], blocked)
  }

  ghost function PathPairs(order: seq<Ticker>, cs: seq<nat>, blocked: set<string>): seq<Pairing>
    requires Path(order, cs, blocked)
    decreases |order|
  {
    if order == [] then []
    else [Pairing(order[0], order[1..][cs[0]])] + PathPairs(Without(order[1..], cs[0]), cs[1..], blocked)
  }

  ghost predicate NoLater(cs: seq<nat>, ds: seq<nat>) {
    cs == [] || (ds != [] && (cs[0] < ds[0] || (cs[0] == ds[0] && NoLater(cs[1..], ds[1..]))))
  }

  /** `cs` is the first path of the search, and `ps` the pairs along it. */
  ghost predicate FirstPath(order: seq<Ticker>, blocked: set<string>, cs: seq<nat>, ps: seq<Pairing>) {
    && Path(order, cs, blocked)
    && PathPairs(order, cs, blocked) == ps
    && forall ds | Path(order, ds, blocked) :: NoLater(cs, ds)
  }

  /** The search returns the first path there is, and `None` only when there is none. */
  lemma {:induction false} SearchTakesFirstPath(order: seq<Ticker>, blocked: set<string>) returns (cs: seq<nat>)
    ensures Search(order, blocked).None? ==> forall ds :: !Path(order, ds, blocked)
    ensures Search(order, blocked).Some? ==> FirstPath(order, blocked, cs, Search(order, blocked).value)
    decreases |order|, 1, 0
  {
    cs := [];
    if order != [] {
      cs := SearchFromTakesFirstPath(order, 0, blocked);
    }
  }

  lemma {:induction false} SearchFromTakesFirstPath(order: seq<Ticker>, i: nat, blocked: set<string>)
    returns (cs: seq<nat>)
    requires order != [] && i <= |order| - 1
    ensures var r := SearchFrom(order[0], order[1..], i, blocked);
            && (r.None? ==> forall ds | Path(order, ds, blocked) :: ds[0] < i)
            && (r.Some? ==>
                  && Path(order, cs, blocked) && i <= cs[0]
                  && PathPairs(order, cs, blocked) == r.value
                  && forall ds | Path(order, ds, blocked) && i <= ds[0] :: NoLater(cs, ds))
    decreases |order|, 0, |order| - i
  {
    hide Without, Free;
    cs := [];
    var rest := order[1..];
    if i < |rest| {
      if !Free(blocked, order[0], rest[i]) {
        cs := SearchFromTakesFirstPath(order, i + 1, blocked);
      } else {
        var left := Without(rest, i);
        var tail := SearchTakesFirstPath(left, blocked);
        if Search(left, blocked).Some? {
          cs := [i] + tail;
          assert cs[1..] == tail;
        } else {
          cs := SearchFromTakesFirstPath(order, i + 1, blocked);
        }
      }
    }
  }

  // ---------------------------------------------------------------------
  // Completeness: paths are schedules, and every schedule has a path
  // ---------------------------------------------------------------------

  lemma WithoutRemoves(rest: seq<Ticker>, i: nat)
    requires Distinct(rest) && i < |rest|
    ensures Distinct(Without(rest, i))
    ensures Elements(Without(rest, i)) == Elements(rest) - {rest[i]}
  {
    forall t | t in rest && t != rest[i]
      ensures t in Without(rest, i)
    {
      var k :| 0 <= k < |rest| && rest[k] == t;
      assert k < i ==> Without(rest, i)[k] == t;
      assert k > i ==> Without(rest, i)[k - 1] == t;
    }
  }

  lemma TailRemoves(order: seq<Ticker>)
    requires Distinct(order) && order != []
    ensures Distinct(order[1..]) && Elements(order[1..]) == Elements(order) - {order[0]}
  {
    assert order == [order[0]] + order[1..];
  }

  /** Adding one battle between two tickers outside a matching keeps it a matching. */
  lemma AddPair(v: set<Ticker>, ps: seq<Pairing>, blocked: set<string>, p: Pairing)
    requires IsMatching(v, ps, blocked)
    requires p.left != p.right && p.left !in Covered(ps) && p.right !in Covered(ps)
    requires Free(blocked, p.left, p.right) && p.left in v && p.right in v
    ensures IsMatching(v, [p] + ps, blocked)
    ensures Covered([p] + ps) == Covered(ps) + {p.left, p.right}
  {
    var qs := [p] + ps;
    assert qs[1..] == ps;
    forall t | Holds(p, t)
      ensures forall i | 0 <= i < |ps| :: !Holds(ps[i], t)
    {
      CoveredIs(ps, t);
    }
    assert forall i | 1 <= i < |qs| :: qs[i] == ps[i - 1];
  }

  lemma {:induction false} PathIsSchedule(order: seq<Ticker>, cs: seq<nat>, blocked: set<string>)
    requires Distinct(order) && Path(order, cs, blocked)
    ensures IsSchedule(Elements(order), PathPairs(order, cs, blocked), blocked)
    decreases |order|
  {
    if order != [] {
      var rest := order[1..];
      var left := Without(rest, cs[0]);
      TailRemoves(order);
      WithoutRemoves(rest, cs[0]);
      PathIsSchedule(left, cs[1..], blocked);
      AddPair(Elements(order), PathPairs(left, cs[1..], blocked), blocked, Pairing(order[0], rest[cs[0]]));
    }
  }

  ghost function Drop(ps: seq<Pairing>, k: nat): (qs: seq<Pairing>)
    requires k < |ps|
    ensures |qs| == |ps| - 1
    ensures forall i | 0 <= i < |qs| :: qs[i] == ps[if i < k then i else i + 1]
  {
    ps[..k] + ps[k + 1..]
  }

  lemma DropCovers(ps: seq<Pairing>, k: nat)
    requires Disjoint(ps) && k < |ps|
    ensures Covered(Drop(ps, k)) == Covered(ps) - {ps[k].left, ps[k].right}
  {
    var qs := Drop(ps, k);
    hide Covered;
    forall t: Ticker
      ensures t in Covered(qs) <==> t in Covered(ps) && !Holds(ps[k], t)
    {
      CoveredIs(ps, t);
      CoveredIs(qs, t);
      if i :| 0 <= i < |ps| && Holds(ps[i], t) && i != k {
        assert Holds(qs[if i < k then i else i - 1], t);
      }
    }
    assert forall t: Ticker :: Holds(ps[k], t) <==> t in {ps[k].left, ps[k].right};
  }

  lemma DropDisjoint(ps: seq<Pairing>, k: nat)
    requires Disjoint(ps) && k < |ps|
    ensures Disjoint(Drop(ps, k))
  {
    var qs := Drop(ps, k);
    hide Drop;
    forall i, j, t: Ticker | 0 <= i < |qs| && 0 <= j < |qs| && Holds(qs[i], t) && Holds(qs[j], t)
      ensures i == j
    {
      assert Holds(ps[if i < k then i else i + 1], t) && Holds(ps[if j < k then j else j + 1], t);
    }
  }

  /** Taking one battle out of a matching releases exactly its two tickers. */
  lemma DropPair(v: set<Ticker>, ps: seq<Pairing>, blocked: set<string>, k: nat)
    requires IsMatching(v, ps, blocked) && k < |ps|
    ensures IsMatching(v, Drop(ps, k), blocked)
    ensures Covered(Drop(ps, k)) == Covered(ps) - {ps[k].left, ps[k].right}
  {
    DropCovers(ps, k);
    DropDisjoint(ps, k);
    hide Covered, Disjoint, Drop, Free;
  }

  /** In a schedule the first ticker's partner is one of the others, and the rest are scheduled without the two. */
  lemma FirstBattle(order: seq<Ticker>, ps: seq<Pairing>, blocked: set<string>) returns (k: nat, i: nat)
    requires Distinct(order) && order != [] && IsSchedule(Elements(order), ps, blocked)
    ensures k < |ps| && i < |order| - 1 && Free(blocked, order[0], order[1..][i])
    ensures Distinct(Without(order[1..], i))
    ensures IsSchedule(Elements(Without(order[1..], i)), Drop(ps, k), blocked)
  {
    var head, rest := order[0], order[1..];
    CoveredIs(ps, head);
    k :| 0 <= k < |ps| && Holds(ps[k], head);
    var partner := if ps[k].left == head then ps[k].right else ps[k].left;
    assert Holds(ps[k], partner) && partner != head;
    FreeIsSymmetric(blocked, head, partner);
    CoveredIs(ps, partner);
    TailRemoves(order);
    i := IndexOf(rest, partner);
    WithoutRemoves(rest, i);
    DropPair(Elements(order), ps, blocked, k);
    assert {ps[k].left, ps[k].right} == {head, partner};
  }

  lemma {:induction false} ScheduleHasPath(order: seq<Ticker>, ps: seq<Pairing>, blocked: set<string>)
    returns (cs: seq<nat>)
    requires Distinct(order) && IsSchedule(Elements(order), ps, blocked)
    ensures Path(order, cs, blocked)
    decreases |order|
  {
    hide Distinct, IsSchedule, Elements, Without, Free, Drop;
    cs := [];
    if order != [] {
      var k, i := FirstBattle(order, ps, blocked);
      var tail := ScheduleHasPath(Without(order[1..], i), Drop(ps, k), blocked);
      cs := [i] + tail;
      assert cs[1..] == tail;
    }
  }

  /** The search is complete: it finds a schedule exactly when there is one. */
  lemma SearchIsComplete(order: seq<Ticker>, blocked: set<string>)
    requires Distinct(order)
    ensures Search(order, blocked).Some? ==> IsSchedule(Elements(order), Search(order, blocked).value, blocked)
    ensures Search(order, blocked).None? ==> forall ps :: !IsSchedule(Elements(order), ps, blocked)
  {
    var cs := SearchTakesFirstPath(order, blocked);
    if Search(order, blocked).Some? {
      PathIsSchedule(order, cs, blocked);
    } else {
      forall ps | IsSchedule(Elements(order), ps, blocked)
        ensures false
      {
        var ds := ScheduleHasPath(order, ps, blocked);
      }
    }
  }

  // ---------------------------------------------------------------------
  // Existence: enough free opponents for everybody make a schedule possible
  // ---------------------------------------------------------------------

  ghost function Opponents(v: set<Ticker>, t: Ticker, blocked: set<string>): set<Ticker> {
    set o | o in v && o != t && Free(blocked, t, o)
  }

  /** Every ticker of `v` may face at least `m` others. */
  ghost predicate WellConnected(v: set<Ticker>, m: nat, blocked: set<string>) {
    forall t | t in v :: |Opponents(v, t, blocked)| >= m
  }

  ghost function Hit(t: Ticker, p: Pairing, blocked: set<string>): nat {
    (if Free(blocked, t, p.left) then 1 else 0) + if Free(blocked, t, p.right) then 1 else 0
  }

  /** How many tickers of a matching `t` may face. */
  ghost function Hits(t: Ticker, ps: seq<Pairing>, blocked: set<string>): nat {
    if ps == [] then 0 else Hit(t, ps[0], blocked) + Hits(t, ps[1..], blocked)
  }

  lemma {:induction false} HitsCountOpponents(t: Ticker, ps: seq<Pairing>, blocked: set<string>)
    ensures |set o | o in Covered(ps) && Free(blocked, t, o)| <= Hits(t, ps, blocked)
  {
    var all := set o | o in Covered(ps) && Free(blocked, t, o);
    if ps == [] {
      assert all == {};
    } else {
      HitsCountOpponents(t, ps[1..], blocked);
      var rest := set o | o in Covered(ps[1..]) && Free(blocked, t, o);
      var l := if Free(blocked, t, ps[0].left) then {ps[0].left} else {};
      var r := if Free(blocked, t, ps[0].right) then {ps[0].right} else {};
      hide Free;
      SubsetSize(all, rest + l + r);
      UnionAtMost(rest + l, r);
      UnionAtMost(rest, l);
    }
  }

  /** Two tickers that may face more than half a matching's tickers face three of one battle. */
  lemma {:induction false} CrossedPair(u: Ticker, w: Ticker, ps: seq<Pairing>, blocked: set<string>) returns (k: nat)
    requires Hits(u, ps, blocked) + Hits(w, ps, blocked) > 2 * |ps|
    ensures k < |ps| && Hit(u, ps[k], blocked) + Hit(w, ps[k], blocked) >= 3
  {
    if Hit(u, ps[0], blocked) + Hit(w, ps[0], blocked) >= 3 {
      k := 0;
    } else {
      k := CrossedPair(u, w, ps[1..], blocked);
      k := k + 1;
    }
  }

  /** Replaces the battle `k` by two: its tickers against `u` and `w`. */
  lemma Rewire(v: set<Ticker>, ps: seq<Pairing>, blocked: set<string>, k: nat, u: Ticker, w: Ticker)
    returns (qs: seq<Pairing>)
    requires IsMatching(v, ps, blocked) && k < |ps|
    requires u in v - Covered(ps) && w in v - Covered(ps) && u != w
    requires Free(blocked, u, ps[k].left) && Free(blocked, w, ps[k].right)
    ensures IsMatching(v, qs, blocked) && |qs| == |ps| + 1
  {
    var rest := Drop(ps, k);
    DropPair(v, ps, blocked, k);
    assert Holds(ps[k], ps[k].left) && Holds(ps[k], ps[k].right);
    CoveredIs(ps, ps[k].left);
    CoveredIs(ps, ps[k].right);
    assert ps[k].left != ps[k].right;
    AddPair(v, rest, blocked, Pairing(u, ps[k].left));
    AddPair(v, [Pairing(u, ps[k].left)] + rest, blocked, Pairing(w, ps[k].right));
    qs := [Pairing(w, ps[k].right)] + ([Pairing(u, ps[k].left)] + rest);
  }

  /** A ticker outside a matching either has a free opponent outside it, or meets `m` inside. */
  lemma ExtendOrHit(v: set<Ticker>, m: nat, ps: seq<Pairing>, blocked: set<string>, t: Ticker) returns (qs: seq<Pairing>)
    requires WellConnected(v, m, blocked) && IsMatching(v, ps, blocked) && t in v - Covered(ps)
    ensures qs == ps || (IsMatching(v, qs, blocked) && |qs| == |ps| + 1)
    ensures qs == ps ==> Hits(t, ps, blocked) >= m
  {
    if o :| o in v - Covered(ps) && o != t && Free(blocked, t, o) {
      AddPair(v, ps, blocked, Pairing(t, o));
      qs := [Pairing(t, o)] + ps;
    } else {
      qs := ps;
      HitsCountOpponents(t, ps, blocked);
      SubsetSize(Opponents(v, t, blocked), set o | o in Covered(ps) && Free(blocked, t, o));
    }
  }

  /** Any matching short of a schedule grows by one battle. */
  lemma Augment(v: set<Ticker>, m: nat, ps: seq<Pairing>, blocked: set<string>) returns (qs: seq<Pairing>)
    requires |v| == 2 * m && WellConnected(v, m, blocked)
    requires IsMatching(v, ps, blocked) && |ps| < m
    ensures IsMatching(v, qs, blocked) && |qs| == |ps| + 1
  {
    CoveredSize(ps);
    var u, w := TwoOutside(v, Covered(ps));
    qs := ExtendOrHit(v, m, ps, blocked, u);
    if qs == ps {
      qs := ExtendOrHit(v, m, ps, blocked, w);
      if qs == ps {
        var k := CrossedPair(u, w, ps, blocked);
        if Free(blocked, u, ps[k].left) && Free(blocked, w, ps[k].right) {
          qs := Rewire(v, ps, blocked, k, u, w);
        } else {
          qs := Rewire(v, ps, blocked, k, w, u);
        }
      }
    }
  }

  lemma {:induction false} GrowToSchedule(v: set<Ticker>, m: nat, ps: seq<Pairing>, blocked: set<string>)
    returns (qs: seq<Pairing>)
    requires |v| == 2 * m && WellConnected(v, m, blocked)
    requires IsMatching(v, ps, blocked) && |ps| <= m
    ensures IsSchedule(v, qs, blocked)
    decreases m - |ps|
  {
    if |ps| == m {
      qs := ps;
      CoveredSize(ps);
      SameSizeSubset(Covered(ps), v);
    } else {
      var bigger := Augment(v, m, ps, blocked);
      qs := GrowToSchedule(v, m, bigger, blocked);
    }
  }

  /** `2m` tickers with `m` free opponents each can always be scheduled. */
  lemma ScheduleExists(v: set<Ticker>, m: nat, blocked: set<string>)
    requires |v| == 2 * m && WellConnected(v, m, blocked)
    ensures exists ps :: IsSchedule(v, ps, blocked)
  {
    var ps := GrowToSchedule(v, m, [], blocked);
  }

  lemma {:induction false} ElementsSize(order: seq<Ticker>)
    requires Distinct(order)
    ensures |Elements(order)| == |order|
  {
    if order != [] {
      TailRemoves(order);
      ElementsSize(order[1..]);
      RemoveSize(Elements(order), order[0]);
    }
  }

  /** With `m` free opponents for each of `2m` distinct tickers, the search never comes back empty. */
  lemma SearchSucceeds(order: seq<Ticker>, m: nat, blocked: set<string>)
    requires Distinct(order) && |order| == 2 * m && WellConnected(Elements(order), m, blocked)
    ensures Search(order, blocked).Some?
  {
    ElementsSize(order);
    ScheduleExists(Elements(order), m, blocked);
    SearchIsComplete(order, blocked);
  }

  // ---------------------------------------------------------------------
  // The cooldown and the round
  // ---------------------------------------------------------------------

  ghost function Keys(round: seq<Pairing>): set<string> {
    set i | 0 <= i < |round| :: MatchupKey(round[i].left, round[i].right)
  }

  /** The matchups of the newest two rounds; older ones are ignored. */
  ghost function CooldownKeys(recent: seq<seq<Pairing>>): set<string> {
    (if |recent| > 0 then Keys(recent[0]) else {}) + if |recent| > 1 then Keys(recent[1]) else {}
  }

  lemma KeysGrow(round: seq<Pairing>, j: nat)
    requires j < |round|
    ensures Keys(round[..j + 1]) == Keys(round[..j]) + {MatchupKey(round[j].left, round[j].right)}
  {
    assert forall k | 0 <= k < j :: round[..j + 1][k] == round[..j][k];
    assert round[..j + 1][j] == round[j];
  }

  lemma CooldownOf(recent: seq<seq<Pairing>>)
    ensures CooldownKeys(recent[..0]) == {} && Keys([]) == {}
    ensures |recent| >= 2 ==> CooldownKeys(recent[..2]) == CooldownKeys(recent)
    ensures |recent| < 2 ==> recent[..|recent|] == recent
  {
  }

  lemma CooldownGrows(recent: seq<seq<Pairing>>, i: nat)
    requires i < |recent| && i < MATCHUP_COOLDOWN_ROUNDS
    ensures CooldownKeys(recent[..i + 1]) == CooldownKeys(recent[..i]) + Keys(recent[i])
  {
  }

  method CooldownSet(recent: seq<seq<Pairing>>) returns (blocked: set<string>)
    ensures blocked == CooldownKeys(recent)
  {
    hide Keys, CooldownKeys;
    CooldownOf(recent);
    blocked := {};
    var n := if |recent| < MATCHUP_COOLDOWN_ROUNDS then |recent| else MATCHUP_COOLDOWN_ROUNDS;
    for i := 0 to n
      invariant blocked == CooldownKeys(recent[..i])
    {
      var round := recent[i];
      ghost var before := blocked;
      assert round[..0] == [];
      for j := 0 to |round|
        invariant blocked == before + Keys(round[..j])
      {
        var pairing := round[j];
        KeysGrow(round, j);
        blocked := blocked + {MatchupKey(pairing.left, pairing.right)};
      }
      assert round[..|round|] == round;
      CooldownGrows(recent, i);
    }
  }

  /** Whom a round already paired `t` with. */
  ghost function Met(v: set<Ticker>, t: Ticker, round: seq<Pairing>): set<Ticker> {
    set o | o in v && MatchupKey(t, o) in Keys(round)
  }

  lemma MetAtMostOne(v: set<Ticker>, t: Ticker, round: seq<Pairing>)
    requires Disjoint(round)
    ensures |Met(v, t, round)| <= 1
  {
    var met := Met(v, t, round);
    if met != {} {
      var o :| o in met;
      var i := MeetingOf(v, t, round, o);
      forall x | x in met
        ensures x == o
      {
        var j := MeetingOf(v, t, round, x);
        assert Holds(round[i], t) && Holds(round[j], t);
      }
      SubsetSize(met, {o});
    }
  }

  lemma MeetingOf(v: set<Ticker>, t: Ticker, round: seq<Pairing>, o: Ticker) returns (i: nat)
    requires o in Met(v, t, round)
    ensures i < |round|
    ensures (round[i].left == t && round[i].right == o) || (round[i].left == o && round[i].right == t)
  {
    i :| i < |round| && MatchupKey(round[i].left, round[i].right) == MatchupKey(t, o);
    MatchupKeyIsUnordered(round[i].left, round[i].right, t, o);
  }

  /** A ticker may face everyone but itself and those it met in two rounds. */
  lemma MetOrOpponents(v: set<Ticker>, t: Ticker, first: seq<Pairing>, second: seq<Pairing>)
    requires t in v
    ensures v == Opponents(v, t, Keys(first) + Keys(second)) + (Met(v, t, first) + Met(v, t, second) + {t})
  {
    hide Keys, MatchupKey;
  }

  lemma OpponentsLeft(v: set<Ticker>, t: Ticker, first: seq<Pairing>, second: seq<Pairing>)
    requires t in v && Disjoint(first) && Disjoint(second)
    ensures |Opponents(v, t, Keys(first) + Keys(second))| + 3 >= |v|
  {
    var blocked := Keys(first) + Keys(second);
    MetAtMostOne(v, t, first);
    MetAtMostOne(v, t, second);
    hide *;
    var met := Met(v, t, first) + Met(v, t, second);
    MetOrOpponents(v, t, first, second);
    UnionAtMost(Met(v, t, first), Met(v, t, second));
    UnionAtMost(Opponents(v, t, blocked), met + {t});
    UnionAtMost(met, {t});
  }

  /** Two past rounds cost a ticker at most two opponents. */
  lemma CooldownLeavesOpponents(v: set<Ticker>, m: nat, recent: seq<seq<Pairing>>)
    requires |v| >= m + 3
    requires forall i | 0 <= i < |recent| && i < MATCHUP_COOLDOWN_ROUNDS :: Disjoint(recent[i])
    ensures WellConnected(v, m, CooldownKeys(recent))
  {
    var first := if |recent| > 0 then recent[0] else [];
    var second := if |recent| > 1 then recent[1] else [];
    assert CooldownKeys(recent) == Keys(first) + Keys(second);
    forall t | t in v
      ensures |Opponents(v, t, CooldownKeys(recent))| >= m
    {
      OpponentsLeft(v, t, first, second);
    }
  }

  datatype ScheduleError = WrongRosterSize | DuplicateTickers | NoSchedule

  lemma {:induction false} DistinctIffFullSize(roster: seq<Ticker>)
    ensures |Elements(roster)| <= |roster|
    ensures |Elements(roster)| == |roster| <==> Distinct(roster)
  {
    if roster != [] {
      var rest := roster[1..];
      DistinctIffFullSize(rest);
      assert Elements(roster) == Elements(rest) + {roster[0]};
      if Distinct(roster) {
        ElementsSize(roster);
      } else if Distinct(rest) {
        assert roster[0] in rest;
        assert Elements(roster) == Elements(rest);
      }
    }
  }

  /** The shuffled roster a round is paired from. */
  ghost function OrderFor(words: Words, roster: seq<Ticker>): seq<Ticker>
    requires Lively(words) && |roster| <= RANGE
  {
    Shuffled(roster, DrawsFrom(words, 0, |roster|).0)
  }

  /** No order of the roster is out of the seeds' reach. */
  lemma EveryOrderIsDrawn(roster: seq<Ticker>, order: seq<Ticker>) returns (words: Words)
    requires Distinct(roster) && |roster| <= RANGE / 2 && |order| == |roster| && multiset(order) == multiset(roster)
    ensures Lively(words) && OrderFor(words, roster) == order
  {
    ShuffleIsBijective(roster, order);
    var js := DrawsFor(roster, order, |roster|);
    words := Spelling(js);
    SpellsDraws(js, 0);
    assert js[..|js|] == js;
    hide Lively, Spelling, DrawsFrom, DrawsFor;
  }

  ghost predicate ProperRoster(roster: seq<Ticker>) {
    |roster| == 2 * BATTLES_PER_ROUND && Distinct(roster)
  }

  /** What `scheduleRound` answers, as a function of the stream its seed derives. */
  ghost function ScheduleFor(words: Words, roster: seq<Ticker>, recent: seq<seq<Pairing>>)
    : Result<seq<Pairing>, ScheduleError>
    requires Lively(words)
  {
    if |roster| != 2 * BATTLES_PER_ROUND then Err(WrongRosterSize)
    else if !Distinct(roster) then Err(DuplicateTickers)
    else
      match Search(OrderFor(words, roster), CooldownKeys(recent))
      case Some(pairings) => Ok(pairings)
      case None => Err(NoSchedule)
  }

  method ScheduleRound(digest: Digests, roster: seq<Ticker>, recent: seq<seq<Pairing>>)
    returns (r: Result<seq<Pairing>, ScheduleError>)
    requires IsHash(digest) && Lively(StreamWords(digest))
    ensures r == ScheduleFor(StreamWords(digest), roster, recent)
  {
    hide IsHash, Lively, StreamWords, Distinct, Search, CooldownKeys, Shuffled, DrawsFrom, DeterministicPrng.Valid;
    if |roster| != 2 * BATTLES_PER_ROUND {
      return Err(WrongRosterSize);
    }
    DistinctIffFullSize(roster);
    if |set t | t in roster| != |roster| {
      return Err(DuplicateTickers);
    }
    var prng := new DeterministicPrng(digest);
    var order := prng.Shuffle(roster);
    var blocked := CooldownSet(recent);
    var pairings := PairInOrder(order[..], blocked);
    if pairings.None? {
      return Err(NoSchedule);
    }
    return Ok(pairings.value);
  }

  lemma OrderIsRoster(words: Words, roster: seq<Ticker>)
    requires Lively(words) && |roster| <= RANGE && Distinct(roster)
    ensures Distinct(OrderFor(words, roster)) && |OrderFor(words, roster)| == |roster|
    ensures Elements(OrderFor(words, roster)) == Elements(roster)
  {
    var order := OrderFor(words, roster);
    ShufflePermutes(roster, DrawsFrom(words, 0, |roster|).0);
    PermutationIsDistinct(roster, order);
    forall t
      ensures t in order <==> t in roster
    {
      assert t in order <==> t in multiset(order);
      assert t in roster <==> t in multiset(roster);
    }
  }

  /**
   A round of ten distinct tickers gets a schedule that keeps the cooldown
   whenever one exists, and is refused only when none does. One always exists
   when the past rounds are rounds: no ticker twice in either of them.
   */
  lemma RoundIsScheduled(words: Words, roster: seq<Ticker>, recent: seq<seq<Pairing>>)
    requires Lively(words) && ProperRoster(roster)
    ensures var r := ScheduleFor(words, roster, recent);
            var blocked := CooldownKeys(recent);
            && (r.Ok? ==> IsSchedule(Elements(roster), r.value, blocked) && |r.value| == BATTLES_PER_ROUND)
            && (r.Err? ==> forall ps :: !IsSchedule(Elements(roster), ps, blocked))
            && ((forall i | 0 <= i < |recent| && i < MATCHUP_COOLDOWN_ROUNDS :: Disjoint(recent[i])) ==> r.Ok?)
  {
    var order := OrderFor(words, roster);
    var blocked := CooldownKeys(recent);
    OrderIsRoster(words, roster);
    SearchIsComplete(order, blocked);
    ElementsSize(roster);
    hide CooldownKeys, Search, OrderFor, Distinct, Disjoint, Covered;
    if Search(order, blocked).Some? {
      CoveredSize(Search(order, blocked).value);
    }
    if forall i | 0 <= i < |recent| && i < MATCHUP_COOLDOWN_ROUNDS :: Disjoint(recent[i]) {
      CooldownLeavesOpponents(Elements(roster), BATTLES_PER_ROUND, recent);
      SearchSucceeds(order, BATTLES_PER_ROUND, blocked);
    }
  }

  // ---------------------------------------------------------------------
  // Whole seasons
  // ---------------------------------------------------------------------

  /** What decides one round: the stream of its seed and the roster of the day. */
  datatype Draw = Draw(words: Words, roster: seq<Ticker>)

  ghost predicate ProperDraws(draws: seq<Draw>) {
    forall i | 0 <= i < |draws| :: Lively(draws[i].words) && ProperRoster(draws[i].roster)
  }

  /** The rounds of a season, newest first, each scheduled against the ones before it. */
  ghost function Season(draws: seq<Draw>): Option<seq<seq<Pairing>>>
    requires ProperDraws(draws)
  {
    if draws == [] then Some([])
    else
      match Season(draws[1..])
      case None => None
      case Some(past) =>
        match ScheduleFor(draws[0].words, draws[0].roster, past)
        case Ok(round) => Some([round] + past)
        case Err(_) => None
  }

  /** Each round pairs its whole roster, and meets none of the matchups of the two rounds before it. */
  ghost predicate SeasonIsFair(draws: seq<Draw>, rounds: seq<seq<Pairing>>) {
    && |rounds| == |draws|
    && forall i | 0 <= i < |rounds| ::
         IsSchedule(Elements(draws[i].roster), rounds[i], CooldownKeys(rounds[i + 1..]))
  }

  lemma FairSeasonGrows(draws: seq<Draw>, rounds: seq<seq<Pairing>>)
    requires draws != [] && rounds != [] && SeasonIsFair(draws[1..], rounds[1..])
    requires IsSchedule(Elements(draws[0].roster), rounds[0], CooldownKeys(rounds[1..]))
    ensures SeasonIsFair(draws, rounds)
  {
    hide IsSchedule, CooldownKeys, Elements;
    forall i | 0 <= i < |rounds|
      ensures IsSchedule(Elements(draws[i].roster), rounds[i], CooldownKeys(rounds[i + 1..]))
    {
      if i > 0 {
        assert rounds[1..][i..] == rounds[i + 1..];
        assert draws[1..][i - 1] == draws[i] && rounds[1..][i - 1] == rounds[i];
      }
    }
  }

  /** A season of rosters of ten, whatever they are and however they are shuffled, is never left without a schedule. */
  lemma {:induction false} SeasonNeverStuck(draws: seq<Draw>)
    requires ProperDraws(draws)
    ensures Season(draws).Some? && SeasonIsFair(draws, Season(draws).value)
  {
    if draws != [] {
      SeasonNeverStuck(draws[1..]);
      var past := Season(draws[1..]).value;
      RoundIsScheduled(draws[0].words, draws[0].roster, past);
      assert forall i | 0 <= i < |past| :: IsMatching(Elements(draws[1..][i].roster), past[i], CooldownKeys(past[i + 1..]));
      hide ScheduleFor, IsSchedule, ProperRoster, CooldownKeys;
      var rounds := Season(draws).value;
      assert rounds[1..] == past;
      FairSeasonGrows(draws, rounds);
    }
  }

  /** In a fair season no matchup comes back within two rounds. */
  lemma NoEarlyRematch(draws: seq<Draw>, rounds: seq<seq<Pairing>>, i: nat, j: nat)
    requires SeasonIsFair(draws, rounds)
    requires i < j < |rounds| && j <= i + MATCHUP_COOLDOWN_ROUNDS
    ensures Keys(rounds[i]) !! Keys(rounds[j])
  {
    var past := rounds[i + 1..];
    assert past[j - i - 1] == rounds[j];
    assert Keys(rounds[j]) <= CooldownKeys(past);
    assert IsMatching(Elements(draws[i].roster), rounds[i], CooldownKeys(past));
    hide *;
    forall key | key in Keys(rounds[i])
      ensures key !in Keys(rounds[j])
    {
      FreeKeys(Elements(draws[i].roster), rounds[i], CooldownKeys(past), key);
    }
  }

  lemma FreeKeys(v: set<Ticker>, ps: seq<Pairing>, blocked: set<string>, key: string)
    requires IsMatching(v, ps, blocked) && key in Keys(ps)
    ensures key !in blocked
  {
    var i :| 0 <= i < |ps| && MatchupKey(ps[i].left, ps[i].right) == key;
    assert Free(blocked, ps[i].left, ps[i].right);
  }
}
