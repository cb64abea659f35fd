/** The deterministic generator, packages/battle-math/src/prng.ts. */
module Prng {
  import opened Arithmetic
  import opened Counting
  import opened Wrappers

  // A hash in counter mode, rejection sampling over 32-bit words, and Fisher-Yates.
  // SHA-256 is a parameter: `digest(c)` stands for the hash of domain, seed and
  // counter `c`. A stream is its digests laid end to end.

  type Byte = b: nat | b < 256

  type Digests = nat -> seq<Byte>

  const DIGEST_LENGTH: nat := 32

  /** 2^32, the number of values four bytes can take. */
  const RANGE: nat := 0x1_0000_0000

  // ---------------------------------------------------------------------
  // The stream
  // ---------------------------------------------------------------------

  ghost predicate IsHash(digest: Digests) {
    forall c :: |digest(c)| == DIGEST_LENGTH
  }

  ghost function StreamByte(digest: Digests, i: nat): Byte
    requires IsHash(digest)
  {
    digest(i / DIGEST_LENGTH)[i % DIGEST_LENGTH]
  }

  function BigEndian(b0: Byte, b1: Byte, b2: Byte, b3: Byte): (w: nat)
    ensures w < RANGE
  {
    ((b0 * 256 + b1) * 256 + b2) * 256 + b3
  }

  /** Words stand in the order of their bytes, the first byte weighing most: different bytes are different words. */
  lemma WordsInByteOrder(a0: Byte, a1: Byte, a2: Byte, a3: Byte, b0: Byte, b1: Byte, b2: Byte, b3: Byte)
    ensures BigEndian(a0, a1, a2, a3) < BigEndian(b0, b1, b2, b3) <==>
              a0 < b0 || (a0 == b0 && (a1 < b1 || (a1 == b1 && (a2 < b2 || (a2 == b2 && a3 < b3)))))
  {
  }

  /** The 32-bit word that starts at each byte position of the stream. */
  type Words = nat -> nat

  ghost function StreamWords(digest: Digests): Words
    requires IsHash(digest)
  {
    (p: nat) => StreamWord(digest, p)
  }

  ghost function StreamWord(digest: Digests, p: nat): nat
    requires IsHash(digest)
  {
    BigEndian(StreamByte(digest, p), StreamByte(digest, p + 1), StreamByte(digest, p + 2), StreamByte(digest, p + 3))
  }

  // ---------------------------------------------------------------------
  // Rejection sampling
  // ---------------------------------------------------------------------

  /** Words below this are kept; the rest are redrawn. */
  function Limit(bound: nat): nat
    requires bound > 0
  {
    RANGE - RANGE % bound
  }

  predicate Accepts(bound: nat, w: nat)
    requires bound > 0
  {
    w < Limit(bound)
  }

  /** The accepted words that reduce to `r`. */
  ghost function Residues(bound: nat, r: nat): set<nat>
    requires bound > 0
  {
    set w: nat | 0 <= w < Limit(bound) && w % bound == r
  }

  lemma LimitBounds(bound: nat)
    requires 0 < bound
    ensures Limit(bound) == RANGE / bound * bound
    ensures bound <= RANGE ==> RANGE / 2 < Limit(bound) <= RANGE
    ensures bound > RANGE ==> Limit(bound) == 0
  {
    var q := RANGE / bound;
    assert RANGE == q * bound + RANGE % bound;
    FloorAtLeast(RANGE, bound, 1);
    if bound <= RANGE {
      MulMonotone(1, q, bound);
    }
  }

  /** Between `k * bound` and the next multiple, one value reduces to `r`. */
  lemma ResidueOnRung(bound: nat, r: nat, k: nat, w: nat)
    requires r < bound && k * bound <= w < k * bound + bound
    ensures w % bound == r <==> w == k * bound + r
  {
    FloorIs(w, bound, k);
    assert w == (w / bound) * bound + w % bound;
  }

  ghost predicate ReducesBelow(bound: nat, r: nat, top: nat, w: nat)
    requires bound > 0
  {
    w < top && w % bound == r
  }

  ghost function ReducedBelow(bound: nat, r: nat, top: nat): set<nat>
    requires bound > 0
  {
    set w: nat | 0 <= w < top && ReducesBelow(bound, r, top, w)
  }

  /** One more rung holds one more. */
  lemma ResiduesOnRung(bound: nat, r: nat, low: nat, k: nat)
    requires r < bound && low == k * bound
    ensures ReducedBelow(bound, r, low + bound) == ReducedBelow(bound, r, low) + {low + r}
  {
    forall w: nat
      ensures w in ReducedBelow(bound, r, low + bound) <==> w in ReducedBelow(bound, r, low) || w == low + r
    {
      RungAddsOne(bound, r, low, k, w);
    }
  }

  lemma RungAddsOne(bound: nat, r: nat, low: nat, k: nat, w: nat)
    requires r < bound && low == k * bound
    ensures w in ReducedBelow(bound, r, low + bound) <==> w in ReducedBelow(bound, r, low) || w == low + r
  {
    if low <= w < low + bound {
      ResidueOnRung(bound, r, k, w);
    }
  }

  lemma {:induction false} ResiduesBelow(bound: nat, r: nat, k: nat)
    requires r < bound
    ensures |ReducedBelow(bound, r, k * bound)| == k
  {
    if k > 0 {
      var low := (k - 1) * bound;
      assert k * bound == low + bound;
      ResiduesBelow(bound, r, k - 1);
      ResiduesOnRung(bound, r, low, k - 1);
    }
  }

  /** Every residue below `bound` is reached by exactly the same number of accepted words. */
  lemma RejectionIsUniform(bound: nat, r: nat)
    requires r < bound
    ensures |Residues(bound, r)| == RANGE / bound
  {
    LimitBounds(bound);
    ResiduesBelow(bound, r, RANGE / bound);
    assert Residues(bound, r) == ReducedBelow(bound, r, RANGE / bound * bound);
  }

  /**
   A bound over 2^32 passes the source's guard, but then no word is ever
   accepted and the sampling loop does not end; any smaller bound accepts more
   than half of all words.
   */
  lemma SomeWordIsAcceptedIff(bound: nat)
    requires bound > 0
    ensures (exists w: nat | w < RANGE :: Accepts(bound, w)) <==> bound <= RANGE
  {
    LimitBounds(bound);
    if bound <= RANGE {
      assert Accepts(bound, 0);
    }
  }

  /** The word `k` draws after position `p` is in the lower half of the range. */
  ghost predicate LowWord(words: Words, p: nat, k: nat) {
    words(p + 4 * k) < RANGE / 2
  }

  ghost predicate LowWordAhead(words: Words, p: nat) {
    exists k: nat :: LowWord(words, p, k)
  }

  /** The stream never stops producing words in the lower half of the range. */
  ghost predicate Lively(words: Words) {
    forall p: nat :: LowWordAhead(words, p)
  }

  /** How many words from `p` are refused before the first accepted one. */
  ghost function Refused(words: Words, p: nat, bound: nat): (n: nat)
    requires Lively(words) && 0 < bound <= RANGE
    ensures Accepts(bound, words(p + 4 * n))
    ensures forall k: nat :: k < n ==> !Accepts(bound, words(p + 4 * k))
  {
    LimitBounds(bound);
    assert LowWordAhead(words, p);
    var low: nat :| LowWord(words, p, low);
    var ok := (k: nat) => Accepts(bound, words(p + 4 * k));
    var n := Least(ok, 0, low);
    assert forall k: nat :: k < n ==> !Accepts(bound, words(p + 4 * k)) by {
      forall k: nat | k < n
        ensures !Accepts(bound, words(p + 4 * k))
      {
        assert !ok(k);
      }
    }
    n
  }

  /** The draw below `bound` at position `p`, and where the stream stands after it. */
  ghost function Drawn(words: Words, p: nat, bound: nat): (r: (nat, nat))
    requires Lively(words) && 0 < bound <= RANGE
    ensures r.0 < bound
  {
    if bound == 1 then (0, p)
    else
      var at := p + 4 * Refused(words, p, bound);
      (words(at) % bound, at + 4)
  }

  lemma DrawnOne(words: Words, p: nat)
    requires Lively(words)
    ensures Drawn(words, p, 1) == (0, p)
  {
  }

  lemma DrawnIs(words: Words, p: nat, bound: nat, k: nat)
    requires Lively(words) && 1 < bound <= RANGE
    requires Accepts(bound, words(p + 4 * k))
    requires forall i: nat :: i < k ==> !Accepts(bound, words(p + 4 * i))
    ensures k == Refused(words, p, bound)
    ensures Drawn(words, p, bound) == (words(p + 4 * k) % bound, p + 4 * k + 4)
  {
    hide Accepts, Lively;
    var n := Refused(words, p, bound);
    assert !(n < k) && !(k < n);
  }

  // ---------------------------------------------------------------------
  // Fisher-Yates
  // ---------------------------------------------------------------------

  ghost predicate Distinct<T>(s: seq<T>) {
    forall i, j | 0 <= i < j < |s| :: s[i] != s[j]
  }

  /** One draw per position, `js[i]` from `[0, i]`. */
  ghost predicate DrawVector(js: seq<nat>, n: nat) {
    |js| == n && DrawsBelow(js, n)
  }

  ghost predicate DrawsBelow(js: seq<nat>, k: nat) {
    k <= |js| && forall i | 0 <= i < k :: js[i] <= i
  }

  function Swap<T>(s: seq<T>, i: nat, j: nat): seq<T>
    requires i < |s| && j < |s|
  {
    s[i := s[j]][j := s[i]]
  }

  /** What is left of the shuffle when positions from `k` on are settled. */
  ghost function Settle<T>(s: seq<T>, k: nat, js: seq<nat>): (t: seq<T>)
    requires k <= |s| && DrawsBelow(js, k)
    ensures |t| == |s|
    ensures forall i | k <= i < |s| :: t[i] == s[i]
    decreases k
  {
    if k == 0 then s else Settle(Swap(s, k - 1, js[k - 1]), k - 1, js)
  }

  ghost function Shuffled<T>(s: seq<T>, js: seq<nat>): (t: seq<T>)
    requires DrawVector(js, |s|)
    ensures |t| == |s|
  {
    Settle(s, |s|, js)
  }

  lemma SwapPermutes<T>(s: seq<T>, i: nat, j: nat)
    requires i < |s| && j < |s|
    ensures multiset(Swap(s, i, j)) == multiset(s)
  {
  }

  lemma SwapKeepsDistinct<T>(s: seq<T>, i: nat, j: nat)
    requires Distinct(s) && i < |s| && j < |s|
    ensures Distinct(Swap(s, i, j))
  {
  }

  lemma {:induction false} SettlePermutes<T>(s: seq<T>, k: nat, js: seq<nat>)
    requires k <= |s| && DrawsBelow(js, k)
    ensures multiset(Settle(s, k, js)) == multiset(s)
    decreases k
  {
    if k > 0 {
      SwapPermutes(s, k - 1, js[k - 1]);
      SettlePermutes(Swap(s, k - 1, js[k - 1]), k - 1, js);
    }
  }

  /** Whatever is drawn, a shuffle only rearranges. */
  lemma ShufflePermutes<T>(s: seq<T>, js: seq<nat>)
    requires DrawVector(js, |s|)
    ensures multiset(Shuffled(s, js)) == multiset(s)
  {
    SettlePermutes(s, |s|, js);
  }

  lemma {:induction false} SettleInjective<T>(s: seq<T>, k: nat, js: seq<nat>, ks: seq<nat>)
    requires Distinct(s) && k <= |s| && DrawsBelow(js, k) && DrawsBelow(ks, k)
    requires Settle(s, k, js) == Settle(s, k, ks)
    ensures forall i | 0 <= i < k :: js[i] == ks[i]
    decreases k
  {
    if k > 0 {
      var a, b := Swap(s, k - 1, js[k - 1]), Swap(s, k - 1, ks[k - 1]);
      assert Settle(a, k - 1, js)[k - 1] == a[k - 1] == s[js[k - 1]];
      assert Settle(b, k - 1, ks)[k - 1] == b[k - 1] == s[ks[k - 1]];
      assert js[k - 1] == ks[k - 1];
      SwapKeepsDistinct(s, k - 1, js[k - 1]);
      SettleInjective(a, k - 1, js, ks);
    }
  }

  /** Where a value stands. */
  ghost function IndexOf<T>(s: seq<T>, x: T): (i: nat)
    requires x in s
    ensures i < |s| && s[i] == x
  {
    var i :| 0 <= i < |s| && s[i] == x;
    i
  }

  /** The draws that carry `s` to its permutation `p`, once positions from `k` on agree. */
  ghost function DrawsFor<T>(s: seq<T>, p: seq<T>, k: nat): (js: seq<nat>)
    requires k <= |s| == |p|
    ensures |js| == k
    decreases k
  {
    if k == 0 then []
    else if p[k - 1] !in s then seq(k, _ => 0)
    else
      var j := IndexOf(s, p[k - 1]);
      DrawsFor(Swap(s, k - 1, j), p, k - 1) + [j]
  }

  /** The value that belongs at `k - 1` is still among the unsettled ones. */
  lemma UnsettledIndex<T>(s: seq<T>, p: seq<T>, k: nat)
    requires Distinct(s) && Distinct(p) && 0 < k <= |s| == |p| && multiset(p) == multiset(s)
    requires forall i | k <= i < |s| :: s[i] == p[i]
    ensures p[k - 1] in s && IndexOf(s, p[k - 1]) < k
  {
    assert p[k - 1] in multiset(s);
    assert forall i | k <= i < |s| :: s[i] != p[k - 1];
  }

  lemma SwapSettles<T>(s: seq<T>, p: seq<T>, k: nat, j: nat)
    requires 0 < k <= |s| == |p| && j < k && s[j] == p[k - 1]
    requires forall i | k <= i < |s| :: s[i] == p[i]
    ensures |Swap(s, k - 1, j)| == |s| && forall i | k - 1 <= i < |s| :: Swap(s, k - 1, j)[i] == p[i]
  {
  }

  /** What one step of `DrawsFor` may rely on: the value is placed, nothing else is lost. */
  lemma PlaceNext<T>(s: seq<T>, p: seq<T>, k: nat) returns (j: nat, t: seq<T>)
    requires Distinct(s) && Distinct(p) && 0 < k <= |s| == |p| && multiset(p) == multiset(s)
    requires forall i | k <= i < |s| :: s[i] == p[i]
    ensures p[k - 1] in s && j == IndexOf(s, p[k - 1]) < k && t == Swap(s, k - 1, j)
    ensures |t| == |s| && Distinct(t) && multiset(p) == multiset(t)
    ensures forall i | k - 1 <= i < |t| :: t[i] == p[i]
  {
    UnsettledIndex(s, p, k);
    j := IndexOf(s, p[k - 1]);
    hide Distinct, Swap, IndexOf;
    t := Swap(s, k - 1, j);
    SwapSettles(s, p, k, j);
    SwapKeepsDistinct(s, k - 1, j);
    SwapPermutes(s, k - 1, j);
  }

  lemma {:induction false} DrawsForBelow<T>(s: seq<T>, p: seq<T>, k: nat)
    requires Distinct(s) && Distinct(p) && k <= |s| == |p| && multiset(p) == multiset(s)
    requires forall i | k <= i < |s| :: s[i] == p[i]
    ensures DrawVector(DrawsFor(s, p, k), k)
    decreases k
  {
    hide Distinct, Swap;
    if k > 0 {
      var j, t := PlaceNext(s, p, k);
      DrawsForBelow(t, p, k - 1);
    }
  }

  lemma {:induction false} DrawsForSettles<T>(s: seq<T>, p: seq<T>, k: nat)
    requires Distinct(s) && Distinct(p) && k <= |s| == |p| && multiset(p) == multiset(s)
    requires forall i | k <= i < |s| :: s[i] == p[i]
    requires DrawVector(DrawsFor(s, p, k), k)
    ensures Settle(s, k, DrawsFor(s, p, k)) == p
    decreases k
  {
    hide Distinct, Swap;
    if k == 0 {
      assert s == p;
    } else {
      var j, t := PlaceNext(s, p, k);
      var rest := DrawsFor(t, p, k - 1);
      DrawsForBelow(t, p, k - 1);
      DrawsForSettles(t, p, k - 1);
      SettleIgnoresRest(t, k - 1, rest, rest + [j]);
    }
  }

  /** The last position has nothing to swap with, so the source's loop skips it. */
  lemma SettleOne<T>(s: seq<T>, js: seq<nat>)
    requires |s| >= 1 && DrawsBelow(js, 1)
    ensures Settle(s, 1, js) == s
  {
    assert Swap(s, 0, 0) == s;
  }

  lemma {:induction false} SettleIgnoresRest<T>(s: seq<T>, k: nat, js: seq<nat>, ks: seq<nat>)
    requires k <= |s| && DrawsBelow(js, k) && k <= |ks|
    requires forall i | 0 <= i < k :: js[i] == ks[i]
    ensures DrawsBelow(ks, k)
    ensures Settle(s, k, js) == Settle(s, k, ks)
    decreases k
  {
    if k > 0 {
      SettleIgnoresRest(Swap(s, k - 1, js[k - 1]), k - 1, js, ks);
    }
  }

  lemma {:induction false} DistinctCounts<T>(s: seq<T>)
    ensures Distinct(s) <==> forall x | x in s :: multiset(s)[x] == 1
  {
    if s != [] {
      var rest := s[1..];
      assert s == [s[0]] + rest;
      DistinctCounts(rest);
      assert forall x | x in rest :: multiset(rest)[x] >= 1;
      if !Distinct(rest) {
        var x :| x in rest && multiset(rest)[x] != 1;
        assert x in s && multiset(s)[x] > 1;
      } else if s[0] in rest {
        var i :| 0 <= i < |rest| && rest[i] == s[0];
        assert s[i + 1] == s[0];
        assert multiset(s)[s[0]] == 2;
      }
    }
  }

  lemma PermutationIsDistinct<T>(s: seq<T>, p: seq<T>)
    requires Distinct(s) && multiset(p) == multiset(s)
    ensures Distinct(p)
  {
    DistinctCounts(s);
    DistinctCounts(p);
    assert |multiset(p)| == |multiset(s)|;
    forall x | x in p
      ensures multiset(p)[x] == 1
    {
      assert x in multiset(s);
    }
  }

  /** Draw vectors and permutations of distinct items correspond one to one. */
  lemma ShuffleIsBijective<T>(s: seq<T>, p: seq<T>)
    requires Distinct(s) && |p| == |s| && multiset(p) == multiset(s)
    ensures DrawVector(DrawsFor(s, p, |s|), |s|)
    ensures forall js | DrawVector(js, |s|) :: Shuffled(s, js) == p <==> js == DrawsFor(s, p, |s|)
  {
    var found := DrawsFor(s, p, |s|);
    PermutationIsDistinct(s, p);
    DrawsForBelow(s, p, |s|);
    DrawsForSettles(s, p, |s|);
    forall js | DrawVector(js, |s|) && Shuffled(s, js) == p
      ensures js == found
    {
      SettleInjective(s, |s|, js, found);
    }
  }

  // ---------------------------------------------------------------------
  // Exact uniformity, counted in accepted words
  // ---------------------------------------------------------------------

  /** The words a draw for position `i` may accept; position 0 consumes none. */
  ghost function WordsWith(i: nat, j: nat): set<nat> {
    if i == 0 then {0} else Residues(i + 1, j)
  }

  /** The draw `j` a word stands for at position `i`, if it is accepted there. */
  ghost predicate DrawsAt(i: nat, w: nat, j: nat) {
    w in WordsWith(i, j)
  }

  /** Words that are all accepted and reduce, one by one, to the draws `js`. */
  ghost predicate ReducesTo(ws: seq<nat>, js: seq<nat>) {
    |ws| == |js| && forall i | 0 <= i < |ws| :: DrawsAt(i, ws[i], js[i])
  }

  /** The vectors of accepted words behind one draw vector. */
  ghost function WordsOf(js: seq<nat>): set<seq<nat>> {
    if js == [] then {[]}
    else
      var n := |js| - 1;
      Extend(WordsOf(js[..n]), WordsWith(n, js[n]))
  }

  ghost function Extend(s: set<seq<nat>>, last: set<nat>): set<seq<nat>> {
    set ws, w | ws in s && w in last :: ws + [w]
  }

  /** How many vectors of accepted words of length `n` share one draw vector. */
  ghost function Ways(n: nat): nat {
    if n <= 1 then 1 else Ways(n - 1) * (RANGE / n)
  }

  lemma ExtendSplits(s: set<seq<nat>>, ws: seq<nat>, last: set<nat>)
    requires ws in s
    ensures Extend(s, last) == Extend({ws}, last) + Extend(s - {ws}, last)
    ensures Extend({ws}, last) !! Extend(s - {ws}, last)
  {
    forall x | x in Extend(s, last)
      ensures x in Extend({ws}, last) + Extend(s - {ws}, last)
    {
      var vs, v :| vs in s && v in last && x == vs + [v];
      assert vs == ws || vs in s - {ws};
    }
    forall vs, v, w | ws + [w] == vs + [v]
      ensures vs == ws
    {
      assert ws == (ws + [w])[..|ws|] && |vs| == |ws| && vs == (vs + [v])[..|vs|];
    }
  }

  lemma {:induction false} ExtendCounts(s: set<seq<nat>>, last: set<nat>)
    ensures |Extend(s, last)| == Times(|s|, |last|)
    decreases s
  {
    TimesSucc(|s| - 1, |last|);
    hide Times;
    if s == {} {
      assert Extend(s, last) == {};
    } else {
      var ws :| ws in s;
      var rest := s - {ws};
      ExtendSplits(s, ws, last);
      hide Extend;
      RemoveSize(s, ws);
      UnionSize(Extend({ws}, last), Extend(rest, last), Extend(s, last));
      ExtendCounts(rest, last);
      AppendCounts(ws, last);
    }
  }

  lemma AppendSplits(ws: seq<nat>, last: set<nat>, w: nat)
    requires w in last
    ensures Extend({ws}, last) == Extend({ws}, last - {w}) + {ws + [w]}
    ensures ws + [w] !in Extend({ws}, last - {w})
  {
    forall v | v != w
      ensures ws + [v] != ws + [w]
    {
      assert (ws + [v])[|ws|] == v && (ws + [w])[|ws|] == w;
    }
  }

  lemma {:induction false} AppendCounts(ws: seq<nat>, last: set<nat>)
    ensures |Extend({ws}, last)| == |last|
    decreases last
  {
    if last == {} {
      assert Extend({ws}, last) == {};
    } else {
      var w :| w in last;
      AppendSplits(ws, last, w);
      hide Extend;
      AppendCounts(ws, last - {w});
    }
  }

  lemma {:induction false} WordsCount(js: seq<nat>)
    requires DrawVector(js, |js|)
    ensures |WordsOf(js)| == Ways(|js|)
    decreases |js|
  {
    if js != [] {
      var n := |js| - 1;
      WordsCount(js[..n]);
      ExtendCounts(WordsOf(js[..n]), WordsWith(n, js[n]));
      if n > 0 {
        RejectionIsUniform(n + 1, js[n]);
      }
    }
  }

  lemma {:induction false} WordsAre(ws: seq<nat>, js: seq<nat>)
    ensures ws in WordsOf(js) <==> ReducesTo(ws, js)
    decreases |js|
  {
    if js != [] {
      var n := |js| - 1;
      if |ws| == |js| {
        assert ws == ws[..n] + [ws[n]];
        WordsAre(ws[..n], js[..n]);
        assert ReducesTo(ws, js) <==> ReducesTo(ws[..n], js[..n]) && DrawsAt(n, ws[n], js[n]);
      }
      if ws in WordsOf(js) {
        var vs, v :| vs in WordsOf(js[..n]) && v in WordsWith(n, js[n]) && ws == vs + [v];
        WordsAre(vs, js[..n]);
        assert vs == ws[..n];
      }
    }
  }

  /**
   The shuffle is exactly uniform: every permutation of distinct items is
   produced by one draw vector, and that by the same number of vectors of
   accepted words whichever permutation it is.
   */
  lemma ShuffleIsUniform<T>(s: seq<T>, p: seq<T>)
    requires Distinct(s) && |p| == |s| && multiset(p) == multiset(s)
    ensures |WordsOf(DrawsFor(s, p, |s|))| == Ways(|s|)
    ensures forall ws, js | DrawVector(js, |s|) && ReducesTo(ws, js) ::
              ws in WordsOf(DrawsFor(s, p, |s|)) <==> Shuffled(s, js) == p
  {
    var found := DrawsFor(s, p, |s|);
    ShuffleIsBijective(s, p);
    WordsCount(found);
    forall ws, js | DrawVector(js, |s|) && ReducesTo(ws, js)
      ensures ws in WordsOf(found) <==> Shuffled(s, js) == p
    {
      WordsAre(ws, found);
      if ReducesTo(ws, found) {
        ReducesToOne(ws, js, found);
      }
    }
  }

  lemma ReducesToOne(ws: seq<nat>, js: seq<nat>, ks: seq<nat>)
    requires ReducesTo(ws, js) && ReducesTo(ws, ks) && DrawVector(js, |ws|) && DrawVector(ks, |ws|)
    ensures js == ks
  {
    forall i | 0 <= i < |ws|
      ensures js[i] == ks[i]
    {
      assert DrawsAt(i, ws[i], js[i]) && DrawsAt(i, ws[i], ks[i]);
    }
  }

  // ---------------------------------------------------------------------
  // The generator
  // ---------------------------------------------------------------------

  /** The draw vector a shuffle of `n` items takes from the stream at `p`, and where it ends. */
  ghost function DrawsFrom(words: Words, p: nat, n: nat): (r: (seq<nat>, nat))
    requires Lively(words) && n <= RANGE
    ensures DrawVector(r.0, n)
    decreases n
  {
    hide Drawn;
    if n == 0 then ([], p)
    else if n == 1 then ([0], p)
    else
      var d := Drawn(words, p, n);
      var rest := DrawsFrom(words, d.1, n - 1);
      (rest.0 + [d.0], rest.1)
  }

  /** A stream whose words are the draws themselves, the last position's first, and then zero. */
  ghost function Spelling(js: seq<nat>): Words {
    (p: nat) => if p % 4 == 0 && p / 4 < |js| then js[|js| - 1 - p / 4] else 0
  }

  lemma SpellingIs(js: seq<nat>, k: nat)
    requires forall i | 0 <= i < |js| :: js[i] < RANGE / 2
    ensures Lively(Spelling(js))
    ensures k < |js| ==> Spelling(js)(4 * k) == js[|js| - 1 - k]
  {
    var words := Spelling(js);
    forall p: nat
      ensures LowWordAhead(words, p)
    {
      assert LowWord(words, p, 0);
    }
  }

  lemma SpelledDraw(js: seq<nat>, k: nat)
    requires DrawVector(js, |js|) && k < |js| - 1 <= RANGE / 2 - 1
    ensures Lively(Spelling(js)) && Drawn(Spelling(js), 4 * k, |js| - k) == (js[|js| - k - 1], 4 * (k + 1))
  {
    hide Lively, Drawn, Spelling, Refused;
    var words, n := Spelling(js), |js| - k;
    SpellingIs(js, k);
    LimitBounds(n);
    assert words(4 * k + 4 * 0) == js[n - 1];
    DrawnIs(words, 4 * k, n, 0);
    SmallMod(js[n - 1], n);
  }

  lemma SmallMod(w: nat, n: nat)
    requires w < n
    ensures w % n == w
  {
  }

  lemma {:induction false} SpellsDraws(js: seq<nat>, k: nat)
    requires DrawVector(js, |js|) && k <= |js| <= RANGE / 2
    ensures Lively(Spelling(js)) && DrawsFrom(Spelling(js), 4 * k, |js| - k).0 == js[..|js| - k]
    decreases |js| - k
  {
    hide Lively, Drawn, Spelling;
    var n := |js| - k;
    SpellingIs(js, k);
    if n > 1 {
      SpelledDraw(js, k);
      SpellsDraws(js, k + 1);
      assert js[..n] == js[..n - 1] + [js[n - 1]];
    } else if n == 1 {
      assert js[..1] == [js[0]] == [0];
    }
  }

  lemma ShortDraws(js: seq<nat>, n: nat)
    requires DrawVector(js, n)
    ensures DrawsBelow(js, n) && DrawsBelow(js, 0)
  {
  }

  lemma DrawsFromShort(words: Words, p: nat, n: nat)
    requires Lively(words) && n <= 1
    ensures DrawsFrom(words, p, n).1 == p
  {
  }

  lemma ShuffleStep<T>(words: Words, p: nat, i: nat, all: (seq<nat>, nat), s: seq<T>)
    requires Lively(words) && 1 <= i < |s| <= RANGE && DrawVector(all.0, |s|)
    requires DrawsFrom(words, p, i + 1) == (all.0[..i + 1], all.1)
    ensures all.0[i] == Drawn(words, p, i + 1).0 && DrawsBelow(all.0, i)
    ensures DrawsFrom(words, Drawn(words, p, i + 1).1, i) == (all.0[..i], all.1)
    ensures Settle(s, i + 1, all.0) == Settle(Swap(s, i, all.0[i]), i, all.0)
  {
    hide Drawn;
    var d := Drawn(words, p, i + 1);
    var rest := DrawsFrom(words, d.1, i);
    assert all.0[..i + 1] == rest.0 + [d.0];
    assert all.0[..i] == all.0[..i + 1][..i] == rest.0;
    assert all.0[i] == all.0[..i + 1][i] == d.0;
  }

  class DeterministicPrng {
    const digest: Digests
    var counter: nat
    var block: seq<Byte>
    var offset: nat

    ghost predicate Valid()
      reads this
    {
      && IsHash(digest)
      && offset <= |block|
      && block == if counter == 0 then [] else digest(counter - 1)
    }

    /** How many bytes of the stream have been read. */
    ghost function Position(): nat
      requires Valid()
      reads this
    {
      if counter == 0 then 0 else (counter - 1) * DIGEST_LENGTH + offset
    }

    ghost predicate Live()
      reads this
    {
      Valid() && IsHash(digest) && Lively(StreamWords(digest))
    }

    constructor (digest: Digests)
      requires IsHash(digest)
      ensures Valid() && this.digest == digest && Position() == 0
    {
      this.digest := digest;
      counter, block, offset := 0, [], 0;
    }

    method Refill()
      requires Valid() && offset == |block|
      modifies this
      ensures Valid() && offset < |block| && Position() == old(Position())
    {
      block := digest(counter);
      counter := counter + 1;
      offset := 0;
    }

    method NextByte() returns (b: Byte)
      requires Valid()
      modifies this
      ensures Valid() && Position() == old(Position()) + 1
      ensures b == StreamByte(digest, old(Position()))
    {
      if offset >= |block| {
        Refill();
      }
      ModOfSum(counter - 1, DIGEST_LENGTH, offset);
      b := block[offset];
      offset := offset + 1;
    }

    /** Four bytes read big-endian. */
    method NextWord() returns (w: nat)
      requires Valid()
      modifies this
      ensures Valid() && Position() == old(Position()) + 4
      ensures w == StreamWords(digest)(old(Position()))
    {
      hide StreamByte, BigEndian;
      var b0 := NextByte();
      var b1 := NextByte();
      var b2 := NextByte();
      var b3 := NextByte();
      w := BigEndian(b0, b1, b2, b3);
      ghost var p := old(Position());
      assert b1 == StreamByte(digest, p + 1);
      assert b2 == StreamByte(digest, p + 2);
      assert b3 == StreamByte(digest, p + 3);
    }

    /**
     A draw below `bound`: the first accepted word of the stream, reduced. A
     bound over 2^32 is excluded, as `SomeWordIsAcceptedIff` says why.
     */
    method NextBelow(bound: int) returns (r: Result<nat, string>)
      requires Live() && bound <= RANGE
      modifies this
      ensures Live()
      ensures bound <= 0 ==> r.Err? && Position() == old(Position())
      ensures bound > 0 ==> r.Ok? && (r.value, Position()) == Drawn(StreamWords(digest), old(Position()), bound)
    {
      hide IsHash, StreamWord, Limit, Drawn, Lively, Refused, Valid, Position;
      if bound <= 0 {
        return Err("Bound must be a positive integer");
      }
      if bound == 1 {
        DrawnOne(StreamWords(digest), Position());
        return Ok(0);
      }
      var limit := Limit(bound);
      ghost var start := Position();
      ghost var words := StreamWords(digest);
      ghost var refused := Refused(words, start, bound);
      ghost var k := 0;
      while true
        invariant Live() && k <= refused && Position() == start + 4 * k
        invariant forall i: nat :: i < k ==> !Accepts(bound, words(start + 4 * i))
        decreases refused - k
      {
        var value := NextWord();
        assert value < limit <==> Accepts(bound, words(start + 4 * k));
        if value < limit {
          DrawnIs(words, start, bound, k);
          return Ok(value % bound);
        }
        k := k + 1;
      }
    }

    method Shuffle<T>(items: seq<T>) returns (out: array<T>)
      requires Live() && |items| <= RANGE
      modifies this
      ensures Live() && fresh(out)
      ensures out[..] == Shuffled(items, DrawsFrom(StreamWords(digest), old(Position()), |items|).0)
      ensures Position() == DrawsFrom(StreamWords(digest), old(Position()), |items|).1
    {
      hide IsHash, Lively, StreamWords, Drawn, DrawsFrom, DrawsBelow, Valid, Position, Settle;
      out := new T[|items|](i requires 0 <= i < |items| => items[i]);
      assert out[..] == items;
      ghost var n := |items|;
      ghost var words := StreamWords(digest);
      ghost var all := DrawsFrom(words, Position(), n);
      var i := |items| - 1;
      assert all.0[..i + 1] == all.0;
      ShortDraws(all.0, n);
      while i > 0
        invariant Live() && fresh(out) && -1 <= i < n && out.Length == n && (i == -1 ==> n == 0)
        invariant DrawsBelow(all.0, i + 1)
        invariant DrawsFrom(words, Position(), i + 1) == (all.0[..i + 1], all.1)
        invariant Settle(out[..], i + 1, all.0) == Shuffled(items, all.0)
      {
        ShuffleStep(words, Position(), i, all, out[..]);
        var d := NextBelow(i + 1);
        var j := d.value;
        ghost var was := out[..];
        out[i], out[j] := out[j], out[i];
        assert out[..] == was[i := was[j]][j := was[i]];
        i := i - 1;
      }
      DrawsFromShort(words, Position(), i + 1);
      if n > 0 {
        SettleOne(out[..], all.0);
      } else {
        assert out[..] == items;
      }
    }
  }
}
