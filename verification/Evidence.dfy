/**
 The evidence digest, packages/battle-engine/src/evidence.ts: a chain over every
 accepted tick, in order.
 */
module Evidence {
  import opened Counting
  import opened Feed
  import opened Scoring
  import opened Text

  /** SHA-256 in hexadecimal over the text it is fed. */
  type Digest = string -> string

  const EMPTY_EVIDENCE: string := "0000000000000000000000000000000000000000000000000000000000000000"
  const EVIDENCE_TAG: string := "PONSWARS_EVIDENCE_V1"

  function HealthName(h: FeedHealth): string {
    match h
    case Healthy => "HEALTHY"
    case Degraded => "DEGRADED"
    case Stale => "STALE"
    case Unavailable => "UNAVAILABLE"
  }

  datatype EvidenceTick = EvidenceTick(
    sequence: nat,
    at: int,
    left: SideInputs,
    right: SideInputs,
    leftHealth: FeedHealth,
    rightHealth: FeedHealth,
    leftScore: int,
    rightScore: int)

  function Numbers(side: SideInputs): seq<int> {
    [side.windowReturn, side.volatility, side.relativeVolume, side.qualifiedPonsActivity, side.uniqueActiveWallets,
     side.cardSupport.market, side.cardSupport.volume, side.cardSupport.pons, side.cardSupport.general]
  }

  function Decimals(ns: seq<int>): seq<string> {
    seq(|ns|, i requires 0 <= i < |ns| => Decimal(ns[i]))
  }

  function EncodeSide(side: SideInputs): string {
    Join(Decimals(Numbers(side)), ',')
  }

  function Fields(t: EvidenceTick): seq<string> {
    [Decimal(t.sequence), Decimal(t.at), EncodeSide(t.left), EncodeSide(t.right),
     HealthName(t.leftHealth), HealthName(t.rightHealth), Decimal(t.leftScore), Decimal(t.rightScore)]
  }

  function Payload(t: EvidenceTick): string {
    Join(Fields(t), '|')
  }

  function FoldEvidence(previous: string, t: EvidenceTick, h: Digest): string {
    h(EVIDENCE_TAG + previous + Payload(t))
  }

  /** The digest after a run of ticks. */
  ghost function Chain(ticks: seq<EvidenceTick>, h: Digest): string {
    if ticks == [] then EMPTY_EVIDENCE
    else FoldEvidence(Chain(ticks[..|ticks| - 1], h), ticks[|ticks| - 1], h)
  }

  // ---------------------------------------------------------------------
  // Two different ticks never read the same
  // ---------------------------------------------------------------------

  lemma {:induction false} DecimalsInjective(a: seq<int>, b: seq<int>)
    requires |a| == |b| && Decimals(a) == Decimals(b)
    ensures a == b
  {
    forall i | 0 <= i < |a|
      ensures a[i] == b[i]
    {
      assert Decimals(a)[i] == Decimals(b)[i];
      DecimalInjective(a[i], b[i]);
    }
  }

  lemma EncodeSideInjective(a: SideInputs, b: SideInputs)
    requires EncodeSide(a) == EncodeSide(b)
    ensures a == b
  {
    var m, n := Numbers(a), Numbers(b);
    forall i | 0 <= i < 9
      ensures ',' !in Decimals(m)[i] && ',' !in Decimals(n)[i]
    {
      DecimalHasNo(m[i], ',');
      DecimalHasNo(n[i], ',');
    }
    JoinInjective(Decimals(m), Decimals(n), ',');
    DecimalsInjective(m, n);
    NumbersInjective(a, b);
  }

  lemma NumbersInjective(a: SideInputs, b: SideInputs)
    requires Numbers(a) == Numbers(b)
    ensures a == b
  {
    var m, n := Numbers(a), Numbers(b);
    assert m[0] == n[0] && m[1] == n[1] && m[2] == n[2] && m[3] == n[3] && m[4] == n[4];
    assert m[5] == n[5] && m[6] == n[6] && m[7] == n[7] && m[8] == n[8];
  }

  lemma EncodeSideHasNoBar(side: SideInputs)
    ensures '|' !in EncodeSide(side)
  {
    var n := Numbers(side);
    forall i | 0 <= i < 9
      ensures '|' !in Decimals(n)[i]
    {
      DecimalHasNo(n[i], '|');
    }
    JoinHasNo(Decimals(n), ',', '|');
  }

  lemma FieldsHaveNoBar(t: EvidenceTick)
    ensures forall i | 0 <= i < 8 :: '|' !in Fields(t)[i]
  {
    DecimalHasNo(t.sequence, '|');
    DecimalHasNo(t.at, '|');
    DecimalHasNo(t.leftScore, '|');
    DecimalHasNo(t.rightScore, '|');
    EncodeSideHasNoBar(t.left);
    EncodeSideHasNoBar(t.right);
    hide Decimal, EncodeSide;
  }

  lemma FieldsInjective(a: EvidenceTick, b: EvidenceTick)
    requires Fields(a) == Fields(b)
    ensures a == b
  {
    hide Decimal, EncodeSide;
    var x, y := Fields(a), Fields(b);
    assert x[0] == y[0] && x[1] == y[1] && x[2] == y[2] && x[3] == y[3];
    assert x[4] == y[4] && x[5] == y[5] && x[6] == y[6] && x[7] == y[7];
    DecimalInjective(a.sequence, b.sequence);
    DecimalInjective(a.at, b.at);
    DecimalInjective(a.leftScore, b.leftScore);
    DecimalInjective(a.rightScore, b.rightScore);
    EncodeSideInjective(a.left, b.left);
    EncodeSideInjective(a.right, b.right);
    HealthNamesDiffer(a.leftHealth, b.leftHealth);
    HealthNamesDiffer(a.rightHealth, b.rightHealth);
  }

  lemma HealthNamesDiffer(a: FeedHealth, b: FeedHealth)
    ensures HealthName(a) == HealthName(b) ==> a == b
  {
    assert HealthName(a)[0] == HealthName(b)[0] || HealthName(a) != HealthName(b);
  }

  /** The separators cannot appear inside a field, so the written tick determines the tick. */
  lemma PayloadInjective(a: EvidenceTick, b: EvidenceTick)
    requires Payload(a) == Payload(b)
    ensures a == b
  {
    FieldsHaveNoBar(a);
    FieldsHaveNoBar(b);
    hide Decimal, EncodeSide;
    assert |Fields(a)| == |Fields(b)| == 8;
    JoinInjective(Fields(a), Fields(b), '|');
    FieldsInjective(a, b);
  }

  // ---------------------------------------------------------------------
  // The digest stands for the whole history
  // ---------------------------------------------------------------------

  /** Digests of 64 characters, as SHA-256 in hexadecimal gives. */
  ghost predicate Fixed(h: Digest) {
    forall x :: |h(x)| == 64
  }

  /** What is hashed for the tick at place `k`. */
  ghost function Fed(ticks: seq<EvidenceTick>, k: nat, h: Digest): string
    requires k < |ticks|
  {
    EVIDENCE_TAG + Chain(ticks[..k], h) + Payload(ticks[k])
  }

  /** Two different texts, one hashed for each history, with one hash. */
  ghost predicate CollideAt(a: seq<EvidenceTick>, i: int, b: seq<EvidenceTick>, j: int, h: Digest) {
    && 0 <= i < |a| && 0 <= j < |b|
    && Fed(a, i, h) != Fed(b, j, h) && h(Fed(a, i, h)) == h(Fed(b, j, h))
  }

  /** Hashing the two histories met a collision. */
  ghost predicate Collide(a: seq<EvidenceTick>, b: seq<EvidenceTick>, h: Digest) {
    exists i, j :: CollideAt(a, i, b, j, h)
  }

  ghost predicate Numbered(ticks: seq<EvidenceTick>) {
    forall i | 0 <= i < |ticks| :: ticks[i].sequence == i + 1
  }

  lemma ChainLength(ticks: seq<EvidenceTick>, h: Digest)
    requires Fixed(h)
    ensures |Chain(ticks, h)| == 64
  {
  }

  lemma PartsAgree(a: string, b: string, c: string, d: string)
    requires |a| == |c| && EVIDENCE_TAG + a + b == EVIDENCE_TAG + c + d
    ensures a == c && b == d
  {
    var n := |EVIDENCE_TAG|;
    var x, y := EVIDENCE_TAG + a + b, EVIDENCE_TAG + c + d;
    assert a == x[n..n + |a|] && c == y[n..n + |c|];
    assert b == x[n + |a|..] && d == y[n + |c|..];
  }

  lemma ChainUnfolds(ticks: seq<EvidenceTick>, h: Digest)
    requires ticks != []
    ensures var n := |ticks| - 1; Chain(ticks, h) == h(Fed(ticks, n, h))
  {
  }

  /** The same text was hashed last: the same tick, after the same digest. */
  lemma FedInjective(a: seq<EvidenceTick>, i: nat, b: seq<EvidenceTick>, j: nat, h: Digest)
    requires Fixed(h) && i < |a| && j < |b| && Fed(a, i, h) == Fed(b, j, h)
    ensures Chain(a[..i], h) == Chain(b[..j], h) && a[i] == b[j]
  {
    ChainLength(a[..i], h);
    ChainLength(b[..j], h);
    hide Payload, Chain, Fixed;
    PartsAgree(Chain(a[..i], h), Payload(a[i]), Chain(b[..j], h), Payload(b[j]));
    PayloadInjective(a[i], b[j]);
  }

  lemma FedEarlier(a: seq<EvidenceTick>, n: nat, i: nat, h: Digest)
    requires i < n <= |a|
    ensures Fed(a[..n], i, h) == Fed(a, i, h)
  {
    assert a[..n][..i] == a[..i];
  }

  lemma CollideEarlier(a: seq<EvidenceTick>, m: nat, b: seq<EvidenceTick>, n: nat, h: Digest)
    requires m <= |a| && n <= |b| && Collide(a[..m], b[..n], h)
    ensures Collide(a, b, h)
  {
    hide Fed;
    var i, j :| CollideAt(a[..m], i, b[..n], j, h);
    FedEarlier(a, m, i, h);
    FedEarlier(b, n, j, h);
    assert CollideAt(a, i, b, j, h);
  }

  /** Equal digests over equally many ticks: the same ticks in the same order, or a collision among the texts hashed. */
  lemma {:induction false} SameLengthHistory(a: seq<EvidenceTick>, b: seq<EvidenceTick>, h: Digest)
    requires Fixed(h) && |a| == |b| && Chain(a, h) == Chain(b, h)
    ensures a == b || Collide(a, b, h)
    decreases |a|
  {
    hide Fixed, Chain, Fed, Collide;
    if a != [] {
      var n := |a| - 1;
      ChainUnfolds(a, h);
      ChainUnfolds(b, h);
      if Fed(a, n, h) != Fed(b, n, h) {
        CollidesAt(a, n, b, n, h);
      } else {
        FedInjective(a, n, b, n, h);
        SameLengthHistory(a[..n], b[..n], h);
        if Collide(a[..n], b[..n], h) {
          CollideEarlier(a, n, b, n, h);
        }
        FrontAndLast(a);
        FrontAndLast(b);
      }
    }
  }

  lemma CollidesAt(a: seq<EvidenceTick>, i: nat, b: seq<EvidenceTick>, j: nat, h: Digest)
    requires i < |a| && j < |b| && Fed(a, i, h) != Fed(b, j, h) && h(Fed(a, i, h)) == h(Fed(b, j, h))
    ensures Collide(a, b, h)
  {
    hide Fed;
    assert CollideAt(a, i, b, j, h);
  }

  /**
   Dropping, adding, reordering or altering a tick changes the digest, short of a
   collision: two numbered histories with one digest are one history, or two different
   texts were hashed for them to one value.
  */
  lemma DigestFixesHistory(a: seq<EvidenceTick>, b: seq<EvidenceTick>, h: Digest)
    requires Fixed(h) && Numbered(a) && Numbered(b)
    requires a != [] && b != [] && Chain(a, h) == Chain(b, h)
    ensures a == b || Collide(a, b, h)
  {
    hide Fixed, Chain, Fed, Collide;
    var m, n := |a| - 1, |b| - 1;
    ChainUnfolds(a, h);
    ChainUnfolds(b, h);
    if Fed(a, m, h) != Fed(b, n, h) {
      CollidesAt(a, m, b, n, h);
    } else {
      FedInjective(a, m, b, n, h);
      assert a[m].sequence == b[n].sequence;
      SameLengthHistory(a, b, h);
    }
  }

  /** A digest of 64 characters that tells two given ticks apart. */
  ghost function Telling(t: EvidenceTick): Digest {
    (x: string) => seq(64, _ => if x == EVIDENCE_TAG + EMPTY_EVIDENCE + Payload(t) then '0' else '1')
  }

  /** Collisions are not forced: any two different first ticks have a digest that never collides on them. */
  lemma CollisionsCanBeAbsent(t: EvidenceTick, u: EvidenceTick)
    requires t != u
    ensures Fixed(Telling(t)) && !Collide([t], [u], Telling(t)) && Chain([t], Telling(t)) != Chain([u], Telling(t))
  {
    var h := Telling(t);
    hide Payload;
    if Payload(t) == Payload(u) {
      PayloadInjective(t, u);
    }
    OneTick(t, h);
    OneTick(u, h);
    if EVIDENCE_TAG + EMPTY_EVIDENCE + Payload(t) == EVIDENCE_TAG + EMPTY_EVIDENCE + Payload(u) {
      PartsAgree(EMPTY_EVIDENCE, Payload(t), EMPTY_EVIDENCE, Payload(u));
    }
    hide Chain;
    assert h(Fed([t], 0, h))[0] == '0' && h(Fed([u], 0, h))[0] == '1';
  }

  lemma OneTick(t: EvidenceTick, h: Digest)
    ensures Fed([t], 0, h) == EVIDENCE_TAG + EMPTY_EVIDENCE + Payload(t)
    ensures Chain([t], h) == h(Fed([t], 0, h))
  {
    assert [t][..0] == [];
  }
}
