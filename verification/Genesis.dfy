/** What a Genesis request is and what it resolves to. */
module Genesis {
  import opened Cards
  import opened Wrappers
  import Prng

  // packages/shared-types/src/genesis.ts, packages/battle-math/src/genesis-rng.ts,
  // packages/genesis-service/src/genesis-service.ts and memory.ts.

  type Wallet = string
  type Tx = nat

  // ---------------------------------------------------------------------
  // Slots and rarities
  // ---------------------------------------------------------------------

  const SLOTS: nat := 1_000_000
  const SLOTS_PER_BASIS_POINT: nat := 100
  const RARITIES: seq<Rarity> := [Common, Uncommon, Rare, Epic, Legendary, Secret]

  function Rate(r: Rarity, secretAvailable: bool): nat {
    match r
    case Common => 5_000
    case Uncommon => 2_800
    case Rare => 1_400
    case Epic => 600
    case Legendary => if secretAvailable then 190 else 200
    case Secret => if secretAvailable then 10 else 0
  }

  /** Where the contiguous range of the `k`-th rarity starts. */
  function Start(k: nat, secretAvailable: bool): nat
    requires k <= |RARITIES|
  {
    if k == 0 then 0 else Start(k - 1, secretAvailable) + Rate(RARITIES[k - 1], secretAvailable) * SLOTS_PER_BASIS_POINT
  }

  /** The first rarity, from the `k`-th on, whose range holds `slot`. */
  function Lookup(slot: nat, k: nat, secretAvailable: bool): Option<Rarity>
    requires k <= |RARITIES|
    decreases |RARITIES| - k
  {
    if k == |RARITIES| then None
    else if Start(k, secretAvailable) <= slot < Start(k + 1, secretAvailable) then Some(RARITIES[k])
    else Lookup(slot, k + 1, secretAvailable)
  }

  function RarityForSlot(slot: nat, secretAvailable: bool): Option<Rarity> {
    if slot >= SLOTS then None else Lookup(slot, 0, secretAvailable)
  }

  lemma Starts(secretAvailable: bool)
    ensures Start(0, secretAvailable) == 0
    ensures Start(1, secretAvailable) == 500_000
    ensures Start(2, secretAvailable) == 780_000
    ensures Start(3, secretAvailable) == 920_000
    ensures Start(4, secretAvailable) == 980_000
    ensures Start(5, secretAvailable) == if secretAvailable then 999_000 else SLOTS
    ensures Start(6, secretAvailable) == SLOTS
  {
    assert Start(1, secretAvailable) == 500_000;
    assert Start(2, secretAvailable) == 780_000;
    assert Start(3, secretAvailable) == 920_000;
    assert Start(4, secretAvailable) == 980_000;
    assert Start(5, secretAvailable) == if secretAvailable then 999_000 else SLOTS;
  }

  lemma {:induction false} LookupFinds(slot: nat, j: nat, k: nat, secretAvailable: bool)
    requires j <= k < |RARITIES|
    requires Start(k, secretAvailable) <= slot < Start(k + 1, secretAvailable)
    requires forall i: nat | j < i <= k :: Start(i, secretAvailable) <= slot
    ensures Lookup(slot, j, secretAvailable) == Some(RARITIES[k])
    decreases k - j
  {
    if j < k {
      LookupFinds(slot, j + 1, k, secretAvailable);
    }
  }

  /** The tables cover every slot in bands of the published rates, and differ only in the secret band, which falls to Legendary. */
  lemma SlotTables(slot: nat)
    requires slot < SLOTS
    ensures var funded, disabled := RarityForSlot(slot, true), RarityForSlot(slot, false);
            && funded.Some? && disabled.Some?
            && (funded.value == Common <==> slot < 500_000)
            && (funded.value == Uncommon <==> 500_000 <= slot < 780_000)
            && (funded.value == Rare <==> 780_000 <= slot < 920_000)
            && (funded.value == Epic <==> 920_000 <= slot < 980_000)
            && (funded.value == Legendary <==> 980_000 <= slot < 999_000)
            && (funded.value == Secret <==> 999_000 <= slot)
            && disabled.value == if funded.value == Secret then Legendary else funded.value
  {
    Starts(true);
    Starts(false);
    hide Lookup, Start;
    var k: nat := if slot < 500_000 then 0 else if slot < 780_000 then 1 else if slot < 920_000 then 2 else if slot < 980_000 then 3 else if slot < 999_000 then 4 else 5;
    LookupFinds(slot, 0, k, true);
    LookupFinds(slot, 0, if k == 5 then 4 else k, false);
  }

  // ---------------------------------------------------------------------
  // Resolution
  // ---------------------------------------------------------------------

  /** The two seeded draws: the slot, and the card within a rarity. The request id is the wallet's own. */
  datatype Draws = Draws(slot: (string, Wallet) -> nat, card: (string, Wallet, nat) -> nat)

  /** The draws are in range, as `nextBelow` draws them. */
  ghost predicate InRange(d: Draws) {
    && (forall hash, w :: d.slot(hash, w) < SLOTS)
    && (forall hash, w, n: nat :: n > 0 ==> d.card(hash, w, n) < n)
  }

  datatype Genesis = Genesis(slot: nat, rarity: Rarity, card: CardType, secretAvailable: bool)

  function ResolveGenesis(d: Draws, hash: string, w: Wallet, secretAvailable: bool): Genesis {
    var slot := d.slot(hash, w);
    var found := RarityForSlot(slot, secretAvailable);
    var rarity := if found.Some? then found.value else Common;
    var cards := CardsOfRarity(rarity);
    var pick := d.card(hash, w, |cards|);
    Genesis(slot, rarity, if pick < |cards| then cards[pick] else cards[0], secretAvailable)
  }

  /** The draw lies in the secret band. */
  predicate DrawsSecret(d: Draws, hash: string, w: Wallet) {
    ResolveGenesis(d, hash, w, true).rarity == Secret
  }

  /** A resolution is fixed by block, wallet and table; only a secret draw depends on the table. */
  lemma TablesAgree(d: Draws, hash: string, w: Wallet)
    requires InRange(d)
    ensures var funded, disabled := ResolveGenesis(d, hash, w, true), ResolveGenesis(d, hash, w, false);
            && RarityOf(funded.card) == funded.rarity && RarityOf(disabled.card) == disabled.rarity
            && disabled.rarity != Secret
            && (DrawsSecret(d, hash, w) ==> disabled.rarity == Legendary)
            && (!DrawsSecret(d, hash, w) ==> disabled == funded.(secretAvailable := false))
  {
    assert d.slot(hash, w) < SLOTS;
    SlotTables(d.slot(hash, w));
    CardHasRarity(d, hash, w, true);
    CardHasRarity(d, hash, w, false);
    hide RarityForSlot, CardsOfRarity, RarityOf;
  }

  lemma CardHasRarity(d: Draws, hash: string, w: Wallet, secretAvailable: bool)
    ensures var r := ResolveGenesis(d, hash, w, secretAvailable); RarityOf(r.card) == r.rarity
  {
    hide RarityForSlot;
    var r := ResolveGenesis(d, hash, w, secretAvailable);
    assert r.card in CardsOfRarity(r.rarity);
  }

  // ---------------------------------------------------------------------
  // Which card a draw deals
  // ---------------------------------------------------------------------

  /** The card two draws deal, whatever they were drawn for. */
  function Dealt(slot: nat, pick: nat, secretAvailable: bool): CardType {
    ResolveGenesis(Draws((hash, w) => slot, (hash, w, n) => pick), "", "", secretAvailable).card
  }

  /** Nothing else enters: the card is the one dealt by the slot drawn and the draw below the rarity's number of cards. */
  lemma CardIsDealt(d: Draws, hash: string, w: Wallet, secretAvailable: bool)
    requires InRange(d)
    ensures var r := ResolveGenesis(d, hash, w, secretAvailable);
            && Some(r.rarity) == RarityForSlot(d.slot(hash, w), secretAvailable)
            && r.card == Dealt(d.slot(hash, w), d.card(hash, w, CountOf(r.rarity)), secretAvailable)
  {
    assert d.slot(hash, w) < SLOTS;
    SlotTables(d.slot(hash, w));
    CountOfIs(ResolveGenesis(d, hash, w, secretAvailable).rarity);
    hide RarityForSlot, CardsOfRarity, CountOf;
  }

  lemma DealtIs(slot: nat, pick: nat, secretAvailable: bool, rarity: Rarity)
    requires RarityForSlot(slot, secretAvailable) == Some(rarity) && slot < SLOTS && pick < CountOf(rarity)
    ensures CountOf(rarity) == |CardsOfRarity(rarity)| && Dealt(slot, pick, secretAvailable) == CardsOfRarity(rarity)[pick]
  {
    CountOfIs(rarity);
    hide RarityForSlot, CardsOfRarity, CountOf;
  }

  /** Later draws deal later cards of the catalog. */
  lemma DealtInOrder(slot: nat, i: nat, j: nat, secretAvailable: bool, rarity: Rarity)
    requires RarityForSlot(slot, secretAvailable) == Some(rarity) && slot < SLOTS && i < j < CountOf(rarity)
    ensures Place(Dealt(slot, i, secretAvailable)) < Place(Dealt(slot, j, secretAvailable))
  {
    DealtIs(slot, i, secretAvailable, rarity);
    DealtIs(slot, j, secretAvailable, rarity);
    InCatalogOrder(rarity, i, j);
  }

  /** Each card of the drawn rarity is dealt by one draw and no other. */
  lemma OneDrawDealsEach(slot: nat, c: CardType, secretAvailable: bool) returns (pick: nat)
    requires slot < SLOTS && RarityForSlot(slot, secretAvailable) == Some(RarityOf(c))
    ensures pick < CountOf(RarityOf(c))
    ensures forall k: nat | k < CountOf(RarityOf(c)) :: Dealt(slot, k, secretAvailable) == c <==> k == pick
  {
    var rarity := RarityOf(c);
    CountOfIs(rarity);
    assert c in CardsOfRarity(rarity);
    pick :| pick < |CardsOfRarity(rarity)| && CardsOfRarity(rarity)[pick] == c;
    hide Dealt, RarityForSlot, CardsOfRarity, CountOf;
    DealtIs(slot, pick, secretAvailable, rarity);
    forall k: nat | k < CountOf(rarity) && k != pick
      ensures Dealt(slot, k, secretAvailable) != c
    {
      if k < pick {
        DealtInOrder(slot, k, pick, secretAvailable, rarity);
      } else {
        DealtInOrder(slot, pick, k, secretAvailable, rarity);
      }
    }
  }

  /** The accepted words whose draw deals the card. */
  ghost function WordsDealing(slot: nat, c: CardType, secretAvailable: bool): set<nat>
    requires CountOf(RarityOf(c)) > 0
  {
    var n := CountOf(RarityOf(c));
    set word: nat | 0 <= word < Prng.Limit(n) && Dealt(slot, word % n, secretAvailable) == c
  }

  /** Every card of the drawn rarity is dealt by equally many of the words the generator can draw. */
  lemma CardsAreEven(slot: nat, c: CardType, secretAvailable: bool)
    requires slot < SLOTS && RarityForSlot(slot, secretAvailable) == Some(RarityOf(c))
    ensures CountOf(RarityOf(c)) > 0 && |WordsDealing(slot, c, secretAvailable)| == Prng.RANGE / CountOf(RarityOf(c))
  {
    var n := CountOf(RarityOf(c));
    var pick := OneDrawDealsEach(slot, c, secretAvailable);
    Prng.RejectionIsUniform(n, pick);
    hide Dealt, RarityForSlot, CountOf, RarityOf, Prng.Limit;
    forall word: nat
      ensures word in WordsDealing(slot, c, secretAvailable) <==> word in Prng.Residues(n, pick)
    {
      assert word % n < n;
    }
    assert WordsDealing(slot, c, secretAvailable) == Prng.Residues(n, pick);
  }

  // ---------------------------------------------------------------------
  // Requests and claims
  // ---------------------------------------------------------------------

  datatype RequestState = Pending | Committed | Finalized | Failed

  datatype Request = Request(wallet: Wallet, state: RequestState, target: nat, hash: Option<string>)

  datatype Claim = Claim(number: nat, wallet: Wallet, block: nat, hash: string, card: Genesis, uses: nat, reservation: Option<Tx>)

  datatype Stored = Stored(request: Request, claim: Option<Claim>)

  datatype Resolved = Resolved(request: Request, card: Genesis)

  function OpenRequest(w: Wallet, target: nat): Result<Request, string> {
    if target == 0 then Err("RangeError") else Ok(Request(w, Pending, target, None))
  }

  function CommitEntropy(r: Request, number: nat, hash: string): Result<Request, string> {
    if r.state != Pending then Err("wrong state")
    else if r.hash.Some? then Err("already has entropy")
    else if number != r.target then Err("bound to another block")
    else Ok(r.(state := Committed, hash := Some(hash)))
  }

  function ResolveRequest(d: Draws, r: Request, secretAvailable: bool): Result<Resolved, string> {
    if r.state != Committed || r.hash.None? then Err("not committed")
    else Ok(Resolved(r, ResolveGenesis(d, r.hash.value, r.wallet, secretAvailable)))
  }

  datatype Revealed = Revealable(request: Request, card: Genesis, reservation: Option<Tx>) | ReservationFailed

  function FinalizeGenesis(r: Resolved, reservation: Option<Tx>): Result<Revealed, string> {
    if r.card.rarity != Secret && reservation.Some? then Err("RangeError")
    else if r.card.rarity == Secret && reservation.None? then Ok(ReservationFailed)
    else Ok(Revealable(r.request.(state := Finalized), r.card, reservation))
  }

  // ---------------------------------------------------------------------
  // The store
  // ---------------------------------------------------------------------

  type Records = map<Wallet, Stored>

  function OpenIn(records: Records, r: Request): (Records, Request) {
    if r.wallet in records then (records, records[r.wallet].request)
    else (records[r.wallet := Stored(r, None)], r)
  }

  function CommitIn(records: Records, r: Request): Result<Records, string> {
    if r.wallet !in records || records[r.wallet].request.state != Pending then Err("No pending request")
    else Ok(records[r.wallet := Stored(r, None)])
  }

  function ClaimFor(number: nat, r: Request, card: Genesis, reservation: Option<Tx>): Claim
    requires r.hash.Some?
  {
    Claim(number, r.wallet, r.target, r.hash.value, card, UsesOf(RarityOf(card.card)), reservation)
  }

  /** The records, the next number and the claim that stands, after a result is recorded. */
  function RecordIn(records: Records, next: nat, r: Request, card: Genesis,
      reservation: Option<Tx>): Result<(Records, nat, Claim), string> {
    if r.wallet !in records then Err("No request")
    else if records[r.wallet].claim.Some? then Ok((records, next, records[r.wallet].claim.value))
    else if r.hash.None? then Err("A claim needs committed entropy")
    else
      var claim := ClaimFor(next, r, card, reservation);
      Ok((records[r.wallet := Stored(r, Some(claim))], next + 1, claim))
  }

  class MemoryGenesisRepository {
    var records: Records
    var nextNumber: nat

    constructor ()
      ensures records == map[] && nextNumber == 1
    {
      records, nextNumber := map[], 1;
    }

    method Find(w: Wallet) returns (found: Option<Stored>)
      ensures found == if w in records then Some(records[w]) else None
    {
      found := if w in records then Some(records[w]) else None;
    }

    /** Writes a first request; the first target block stands. */
    method Open(r: Request) returns (stands: Request)
      modifies this`records
      ensures (records, stands) == OpenIn(old(records), r)
    {
      if r.wallet in records {
        return records[r.wallet].request;
      }
      records := records[r.wallet := Stored(r, None)];
      return r;
    }

    method Commit(r: Request) returns (done: bool)
      modifies this`records
      ensures done == CommitIn(old(records), r).Ok?
      ensures records == if done then CommitIn(old(records), r).value else old(records)
    {
      if r.wallet !in records || records[r.wallet].request.state != Pending {
        return false;
      }
      records := records[r.wallet := Stored(r, None)];
      return true;
    }

    /** Records a result once; a second call returns the first claim. */
    method Record(r: Request, card: Genesis, reservation: Option<Tx>) returns (claim: Result<Claim, string>)
      modifies this
      ensures var o := RecordIn(old(records), old(nextNumber), r, card, reservation);
              && (claim.Ok? <==> o.Ok?)
              && (o.Ok? ==> (records, nextNumber, claim.value) == o.value)
              && (o.Err? ==> records == old(records) && nextNumber == old(nextNumber))
    {
      if r.wallet !in records {
        return Err("No request");
      }
      if records[r.wallet].claim.Some? {
        return Ok(records[r.wallet].claim.value);
      }
      if r.hash.None? {
        return Err("A claim needs committed entropy");
      }
      var number := nextNumber;
      nextNumber := nextNumber + 1;
      var made := ClaimFor(number, r, card, reservation);
      records := records[r.wallet := Stored(r, Some(made))];
      return Ok(made);
    }
  }
}
