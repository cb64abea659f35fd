/**
 The card pool, packages/shared-types/src/cards.ts.
 */
module Cards {
  import opened Scoring

  datatype CardType =
    | Reinforcement | MarketSignal | SupplyDrop
    | HeavyReinforcement | VolumeBooster | MarketAmplifier
    | BullRun | LiquidityWave | PonsSurge
    | WarMachine | TripleEngine
    | GoldenArmy | MarketDominance
    | SecretStockDrop

  /** What a card gives, in tenths of a support unit. */
  function SupportOf(card: CardType): CardSupport {
    match card
    case Reinforcement => CardSupport(0, 0, 0, 10)
    case MarketSignal => CardSupport(10, 0, 0, 0)
    case SupplyDrop => CardSupport(0, 0, 10, 0)
    case HeavyReinforcement => CardSupport(0, 0, 0, 15)
    case VolumeBooster => CardSupport(0, 15, 0, 0)
    case MarketAmplifier => CardSupport(15, 0, 0, 0)
    case BullRun => CardSupport(20, 0, 0, 0)
    case LiquidityWave => CardSupport(0, 20, 0, 0)
    case PonsSurge => CardSupport(0, 0, 20, 0)
    case WarMachine => CardSupport(0, 0, 0, 30)
    case TripleEngine => CardSupport(15, 15, 15, 0)
    case GoldenArmy => CardSupport(0, 0, 0, 50)
    case MarketDominance => CardSupport(25, 25, 25, 0)
    case SecretStockDrop => CardSupport(0, 0, 0, 0)
  }

  datatype Rarity = Common | Uncommon | Rare | Epic | Legendary | Secret

  function RarityOf(card: CardType): Rarity {
    match card
    case Reinforcement => Common
    case MarketSignal => Common
    case SupplyDrop => Common
    case HeavyReinforcement => Uncommon
    case VolumeBooster => Uncommon
    case MarketAmplifier => Uncommon
    case BullRun => Rare
    case LiquidityWave => Rare
    case PonsSurge => Rare
    case WarMachine => Epic
    case TripleEngine => Epic
    case GoldenArmy => Legendary
    case MarketDominance => Legendary
    case SecretStockDrop => Secret
  }

  const CATALOG: seq<CardType> := [
    Reinforcement, MarketSignal, SupplyDrop,
    HeavyReinforcement, VolumeBooster, MarketAmplifier,
    BullRun, LiquidityWave, PonsSurge,
    WarMachine, TripleEngine,
    GoldenArmy, MarketDominance,
    SecretStockDrop]

  /** The cards of a rarity, in catalog order. */
  function CardsOfRarity(rarity: Rarity): (cards: seq<CardType>)
    ensures cards != [] && forall c :: c in cards <==> RarityOf(c) == rarity
  {
    match rarity
    case Common => [Reinforcement, MarketSignal, SupplyDrop]
    case Uncommon => [HeavyReinforcement, VolumeBooster, MarketAmplifier]
    case Rare => [BullRun, LiquidityWave, PonsSurge]
    case Epic => [WarMachine, TripleEngine]
    case Legendary => [GoldenArmy, MarketDominance]
    case Secret => [SecretStockDrop]
  }

  /** Where a card stands in the catalog. */
  function Place(c: CardType): (i: nat)
    ensures i < |CATALOG| && CATALOG[i] == c
  {
    match c
    case Reinforcement => 0
    case MarketSignal => 1
    case SupplyDrop => 2
    case HeavyReinforcement => 3
    case VolumeBooster => 4
    case MarketAmplifier => 5
    case BullRun => 6
    case LiquidityWave => 7
    case PonsSurge => 8
    case WarMachine => 9
    case TripleEngine => 10
    case GoldenArmy => 11
    case MarketDominance => 12
    case SecretStockDrop => 13
  }

  /** No card is listed twice, and a rarity's cards stand in the catalog's order. */
  lemma InCatalogOrder(rarity: Rarity, i: nat, j: nat)
    requires i < j < |CardsOfRarity(rarity)|
    ensures Place(CardsOfRarity(rarity)[i]) < Place(CardsOfRarity(rarity)[j])
  {
  }

  /** How many cards a rarity has. */
  ghost function CountOf(rarity: Rarity): nat {
    |set c: CardType | RarityOf(c) == rarity|
  }

  lemma CountOfIs(rarity: Rarity)
    ensures CountOf(rarity) == |CardsOfRarity(rarity)|
  {
    hide CardsOfRarity, Place;
    var cards := CardsOfRarity(rarity);
    assert (set c: CardType | RarityOf(c) == rarity) == set c | c in cards;
    forall i, j | 0 <= i < j < |cards|
      ensures cards[i] != cards[j]
    {
      InCatalogOrder(rarity, i, j);
    }
    DistinctSize(cards);
  }

  lemma {:induction false} DistinctSize(cards: seq<CardType>)
    requires forall i, j | 0 <= i < j < |cards| :: cards[i] != cards[j]
    ensures |set c | c in cards| == |cards|
  {
    if cards != [] {
      var n := |cards| - 1;
      DistinctSize(cards[..n]);
      assert (set c | c in cards) == (set c | c in cards[..n]) + {cards[n]};
      assert forall i | 0 <= i < n :: cards[..n][i] == cards[i] != cards[n];
    }
  }

  /** How many charges a card of a rarity carries. */
  function UsesOf(rarity: Rarity): nat {
    match rarity
    case Common => 20
    case Uncommon => 15
    case Rare => 10
    case Epic => 5
    case Legendary => 3
    case Secret => 1
  }
}
