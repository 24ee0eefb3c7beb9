/** The marketplace service: listing creation, credit purchase, pool creation,
    staking and the daily reward. Each operation that can fail returns either an
    error or the new state together with the transaction it records. The HBAR
    transfer and topic creation calls are outside this module: their outcomes (an
    id, or a thrown exception) are parameters, and `now` stands for the clock. */
module Marketplace {
  import opened Types
  import opened Outcomes
  import Numerals

  // ---------------------------------------------------------------------------
  // Listings
  // ---------------------------------------------------------------------------

  /** The description of a listing for a credit of type `t` and vintage `year`. */
  function ListingDescription(t: CreditType, year: int): string
  {
    CreditTypeName(t) + " credits from " + Numerals.IntText(year)
  }

  /** A new active listing, sold by the credit's owner at `price` HBAR per credit;
      the minimum purchase defaults to one credit when not given. */
  function CreateListing(credit: EnvironmentalCredit, price: real, quantity: int,
                         minPurchase: Option<int>, now: nat): (listing: MarketplaceListing)
    ensures listing.active && listing.currency == HBAR
    ensures listing.creditId == credit.id && listing.sellerId == credit.owner
    ensures listing.price == price && listing.quantity == quantity
    ensures listing.minPurchase == (if minPurchase.Some? then minPurchase.value else 1)
    ensures listing.description == ListingDescription(credit.kind, credit.vintageYear)
    ensures listing.createdAt == now && listing.expiresAt.None?
  {
    MarketplaceListing(
      "listing-" + Numerals.Decimal(now), credit.id, credit.owner, price, HBAR, quantity,
      minPurchase.GetOr(1), ListingDescription(credit.kind, credit.vintageYear), true, now, None)
  }

  /** The description names the credit type and the vintage unambiguously: two
      listings with the same description come from credits of one type and year. */
  lemma DescriptionIdentifiesCredit(t1: CreditType, y1: int, t2: CreditType, y2: int)
    ensures ListingDescription(t1, y1) == ListingDescription(t2, y2) ==> t1 == t2 && y1 == y2
  {
    var d1, d2 := ListingDescription(t1, y1), ListingDescription(t2, y2);
    if d1 == d2 {
      assert d1[0] == CreditTypeName(t1)[0] && d2[0] == CreditTypeName(t2)[0];
      assert t1 == t2;
      var k := |CreditTypeName(t1) + " credits from "|;
      assert Numerals.IntText(y1) == d1[k..] == d2[k..] == Numerals.IntText(y2);
      Numerals.IntTextInjective(y1, y2);
    }
  }

  // ---------------------------------------------------------------------------
  // Purchase
  // ---------------------------------------------------------------------------

  datatype PurchaseError =
    | ListingNotFound
    | BelowMinimumPurchase(minimum: int)
    | InsufficientCredits
    | TransferFailed
  {
    /** The message of a failed check; a failed transfer passes on the Hedera
        client's own exception, whose text is not modelled. */
    function Message(): string
      requires !TransferFailed?
    {
      match this
      case ListingNotFound => "Listing not found"
      case BelowMinimumPurchase(m) => "Minimum purchase is " + Numerals.IntText(m) + " credits"
      case InsufficientCredits => "Insufficient credits available"
    }
  }

  datatype PurchaseReceipt = PurchaseReceipt(listing: MarketplaceListing, transaction: Transaction)

  /** The listing after `quantity` credits are taken from it: the quantity drops,
      and the listing is deactivated when none remain. */
  function TakeCredits(listing: MarketplaceListing, quantity: int): (after: MarketplaceListing)
    ensures after.quantity == listing.quantity - quantity
    ensures after.active == (listing.active && after.quantity != 0)
    ensures after == listing.(quantity := after.quantity, active := after.active)
  {
    var remaining := listing.quantity - quantity;
    listing.(quantity := remaining, active := if remaining == 0 then false else listing.active)
  }

  /** Buys `quantity` credits from the listing the lookup returned, if any. The
      checks run in order: the listing exists, the quantity reaches the minimum,
      the quantity is available. Whether the listing is still active is not checked.
      `transfer` is the outcome of the HBAR transfer to the seller: its transaction
      id, or an exception, which fails the purchase before the stock is touched. */
  function PurchaseCredits(found: Option<MarketplaceListing>, buyerId: string, quantity: int,
                           transfer: Call<string>, now: nat): (r: Result<PurchaseReceipt, PurchaseError>)
    ensures found.None? ==> r == Err(ListingNotFound)
    ensures found.Some? && quantity < found.value.minPurchase
            ==> r == Err(BelowMinimumPurchase(found.value.minPurchase))
    ensures found.Some? && found.value.minPurchase <= quantity && quantity > found.value.quantity
            ==> r == Err(InsufficientCredits)
    ensures found.Some? && found.value.minPurchase <= quantity <= found.value.quantity && transfer.Threw?
            ==> r == Err(TransferFailed)
    ensures r.Ok? <==> found.Some? && found.value.minPurchase <= quantity <= found.value.quantity && transfer.Returned?
    ensures r.Ok? ==> var l, tx := found.value, r.value.transaction;
      && tx.kind == CreditPurchase && tx.from == buyerId && tx.to == l.sellerId
      && tx.amount == l.price * quantity as real && tx.currency == HBAR
      && tx.creditId == Some(l.creditId) && tx.poolId.None? && tx.status == TxCompleted
      && tx.hederaTxId == transfer.value && tx.timestamp == now
    ensures r.Ok? ==> r.value.listing == TakeCredits(found.value, quantity) && r.value.listing.quantity >= 0
  {
    if found.None? then Err(ListingNotFound)
    else
      var listing := found.value;
      if quantity < listing.minPurchase then Err(BelowMinimumPurchase(listing.minPurchase))
      else if quantity > listing.quantity then Err(InsufficientCredits)
      else
        var total := listing.price * quantity as real;
        match transfer
        case Threw => Err(TransferFailed)
        case Returned(hederaTxId) =>
          var tx := Transaction("tx-" + Numerals.Decimal(now), CreditPurchase, buyerId, listing.sellerId,
                                total, HBAR, Some(listing.creditId), None, now, hederaTxId, TxCompleted);
          Ok(PurchaseReceipt(TakeCredits(listing, quantity), tx))
  }

  /** Purchases of `quantities` made one after another on one listing, each paid by
      a transfer that goes through; stops at the first failure. */
  function PurchaseSequence(listing: MarketplaceListing, buyerId: string, quantities: seq<int>,
                            hederaTxId: string, now: nat): Result<MarketplaceListing, PurchaseError>
    decreases |quantities|
  {
    if |quantities| == 0 then Ok(listing)
    else
      match PurchaseCredits(Some(listing), buyerId, quantities[0], Returned(hederaTxId), now)
      case Err(e) => Err(e)
      case Ok(p) => PurchaseSequence(p.listing, buyerId, quantities[1..], hederaTxId, now)
  }

  function Sum(xs: seq<int>): int
  {
    if |xs| == 0 then 0 else xs[0] + Sum(xs[1..])
  }

  /** Credits are conserved over a run of purchases: what remains plus what was bought
      is what was listed. A deactivated listing stays inactive, every other field is
      unchanged, and the quantity never goes below zero. */
  lemma {:induction false} PurchasesConserveCredits(listing: MarketplaceListing, buyerId: string,
                                                    quantities: seq<int>, hederaTxId: string, now: nat)
    requires listing.quantity >= 0
    ensures var r := PurchaseSequence(listing, buyerId, quantities, hederaTxId, now);
      r.Ok? ==>
        && r.value.quantity + Sum(quantities) == listing.quantity
        && r.value.quantity >= 0
        && (r.value.active ==> listing.active)
        && r.value == listing.(quantity := r.value.quantity, active := r.value.active)
    decreases |quantities|
  {
    if |quantities| > 0 {
      var p := PurchaseCredits(Some(listing), buyerId, quantities[0], Returned(hederaTxId), now);
      if p.Ok? {
        PurchasesConserveCredits(p.value.listing, buyerId, quantities[1..], hederaTxId, now);
      }
    }
  }

  /** A listing that sells out is deactivated, and no later purchase of a positive
      quantity from it succeeds. */
  lemma SoldOutListing(listing: MarketplaceListing, buyerId: string, hederaTxId: string, now: nat,
                       quantity: int)
    requires listing.quantity >= 0 && listing.minPurchase <= listing.quantity
    requires quantity > 0
    ensures var r := PurchaseCredits(Some(listing), buyerId, listing.quantity, Returned(hederaTxId), now);
      r.Ok? && !r.value.listing.active && r.value.listing.quantity == 0
      && PurchaseCredits(Some(r.value.listing), buyerId, quantity, Returned(hederaTxId), now).Err?
  {
  }

  // ---------------------------------------------------------------------------
  // Pools
  // ---------------------------------------------------------------------------

  /** A new, empty, active pool paying `targetApy` percent a year. `topic` is the
      outcome of creating the pool's update topic: its id, which is only logged, or
      an exception, which fails the creation. */
  function CreateReFiPool(name: string, description: string, targetZones: seq<string>,
                          minimumStake: real, lockPeriod: int, targetApy: real, topic: Call<string>,
                          now: nat): (r: Option<ReFiPool>)
    ensures r.Some? <==> topic.Returned?
    ensures r.Some? ==> var pool := r.value;
      && pool.totalStaked == 0.0 && pool.participants == 0 && pool.status == PoolActive
      && pool.impactMetrics == ImpactMetrics(0.0, 0.0, 0.0)
      && pool.apy == targetApy && pool.minimumStake == minimumStake && pool.lockPeriod == lockPeriod
      && pool.name == name && pool.description == description && pool.targetZones == targetZones
  {
    match topic
    case Threw => None
    case Returned(_) =>
      Some(ReFiPool("pool-" + Numerals.Decimal(now), name, description, targetZones, 0.0, targetApy,
                    minimumStake, lockPeriod, ImpactMetrics(0.0, 0.0, 0.0), 0, PoolActive))
  }

  /** Why a stake (or a reward payout) was refused: "Pool not found", "Minimum stake
      is <minimum> HBAR", "Pool is not accepting new stakes". */
  datatype StakeError =
    | PoolNotFound
    | BelowMinimumStake(minimum: real)
    | PoolNotAccepting

  datatype StakeReceipt = StakeReceipt(pool: ReFiPool, transaction: Transaction)

  /** Stakes `amount` HBAR in the pool the lookup of `poolId` returned, if any. The
      minimum is checked before the pool's status. */
  function StakeInPool(poolId: string, found: Option<ReFiPool>, stakerId: string, amount: real,
                       now: nat): (r: Result<StakeReceipt, StakeError>)
    ensures found.None? ==> r == Err(PoolNotFound)
    ensures found.Some? && amount < found.value.minimumStake
            ==> r == Err(BelowMinimumStake(found.value.minimumStake))
    ensures found.Some? && amount >= found.value.minimumStake && found.value.status != PoolActive
            ==> r == Err(PoolNotAccepting)
    ensures r.Ok? <==> found.Some? && amount >= found.value.minimumStake && found.value.status == PoolActive
    ensures r.Ok? ==> var p, tx := found.value, r.value.transaction;
      && r.value.pool == p.(totalStaked := p.totalStaked + amount, participants := p.participants + 1)
      && tx.kind == Stake && tx.from == stakerId && tx.to == poolId && tx.amount == amount
      && tx.poolId == Some(poolId) && tx.creditId.None? && tx.status == TxCompleted
  {
    if found.None? then Err(PoolNotFound)
    else
      var pool := found.value;
      if amount < pool.minimumStake then Err(BelowMinimumStake(pool.minimumStake))
      else if pool.status != PoolActive then Err(PoolNotAccepting)
      else
        var stamp := Numerals.Decimal(now);
        var tx := Transaction("tx-" + stamp, Stake, stakerId, poolId, amount, HBAR, None, Some(poolId),
                              now, "simulated-" + stamp, TxCompleted);
        Ok(StakeReceipt(pool.(totalStaked := pool.totalStaked + amount, participants := pool.participants + 1), tx))
  }

  /** Stakes of `amounts` by one staker, one after another; stops at the first failure. */
  function StakeSequence(poolId: string, pool: ReFiPool, stakerId: string, amounts: seq<real>, now: nat)
    : Result<ReFiPool, StakeError>
    decreases |amounts|
  {
    if |amounts| == 0 then Ok(pool)
    else
      match StakeInPool(poolId, Some(pool), stakerId, amounts[0], now)
      case Err(e) => Err(e)
      case Ok(s) => StakeSequence(poolId, s.pool, stakerId, amounts[1..], now)
  }

  function RealSum(xs: seq<real>): real
  {
    if |xs| == 0 then 0.0 else xs[0] + RealSum(xs[1..])
  }

  /** The pool accounts for every stake: its total grows by the sum staked and its
      participant count by the number of stakes. */
  lemma {:induction false} StakesAccumulate(poolId: string, pool: ReFiPool, stakerId: string,
                                            amounts: seq<real>, now: nat)
    ensures var r := StakeSequence(poolId, pool, stakerId, amounts, now);
      r.Ok? ==>
        && r.value.totalStaked == pool.totalStaked + RealSum(amounts)
        && r.value.participants == pool.participants + |amounts|
        && r.value == pool.(totalStaked := r.value.totalStaked, participants := r.value.participants)
    decreases |amounts|
  {
    if |amounts| > 0 {
      var s := StakeInPool(poolId, Some(pool), stakerId, amounts[0], now);
      if s.Ok? {
        StakesAccumulate(poolId, s.value.pool, stakerId, amounts[1..], now);
      }
    }
  }

  /** A fresh pool accepts any stake of at least its minimum. */
  lemma FreshPoolAcceptsMinimum(name: string, description: string, targetZones: seq<string>,
                                minimumStake: real, lockPeriod: int, targetApy: real, topicId: string,
                                now: nat, stakerId: string, amount: real)
    requires amount >= minimumStake
    ensures var pool := CreateReFiPool(name, description, targetZones, minimumStake, lockPeriod, targetApy,
                                       Returned(topicId), now).value;
      var r := StakeInPool(pool.id, Some(pool), stakerId, amount, now);
      r.Ok? && r.value.pool.totalStaked == amount && r.value.pool.participants == 1
  {
  }

  // ---------------------------------------------------------------------------
  // Rewards
  // ---------------------------------------------------------------------------

  /** One day of rewards: the pool's stake times its yearly percentage over 365 days. */
  function DailyReward(pool: ReFiPool): real
  {
    pool.totalStaked * (pool.apy / 365.0 / 100.0)
  }

  /** The reward payout for the pool `poolId` resolved to, if any: a single completed
      transaction from the pool to its participants. The random growth of the impact
      metrics is not part of this model. */
  function DistributeRewards(poolId: string, found: Option<ReFiPool>, now: nat)
    : (r: Result<seq<Transaction>, StakeError>)
    ensures found.None? <==> r == Err(PoolNotFound)
    ensures r.Ok? ==>
      && |r.value| == 1
      && r.value[0].kind == RewardDistribution && r.value[0].from == poolId
      && r.value[0].to == "pool-participants" && r.value[0].amount == DailyReward(found.value)
      && r.value[0].poolId == Some(poolId) && r.value[0].status == TxCompleted
  {
    if found.None? then Err(PoolNotFound)
    else
      var stamp := Numerals.Decimal(now);
      Ok([Transaction("tx-" + stamp, RewardDistribution, poolId, "pool-participants",
                      DailyReward(found.value), HBAR, None, Some(poolId), now, "simulated-" + stamp, TxCompleted)])
  }

  /** A year of daily rewards pays the stated APY on the stake. */
  lemma YearOfRewards(pool: ReFiPool)
    ensures 365.0 * DailyReward(pool) == pool.totalStaked * pool.apy / 100.0
  {
  }

  /** Rewards are proportional to the stake: doubling the stake doubles the reward,
      and a pool with nothing staked pays nothing. */
  lemma RewardProportionalToStake(pool: ReFiPool, k: real)
    ensures DailyReward(pool.(totalStaked := k * pool.totalStaked)) == k * DailyReward(pool)
    ensures pool.totalStaked == 0.0 ==> DailyReward(pool) == 0.0
  {
  }

  /** The pool the lookup serves in the source: 10000 HBAR at 15% a year pays 300/73
      HBAR a day (about 4.11). */
  lemma ExampleReward()
    ensures DailyReward(ReFiPool("pool", "Amazon Rainforest Conservation",
                                 "Supporting local communities in rainforest protection",
                                 ["zone-1", "zone-2"], 10000.0, 15.0, 100.0, 30,
                                 ImpactMetrics(1000.0, 85.0, 92.0), 25, PoolActive)) == 300.0 / 73.0
  {
  }
}
