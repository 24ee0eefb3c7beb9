/** The pure logic of the staking pools page: the stake dialog's guard and return
    estimate, the page-wide aggregates over the pools, and which pool's dialog is
    open. */
module PoolsPage {
  import opened Types
  import opened Outcomes

  // ---------------------------------------------------------------------------
  // Stake dialog
  // ---------------------------------------------------------------------------

  /** The Confirm button is disabled while staking, while the number input is empty
      (`None`), and while the amount is below the pool's minimum. An entered 0 is a
      non-empty input, so only the minimum can reject it. */
  function StakeConfirmDisabled(isStaking: bool, amount: Option<real>, minimumStake: real): (disabled: bool)
    ensures !disabled <==> !isStaking && amount.Some? && amount.value >= minimumStake
  {
    isStaking || amount.None? || amount.value < minimumStake
  }

  /** An enabled Confirm always stakes an amount the pool's own check accepts. */
  lemma EnabledConfirmMeetsMinimum(pool: ReFiPool, amount: Option<real>)
    requires !StakeConfirmDisabled(false, amount, pool.minimumStake)
    ensures amount.Some? && !(amount.value < pool.minimumStake)
  {
  }

  /** The annual return shown for the entered amount: amount·apy/100, and 0 while
      the input is empty. */
  function EstimatedReturn(amount: Option<real>, apy: real): (r: real)
    ensures amount.None? ==> r == 0.0
    ensures amount.Some? ==> r * 100.0 == amount.value * apy
  {
    if amount.None? then 0.0 else amount.value * apy / 100.0
  }

  /** The estimate grows with the amount at a positive rate. */
  lemma EstimateMonotone(a: real, b: real, apy: real)
    requires a <= b && apy >= 0.0
    ensures EstimatedReturn(Some(a), apy) <= EstimatedReturn(Some(b), apy)
  {
    assert a * apy <= b * apy;
  }

  // ---------------------------------------------------------------------------
  // Aggregates
  // ---------------------------------------------------------------------------

  /** Σ totalStaked, added from the first pool on. */
  function TotalValueLocked(pools: seq<ReFiPool>): real
  {
    if |pools| == 0 then 0.0 else TotalValueLocked(pools[..|pools| - 1]) + pools[|pools| - 1].totalStaked
  }

  function TotalParticipants(pools: seq<ReFiPool>): int
  {
    if |pools| == 0 then 0 else TotalParticipants(pools[..|pools| - 1]) + pools[|pools| - 1].participants
  }

  function ApySum(pools: seq<ReFiPool>): real
  {
    if |pools| == 0 then 0.0 else ApySum(pools[..|pools| - 1]) + pools[|pools| - 1].apy
  }

  /** The mean APY over the pools; the page divides by the number of pools, so the
      list must not be empty. */
  function AverageApy(pools: seq<ReFiPool>): (average: real)
    requires |pools| > 0
    ensures average * |pools| as real == ApySum(pools)
  {
    ApySum(pools) / |pools| as real
  }

  /** Adding pools adds their stakes and participants. */
  lemma {:induction false} AggregatesSplit(a: seq<ReFiPool>, b: seq<ReFiPool>)
    ensures TotalValueLocked(a + b) == TotalValueLocked(a) + TotalValueLocked(b)
    ensures TotalParticipants(a + b) == TotalParticipants(a) + TotalParticipants(b)
    ensures ApySum(a + b) == ApySum(a) + ApySum(b)
    decreases |b|
  {
    if |b| == 0 {
      assert a + b == a;
    } else {
      var b' := b[..|b| - 1];
      assert (a + b)[..|a + b| - 1] == a + b';
      assert (a + b)[|a + b| - 1] == b[|b| - 1];
      AggregatesSplit(a, b');
    }
  }

  /** Every pool's APY lies between `low` and `high`. */
  predicate ApyBetween(pools: seq<ReFiPool>, low: real, high: real)
  {
    forall i | 0 <= i < |pools| :: low <= pools[i].apy <= high
  }

  lemma {:induction false} ApySumBounds(pools: seq<ReFiPool>, low: real, high: real)
    requires ApyBetween(pools, low, high)
    ensures |pools| as real * low <= ApySum(pools) <= |pools| as real * high
  {
    if |pools| > 0 {
      ApySumBounds(pools[..|pools| - 1], low, high);
    }
  }

  /** The average lies between the smallest and the largest APY. */
  lemma AverageWithinRange(pools: seq<ReFiPool>, low: real, high: real)
    requires |pools| > 0 && ApyBetween(pools, low, high)
    ensures low <= AverageApy(pools) <= high
  {
    ApySumBounds(pools, low, high);
    var n := |pools| as real;
    var average := AverageApy(pools);
    assert average * n >= low * n && average * n <= high * n;
  }

  /** Stakes are never negative, so neither is their total. */
  lemma {:induction false} TotalValueLockedNonNegative(pools: seq<ReFiPool>)
    requires forall i | 0 <= i < |pools| :: pools[i].totalStaked >= 0.0
    ensures TotalValueLocked(pools) >= 0.0
  {
    if |pools| > 0 {
      TotalValueLockedNonNegative(pools[..|pools| - 1]);
    }
  }

  function DemoPool(id: string, name: string, description: string, zones: seq<string>, staked: real,
                    apy: real, minimumStake: real, lockPeriod: int, impact: ImpactMetrics,
                    participants: int): ReFiPool
  {
    ReFiPool(id, name, description, zones, staked, apy, minimumStake, lockPeriod, impact, participants,
             PoolActive)
  }

  /** The three demo pools the page shows. */
  const DemoPools: seq<ReFiPool> := [
    DemoPool("pool-1", "Amazon Rainforest Conservation",
             "Support indigenous communities protecting rainforest areas", ["zone-1", "zone-2", "zone-3"],
             125000.0, 15.5, 100.0, 30, ImpactMetrics(2500.0, 88.0, 95.0), 342),
    DemoPool("pool-2", "Ocean Cleanup Initiative", "Fund ocean conservation and plastic removal projects",
             ["zone-4", "zone-5"], 87500.0, 12.0, 50.0, 60, ImpactMetrics(1800.0, 92.0, 78.0), 256),
    DemoPool("pool-3", "Regenerative Agriculture Fund", "Support farmers transitioning to sustainable practices",
             ["zone-6", "zone-7", "zone-8"], 195000.0, 18.0, 200.0, 90, ImpactMetrics(3200.0, 75.0, 98.0), 428)
  ]

  /** The banner over the demo pools: 407,500 HBAR locked, 1,026 participants and an
      average APY of 45.5/3 (shown as 15.2%). */
  lemma DemoBanner()
    ensures TotalValueLocked(DemoPools) == 407500.0
    ensures TotalParticipants(DemoPools) == 1026
    ensures AverageApy(DemoPools) == 45.5 / 3.0
  {
    var p := DemoPools;
    assert p[..2][..1] == p[..1] && p[..1][..0] == [];
    assert TotalValueLocked(p[..1]) == 125000.0;
    assert TotalValueLocked(p[..2]) == 212500.0;
    assert TotalParticipants(p[..1]) == 342;
    assert TotalParticipants(p[..2]) == 598;
    assert ApySum(p[..1]) == 15.5;
    assert ApySum(p[..2]) == 27.5;
  }

  // ---------------------------------------------------------------------------
  // Dialog state
  // ---------------------------------------------------------------------------

  datatype PageState = PageState(selectedPool: Option<ReFiPool>, modalOpen: bool)

  const InitialPage := PageState(None, false)

  /** "Stake Now" on a pool selects it and opens the dialog. */
  function ChoosePool(state: PageState, pool: ReFiPool): (after: PageState)
    ensures after.selectedPool == Some(pool) && after.modalOpen
  {
    PageState(Some(pool), true)
  }

  /** Cancel, or the end of a stake, clears the selection and closes the dialog. */
  function CloseModal(state: PageState): (after: PageState)
    ensures after.selectedPool.None? && !after.modalOpen
  {
    PageState(None, false)
  }

  /** The pool whose dialog is on screen: there must be a selection, and the dialog
      renders nothing while it is closed. */
  function RenderedDialog(state: PageState): (shown: Option<ReFiPool>)
    ensures shown.Some? <==> state.selectedPool.Some? && state.modalOpen
    ensures shown.Some? ==> shown == state.selectedPool
  {
    if state.selectedPool.Some? && state.modalOpen then state.selectedPool else None
  }

  /** Choosing a pool shows that pool's dialog; closing shows none; choosing again
      after closing shows the new pool. */
  lemma DialogFollowsChoice(state: PageState, first: ReFiPool, second: ReFiPool)
    ensures RenderedDialog(ChoosePool(state, first)) == Some(first)
    ensures RenderedDialog(CloseModal(ChoosePool(state, first))) == None
    ensures RenderedDialog(ChoosePool(CloseModal(ChoosePool(state, first)), second)) == Some(second)
  {
  }

  /** The page's two state variables agree at all times: a pool is selected exactly
      when the dialog is open. */
  predicate Consistent(state: PageState)
  {
    state.selectedPool.Some? <==> state.modalOpen
  }

  lemma TransitionsKeepConsistency(state: PageState, pool: ReFiPool)
    ensures Consistent(InitialPage)
    ensures Consistent(ChoosePool(state, pool)) && Consistent(CloseModal(state))
    ensures Consistent(state) ==> (RenderedDialog(state).Some? <==> state.modalOpen)
  {
  }
}
