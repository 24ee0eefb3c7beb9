# EcoNexus core logic in Dafny

EcoNexus is a platform where community conservation zones are monitored and
their environmental credits are verified, issued and traded. Staking pools let
HBAR holders fund conservation. This project models the platform's
self-contained logic as pure Dafny functions over immutable records, and proves
what that logic promises. The logic covered is:

- **Monitoring rule engine** (`AiMonitoring`):
  - the three anomaly rules and their severities;
  - the weighted impact score;
  - the least-squares trend slope with its closed-form sums;
  - the twelve-point trend prediction and its labels.
- **Guardian helpers** (`Guardian`):
  - the methodology-to-policy lookup;
  - the 32-bit string hash;
  - the floor-based credit count;
  - the compliance classifier;
  - the verification status that gates credit issuance.
- **Marketplace service** (`Marketplace`):
  - listing creation;
  - credit purchase, with its ordered checks and its stock decrement;
  - pool creation and staking;
  - the daily reward formula.
- **Page logic**:
  - the marketplace's derived listings, filter and cart (`MarketplacePage`);
  - the registration wizard's steps and form updates (`RegisterPage`);
  - the pools page's stake guard, return estimate, aggregates and dialog state (`PoolsPage`);
  - the wallet's connection state and account-id shortening (`Wallet`).
- **API routes**:
  - credit-token creation (`CreditsCreate`);
  - zone certification (`ZonesCertify`);
  - monitoring submission (`MonitoringSubmit`).

  They work on an abstract JSON value with JavaScript truthiness, property
  lookup, `||` defaults and object spread (`Js`). Replies and what was
  forwarded to the agent service are modelled in `Api`.

Shared modules:

- `Outcomes`: `Option` and `Result`.
- `Numerals`: decimal and hexadecimal rendering, with its injectivity and width lemmas.
- `Int32`: the ToInt32 wrap-around of JavaScript's bitwise operators.
- `Types`: the records of the platform's type definitions.

Clock readings, random numbers, generated ids, the wallet extension's reply, the
agent service's readiness, and the outcomes of its calls and of the Hedera
client's transfer and topic calls (a result or a thrown exception) are all
parameters.

Numbers are Dafny `real`s (counts are `int`s). IEEE rounding, NaN and Infinity
are not modelled. A division whose divisor could be zero gets a precondition.

Some behaviour of the code is easy to misread, and the model states it as the
code has it:

- **Impact score.** The carbon score is capped at 100 (`Math.min(100, …)`) but
  has no lower bound, so the score can be negative. `ImpactScoreHasNoLowerClamp`
  exhibits one such score.
- **Historical mean.** The carbon rule divides by the historical mean whatever
  its value. The model requires a history that is empty or has a non-zero mean.
  It does not model the Infinity that a zero mean gives. An empty history gives
  the mean 0/0, which is NaN. No comparison with NaN holds, so the carbon rule
  stays silent; `EmptyHistoryRaisesNoCarbonAlert` states this. A negative mean is
  accepted, and no division by zero happens then either.
- **Input checks.** The rule engine does not check its input for validity, and
  reports no input error. Neither does the model.
- **Zero slope.** The trend labels test `slope > 0`, so a zero slope is labelled
  "decreasing"/"declining". `FlatHistoryReadsAsDecline` states this.
- **Success messages.** The credit and zone routes build their success message
  after the agent service has created the token. A name or zone id that the
  template literal cannot turn into a string then makes the route answer 500.
  `CreditsCreate.UnprintableNameFailsAfterMinting` and
  `ZonesCertify.UnprintableZoneFailsAfterMinting` state this.

Purchase does not check whether the listing is active. Only the quantity checks
stand between a buyer and a sold-out listing, and the model keeps it that way.

## Model

| member | source | states |
|---|---|---|
| AiMonitoring.CarbonAlerts | frontend/lib/ai-monitoring.ts:120-151 | at most one alert. It exists iff the history is non-empty and the relative deviation from the historical mean exceeds 0.2. An empty history raises none. Its severity is high iff the deviation exceeds 0.4, else medium. It has type biodiversity_change, the zone's id and location, is unresolved, and has the three carbon actions |
| AiMonitoring.BiodiversityAlerts | frontend/lib/ai-monitoring.ts:153-174 | at most one alert. It exists iff the biodiversity index is below 50. Its severity is critical iff the index is below 30, else high |
| AiMonitoring.WaterAlerts | frontend/lib/ai-monitoring.ts:176-197 | at most one alert. It exists iff the water index is below 60. It has type water_pollution, and its severity is critical iff the index is below 40, else medium |
| AiMonitoring.ConcatenatedRules | frontend/lib/ai-monitoring.ts:118-199 | appending the three rules' outputs keeps rule order strictly increasing. A rule's alert is present iff that rule fired |
| AiMonitoring.DetectAnomalies | frontend/lib/ai-monitoring.ts:113-200 | at most three alerts, in the order carbon, biodiversity, water. Each rule's alert is present iff its condition holds and has that rule's severity and actions. The carbon rule needs a non-empty history. Every alert belongs to the zone and is unresolved |
| AiMonitoring.EmptyHistoryRaisesNoCarbonAlert | frontend/lib/ai-monitoring.ts:120-199 | with no history there is no carbon alert, and the alerts are exactly those of the biodiversity and water rules |
| AiMonitoring.CarbonSeverityMonotone | frontend/lib/ai-monitoring.ts:129-134 | a larger carbon deviation never gets a lower severity |
| AiMonitoring.BiodiversitySeverityMonotone | frontend/lib/ai-monitoring.ts:154-159 | a lower biodiversity index never gets a lower severity |
| AiMonitoring.WaterSeverityMonotone | frontend/lib/ai-monitoring.ts:177-182 | a lower water index never gets a lower severity |
| AiMonitoring.ExampleSmallCarbonDrift | frontend/lib/ai-monitoring.ts:120-129 | history 400, 410, 420, 430 has mean 415. A current value of 450 raises no alert |
| AiMonitoring.ExampleCriticalBiodiversity | frontend/lib/ai-monitoring.ts:154-159 | an index of 28 with otherwise healthy readings gives exactly one alert: a critical biodiversity alert |
| AiMonitoring.Round | frontend/lib/ai-monitoring.ts:314 | Math.round gives the integer nearest to x, with halves rounded up |
| AiMonitoring.CalculateImpactScore | frontend/lib/ai-monitoring.ts:295-315 | the score is the weighted sum 0.3·min(100, (change+100)/2) + 0.3·bio + 0.2·water + 0.2·fertility, rounded to the nearest integer |
| AiMonitoring.ImpactScoreBounds | frontend/lib/ai-monitoring.ts:303-314 | the score lies in 0..100 when the three indices lie in [0, 100] and the change is at least −100 |
| AiMonitoring.ImpactScoreHasNoLowerClamp | frontend/lib/ai-monitoring.ts:303 | a change of −500 with zero indices scores −60: the carbon score has no lower clamp |
| AiMonitoring.ImpactScoreMonotone | frontend/lib/ai-monitoring.ts:303-314 | the score never decreases when change, biodiversity, water or fertility increases |
| AiMonitoring.ImpactScoreExample | frontend/lib/ai-monitoring.ts:295-315 | change 20, biodiversity 80, water 90, fertility 88 score 78 |
| AiMonitoring.ClosedSumXCorrect | frontend/lib/ai-monitoring.ts:361 | n(n−1)/2 equals the sum of the indices 0..n−1 |
| AiMonitoring.ClosedSumX2Correct | frontend/lib/ai-monitoring.ts:364 | n(n−1)(2n−1)/6 equals the sum of the squared indices 0..n−1 |
| AiMonitoring.DenominatorClosedForm | frontend/lib/ai-monitoring.ts:366 | the slope's denominator n·Σx² − (Σx)² equals n²(n²−1)/12 |
| AiMonitoring.DenominatorPositive | frontend/lib/ai-monitoring.ts:366 | the denominator is positive for two or more points |
| AiMonitoring.CalculateTrend | frontend/lib/ai-monitoring.ts:357-368 | fewer than two points give slope 0. Otherwise the slope times the denominator equals n·Σxy − Σx·Σy |
| AiMonitoring.TrendSolvesNormalEquation | frontend/lib/ai-monitoring.ts:359-367 | from two points on, the slope solves the least-squares normal equation slope·(n·Σx² − (Σx)²) = n·Σxy − Σx·Σy, with Σx and Σx² added up term by term rather than by the closed forms |
| AiMonitoring.LinearSums | frontend/lib/ai-monitoring.ts:362-363 | on exact line data a + b·x, Σy and Σxy are the line's closed forms |
| AiMonitoring.TrendOfLine | frontend/lib/ai-monitoring.ts:357-367 | exact line data a + b·x with two or more points has slope b |
| AiMonitoring.TrendOfConstant | frontend/lib/ai-monitoring.ts:357-367 | a constant series has slope 0 |
| AiMonitoring.NumeratorOfIncreasing | frontend/lib/ai-monitoring.ts:366 | a strictly increasing series of two or more points has a positive slope numerator |
| AiMonitoring.TrendOfIncreasing | frontend/lib/ai-monitoring.ts:357-367 | a strictly increasing series of two or more points has a positive slope |
| AiMonitoring.RecentWindow | frontend/lib/ai-monitoring.ts:325 | the window is the last min(12, n) snapshots |
| AiMonitoring.CarbonSeries | frontend/lib/ai-monitoring.ts:327-329 | the series holds each snapshot's current carbon value, in order |
| AiMonitoring.BiodiversitySeries | frontend/lib/ai-monitoring.ts:331-333 | the series holds each snapshot's biodiversity index, in order |
| AiMonitoring.PredictTrends | frontend/lib/ai-monitoring.ts:320-355 | an empty history gives no prediction, because the recommendations then read the baseline of a missing snapshot and throw. Otherwise both slopes are taken over the recent window. The label is increasing/improving iff the slope is positive, else decreasing/declining. Confidences are 0.75 and 0.70 |
| AiMonitoring.PredictTrendsIgnoresOlderHistory | frontend/lib/ai-monitoring.ts:325 | snapshots before the last twelve do not affect the prediction |
| AiMonitoring.FlatHistoryReadsAsDecline | frontend/lib/ai-monitoring.ts:339-344 | a non-empty history of identical snapshots gets a prediction, labelled decreasing and declining |
| AiMonitoring.RisingCarbonReadsAsIncreasing | frontend/lib/ai-monitoring.ts:325-339 | a history with a strictly rising carbon window gets a prediction, labelled increasing |
| Guardian.SelectPolicyByMethodology | frontend/lib/guardian-service.ts:341-349 | the four credit type names map to their four policy ids. Any other string maps to verra-vcs-redd |
| Guardian.SelectedPolicyIsAvailable | frontend/lib/guardian-service.ts:226-259 | every selected id is one of the published policies. For a credit type name, that policy has the same methodology type |
| Guardian.HashStepIsTimes31 | frontend/lib/guardian-service.ts:357-358 | the shift-subtract-add step followed by `& hash` equals ToInt32(31·h + c) for any 32-bit h |
| Guardian.TruncateEarly | frontend/lib/guardian-service.ts:355-359 | wrapping after every step gives the same result as wrapping the exact value once |
| Guardian.CalculateHash | frontend/lib/guardian-service.ts:351-361 | the digest is the hex of the absolute value of ToInt32 of the Java-style polynomial hash. It is 1 to 8 lower-case hex digits with no leading zero except "0", its value is at most 2^31, and the empty string gives "0" |
| Guardian.HexWidth | frontend/lib/guardian-service.ts:360 | a value up to 2^31 needs at most 8 hex digits |
| Guardian.CalculateCredits | frontend/lib/guardian-service.ts:363-381 | the credits are at most the exact unfloored total, and fall short of it by less than one per present term. Empty evidence gives 0 |
| Guardian.CreditsExactOnWholeUnits | frontend/lib/guardian-service.ts:367-378 | on evidence whose terms are whole, the credits are exactly the sum of the terms |
| Guardian.CreditsNonNegative | frontend/lib/guardian-service.ts:363-381 | non-negative evidence gives non-negative credits |
| Guardian.CreditsMonotone | frontend/lib/guardian-service.ts:363-381 | more evidence, or larger evidence values, never gives fewer credits |
| Guardian.AnalyzeCompliance | frontend/lib/guardian-service.ts:383-406 | the status is non-compliant iff biodiversity is below 50. Otherwise it is warning iff carbon is below 0.9·baseline, else compliant. Issues and recommendations have equal length, at most 2, and are paired by position. Each issue is present iff its condition holds, and carbon comes first. Each metric may be absent, `null`, a boolean or a number, and is compared as JavaScript converts it |
| Guardian.NullMetricsCompareAsZero | frontend/lib/guardian-service.ts:393-403 | a missing metric never raises an issue, but a `null` one counts as 0: a `null` biodiversity index is non-compliant, and a `null` carbon figure under a positive baseline is a warning |
| Guardian.StatusReflectsIssues | frontend/lib/guardian-service.ts:390-403 | the status is compliant iff there are no issues, and non-compliant iff the biodiversity issue is present |
| Guardian.RequestVerification | frontend/lib/guardian-service.ts:131-173 | a request ends verified, with creditsIssued equal to the credit count of its evidence |
| Guardian.IssueCredits | frontend/lib/guardian-service.ts:178-217 | issuance fails with "Project must be verified before issuing credits" iff the status is not verified. The amount is creditsIssued, or 0 when absent. The credit id is "credit-" and the first clock reading, the token id is "0.0." and a serial below 1000000 taken from the random number, and the transaction id is "0.0.123@" and the second clock reading |
| Guardian.TransactionIdReadsItsOwnClock | frontend/lib/guardian-service.ts:192-213 | the two clock readings are independent: a different second reading changes the transaction id and leaves the credit id alone |
| Guardian.VerifyThenIssue | frontend/lib/guardian-service.ts:165-193 | issuing on a fresh verification succeeds with the evidence's credit count |
| Guardian.UnverifiedNeverIssues | frontend/lib/guardian-service.ts:188-190 | a pending or rejected verification is always refused |
| Marketplace.CreateListing | frontend/lib/marketplace.ts:14-38 | a new listing is active, priced in HBAR, and carries the credit's id and owner. It has the given price and quantity, a minimum purchase defaulting to 1, and description "<type> credits from <year>" |
| Marketplace.DescriptionIdentifiesCredit | frontend/lib/marketplace.ts:28 | distinct credit types or vintage years give distinct descriptions |
| Marketplace.TakeCredits | frontend/lib/marketplace.ts:84-88 | the quantity drops by the amount bought. The listing deactivates exactly when the quantity reaches 0, and no other field changes |
| Marketplace.PurchaseCredits | frontend/lib/marketplace.ts:43-91 | checks run in order: listing not found, then below the minimum purchase, then insufficient credits, then a thrown HBAR transfer, which fails the purchase with the stock untouched. A purchase succeeds iff the quantity lies between the minimum and the stock and the transfer returns. The transaction carries the transfer's id. The credit_purchase transaction runs from buyer to seller for price·quantity with the listing's credit id, and the remaining stock is non-negative |
| Marketplace.PurchasesConserveCredits | frontend/lib/marketplace.ts:84-88 | after successful purchases, the remaining stock plus the quantities bought equals the original stock. Stock stays non-negative, a deactivated listing stays inactive, and nothing else changes |
| Marketplace.SoldOutListing | frontend/lib/marketplace.ts:55-88 | buying the whole stock deactivates the listing. Any further purchase of a positive quantity fails |
| Marketplace.CreateReFiPool | frontend/lib/marketplace.ts:96-132 | creation fails iff creating the pool's topic throws. Otherwise the new pool is active, has nothing staked, no participants and zero impact metrics, and its APY is the target APY |
| Marketplace.StakeInPool | frontend/lib/marketplace.ts:137-176 | checks run in order: pool not found, then below the minimum stake, then pool not active. A stake adds exactly the amount and one participant, and no other field changes. The stake transaction runs from staker to pool |
| Marketplace.StakesAccumulate | frontend/lib/marketplace.ts:171-173 | after successful stakes, the total staked grows by the sum of the amounts and participants by their number |
| Marketplace.FreshPoolAcceptsMinimum | frontend/lib/marketplace.ts:104-173 | a new pool accepts any stake of at least its minimum, after which it holds exactly that stake from one participant |
| Marketplace.DistributeRewards | frontend/lib/marketplace.ts:181-213 | fails iff the pool is missing. Otherwise there is one reward transaction from the pool to its participants, for totalStaked·apy/365/100 |
| Marketplace.YearOfRewards | frontend/lib/marketplace.ts:189-190 | 365 daily rewards equal totalStaked·apy/100 |
| Marketplace.RewardProportionalToStake | frontend/lib/marketplace.ts:189-190 | the reward scales linearly with the stake, and an empty pool earns nothing |
| Marketplace.ExampleReward | frontend/lib/marketplace.ts:189-190 | 10000 staked at 15% earns 300/73 HBAR a day |
| MarketplacePage.ListingPrice | frontend/app/marketplace/page.tsx:90 | the credit's price, or 25 when the price is absent or 0 |
| MarketplacePage.DeriveListing | frontend/app/marketplace/page.tsx:86-97 | the listing has id "listing-(i+1)", the credit's id and owner, its amount as quantity, floor(amount/10) as minimum, and the project as description |
| MarketplacePage.DeriveListings | frontend/app/marketplace/page.tsx:86-97 | one listing per credit, in order, each derived from its credit and position |
| MarketplacePage.DerivedIdsDistinct | frontend/app/marketplace/page.tsx:87 | derived listings have pairwise distinct ids |
| MarketplacePage.DemoListings | frontend/app/marketplace/page.tsx:11-97 | the four demo listings have prices 25, 45, 30 and 20, and minimums 10, 5, 20 and 7 |
| MarketplacePage.Includes | frontend/app/marketplace/page.tsx:131 | substring search: true iff the needle occurs at some position of the haystack |
| MarketplacePage.FindCredit | frontend/app/marketplace/page.tsx:127 | the lookup finds nothing iff no credit has the id. Otherwise it finds the first credit with that id: no earlier credit has it |
| MarketplacePage.FilterListings | frontend/app/marketplace/page.tsx:126-135 | a listing is shown iff it is listed, its credit exists, the type matches or is "all", an empty query or the lower-cased description contains the lower-cased query, and low ≤ price ≤ high. A kept listing appears as many times as in the listings, a dropped one not at all |
| MarketplacePage.FilterPreservesOrder | frontend/app/marketplace/page.tsx:126-135 | the shown listings are a subsequence of the listings, in their order |
| MarketplacePage.NeutralFilterShowsAll | frontend/app/marketplace/page.tsx:126-135 | with type "all", no query and a covering price range, every listing with a credit is shown |
| MarketplacePage.InvertedRangeShowsNothing | frontend/app/marketplace/page.tsx:132 | a range with low > high shows nothing |
| MarketplacePage.SearchIgnoresCase | frontend/app/marketplace/page.tsx:131 | searching "REEF" finds "Coral Reef Protection" |
| MarketplacePage.AddToCart | frontend/app/marketplace/page.tsx:137-138 | the cart grows by the listing id at its end, and earlier entries are kept |
| MarketplacePage.AddToCartCounts | frontend/app/marketplace/page.tsx:137-138 | the added id's count rises by one, even if it was already present. Other counts are unchanged |
| RegisterPage.NextStep | frontend/app/register/page.tsx:139-145 | below step 4 Next advances one step without submitting. On step 4 it submits and stays put. It keeps the step in 1..4 |
| RegisterPage.PrevStep | frontend/app/register/page.tsx:147-151 | above step 1 Previous goes back one step. On step 1 it does nothing |
| RegisterPage.PrevUndoesNext | frontend/app/register/page.tsx:139-151 | below the last step, Previous after Next returns to the same step |
| RegisterPage.NextUndoesPrev | frontend/app/register/page.tsx:139-151 | above the first step, Next after Previous returns to the same step without submitting |
| RegisterPage.RunStaysInRange | frontend/app/register/page.tsx:139-151 | from a valid step, any sequence of button presses stays within steps 1..4 |
| RegisterPage.ThreeNextsReachTheLastStep | frontend/app/register/page.tsx:139-145 | three Nexts from step 1 reach step 4, where Next submits |
| RegisterPage.Progress | frontend/app/register/page.tsx:194 | progress lies in (0, 100] and is 100 only on step 4 |
| RegisterPage.ProgressIncreases | frontend/app/register/page.tsx:194 | each step forward increases progress |
| RegisterPage.NextButtonLabel | frontend/app/register/page.tsx:636-645 | the label reads Processing iff submitting, and Submit Registration iff not submitting and on step 4 |
| RegisterPage.SubmitLabelMatchesSubmission | frontend/app/register/page.tsx:641-645 | the button reads Submit Registration exactly when pressing it submits |
| RegisterPage.PrevDisabled | frontend/app/register/page.tsx:621 | Previous is disabled exactly on the step where it would do nothing |
| RegisterPage.HandleInputChange | frontend/app/register/page.tsx:70-73 | the named field takes the value. Every other field and every file is unchanged, and a complete form stays complete |
| RegisterPage.LastInputWins | frontend/app/register/page.tsx:70-73 | two edits of one field leave the second value |
| RegisterPage.InputsCommute | frontend/app/register/page.tsx:70-73 | edits of different fields commute |
| RegisterPage.HandleFileUpload | frontend/app/register/page.tsx:75-86 | additionalDocs appends every selected file in order. The other file fields take the first file. An empty or absent selection changes nothing |
| RegisterPage.UploadsAccumulate | frontend/app/register/page.tsx:77-81 | earlier documents stay in place, and the count grows by the number selected |
| PoolsPage.StakeConfirmDisabled | frontend/app/pools/page.tsx:137 | Confirm is enabled iff not staking, an amount is entered, and the amount is at least the minimum stake |
| PoolsPage.EnabledConfirmMeetsMinimum | frontend/app/pools/page.tsx:137 | an enabled Confirm always carries an amount the pool's minimum accepts |
| PoolsPage.EstimatedReturn | frontend/app/pools/page.tsx:123 | the estimate is amount·apy/100, or 0 with no amount |
| PoolsPage.EstimateMonotone | frontend/app/pools/page.tsx:123 | at a non-negative APY, a larger amount never gives a smaller estimate |
| PoolsPage.AverageApy | frontend/app/pools/page.tsx:205 | the average times the number of pools is the sum of the APYs, for a non-empty list |
| PoolsPage.AggregatesSplit | frontend/app/pools/page.tsx:154-157 | total value locked, participant count and APY sum are additive over concatenated pool lists |
| PoolsPage.AverageWithinRange | frontend/app/pools/page.tsx:205 | the average APY lies between any lower and upper bound of the pools' APYs |
| PoolsPage.TotalValueLockedNonNegative | frontend/app/pools/page.tsx:155 | non-negative stakes give a non-negative total |
| PoolsPage.DemoBanner | frontend/app/pools/page.tsx:9-64 | the three demo pools lock 407500, have 1026 participants and average 45.5/3 APY |
| PoolsPage.ChoosePool | frontend/app/pools/page.tsx:159-162 | choosing a pool selects it and opens the dialog |
| PoolsPage.CloseModal | frontend/app/pools/page.tsx:377-380 | closing clears the selection and closes the dialog |
| PoolsPage.RenderedDialog | frontend/app/pools/page.tsx:373-381 | a dialog shows iff a pool is selected and the dialog is open, and it shows the selected pool |
| PoolsPage.DialogFollowsChoice | frontend/app/pools/page.tsx:159-162 | choosing shows the chosen pool, closing shows none, and choosing again shows the new pool |
| PoolsPage.TransitionsKeepConsistency | frontend/app/pools/page.tsx:150-162 | the start state and both transitions keep "selected iff open" |
| Wallet.FormatAccountId | frontend/components/wallet/wallet-connect.tsx:125-130 | ids of at most 12 characters are unchanged. Longer ids become their first 6 characters, "...", and their last 4 characters: exactly 13 characters |
| Wallet.FormatAccountIdShortensOnce | frontend/components/wallet/wallet-connect.tsx:125-130 | the display is never longer than the id and at most 13 characters. Shortening is idempotent |
| Wallet.Mount | frontend/components/wallet/wallet-connect.tsx:36-44 | a non-empty stored account is restored as connected, with a balance in [0, 1000). Otherwise the state stays disconnected |
| Wallet.DemoAccountId | frontend/components/wallet/wallet-connect.tsx:67 | a demo id is "0.0." followed by a number below one million |
| Wallet.Connect | frontend/components/wallet/wallet-connect.tsx:46-77 | a successful extension reply connects with its account and balance, and stores the account. A failed reply changes nothing. Demo mode connects a demo account with a balance in [0, 1000). A thrown request is an error |
| Wallet.HandleConnect | frontend/components/wallet/wallet-connect.tsx:106-115 | a thrown connection leaves the state as it was. Otherwise it is the connection's result |
| Wallet.Disconnect | frontend/components/wallet/wallet-connect.tsx:79-84 | disconnected, no account, balance 0, and the stored entry removed |
| Wallet.TransitionsKeepConsistency | frontend/components/wallet/wallet-connect.tsx:36-84 | mounting, connecting and disconnecting keep "connected iff an account is set, and that account is the stored one" |
| Wallet.ReloadRestoresConnection | frontend/components/wallet/wallet-connect.tsx:36-72 | after a connection with a non-empty id, reloading restores that account |
| Wallet.EmptyAccountIsForgottenOnReload | frontend/components/wallet/wallet-connect.tsx:38-63 | an empty account id from the extension connects, but a reload forgets it |
| Wallet.ReloadAfterDisconnect | frontend/components/wallet/wallet-connect.tsx:36-84 | reloading after a disconnect finds no session |
| Js.IndexPropsContents | frontend/app/api/monitoring/submit/route.ts:35-41 | spreading an array or a string yields exactly the keys "0".."n−1", each bound to its item |
| Js.Spread | frontend/app/api/monitoring/submit/route.ts:35-56 | the spread's keys are the union of both key sets. The spread value's keys win, and the other base keys keep their values |
| Js.StringifiableExamples | frontend/app/api/zones/certify/route.ts:61 | `${v}` fails for an object exactly when it has its own toString key, and for an array holding such an object. Null and undefined items and ordinary objects convert |
| Js.SpreadOfNothing | frontend/app/api/monitoring/submit/route.ts:40 | spreading undefined, null, a boolean or a number adds nothing |
| CreditsCreate.Validate | frontend/app/api/credits/create/route.ts:19-34 | "Missing required fields" iff some required field is falsy. Otherwise "Invalid credit type" iff the type is not whitelisted. Otherwise there is no error |
| CreditsCreate.Decimals | frontend/app/api/credits/create/route.ts:10 | decimals default to 2 only when absent. Any given value, even null or 0, is kept |
| CreditsCreate.CreateCredit | frontend/app/api/credits/create/route.ts:4-76 | an unparsable or null body gives 500. Then comes 400 for a missing field, then 400 for a bad type, then 503 when not ready. Only a valid body with a ready service is forwarded, with metadata exactly {creditType, vintageYear, zoneId, methodology} unchanged. Success carries the service's ids. A thrown call gives 500, and so does a name the success message cannot interpolate (see Js.Stringifiable), even after the token was created |
| CreditsCreate.UnprintableNameFailsAfterMinting | frontend/app/api/credits/create/route.ts:45-75 | a name that is an object with its own toString key gets 500 after the request was forwarded and the service returned |
| CreditsCreate.AnyFalsyFieldIsMissing | frontend/app/api/credits/create/route.ts:20-25 | any one falsy required field, including a numeric 0, gets "Missing required fields" |
| CreditsCreate.InvalidBodyIgnoresReadiness | frontend/app/api/credits/create/route.ts:20-42 | an invalid body gets the same reply whatever the readiness, never 503, and is never forwarded |
| CreditsCreate.WhitelistIsCreditTypes | frontend/app/api/credits/create/route.ts:28-29 | the whitelist accepts exactly the strings naming a credit type |
| CreditsCreate.ExampleZeroSupplyIsMissing | frontend/app/api/credits/create/route.ts:20 | an initial supply of 0 is reported as a missing field |
| CreditsCreate.ExampleDecimalsDefault | frontend/app/api/credits/create/route.ts:10 | an absent decimals is sent as 2, and an explicit null as null |
| ZonesCertify.CertificateRequestOf | frontend/app/api/zones/certify/route.ts:41-54 | the forwarded location holds exactly lat and lng. Area and certifications are passed unchanged, and the verification date is the clock's time |
| ZonesCertify.CertifyZone | frontend/app/api/zones/certify/route.ts:4-74 | an unparsable or null body gives 500. Then comes 400 for a missing field, then 400 for a falsy coordinate, then 503 when not ready. Only a valid body with a ready service is forwarded. Success echoes the request's zoneId. A thrown call gives 500, and so does a zone id the success message cannot interpolate, even after the NFT was minted |
| ZonesCertify.UnprintableZoneFailsAfterMinting | frontend/app/api/zones/certify/route.ts:41-73 | a zone id that is an object with its own toString key gets 500 after the request was forwarded and the service returned |
| ZonesCertify.AnyFalsyFieldIsMissing | frontend/app/api/zones/certify/route.ts:17-22 | any one falsy required field gets "Missing required fields" |
| ZonesCertify.InvalidBodyIgnoresReadiness | frontend/app/api/zones/certify/route.ts:17-38 | an invalid body gets the same reply whatever the readiness, never 503, and is never forwarded |
| ZonesCertify.SuccessEchoesZone | frontend/app/api/zones/certify/route.ts:56-62 | a successful reply names the request's (truthy) zoneId |
| ZonesCertify.LocationWithoutObjectHasNoCoordinates | frontend/app/api/zones/certify/route.ts:25 | a location that is not an object has no coordinates |
| ZonesCertify.EquatorIsRefused | frontend/app/api/zones/certify/route.ts:25-30 | a latitude of exactly 0 gets "Invalid location coordinates" |
| MonitoringSubmit.Readings | frontend/app/api/monitoring/submit/route.ts:36-55 | the readings object has exactly the type's keys, each bound to the top-level data value |
| MonitoringSubmit.MessageOf | frontend/app/api/monitoring/submit/route.ts:26-57 | the timestamp is the clock's time. type, source, metadata and metrics default to "monitoring_update", "econexus_platform", {} and {} when falsy. For satellite, bioacoustic and sensor data, metrics are the type's readings overlaid by data.metrics |
| MonitoringSubmit.SubmitMonitoring | frontend/app/api/monitoring/submit/route.ts:4-83 | an unparsable or null body gives 500. Then comes 400 when topicId or data is falsy, then 503 when not ready. Only a valid body with a ready service is forwarded. Success echoes the message's timestamp and the service's sequence number |
| MonitoringSubmit.InvalidBodyIgnoresReadiness | frontend/app/api/monitoring/submit/route.ts:10-23 | an invalid body gets the same reply whatever the readiness, never 503, and is never forwarded |
| MonitoringSubmit.ReplyTimestampIsMessageTimestamp | frontend/app/api/monitoring/submit/route.ts:27-69 | the reply's timestamp is the time the message was stamped with |
| MonitoringSubmit.MetricsOverrideReadings | frontend/app/api/monitoring/submit/route.ts:35-41 | a satellite reading given inside metrics wins over the top-level value |
| MonitoringSubmit.ReadingsFillTheRest | frontend/app/api/monitoring/submit/route.ts:35-41 | with no metrics object, satellite metrics are exactly ndvi, forestCover and waterQuality from the top level |
| MonitoringSubmit.OtherTypesKeepMetrics | frontend/app/api/monitoring/submit/route.ts:30-57 | other types keep data.metrics, or {} when it is falsy |

## Left out

- The remaining monitoring operations are left out because their results are whatever an external model returns. These are the satellite, bioacoustic and citizen-report analyses, and the recommendations part of the trend prediction.
- Alert ids, detection times and the description's percentage text (`toFixed(1)`) are left out as text. The description keeps only its direction and deviation.
- NaN and Infinity are not modelled as values.
- AiMonitoring.DetectAnomalies: a non-empty history with mean 0 is excluded by its precondition. The code would compute an Infinity deviation for a non-zero current value (a high alert of "Infinity%"), or NaN for a zero one (no alert).
- AiMonitoring.CarbonAlerts: the same zero-mean exclusion as the anomaly detection, for the same reason. An empty history is modelled: it raises no alert.
- The evidence terms of the credit count are optional numbers. A present evidence object whose field is missing would give NaN in the code, and the model does not represent it.
- Guardian.CalculateHash: the hash starts from UTF-16 code units. The code also accepts a `Buffer`, which it first decodes to a string as UTF-8 (`content.toString()`). That decoding is not modelled.
- The policy lookup does not model keys of `Object.prototype` such as "constructor", which the code's object lookup would find.
- The Guardian HTTP calls, the delays of the simulated API, and the document submission, project registration and compliance-monitoring wrappers are left out. They pass data through to calls whose behaviour is not visible.
- Guardian.IssueCredits: the clock readings and the random number are parameters. The two readings are not related to each other, although the second one in the code comes after a 500 ms delay.
- Guardian.AnalyzeCompliance: metrics that are strings, arrays or objects are not represented. The code would convert them to numbers by parsing text (a numeric string such as "40" compares as 40).
- The listing and pool lookups are left out because they are mock fetches. The model receives the found listing or pool, or its absence.
- The marketplace's price history, search and statistics mocks are left out.
- The reward distribution's random impact-metric increments are left out.
- The text of the stake errors is left out. Only the errors' kinds and the minimum they report are modelled.
- The marketplace page's sorting is left out: the sort state is never applied to the list. Lower-casing is ASCII only, with no Unicode case mapping.
- The registration wizard's submission is left out. It parses the form with `parseFloat` and posts it to the registration endpoint. Next on the last step only reports that it would submit.
- The stake dialog's two-second simulated stake, and its `parseFloat` of the input, are left out. The entered amount is an optional real.
- The wallet's network label, the copy-to-clipboard feedback, the dropdown and the explorer link are left out. Balances are shown with `toFixed`, which is not modelled.
- The order of keys in the routes' JSON objects is not modelled: objects are maps.
- Js.IndexPropsContents: strings hold Unicode scalar values, not UTF-16 code units. Spreading a string that contains a character outside the Basic Multilingual Plane gives one key for it in the model, where JavaScript gives two keys, one per surrogate. JSON strings containing lone surrogates cannot be represented at all.
- The `details` field of a 500 reply is left out. The success messages are represented by the values they interpolate.
- Beyond its shape, the agent service's behaviour is not modelled: readiness and each call's result or exception are parameters.
- The analyze, listings, topic, register, agent and balance routes are left out because they are thin wrappers around a single falsy check.
- Rendering, animation and the other pages are left out.
