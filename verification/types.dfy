/** The platform's records: zones and their environmental metrics, credits,
    marketplace listings, staking pools, transactions and monitoring alerts.
    Dates are millisecond timestamps; the currency of a pool is always HBAR and
    is left implicit. */
module Types {
  import opened Outcomes

  /** The four kinds of environmental credit (and of Guardian methodology). */
  datatype CreditType = Carbon | Biodiversity | Water | Soil

  /** The lower-case name the source uses for a credit type. */
  function CreditTypeName(t: CreditType): string
  {
    match t
    case Carbon => "carbon"
    case Biodiversity => "biodiversity"
    case Water => "water"
    case Soil => "soil"
  }

  /** The credit type a name denotes, if any: the source's whitelist of names. */
  function ParseCreditType(s: string): (t: Option<CreditType>)
    ensures t.Some? <==> s in {"carbon", "biodiversity", "water", "soil"}
    ensures t.Some? ==> CreditTypeName(t.value) == s
  {
    if s == "carbon" then Some(Carbon)
    else if s == "biodiversity" then Some(Biodiversity)
    else if s == "water" then Some(Water)
    else if s == "soil" then Some(Soil)
    else None
  }

  /** Names and types are in one-to-one correspondence. */
  lemma CreditTypeNameRoundTrip(t: CreditType)
    ensures ParseCreditType(CreditTypeName(t)) == Some(t)
  {
  }

  datatype Location = Location(latitude: real, longitude: real, area: real)

  datatype CarbonSequestration = CarbonSequestration(current: real, baseline: real, change: real)

  datatype BiodiversityMetrics =
    BiodiversityMetrics(speciesCount: int, biodiversityIndex: real, endangeredSpecies: seq<string>)

  datatype WaterQuality = WaterQuality(index: real, pollutants: seq<string>)

  datatype SoilHealth = SoilHealth(organicMatter: real, erosionRate: real, fertility: real)

  /** One snapshot of a zone's environmental state. */
  datatype EnvironmentalMetrics = EnvironmentalMetrics(
    carbonSequestration: CarbonSequestration,
    biodiversity: BiodiversityMetrics,
    waterQuality: WaterQuality,
    soilHealth: SoilHealth,
    lastUpdated: int)

  datatype OwnerType = Individual | Community | Organization

  datatype Owner = Owner(accountId: string, name: string, kind: OwnerType)

  datatype ZoneStatus = ZonePending | ZoneActive | ZoneVerified | ZoneSuspended

  datatype CommunityZone = CommunityZone(
    id: string,
    name: string,
    description: string,
    location: Location,
    owner: Owner,
    metrics: EnvironmentalMetrics,
    status: ZoneStatus,
    createdAt: int,
    verifiedAt: Option<int>,
    guardianPolicyId: Option<string>)

  datatype CreditStatus = CreditPending | CreditVerified | CreditIssued | CreditRetired

  /** A credit. Of its free-form metadata only the project name is kept. */
  datatype EnvironmentalCredit = EnvironmentalCredit(
    id: string,
    kind: CreditType,
    amount: int,
    unit: string,
    zoneId: string,
    vintageYear: int,
    methodology: string,
    status: CreditStatus,
    tokenId: Option<string>,
    price: Option<real>,
    owner: string,
    project: string)

  datatype Currency = HBAR | USD

  datatype MarketplaceListing = MarketplaceListing(
    id: string,
    creditId: string,
    sellerId: string,
    price: real,
    currency: Currency,
    quantity: int,
    minPurchase: int,
    description: string,
    active: bool,
    createdAt: int,
    expiresAt: Option<int>)

  datatype ImpactMetrics = ImpactMetrics(carbonOffset: real, biodiversityScore: real, communityBenefit: real)

  datatype PoolStatus = PoolActive | PoolClosed | PoolCompleted

  datatype ReFiPool = ReFiPool(
    id: string,
    name: string,
    description: string,
    targetZones: seq<string>,
    totalStaked: real,
    apy: real,
    minimumStake: real,
    lockPeriod: int,
    impactMetrics: ImpactMetrics,
    participants: int,
    status: PoolStatus)

  datatype TransactionType = CreditPurchase | Stake | Unstake | RewardDistribution

  datatype TransactionStatus = TxPending | TxCompleted | TxFailed

  datatype Transaction = Transaction(
    id: string,
    kind: TransactionType,
    from: string,
    to: string,
    amount: real,
    currency: Currency,
    creditId: Option<string>,
    poolId: Option<string>,
    timestamp: int,
    hederaTxId: string,
    status: TransactionStatus)

  datatype AlertType = Deforestation | IllegalActivity | BiodiversityChange | WaterPollution

  /** Alert severities, ordered by `Rank`. */
  datatype Severity = Low | Medium | High | Critical {
    function Rank(): nat
    {
      match this
      case Low => 0
      case Medium => 1
      case High => 2
      case Critical => 3
    }
  }

  datatype EvidenceType = Satellite | Audio | Sensor | CitizenReport

  /** The reading an alert was raised on (serialised as JSON in the source). */
  datatype Reading =
    | CarbonReading(carbon: CarbonSequestration)
    | BiodiversityReading(biodiversity: BiodiversityMetrics)
    | WaterReading(water: WaterQuality)

  datatype AlertEvidence = AlertEvidence(kind: EvidenceType, data: Reading)

  /** What an alert's text says, before number formatting. */
  datatype AlertDescription =
    | CarbonShift(decreased: bool, deviation: real)
    | LowBiodiversityIndex(index: real)
    | LowWaterQuality(index: real)

  datatype AIMonitoringAlert = AIMonitoringAlert(
    id: string,
    zoneId: string,
    kind: AlertType,
    severity: Severity,
    description: AlertDescription,
    detectedAt: int,
    location: Location,
    evidence: AlertEvidence,
    resolved: bool,
    resolvedAt: Option<int>,
    actions: seq<string>)
}
