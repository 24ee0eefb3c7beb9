/** The deterministic helpers of the Guardian integration service: methodology to
    policy lookup, the 32-bit document hash, the credit count derived from
    verification evidence, the compliance classifier, and the status logic of
    verification and issuance. The simulated HTTP calls and their delays are not
    part of this module. */
module Guardian {
  import opened Types
  import opened Outcomes
  import opened Int32
  import Numerals

  // ---------------------------------------------------------------------------
  // Policies
  // ---------------------------------------------------------------------------

  datatype PolicyStatus = Draft | Published | Deprecated

  datatype GuardianPolicy = GuardianPolicy(
    id: string, name: string, version: string, description: string,
    methodologyType: CreditType, status: PolicyStatus)

  const DefaultPolicyId: string := "verra-vcs-redd"

  /** The four published policies, one per methodology type. */
  const AvailablePolicies: seq<GuardianPolicy> := [
    GuardianPolicy("verra-vcs-redd", "Verra VCS REDD+", "2.0",
                   "Reduced Emissions from Deforestation and Degradation", Carbon, Published),
    GuardianPolicy("ccb-biodiversity", "Climate, Community & Biodiversity Standards", "3.1",
                   "Biodiversity conservation in climate projects", Biodiversity, Published),
    GuardianPolicy("aws-water", "Alliance for Water Stewardship", "2.0",
                   "Sustainable water use and management", Water, Published),
    GuardianPolicy("roc-soil", "Regenerative Organic Certified", "1.0",
                   "Soil health and regenerative agriculture", Soil, Published)
  ]

  /** The policy id for a methodology name: one of four known names, otherwise the
      REDD+ default. */
  function SelectPolicyByMethodology(methodology: string): (policyId: string)
    ensures methodology == "carbon" ==> policyId == "verra-vcs-redd"
    ensures methodology == "biodiversity" ==> policyId == "ccb-biodiversity"
    ensures methodology == "water" ==> policyId == "aws-water"
    ensures methodology == "soil" ==> policyId == "roc-soil"
    ensures methodology !in {"carbon", "biodiversity", "water", "soil"} ==> policyId == DefaultPolicyId
  {
    match ParseCreditType(methodology)
    case None => DefaultPolicyId
    case Some(Carbon) => "verra-vcs-redd"
    case Some(Biodiversity) => "ccb-biodiversity"
    case Some(Water) => "aws-water"
    case Some(Soil) => "roc-soil"
  }

  /** Every selected policy is one of the available policies, and for a known
      methodology it is the policy of that methodology type. */
  lemma SelectedPolicyIsAvailable(methodology: string)
    ensures exists p | p in AvailablePolicies :: p.id == SelectPolicyByMethodology(methodology)
    ensures forall t | ParseCreditType(methodology) == Some(t) ::
      exists p | p in AvailablePolicies :: p.id == SelectPolicyByMethodology(methodology) && p.methodologyType == t
  {
    var id := SelectPolicyByMethodology(methodology);
    assert AvailablePolicies[0].id == DefaultPolicyId;
    match ParseCreditType(methodology)
    case None =>
      assert AvailablePolicies[0] in AvailablePolicies;
    case Some(t) =>
      var i := match t case Carbon => 0 case Biodiversity => 1 case Water => 2 case Soil => 3;
      assert AvailablePolicies[i] in AvailablePolicies;
      assert AvailablePolicies[i].id == id && AvailablePolicies[i].methodologyType == t;
  }

  // ---------------------------------------------------------------------------
  // Document hash
  // ---------------------------------------------------------------------------

  /** A UTF-16 code unit, as `charCodeAt` returns it. */
  type CodeUnit = c: int | 0 <= c < 0x1_0000

  /** The polynomial Σ s[i]·31^(n−1−i) over the integers: the String.hashCode
      value of Java before any overflow. */
  function Polynomial(s: seq<CodeUnit>): int
  {
    if |s| == 0 then 0 else 31 * Polynomial(s[..|s| - 1]) + s[|s| - 1]
  }

  /** One step of the loop: `((h << 5) - h) + c`, then `h & h`. The shift works
      on the 32-bit value of `h`, and the final `&` truncates the sum to 32 bits. */
  function HashStep(h: int, c: CodeUnit): int
  {
    ToInt32(ToInt32(h * 32) - h + c)
  }

  /** The shift-and-subtract step is multiplication by 31 modulo 2^32. */
  lemma HashStepIsTimes31(h: int, c: CodeUnit)
    requires IsInt32(h)
    ensures HashStep(h, c) == ToInt32(31 * h + c)
  {
    var shifted := ToInt32(h * 32);
    var k := (h * 32 - shifted) / Modulus;
    assert h * 32 - shifted == k * Modulus;
    Congruent(shifted - h + c, 31 * h + c, -k);
  }

  /** Truncating the running value first does not change the truncated result. */
  lemma TruncateEarly(p: int, c: CodeUnit)
    ensures ToInt32(31 * ToInt32(p) + c) == ToInt32(31 * p + c)
  {
    var r := ToInt32(p);
    var k := (p - r) / Modulus;
    assert p - r == k * Modulus;
    Congruent(31 * r + c, 31 * p + c, -31 * k);
  }

  function AbsInt(x: int): nat
  {
    if x < 0 then -x else x
  }

  /** The hex digest of a document: the 32-bit String.hashCode of its code units,
      as lower-case hex of its absolute value. */
  method CalculateHash(content: seq<CodeUnit>) returns (digest: string)
    ensures digest == Numerals.Hex(AbsInt(ToInt32(Polynomial(content))))
    ensures 1 <= |digest| <= 8 && Numerals.IsNumeral(digest, 16)
    ensures digest[0] == '0' <==> digest == "0"
    ensures Numerals.Value(digest, 16) <= Half
    ensures content == [] ==> digest == "0"
  {
    var hash := 0;
    var i := 0;
    while i < |content|
      invariant 0 <= i <= |content|
      invariant hash == ToInt32(Polynomial(content[..i]))
    {
      assert content[..i + 1][..i] == content[..i];
      HashStepIsTimes31(hash, content[i]);
      TruncateEarly(Polynomial(content[..i]), content[i]);
      hash := HashStep(hash, content[i]);
      i := i + 1;
    }
    assert content[..i] == content;
    var magnitude := AbsInt(hash);
    digest := Numerals.Hex(magnitude);
    HexWidth(magnitude);
  }

  /** A magnitude of at most 2^31 fits in eight hex digits. */
  lemma HexWidth(n: nat)
    requires n <= Half
    ensures |Numerals.Render(n, 16)| <= 8
  {
    assert Numerals.Pow(16, 8) == 0x1_0000_0000 by {
      assert Numerals.Pow(16, 2) == 0x100;
      assert Numerals.Pow(16, 4) == 16 * (16 * Numerals.Pow(16, 2));
      assert Numerals.Pow(16, 6) == 16 * (16 * Numerals.Pow(16, 4));
      assert Numerals.Pow(16, 8) == 16 * (16 * Numerals.Pow(16, 6));
    }
    Numerals.RenderLength(n, 16, 8);
  }

  // ---------------------------------------------------------------------------
  // Credits from evidence
  // ---------------------------------------------------------------------------

  /** Verification evidence. Every part may be missing; of the nested records only
      the number the credit count reads is kept. */
  datatype Evidence = Evidence(
    carbonSequestration: Option<real>,
    biodiversityScore: Option<real>,
    waterQualityIndex: Option<real>,
    soilOrganicMatter: Option<real>)

  /** The carbon value counts when it is truthy: present and not zero. */
  function CarbonTerm(e: Evidence): int
  {
    if e.carbonSequestration.Some? && e.carbonSequestration.value != 0.0
    then e.carbonSequestration.value.Floor else 0
  }

  /** The nested records are objects, hence truthy whenever present. */
  function BiodiversityTerm(e: Evidence): int
  {
    if e.biodiversityScore.Some? then (e.biodiversityScore.value / 10.0).Floor else 0
  }

  function WaterTerm(e: Evidence): int
  {
    if e.waterQualityIndex.Some? then (e.waterQualityIndex.value / 20.0).Floor else 0
  }

  function SoilTerm(e: Evidence): int
  {
    if e.soilOrganicMatter.Some? then (e.soilOrganicMatter.value * 10.0).Floor else 0
  }

  /** The exact value the credit count approximates: the weighted sum of the
      evidence that is present. */
  function ExactCredits(e: Evidence): real
  {
    e.carbonSequestration.GetOr(0.0) + e.biodiversityScore.GetOr(0.0) / 10.0
    + e.waterQualityIndex.GetOr(0.0) / 20.0 + e.soilOrganicMatter.GetOr(0.0) * 10.0
  }

  /** Number of evidence parts present. */
  function PartsPresent(e: Evidence): nat
  {
    (if e.carbonSequestration.Some? then 1 else 0) + (if e.biodiversityScore.Some? then 1 else 0)
    + (if e.waterQualityIndex.Some? then 1 else 0) + (if e.soilOrganicMatter.Some? then 1 else 0)
  }

  /** The credit count: each present part floored separately, then added. So the
      count never exceeds the exact weighted sum and falls short of it by less than
      one per part present. */
  function CalculateCredits(e: Evidence): (credits: int)
    ensures credits as real <= ExactCredits(e)
    ensures PartsPresent(e) > 0 ==> ExactCredits(e) < credits as real + PartsPresent(e) as real
    ensures PartsPresent(e) == 0 ==> credits == 0
  {
    FloorBounds(e.carbonSequestration.GetOr(0.0));
    FloorBounds(e.biodiversityScore.GetOr(0.0) / 10.0);
    FloorBounds(e.waterQualityIndex.GetOr(0.0) / 20.0);
    FloorBounds(e.soilOrganicMatter.GetOr(0.0) * 10.0);
    CarbonTerm(e) + BiodiversityTerm(e) + WaterTerm(e) + SoilTerm(e)
  }

  lemma FloorBounds(x: real)
    ensures x.Floor as real <= x < x.Floor as real + 1.0
  {
  }

  /** Integral evidence values that are multiples of their divisors are counted exactly. */
  lemma CreditsExactOnWholeUnits(carbon: int, score: int, index: int, tenths: int)
    ensures CalculateCredits(Evidence(Some(carbon as real), Some(10.0 * score as real),
                                      Some(20.0 * index as real), Some(tenths as real / 10.0)))
            == carbon + score + index + tenths
  {
    assert (10.0 * score as real / 10.0) == score as real;
    assert (20.0 * index as real / 20.0) == index as real;
    assert (tenths as real / 10.0) * 10.0 == tenths as real;
  }

  predicate NonNegative(e: Evidence)
  {
    && e.carbonSequestration.GetOr(0.0) >= 0.0 && e.biodiversityScore.GetOr(0.0) >= 0.0
    && e.waterQualityIndex.GetOr(0.0) >= 0.0 && e.soilOrganicMatter.GetOr(0.0) >= 0.0
  }

  lemma CreditsNonNegative(e: Evidence)
    requires NonNegative(e)
    ensures CalculateCredits(e) >= 0
  {
  }

  /** `e2` has at least the evidence of `e1`, each present value at least as large. */
  predicate Dominates(e2: Evidence, e1: Evidence)
  {
    && AtLeast(e2.carbonSequestration, e1.carbonSequestration)
    && AtLeast(e2.biodiversityScore, e1.biodiversityScore)
    && AtLeast(e2.waterQualityIndex, e1.waterQualityIndex)
    && AtLeast(e2.soilOrganicMatter, e1.soilOrganicMatter)
  }

  /** A present value may grow; a missing value may become a non-negative one. */
  predicate AtLeast(x2: Option<real>, x1: Option<real>)
  {
    match x1
    case None => x2.None? || x2.value >= 0.0
    case Some(v) => x2.Some? && x2.value >= v
  }

  lemma {:induction false} FloorMonotone(x: real, y: real)
    requires x <= y
    ensures x.Floor <= y.Floor
  {
    assert x.Floor as real <= x;
  }

  /** More (or larger) evidence never yields fewer credits. */
  lemma CreditsMonotone(e1: Evidence, e2: Evidence)
    requires NonNegative(e1) && Dominates(e2, e1)
    ensures CalculateCredits(e1) <= CalculateCredits(e2)
  {
    FloorMonotone(e1.carbonSequestration.GetOr(0.0), e2.carbonSequestration.GetOr(0.0));
    FloorMonotone(e1.biodiversityScore.GetOr(0.0) / 10.0, e2.biodiversityScore.GetOr(0.0) / 10.0);
    FloorMonotone(e1.waterQualityIndex.GetOr(0.0) / 20.0, e2.waterQualityIndex.GetOr(0.0) / 20.0);
    FloorMonotone(e1.soilOrganicMatter.GetOr(0.0) * 10.0, e2.soilOrganicMatter.GetOr(0.0) * 10.0);
  }

  // ---------------------------------------------------------------------------
  // Compliance
  // ---------------------------------------------------------------------------

  datatype ComplianceStatus = Compliant | NonCompliant | Warning

  /** One monitoring number as the classifier may receive it in its untyped record:
      absent (`undefined`), JSON `null`, a boolean or a number. */
  datatype Metric = Absent | NullMetric | Flag(flag: bool) | Number(number: real)

  /** The metric as `<` and `*` convert it: `undefined` becomes NaN (None here, since
      every comparison with NaN is false), `null` and `false` become 0, `true` 1. */
  function Numeric(m: Metric): (n: Option<real>)
    ensures n.None? <==> m.Absent?
    ensures m.Number? ==> n == Some(m.number)
  {
    match m
    case Absent => None
    case NullMetric => Some(0.0)
    case Flag(b) => Some(if b then 1.0 else 0.0)
    case Number(x) => Some(x)
  }

  /** The monitoring numbers the classifier reads. */
  datatype ComplianceMetrics = ComplianceMetrics(
    carbonSequestration: Metric, baseline: Metric, biodiversityIndex: Metric)

  datatype ComplianceResult = ComplianceResult(
    status: ComplianceStatus, issues: seq<string>, recommendations: seq<string>)

  const CarbonIssue := "Carbon sequestration below baseline"
  const CarbonRecommendation := "Increase conservation efforts"
  const BiodiversityIssue := "Low biodiversity index"
  const BiodiversityRecommendation := "Implement habitat restoration"

  /** Carbon is more than 10% below baseline. A comparison with a missing number is
      false, as a comparison with `undefined` is; `null` counts as 0. */
  predicate CarbonBelowBaseline(m: ComplianceMetrics)
  {
    var carbon := Numeric(m.carbonSequestration);
    var baseline := Numeric(m.baseline);
    carbon.Some? && baseline.Some? && carbon.value < baseline.value * 0.9
  }

  predicate LowBiodiversity(m: ComplianceMetrics)
  {
    var index := Numeric(m.biodiversityIndex);
    index.Some? && index.value < 50.0
  }

  /** Two checks in order: the carbon check raises a warning, the biodiversity check
      overrides it with non-compliance; each adds one issue with its recommendation. */
  function AnalyzeCompliance(m: ComplianceMetrics): (r: ComplianceResult)
    ensures r.status == NonCompliant <==> LowBiodiversity(m)
    ensures r.status == Warning <==> !LowBiodiversity(m) && CarbonBelowBaseline(m)
    ensures |r.issues| == |r.recommendations| <= 2
    ensures forall i | 0 <= i < |r.issues| ::
      (r.issues[i] == CarbonIssue && r.recommendations[i] == CarbonRecommendation)
      || (r.issues[i] == BiodiversityIssue && r.recommendations[i] == BiodiversityRecommendation)
    ensures CarbonIssue in r.issues <==> CarbonBelowBaseline(m)
    ensures BiodiversityIssue in r.issues <==> LowBiodiversity(m)
    ensures |r.issues| == 2 ==> r.issues[0] == CarbonIssue && r.issues[1] == BiodiversityIssue
  {
    var carbon := CarbonBelowBaseline(m);
    var biodiversity := LowBiodiversity(m);
    ComplianceResult(
      if biodiversity then NonCompliant else if carbon then Warning else Compliant,
      (if carbon then [CarbonIssue] else []) + (if biodiversity then [BiodiversityIssue] else []),
      (if carbon then [CarbonRecommendation] else []) + (if biodiversity then [BiodiversityRecommendation] else []))
  }

  /** The status summarises the issues: compliant exactly when there are none, and
      non-compliant exactly when the biodiversity issue is among them. */
  lemma StatusReflectsIssues(m: ComplianceMetrics)
    ensures AnalyzeCompliance(m).status == Compliant <==> AnalyzeCompliance(m).issues == []
    ensures AnalyzeCompliance(m).status == NonCompliant <==> BiodiversityIssue in AnalyzeCompliance(m).issues
  {
    var r := AnalyzeCompliance(m);
    if r.issues != [] {
      assert r.issues[0] in r.issues;
    }
  }

  /** A missing number never raises an issue, while a `null` one is read as 0: a
      `null` biodiversity index is non-compliant, and a `null` carbon figure against
      a positive baseline is a warning. */
  lemma NullMetricsCompareAsZero(baseline: real, index: real)
    requires baseline > 0.0
    ensures AnalyzeCompliance(ComplianceMetrics(Absent, Number(baseline), NullMetric)).status == NonCompliant
    ensures AnalyzeCompliance(ComplianceMetrics(NullMetric, Number(baseline), Number(index))).issues[0] == CarbonIssue
    ensures index >= 50.0 ==>
      AnalyzeCompliance(ComplianceMetrics(NullMetric, Number(baseline), Number(index))).status == Warning
    ensures AnalyzeCompliance(ComplianceMetrics(Absent, Number(baseline), Absent)).status == Compliant
    ensures AnalyzeCompliance(ComplianceMetrics(Number(baseline), Absent, Number(index))).issues
         == AnalyzeCompliance(ComplianceMetrics(Absent, Absent, Number(index))).issues
  {
  }

  // ---------------------------------------------------------------------------
  // Verification and issuance
  // ---------------------------------------------------------------------------

  datatype VerificationStatus = VerificationPending | Verified | Rejected

  datatype DocumentKind = Ownership | Assessment | VerificationDocument | Monitoring

  datatype DocumentStatus = DocumentPending | Approved | DocumentRejected

  datatype GuardianDocument = GuardianDocument(
    id: string, kind: DocumentKind, hash: string, timestamp: int, status: DocumentStatus)

  datatype GuardianVerification = GuardianVerification(
    projectId: string, policyId: string, documents: seq<GuardianDocument>,
    verificationDate: int, verifier: string, status: VerificationStatus,
    creditsIssued: Option<int>)

  const AutomatedVerifier := "Guardian Automated Verifier"

  /** The simulated verification: it always ends verified, crediting the evidence. */
  function RequestVerification(projectId: string, policyId: string, evidence: Evidence, now: int)
    : (v: GuardianVerification)
    ensures v.status == Verified
    ensures v.creditsIssued == Some(CalculateCredits(evidence))
    ensures v.projectId == projectId && v.policyId == policyId
    ensures v.documents == [] && v.verifier == AutomatedVerifier && v.verificationDate == now
  {
    GuardianVerification(projectId, policyId, [], now, AutomatedVerifier, Verified,
                         Some(CalculateCredits(evidence)))
  }

  datatype Issuance = Issuance(creditId: string, amount: int, tokenId: string, transactionId: string)

  const NotVerifiedError := "Project must be verified before issuing credits"

  /** Mints credits for a verified project; the amount is the credited number, or 0
      when there is none. The clock is read twice, once for the credit id (`now`) and
      once for the transaction id after the simulated mint call (`mintedAt`);
      `random` stands for `Math.random()`, which gives the token serial. */
  function IssueCredits(v: GuardianVerification, creditType: CreditType, now: nat, random: real,
                        mintedAt: nat)
    : (r: Result<Issuance, string>)
    requires 0.0 <= random < 1.0
    ensures r.Err? <==> v.status != Verified
    ensures r.Err? ==> r.error == NotVerifiedError
    ensures r.Ok? ==> r.value.amount == (if v.creditsIssued.Some? then v.creditsIssued.value else 0)
    ensures r.Ok? ==> r.value.creditId == "credit-" + Numerals.Decimal(now)
    ensures r.Ok? ==> exists serial: nat :: serial < 1000000 && serial as real <= random * 1000000.0 < serial as real + 1.0
                                      && r.value.tokenId == "0.0." + Numerals.Decimal(serial)
    ensures r.Ok? ==> r.value.transactionId == "0.0.123@" + Numerals.Decimal(mintedAt)
  {
    if v.status != Verified then Err(NotVerifiedError)
    else
      var serial := (random * 1000000.0).Floor;
      assert 0 <= serial < 1000000;
      Ok(Issuance("credit-" + Numerals.Decimal(now), v.creditsIssued.GetOr(0),
                  "0.0." + Numerals.Decimal(serial), "0.0.123@" + Numerals.Decimal(mintedAt)))
  }

  /** The transaction id records the second clock reading and nothing else: issuances
      that differ only in it have distinct transaction ids and the same credit id. */
  lemma TransactionIdReadsItsOwnClock(v: GuardianVerification, creditType: CreditType, now: nat,
                                      random: real, mintedAt: nat, laterMintedAt: nat)
    requires 0.0 <= random < 1.0
    requires v.status == Verified && mintedAt != laterMintedAt
    ensures var a, b := IssueCredits(v, creditType, now, random, mintedAt),
                        IssueCredits(v, creditType, now, random, laterMintedAt);
      a.value.creditId == b.value.creditId && a.value.transactionId != b.value.transactionId
  {
    var x, y := Numerals.Decimal(mintedAt), Numerals.Decimal(laterMintedAt);
    Numerals.RenderInjective(mintedAt, laterMintedAt, 10);
    assert ("0.0.123@" + x)[8..] == x && ("0.0.123@" + y)[8..] == y;
  }

  /** Requesting verification and then issuing always succeeds and issues exactly the
      credits computed from the evidence. */
  lemma VerifyThenIssue(projectId: string, policyId: string, evidence: Evidence, creditType: CreditType,
                        requestedAt: int, now: nat, random: real, mintedAt: nat)
    requires 0.0 <= random < 1.0
    ensures var r := IssueCredits(RequestVerification(projectId, policyId, evidence, requestedAt), creditType, now, random, mintedAt);
      r.Ok? && r.value.amount == CalculateCredits(evidence)
  {
  }

  /** Only a verified record can be issued against: a pending or rejected one never is. */
  lemma UnverifiedNeverIssues(v: GuardianVerification, creditType: CreditType, now: nat, random: real,
                              mintedAt: nat)
    requires 0.0 <= random < 1.0
    requires v.status in {VerificationPending, Rejected}
    ensures IssueCredits(v, creditType, now, random, mintedAt) == Err(NotVerifiedError)
  {
  }
}
