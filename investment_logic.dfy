/** The rule-based recommendation engine (investment_logic.py): a safety
    check with fixed thresholds, a risk profile chosen by time horizon, a
    two-leg stock/bond split priced by the caller, the ordinary-annuity
    projection, and the gate that produces a portfolio only for a profile
    that passes the safety check. Amounts are `real`; prices come in as
    `Option<real>` (None when every price source failed). */
module InvestmentLogic {
  import opened Wrappers

  /** Months of expenses the emergency fund must cover. */
  const EmergencyFundMonths: real := 3.0
  /** Debt above this fraction of monthly income blocks investing. */
  const HighDebtThreshold: real := 0.3
  /** The factor the source multiplies an AZN amount by to get USD. */
  const UsdToAzn: real := 0.59

  // ---------------------------------------------------------------------
  // Safety check

  /** A priority action; its text renders the amount it carries. */
  datatype Action =
    | PayDownDebt(debtPercentOfIncome: real)
    | DebtPaymentTarget(monthlyPayment: real)
    | BuildEmergencyFund(gap: real)
    | EmergencyFundPlan(monthlySaving: real)
    | SaveOneMoreMonth

  predicate IsDebtAction(a: Action)
  {
    a.PayDownDebt? || a.DebtPaymentTarget?
  }

  predicate IsFundAction(a: Action)
  {
    a.BuildEmergencyFund? || a.EmergencyFundPlan?
  }

  datatype SafetyDetails = SafetyDetails(
    canInvest: bool,
    emergencyFundNeeded: real,
    currentSavings: real,
    debtRatio: real,
    priorityActions: seq<Action>)

  datatype SafetyResult = SafetyResult(isSafe: bool, message: string, details: SafetyDetails)

  const ReadyMessage: string := "✅ Great! You're financially ready to start investing."
  const HoldOnMessage: string := "⚠️ Hold on! Let's secure your finances first before investing."

  /** Debt over salary, and 0 when there is no positive salary. */
  function DebtRatio(debt: real, salary: real): real
  {
    if salary > 0.0 then debt / salary else 0.0
  }

  function EmergencyFundNeeded(monthlyExpenses: real): real
  {
    monthlyExpenses * EmergencyFundMonths
  }

  predicate DebtTooHigh(salary: real, debt: real)
  {
    DebtRatio(debt, salary) > HighDebtThreshold
  }

  predicate FundTooLow(savings: real, monthlyExpenses: real)
  {
    savings < EmergencyFundNeeded(monthlyExpenses)
  }

  /** The two blocking checks both pass. */
  predicate ReadyToInvest(salary: real, savings: real, monthlyExpenses: real, debt: real)
  {
    !DebtTooHigh(salary, debt) && !FundTooLow(savings, monthlyExpenses)
  }

  /** The non-blocking third check. */
  predicate SuggestOneMoreMonth(salary: real, savings: real, monthlyExpenses: real, debt: real)
  {
    savings < monthlyExpenses && !DebtTooHigh(salary, debt)
  }

  /** The priority actions, check by check. */
  function PriorityActions(salary: real, savings: real, monthlyExpenses: real, debt: real): seq<Action>
  {
    var gap := EmergencyFundNeeded(monthlyExpenses) - savings;
    (if DebtTooHigh(salary, debt)
     then [PayDownDebt(DebtRatio(debt, salary) * 100.0), DebtPaymentTarget(debt * 0.1)] else [])
    + (if FundTooLow(savings, monthlyExpenses)
       then [BuildEmergencyFund(gap), EmergencyFundPlan(gap / 6.0)] else [])
    + (if SuggestOneMoreMonth(salary, savings, monthlyExpenses, debt) then [SaveOneMoreMonth] else [])
  }

  /** safety_check */
  method SafetyCheck(salary: real, savings: real, monthlyExpenses: real, debt: real)
    returns (r: SafetyResult)
    ensures r.details.emergencyFundNeeded == 3.0 * monthlyExpenses
    ensures r.details.debtRatio == (if salary > 0.0 then debt / salary else 0.0)
    ensures r.details.currentSavings == savings
    ensures r.isSafe == r.details.canInvest
    ensures r.isSafe <==> !(r.details.debtRatio > 0.3) && !(savings < r.details.emergencyFundNeeded)
    ensures r.message == (if r.isSafe then ReadyMessage else HoldOnMessage)
    ensures r.details.priorityActions == PriorityActions(salary, savings, monthlyExpenses, debt)
  {
    var emergencyFund := monthlyExpenses * EmergencyFundMonths;
    var ratio := if salary > 0.0 then debt / salary else 0.0;
    var canInvest := true;
    var actions: seq<Action> := [];
    if ratio > HighDebtThreshold {
      canInvest := false;
      actions := actions + [PayDownDebt(ratio * 100.0)];
      actions := actions + [DebtPaymentTarget(debt * 0.1)];
    }
    if savings < emergencyFund {
      canInvest := false;
      var gap := emergencyFund - savings;
      actions := actions + [BuildEmergencyFund(gap)];
      actions := actions + [EmergencyFundPlan(gap / 6.0)];
    }
    if savings < monthlyExpenses && ratio <= HighDebtThreshold {
      actions := actions + [SaveOneMoreMonth];
    }
    var message := if canInvest then ReadyMessage else HoldOnMessage;
    r := SafetyResult(canInvest, message, SafetyDetails(canInvest, emergencyFund, savings, ratio, actions));
  }

  /** Two actions per failed check, debt before emergency fund, the soft
      suggestion last; the profile is ready exactly when every action is the
      soft suggestion, so the suggestion never changes readiness. */
  lemma PriorityActionsShape(salary: real, savings: real, monthlyExpenses: real, debt: real)
    ensures var actions := PriorityActions(salary, savings, monthlyExpenses, debt);
      && |actions| == (if DebtTooHigh(salary, debt) then 2 else 0)
                      + (if FundTooLow(savings, monthlyExpenses) then 2 else 0)
                      + (if SuggestOneMoreMonth(salary, savings, monthlyExpenses, debt) then 1 else 0)
      && (forall i, j ::
            (0 <= i < |actions| && 0 <= j < |actions| && IsFundAction(actions[i]) && IsDebtAction(actions[j]))
            ==> j < i)
      && (forall i :: 0 <= i < |actions| && actions[i] == SaveOneMoreMonth ==> i == |actions| - 1)
      && (ReadyToInvest(salary, savings, monthlyExpenses, debt)
          <==> forall i :: 0 <= i < |actions| ==> actions[i] == SaveOneMoreMonth)
  {
    var actions := PriorityActions(salary, savings, monthlyExpenses, debt);
    if !ReadyToInvest(salary, savings, monthlyExpenses, debt) {
      assert actions[0].PayDownDebt? || actions[0].BuildEmergencyFund?;
    }
  }

  /** A debt ratio above 30% blocks investing whatever the savings. */
  lemma HighDebtBlocks(salary: real, savings: real, monthlyExpenses: real, debt: real)
    requires salary > 0.0 && debt / salary > 0.3
    ensures !ReadyToInvest(salary, savings, monthlyExpenses, debt)
    ensures PriorityActions(salary, savings, monthlyExpenses, debt)[0] == PayDownDebt(debt / salary * 100.0)
  {
  }

  /** Enough savings and a debt ratio of at most 30% make the profile ready. */
  lemma SafeProfileIsReady(salary: real, savings: real, monthlyExpenses: real, debt: real)
    requires savings >= 3.0 * monthlyExpenses && DebtRatio(debt, salary) <= 0.3
    ensures ReadyToInvest(salary, savings, monthlyExpenses, debt)
  {
  }

  // ---------------------------------------------------------------------
  // Risk profiles

  datatype RiskProfile = Conservative | Moderate | Aggressive

  /** One row of RISK_PROFILES. */
  datatype ProfileMix = ProfileMix(stocks: nat, bonds: nat, description: string)

  /** RISK_PROFILES: every profile splits 100% between two non-empty legs. */
  function Mix(profile: RiskProfile): (m: ProfileMix)
    ensures m.stocks + m.bonds == 100
    ensures 0 < m.stocks && 0 < m.bonds
  {
    match profile
    case Conservative => ProfileMix(20, 80, "Very safe, minimal risk, lower returns")
    case Moderate => ProfileMix(60, 40, "Balanced risk and returns")
    case Aggressive => ProfileMix(80, 20, "Higher risk, higher potential returns")
  }

  /** determine_risk_profile: defined for every horizon. */
  function DetermineRiskProfile(timeHorizonYears: int): (p: RiskProfile)
    ensures p == Conservative <==> timeHorizonYears < 3
    ensures p == Moderate <==> 3 <= timeHorizonYears < 7
    ensures p == Aggressive <==> 7 <= timeHorizonYears
  {
    if timeHorizonYears < 3 then Conservative
    else if timeHorizonYears < 7 then Moderate
    else Aggressive
  }

  // ---------------------------------------------------------------------
  // Portfolio

  datatype AssetClass = Stocks | Bonds

  datatype Allocation = Allocation(
    assetType: AssetClass,
    etf: string,
    etfName: string,
    percentage: nat,
    monthlyAmountUsd: real,
    monthlyAmountAzn: real,
    currentPrice: real,
    sharesPerMonth: real,
    description: string)

  datatype Portfolio = Portfolio(
    riskProfile: RiskProfile,
    timeHorizonYears: int,
    monthlyInvestmentAzn: real,
    monthlyInvestmentUsd: real,
    allocations: seq<Allocation>)

  /** The fund that represents each asset class. */
  function EtfFor(asset: AssetClass): string
  {
    match asset
    case Stocks => "SPY"
    case Bonds => "BND"
  }

  function PercentageFor(profile: RiskProfile, asset: AssetClass): nat
  {
    match asset
    case Stocks => Mix(profile).stocks
    case Bonds => Mix(profile).bonds
  }

  /** The USD amount of one leg. */
  function LegAmountUsd(monthlyInvestment: real, timeHorizonYears: int, asset: AssetClass): real
  {
    monthlyInvestment * UsdToAzn
      * (PercentageFor(DetermineRiskProfile(timeHorizonYears), asset) as real / 100.0)
  }

  /** A leg is listed when its amount is positive and its price was found. */
  predicate LegListed(monthlyInvestment: real, timeHorizonYears: int, asset: AssetClass, price: Option<real>)
  {
    LegAmountUsd(monthlyInvestment, timeHorizonYears, asset) > 0.0 && price.Some?
  }

  /** The source divides a listed leg's amount by its price unchecked. */
  predicate PriceUsable(monthlyInvestment: real, timeHorizonYears: int, asset: AssetClass, price: Option<real>)
  {
    LegListed(monthlyInvestment, timeHorizonYears, asset, price) ==> price.value != 0.0
  }

  /** The allocation for one leg, or nothing when the leg is omitted. */
  function Leg(monthlyInvestment: real, timeHorizonYears: int, asset: AssetClass, price: Option<real>): (r: seq<Allocation>)
    requires PriceUsable(monthlyInvestment, timeHorizonYears, asset, price)
    ensures |r| <= 1
    ensures |r| == 1 <==> LegListed(monthlyInvestment, timeHorizonYears, asset, price)
    ensures |r| == 1 ==>
      && r[0].assetType == asset
      && r[0].etf == EtfFor(asset)
      && r[0].percentage == PercentageFor(DetermineRiskProfile(timeHorizonYears), asset)
      && r[0].currentPrice == price.value
      && r[0].monthlyAmountUsd == LegAmountUsd(monthlyInvestment, timeHorizonYears, asset)
      && r[0].monthlyAmountUsd > 0.0
      && r[0].monthlyAmountAzn == monthlyInvestment * (r[0].percentage as real / 100.0)
      && r[0].sharesPerMonth * r[0].currentPrice == r[0].monthlyAmountUsd
  {
    var pct := PercentageFor(DetermineRiskProfile(timeHorizonYears), asset);
    var amountUsd := LegAmountUsd(monthlyInvestment, timeHorizonYears, asset);
    if amountUsd > 0.0 && price.Some? then
      var shares := amountUsd / price.value;
      [Allocation(
        asset,
        EtfFor(asset),
        match asset case Stocks => "S&P 500 ETF" case Bonds => "Total Bond Market ETF",
        pct,
        amountUsd,
        monthlyInvestment * (pct as real / 100.0),
        price.value,
        shares,
        match asset
        case Stocks => "Large US companies - Apple, Microsoft, Amazon, etc."
        case Bonds => "Government and corporate bonds - stable and safe")]
    else []
  }

  /** A leg's amount is positive exactly when the monthly investment is. */
  lemma LegAmountPositive(monthlyInvestment: real, timeHorizonYears: int, asset: AssetClass)
    ensures LegAmountUsd(monthlyInvestment, timeHorizonYears, asset) > 0.0 <==> monthlyInvestment > 0.0
  {
    var pct := PercentageFor(DetermineRiskProfile(timeHorizonYears), asset) as real / 100.0;
    assert pct > 0.0;
    var usd := monthlyInvestment * UsdToAzn;
    assert usd > 0.0 <==> monthlyInvestment > 0.0;
    assert usd * pct > 0.0 <==> usd > 0.0;
  }

  /** The two legs' amounts add up to the whole monthly investment. */
  lemma LegAmountsSplitInvestment(monthlyInvestment: real, timeHorizonYears: int)
    ensures LegAmountUsd(monthlyInvestment, timeHorizonYears, Stocks)
            + LegAmountUsd(monthlyInvestment, timeHorizonYears, Bonds)
            == monthlyInvestment * UsdToAzn
  {
    var m := Mix(DetermineRiskProfile(timeHorizonYears));
    var usd := monthlyInvestment * UsdToAzn;
    calc {
      usd * (m.stocks as real / 100.0) + usd * (m.bonds as real / 100.0);
      usd * ((m.stocks + m.bonds) as real / 100.0);
    }
  }

  /** With a positive investment and both prices found, the portfolio
      lists both legs, and their amounts add up to the whole investment,
      in dollars and in manat. */
  lemma LegsSplitInvestment(monthlyInvestment: real, timeHorizonYears: int, stockPrice: Option<real>, bondPrice: Option<real>)
    requires PricesUsable(monthlyInvestment, timeHorizonYears, stockPrice, bondPrice)
    requires monthlyInvestment > 0.0 && stockPrice.Some? && bondPrice.Some?
    ensures var legs := Leg(monthlyInvestment, timeHorizonYears, Stocks, stockPrice)
                        + Leg(monthlyInvestment, timeHorizonYears, Bonds, bondPrice);
      && |legs| == 2
      && legs[0].monthlyAmountUsd + legs[1].monthlyAmountUsd == monthlyInvestment * UsdToAzn
      && legs[0].monthlyAmountAzn + legs[1].monthlyAmountAzn == monthlyInvestment
  {
    LegAmountPositive(monthlyInvestment, timeHorizonYears, Stocks);
    LegAmountPositive(monthlyInvestment, timeHorizonYears, Bonds);
    LegAmountsSplitInvestment(monthlyInvestment, timeHorizonYears);
    var m := Mix(DetermineRiskProfile(timeHorizonYears));
    assert monthlyInvestment * (m.stocks as real / 100.0) + monthlyInvestment * (m.bonds as real / 100.0)
        == monthlyInvestment * ((m.stocks + m.bonds) as real / 100.0);
  }

  predicate PricesUsable(monthlyInvestment: real, timeHorizonYears: int, stockPrice: Option<real>, bondPrice: Option<real>)
  {
    && PriceUsable(monthlyInvestment, timeHorizonYears, Stocks, stockPrice)
    && PriceUsable(monthlyInvestment, timeHorizonYears, Bonds, bondPrice)
  }

  /** calculate_portfolio, with the SPY and BND price lookups as inputs:
      at most two allocations, stocks before bonds, each listed only when
      its amount is positive and its price was found. */
  method CalculatePortfolio(monthlyInvestment: real, timeHorizonYears: int, stockPrice: Option<real>, bondPrice: Option<real>)
    returns (p: Portfolio)
    requires PricesUsable(monthlyInvestment, timeHorizonYears, stockPrice, bondPrice)
    ensures p.riskProfile == DetermineRiskProfile(timeHorizonYears)
    ensures p.timeHorizonYears == timeHorizonYears
    ensures p.monthlyInvestmentAzn == monthlyInvestment
    ensures p.monthlyInvestmentUsd == monthlyInvestment * UsdToAzn
    ensures p.allocations
      == Leg(monthlyInvestment, timeHorizonYears, Stocks, stockPrice)
         + Leg(monthlyInvestment, timeHorizonYears, Bonds, bondPrice)
  {
    var riskProfile := DetermineRiskProfile(timeHorizonYears);
    p := Portfolio(riskProfile, timeHorizonYears, monthlyInvestment, monthlyInvestment * UsdToAzn, []);
    p := p.(allocations := p.allocations + Leg(monthlyInvestment, timeHorizonYears, Stocks, stockPrice));
    p := p.(allocations := p.allocations + Leg(monthlyInvestment, timeHorizonYears, Bonds, bondPrice));
  }

  // ---------------------------------------------------------------------
  // Projection

  function ExpectedReturn(profile: RiskProfile): real
  {
    match profile
    case Conservative => 0.04
    case Moderate => 0.07
    case Aggressive => 0.09
  }

  function Pow(b: real, n: nat): real
  {
    if n == 0 then 1.0 else b * Pow(b, n - 1)
  }

  lemma {:induction false} PowPositive(b: real, n: nat)
    requires b > 0.0
    ensures Pow(b, n) > 0.0
  {
    if n > 0 {
      PowPositive(b, n - 1);
    }
  }

  /** Python's `**` with an integer exponent on a positive base. */
  function IntPow(b: real, e: int): real
    requires b > 0.0
  {
    if e >= 0 then Pow(b, e)
    else
      PowPositive(b, -e);
      1.0 / Pow(b, -e)
  }

  datatype Projection = Projection(expectedReturn: real, totalInvested: real, futureValue: real, gains: real)

  /** The projection numbers of generate_recommendation_text. */
  function Project(monthlyInvestment: real, timeHorizonYears: int, profile: RiskProfile): Projection
  {
    var r := ExpectedReturn(profile);
    var growth := 1.0 + r / 12.0;
    var totalInvested := monthlyInvestment * (timeHorizonYears as real) * 12.0;
    var futureValue := monthlyInvestment * ((IntPow(growth, timeHorizonYears * 12) - 1.0) / (r / 12.0)) * growth;
    Projection(r, totalInvested, futureValue, futureValue - totalInvested)
  }

  /** `g + g^2 + ... + g^n`: what one unit paid at the start of each of `n`
      months grows to at the end, at monthly growth factor `g`. */
  function Contributions(g: real, n: nat): real
  {
    if n == 0 then 0.0 else Contributions(g, n - 1) + Pow(g, n)
  }

  /** The closed form of the geometric sum. */
  lemma {:induction false} GeometricSum(g: real, n: nat)
    ensures Contributions(g, n) * (g - 1.0) == (Pow(g, n) - 1.0) * g
  {
    if n > 0 {
      GeometricSum(g, n - 1);
      var p := Pow(g, n - 1);
      assert Pow(g, n) == g * p;
      calc {
        Contributions(g, n) * (g - 1.0);
        Contributions(g, n - 1) * (g - 1.0) + g * p * (g - 1.0);
        (p - 1.0) * g + g * p * (g - 1.0);
        (g * p - 1.0) * g;
      }
    }
  }

  /** The closed-form future value is the annuity-due sum of the monthly
      contributions. */
  lemma FutureValueIsAnnuityDue(monthlyInvestment: real, timeHorizonYears: nat, profile: RiskProfile)
    ensures Project(monthlyInvestment, timeHorizonYears, profile).futureValue
            == monthlyInvestment * Contributions(1.0 + ExpectedReturn(profile) / 12.0, timeHorizonYears * 12)
  {
    var r := ExpectedReturn(profile);
    var i := r / 12.0;
    var g := 1.0 + i;
    var n := timeHorizonYears * 12;
    GeometricSum(g, n);
    assert (Pow(g, n) - 1.0) * g == Contributions(g, n) * i;
    assert ((Pow(g, n) - 1.0) / i) * g == Contributions(g, n);
  }

  lemma {:induction false} PowAboveOne(g: real, n: nat)
    requires g > 1.0 && n >= 1
    ensures Pow(g, n) > 1.0
  {
    if n > 1 {
      PowAboveOne(g, n - 1);
      assert g * Pow(g, n - 1) > Pow(g, n - 1);
    }
  }

  /** Each of the `n` contributions grows to more than it was. */
  lemma {:induction false} ContributionsExceedCount(g: real, n: nat)
    requires g > 1.0 && n >= 1
    ensures Contributions(g, n) > n as real
  {
    PowAboveOne(g, n);
    if n > 1 {
      ContributionsExceedCount(g, n - 1);
    }
  }

  /** With a positive contribution over at least one year the projected
      value exceeds what was paid in. */
  lemma GainsPositive(monthlyInvestment: real, timeHorizonYears: nat, profile: RiskProfile)
    requires monthlyInvestment > 0.0 && timeHorizonYears >= 1
    ensures Project(monthlyInvestment, timeHorizonYears, profile).totalInvested
            == monthlyInvestment * (timeHorizonYears * 12) as real
    ensures Project(monthlyInvestment, timeHorizonYears, profile).gains > 0.0
  {
    var g := 1.0 + ExpectedReturn(profile) / 12.0;
    var n := timeHorizonYears * 12;
    FutureValueIsAnnuityDue(monthlyInvestment, timeHorizonYears, profile);
    ContributionsExceedCount(g, n);
    assert monthlyInvestment * Contributions(g, n) > monthlyInvestment * n as real;
  }

  /** 500 a month for 7 years at 7%: 42000 paid in, and more than that at the end. */
  lemma ProjectionExample()
    ensures Project(500.0, 7, Moderate).totalInvested == 42000.0
    ensures Project(500.0, 7, Moderate).futureValue > 42000.0
  {
    GainsPositive(500.0, 7, Moderate);
  }

  // ---------------------------------------------------------------------
  // Recommendation

  /** What generate_recommendation_text fills in, apart from number formatting. */
  datatype Plan = Plan(
    goal: string,
    riskProfile: RiskProfile,
    timeHorizonYears: int,
    monthlyInvestmentAzn: real,
    monthlyInvestmentUsd: real,
    allocations: seq<Allocation>,
    horizonReason: string,
    riskDescription: string,
    projection: Projection,
    firstPurchase: string,
    secondPurchase: string)

  function HorizonReason(timeHorizonYears: int): string
  {
    if timeHorizonYears >= 7 then "enough time to recover from market dips"
    else if timeHorizonYears >= 3 then "a moderate timeframe, so we balance risk"
    else "limited time, so we prioritize safety"
  }

  /** generate_recommendation_text. The source reads the first allocation
      unconditionally, so a portfolio without allocations is excluded. */
  function RecommendationPlan(portfolio: Portfolio, goal: string): (plan: Plan)
    requires |portfolio.allocations| >= 1
    ensures plan.projection
            == Project(portfolio.monthlyInvestmentAzn, portfolio.timeHorizonYears, portfolio.riskProfile)
    ensures plan.firstPurchase == portfolio.allocations[0].etf
    ensures plan.secondPurchase
            == if |portfolio.allocations| > 1 then portfolio.allocations[1].etf else "bonds"
  {
    Plan(
      goal,
      portfolio.riskProfile,
      portfolio.timeHorizonYears,
      portfolio.monthlyInvestmentAzn,
      portfolio.monthlyInvestmentUsd,
      portfolio.allocations,
      HorizonReason(portfolio.timeHorizonYears),
      Mix(portfolio.riskProfile).description,
      Project(portfolio.monthlyInvestmentAzn, portfolio.timeHorizonYears, portfolio.riskProfile),
      portfolio.allocations[0].etf,
      if |portfolio.allocations| > 1 then portfolio.allocations[1].etf else "bonds")
  }

  /** The guidance given instead of a plan: the headline, the priority
      actions one per line, and the emergency fund to build. */
  datatype Guidance = Guidance(message: string, actions: seq<Action>, emergencyFundNeeded: real)

  datatype RecommendationText = PlanText(plan: Plan) | GuidanceText(guidance: Guidance)

  datatype Recommendation = Recommendation(
    isSafeToInvest: bool,
    safetyMessage: string,
    safetyDetails: SafetyDetails,
    portfolio: Option<Portfolio>,
    text: RecommendationText)

  /** What the source needs of the prices when it goes on to a plan: no
      division by a zero price, and at least one listed leg. */
  predicate PlanPossible(monthlyInvestment: real, timeHorizonYears: int, stockPrice: Option<real>, bondPrice: Option<real>)
  {
    && PricesUsable(monthlyInvestment, timeHorizonYears, stockPrice, bondPrice)
    && (LegListed(monthlyInvestment, timeHorizonYears, Stocks, stockPrice)
        || LegListed(monthlyInvestment, timeHorizonYears, Bonds, bondPrice))
  }

  /** generate_investment_recommendation: a portfolio and a plan exactly
      when the safety check passes, otherwise only guidance. */
  method GenerateInvestmentRecommendation(
    salary: real, savings: real, monthlyExpenses: real, debt: real,
    monthlyInvestment: real, goal: string, timeHorizonYears: int,
    stockPrice: Option<real>, bondPrice: Option<real>)
    returns (r: Recommendation)
    requires ReadyToInvest(salary, savings, monthlyExpenses, debt)
             ==> PlanPossible(monthlyInvestment, timeHorizonYears, stockPrice, bondPrice)
    ensures r.isSafeToInvest <==> ReadyToInvest(salary, savings, monthlyExpenses, debt)
    ensures r.portfolio.Some? <==> r.isSafeToInvest
    ensures r.text.PlanText? <==> r.isSafeToInvest
    ensures r.safetyMessage == (if r.isSafeToInvest then ReadyMessage else HoldOnMessage)
    ensures r.safetyDetails.canInvest == r.isSafeToInvest
    ensures r.safetyDetails.emergencyFundNeeded == 3.0 * monthlyExpenses
    ensures r.safetyDetails.debtRatio == (if salary > 0.0 then debt / salary else 0.0)
    ensures r.safetyDetails.currentSavings == savings
    ensures r.safetyDetails.priorityActions == PriorityActions(salary, savings, monthlyExpenses, debt)
    ensures r.portfolio.Some? ==>
      && r.portfolio.value.riskProfile == DetermineRiskProfile(timeHorizonYears)
      && r.portfolio.value.timeHorizonYears == timeHorizonYears
      && r.portfolio.value.monthlyInvestmentAzn == monthlyInvestment
      && r.portfolio.value.monthlyInvestmentUsd == monthlyInvestment * UsdToAzn
      && r.portfolio.value.allocations
         == Leg(monthlyInvestment, timeHorizonYears, Stocks, stockPrice)
            + Leg(monthlyInvestment, timeHorizonYears, Bonds, bondPrice)
      && r.text == PlanText(RecommendationPlan(r.portfolio.value, goal))
    ensures !r.isSafeToInvest ==>
      && r.safetyDetails.priorityActions != []
      && r.text == GuidanceText(Guidance(HoldOnMessage, r.safetyDetails.priorityActions, 3.0 * monthlyExpenses))
  {
    var safety := SafetyCheck(salary, savings, monthlyExpenses, debt);
    if safety.isSafe {
      var portfolio := CalculatePortfolio(monthlyInvestment, timeHorizonYears, stockPrice, bondPrice);
      var plan := RecommendationPlan(portfolio, goal);
      r := Recommendation(true, safety.message, safety.details, Some(portfolio), PlanText(plan));
    } else {
      PriorityActionsShape(salary, savings, monthlyExpenses, debt);
      var guidance := Guidance(safety.message, safety.details.priorityActions, safety.details.emergencyFundNeeded);
      r := Recommendation(false, safety.message, safety.details, None, GuidanceText(guidance));
    }
  }

  /** The first case of the module's self-test: a comfortable profile with a
      seven-year horizon gets the aggressive 80/20 split in both funds. */
  method GoodFinancialPosition(spyPrice: real, bndPrice: real) returns (r: Recommendation)
    requires spyPrice != 0.0 && bndPrice != 0.0
    ensures r.isSafeToInvest
    ensures r.portfolio.Some? && r.portfolio.value.riskProfile == Aggressive
    ensures |r.portfolio.value.allocations| == 2
    ensures r.portfolio.value.allocations[0].etf == "SPY" && r.portfolio.value.allocations[0].percentage == 80
    ensures r.portfolio.value.allocations[1].etf == "BND" && r.portfolio.value.allocations[1].percentage == 20
  {
    LegAmountPositive(500.0, 7, Stocks);
    LegAmountPositive(500.0, 7, Bonds);
    r := GenerateInvestmentRecommendation(3000.0, 10000.0, 1500.0, 0.0, 500.0, "house", 7, Some(spyPrice), Some(bndPrice));
  }

  /** The second case of the self-test: a 75% debt ratio blocks investing
      and the first action is to pay down debt. */
  method HighDebt() returns (r: Recommendation)
    ensures !r.isSafeToInvest && r.portfolio.None?
    ensures |r.safetyDetails.priorityActions| >= 1
    ensures r.safetyDetails.priorityActions[0] == PayDownDebt(75.0)
  {
    r := GenerateInvestmentRecommendation(2000.0, 5000.0, 1200.0, 1500.0, 300.0, "retirement", 10, None, None);
  }
}
