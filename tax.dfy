/**
 * The salary tax estimator of js/tax-pakistan.js: one pass from the form's
 * figures to the annual liability. Every amount is an exact `real` (rupees
 * per year); the form layer has already turned each field into a number.
 */
module TaxPakistan {

  /** The figures `calculateTax` reads from the form, already parsed. */
  datatype TaxInputs = TaxInputs(
    basic: real, bonus: real, other: real,
    medical: real, medicalProvided: bool,
    carCost: real, carType: string,
    shareFmv: real, shareCost: real,
    housingProvided: bool,
    loanAmount: real, loanRate: real,
    flying: real,
    zakat: real, eduFees: real, eduKids: real,
    donations: real, pension: real, housingInterest: real,
    teacher: bool, senior: bool)

  /** The figures `calculateTax` hands to the audit trail. */
  datatype TaxResult = TaxResult(
    totalSalaryIncome: real,
    totalDeductions: real,
    taxableIncome: real,
    grossTax: real,
    totalCredits: real,
    rebates: real,
    blockTax: real,
    finalLiability: real)

  function Min(a: real, b: real): real { if a <= b then a else b }
  function Max(a: real, b: real): real { if a >= b then a else b }

  // ---------------------------------------------------------------------
  // Step 1: gross salary income
  // ---------------------------------------------------------------------

  datatype MedicalSplit = MedicalSplit(exempt: real, taxable: real)

  /**
   * The medical allowance is wholly taxable when the employer also provides a
   * medical facility; otherwise up to a tenth of basic salary is exempt.
   */
  function SplitMedical(allowance: real, basic: real, facilityProvided: bool): (m: MedicalSplit)
    ensures m.exempt + m.taxable == allowance
    ensures facilityProvided ==> m.exempt == 0.0 && m.taxable == allowance
    ensures !facilityProvided ==> m.exempt <= allowance && m.exempt <= basic * 0.10 && m.taxable >= 0.0
    ensures !facilityProvided ==> m.exempt == allowance || m.exempt == basic * 0.10
  {
    if facilityProvided then MedicalSplit(0.0, allowance)
    else
      var limit := basic * 0.10;
      MedicalSplit(Min(allowance, limit), Max(0.0, allowance - limit))
  }

  /** Company car: a tenth of its cost for full personal use, a twentieth otherwise. */
  function CarBenefit(cost: real, carType: string): (b: real)
    ensures cost <= 0.0 ==> b == 0.0
    ensures cost > 0.0 ==> cost * 0.05 <= b <= cost * 0.10
    ensures cost > 0.0 && carType != "full" ==> b == cost * 0.05
    ensures cost > 0.0 ==> (b == cost * 0.10 <==> carType == "full")
  {
    if cost > 0.0 then
      var rate := if carType == "full" then 0.10 else 0.05;
      cost * rate
    else 0.0
  }

  /** Employee shares: the excess of fair market value over what the employee paid. */
  function ShareBenefit(fmv: real, cost: real): (b: real)
    ensures b >= 0.0 && b >= fmv - cost
    ensures b == 0.0 || b == fmv - cost
  {
    if fmv > cost then fmv - cost else 0.0
  }

  /** Employer housing: 45% of basic salary, when provided. */
  function HousingBenefit(basic: real, provided: bool): (b: real)
    ensures provided ==> b == basic * 0.45
    ensures !provided ==> b == 0.0
  {
    if provided then basic * 0.45 else 0.0
  }

  const LoanThreshold: real := 1000000.0
  const BenchmarkRate: real := 10.0

  /**
   * Employer loan: for a principal above one million charged below the 10%
   * benchmark, the interest saved against the benchmark is a perquisite.
   */
  function LoanBenefit(principal: real, chargedRate: real): (b: real)
    ensures b >= 0.0
    ensures principal <= LoanThreshold || chargedRate >= BenchmarkRate ==> b == 0.0
    ensures principal > LoanThreshold && chargedRate < BenchmarkRate ==> b > 0.0
    ensures chargedRate >= 0.0 ==> b <= Max(0.0, principal) * 0.10
  {
    if principal > LoanThreshold then
      var benchmark := BenchmarkRate;
      if chargedRate < benchmark then principal * ((benchmark - chargedRate) / 100.0) else 0.0
    else 0.0
  }

  /** A qualifying loan's perquisite is the interest the benchmark would have charged beyond the actual rate. */
  lemma LoanBenefitIsInterestSaved(principal: real, chargedRate: real)
    requires principal > LoanThreshold && chargedRate < BenchmarkRate
    ensures LoanBenefit(principal, chargedRate) * 100.0 == principal * (BenchmarkRate - chargedRate)
  {
  }

  /**
   * Salary income: the cash received with the exempt part of the medical
   * allowance taken out, plus the perquisites, none of which is negative
   * for a non-negative basic salary.
   */
  function TotalSalaryIncome(inp: TaxInputs): (s: real)
    ensures var m := SplitMedical(inp.medical, inp.basic, inp.medicalProvided);
      s == inp.basic + inp.bonus + inp.other + inp.medical - m.exempt
        + CarBenefit(inp.carCost, inp.carType) + ShareBenefit(inp.shareFmv, inp.shareCost)
        + HousingBenefit(inp.basic, inp.housingProvided) + LoanBenefit(inp.loanAmount, inp.loanRate)
    ensures inp.basic >= 0.0 ==>
      s >= inp.basic + inp.bonus + inp.other + SplitMedical(inp.medical, inp.basic, inp.medicalProvided).taxable
  {
    inp.basic + inp.bonus + inp.other
    + SplitMedical(inp.medical, inp.basic, inp.medicalProvided).taxable
    + CarBenefit(inp.carCost, inp.carType)
    + ShareBenefit(inp.shareFmv, inp.shareCost)
    + HousingBenefit(inp.basic, inp.housingProvided)
    + LoanBenefit(inp.loanAmount, inp.loanRate)
  }

  // ---------------------------------------------------------------------
  // Step 2: deductible allowances
  // ---------------------------------------------------------------------

  const EducationIncomeCeiling: real := 1500000.0

  /**
   * Education expenses, allowed only below an income (after zakat) of 1.5
   * million and only when fees were paid: the least of 5% of the fees, a
   * quarter of the income and 60,000 per child.
   */
  function EducationDeduction(incomeAfterZakat: real, fees: real, kids: real): (d: real)
    ensures incomeAfterZakat >= EducationIncomeCeiling || fees <= 0.0 ==> d == 0.0
    ensures incomeAfterZakat < EducationIncomeCeiling && fees > 0.0 ==>
      && d <= fees * 0.05 && d <= incomeAfterZakat * 0.25 && d <= 60000.0 * kids
      && (d == fees * 0.05 || d == incomeAfterZakat * 0.25 || d == 60000.0 * kids)
  {
    if incomeAfterZakat < EducationIncomeCeiling && fees > 0.0 then
      Min(Min(fees * 0.05, incomeAfterZakat * 0.25), 60000.0 * kids)
    else 0.0
  }

  // ---------------------------------------------------------------------
  // Step 3: slab tax
  // ---------------------------------------------------------------------

  /** Upper ends of the first five slabs. */
  const Thresholds: seq<real> := [600000.0, 1200000.0, 2200000.0, 3200000.0, 4100000.0]
  /** Lower end, tax at the lower end, and marginal rate of each of the six slabs. */
  const SlabFloor: seq<real> := [0.0, 600000.0, 1200000.0, 2200000.0, 3200000.0, 4100000.0]
  const SlabBase: seq<real> := [0.0, 0.0, 30000.0, 180000.0, 430000.0, 700000.0]
  const SlabRate: seq<real> := [0.0, 0.05, 0.15, 0.25, 0.30, 0.35]

  /** The slab an income falls in: the number of thresholds it strictly exceeds. */
  function Bracket(income: real): (k: nat)
    ensures k <= 5
    ensures forall j :: 0 <= j < k ==> Thresholds[j] < income
    ensures k < 5 ==> income <= Thresholds[k]
  {
    if income <= 600000.0 then 0
    else if income <= 1200000.0 then 1
    else if income <= 2200000.0 then 2
    else if income <= 3200000.0 then 3
    else if income <= 4100000.0 then 4
    else 5
  }

  /** `calculateSlabTax`: cumulative marginal tax over the six slabs. */
  function SlabTax(income: real): (tax: real)
    ensures income <= 600000.0 ==> tax == 0.0
    ensures tax >= 0.0
    ensures tax <= Max(0.0, income) * 0.35
  {
    if income <= 600000.0 then 0.0
    else if income <= 1200000.0 then (income - 600000.0) * 0.05
    else if income <= 2200000.0 then 30000.0 + (income - 1200000.0) * 0.15
    else if income <= 3200000.0 then 180000.0 + (income - 2200000.0) * 0.25
    else if income <= 4100000.0 then 430000.0 + (income - 3200000.0) * 0.30
    else 700000.0 + (income - 4100000.0) * 0.35
  }

  /** The tax is the base of the income's slab plus the slab's rate on the excess. */
  lemma SlabTaxByBracket(income: real)
    ensures var k := Bracket(income);
      SlabTax(income) == SlabBase[k] + (income - SlabFloor[k]) * SlabRate[k]
  {
  }

  /** The slabs join without jumps: at each threshold both formulas agree. */
  lemma SlabTaxContinuous(k: nat)
    requires k < 5
    ensures SlabTax(Thresholds[k]) == SlabBase[k + 1]
    ensures SlabBase[k] + (Thresholds[k] - SlabFloor[k]) * SlabRate[k] == SlabBase[k + 1]
    ensures Thresholds[k] == SlabFloor[k + 1]
  {
  }

  /** More income never means less tax, and each extra rupee costs at most 35 paisa. */
  lemma SlabTaxMonotone(a: real, b: real)
    requires a <= b
    ensures SlabTax(a) <= SlabTax(b)
    ensures SlabTax(b) - SlabTax(a) <= (b - a) * 0.35
  {
  }

  // ---------------------------------------------------------------------
  // Step 4: investment credits
  // ---------------------------------------------------------------------

  /** The average slab rate, zero when there is no taxable income. */
  function AverageRate(grossTax: real, taxable: real): (rate: real)
    ensures taxable <= 0.0 ==> rate == 0.0
    ensures taxable > 0.0 && grossTax >= 0.0 ==> rate >= 0.0
  {
    if taxable > 0.0 then grossTax / taxable else 0.0
  }

  /** Applied to the whole taxable income, the average rate gives back the gross tax. */
  lemma AverageRateRecoversTax(grossTax: real, taxable: real)
    requires taxable > 0.0
    ensures AverageRate(grossTax, taxable) * taxable == grossTax
  {
  }

  datatype Credits = Credits(eligibleDonation: real, eligiblePension: real, eligibleHousing: real, total: real)

  /**
   * Donations (capped at 30% of taxable income), pension contributions (20%)
   * and housing-loan markup (50%) each earn a credit at the average rate.
   */
  function InvestmentCredits(taxable: real, grossTax: real, donations: real, pension: real, housingInterest: real): (c: Credits)
    ensures c.eligibleDonation <= donations && c.eligibleDonation <= taxable * 0.30
    ensures c.eligibleDonation == donations || c.eligibleDonation == taxable * 0.30
    ensures c.eligiblePension <= pension && c.eligiblePension <= taxable * 0.20
    ensures c.eligiblePension == pension || c.eligiblePension == taxable * 0.20
    ensures c.eligibleHousing <= housingInterest && c.eligibleHousing <= taxable * 0.50
    ensures c.eligibleHousing == housingInterest || c.eligibleHousing == taxable * 0.50
    ensures taxable <= 0.0 ==> c.total == 0.0
  {
    var avgRate := AverageRate(grossTax, taxable);
    var eligibleDonation := Min(donations, taxable * 0.30);
    var eligiblePension := Min(pension, taxable * 0.20);
    var eligibleHousing := Min(housingInterest, taxable * 0.50);
    Credits(eligibleDonation, eligiblePension, eligibleHousing,
            eligibleDonation * avgRate + eligiblePension * avgRate + eligibleHousing * avgRate)
  }

  /** No contribution, however large, is credited beyond its cap. */
  lemma CreditsCapped(taxable: real, grossTax: real, donations: real, pension: real, housingInterest: real)
    requires taxable >= 0.0
    ensures var c := InvestmentCredits(taxable, grossTax, donations, pension, housingInterest);
      && c.eligibleDonation <= taxable * 0.30
      && c.eligiblePension <= taxable * 0.20
      && c.eligibleHousing <= taxable * 0.50
      && (donations >= taxable * 0.30 ==> c.eligibleDonation == taxable * 0.30)
      && (pension >= taxable * 0.20 ==> c.eligiblePension == taxable * 0.20)
      && (housingInterest >= taxable * 0.50 ==> c.eligibleHousing == taxable * 0.50)
  {
  }

  /** A non-negative amount no larger than x earns at most the whole gross tax at the average rate. */
  lemma ScaledByAverageRate(eligible: real, taxable: real, grossTax: real)
    requires 0.0 <= eligible <= taxable
    requires grossTax >= 0.0
    ensures 0.0 <= eligible * AverageRate(grossTax, taxable) <= grossTax
  {
    if taxable > 0.0 {
      var rate := AverageRate(grossTax, taxable);
      AverageRateRecoversTax(grossTax, taxable);
      assert eligible * rate <= taxable * rate by {
        assert (taxable - eligible) * rate >= 0.0;
      }
    }
  }

  /** The three credits are the eligible total at the average rate. */
  lemma CreditsTotal(taxable: real, grossTax: real, donations: real, pension: real, housingInterest: real)
    ensures var c := InvestmentCredits(taxable, grossTax, donations, pension, housingInterest);
      c.total == (c.eligibleDonation + c.eligiblePension + c.eligibleHousing) * AverageRate(grossTax, taxable)
  {
    var c := InvestmentCredits(taxable, grossTax, donations, pension, housingInterest);
    var rate := AverageRate(grossTax, taxable);
    assert c.total == c.eligibleDonation * rate + c.eligiblePension * rate + c.eligibleHousing * rate;
  }

  /**
   * With non-negative contributions the caps add up to the whole taxable
   * income, so the credits never exceed the gross tax they are taken from.
   */
  lemma CreditsWithinGrossTax(taxable: real, grossTax: real, donations: real, pension: real, housingInterest: real)
    requires taxable >= 0.0 && grossTax >= 0.0
    requires donations >= 0.0 && pension >= 0.0 && housingInterest >= 0.0
    ensures var c := InvestmentCredits(taxable, grossTax, donations, pension, housingInterest);
      0.0 <= c.total <= grossTax
  {
    var c := InvestmentCredits(taxable, grossTax, donations, pension, housingInterest);
    CreditsTotal(taxable, grossTax, donations, pension, housingInterest);
    ScaledByAverageRate(c.eligibleDonation + c.eligiblePension + c.eligibleHousing, taxable, grossTax);
  }

  // ---------------------------------------------------------------------
  // Step 5: rebates
  // ---------------------------------------------------------------------

  const SeniorIncomeCeiling: real := 1000000.0

  /**
   * The share of the tax left after credits that the rebates take away: a
   * senior citizen with taxable income up to one million gets half, a
   * teacher or researcher a quarter, and someone who is both still half.
   */
  function RebateFraction(taxable: real, teacher: bool, senior: bool): (f: real)
    ensures f == 0.0 || f == 0.25 || f == 0.50
    ensures f == 0.50 <==> senior && taxable <= SeniorIncomeCeiling
    ensures f == 0.25 <==> teacher && !(senior && taxable <= SeniorIncomeCeiling)
  {
    if senior && taxable <= SeniorIncomeCeiling then 0.50
    else if teacher then 0.25
    else 0.0
  }

  /** The rebate step as `calculateTax` runs it: the teacher share, then the larger senior share. */
  function Rebates(taxAfterCredits: real, taxable: real, teacher: bool, senior: bool): (r: real)
    ensures taxAfterCredits >= 0.0 && senior && taxable <= SeniorIncomeCeiling ==> r == taxAfterCredits * 0.50
    ensures taxAfterCredits >= 0.0 && !(senior && taxable <= SeniorIncomeCeiling) ==>
      r == if teacher then taxAfterCredits * 0.25 else 0.0
    ensures taxAfterCredits >= 0.0 ==> 0.0 <= r <= taxAfterCredits * 0.50
  {
    var afterTeacher := if teacher then 0.0 + taxAfterCredits * 0.25 else 0.0;
    if senior && taxable <= SeniorIncomeCeiling then
      var reduction := taxAfterCredits * 0.50;
      var larger := Max(afterTeacher, reduction);
      if teacher && senior then taxAfterCredits * 0.50 else larger
    else afterTeacher
  }

  /** The rebate is always the rebate fraction of the tax left after credits. */
  lemma RebatesAreFraction(taxAfterCredits: real, taxable: real, teacher: bool, senior: bool)
    requires taxAfterCredits >= 0.0
    ensures Rebates(taxAfterCredits, taxable, teacher, senior) == taxAfterCredits * RebateFraction(taxable, teacher, senior)
  {
  }

  /** Both statuses together give exactly half, never the sum of the two rates. */
  lemma RebatesDoNotStack(taxAfterCredits: real, taxable: real)
    requires taxAfterCredits > 0.0
    requires taxable <= SeniorIncomeCeiling
    ensures Rebates(taxAfterCredits, taxable, true, true) == taxAfterCredits * 0.50
    ensures Rebates(taxAfterCredits, taxable, true, true) < taxAfterCredits * 0.75
  {
  }

  // ---------------------------------------------------------------------
  // The whole pass
  // ---------------------------------------------------------------------

  /** `calculateTax`: gross income, deductions, slab tax, credits, rebates, block tax. */
  function CalculateTax(inp: TaxInputs): (r: TaxResult)
    ensures r.totalSalaryIncome == TotalSalaryIncome(inp)
    ensures r.taxableIncome >= 0.0
    ensures r.taxableIncome == Max(0.0, r.totalSalaryIncome - r.totalDeductions)
    ensures r.totalDeductions ==
      inp.zakat + EducationDeduction(r.totalSalaryIncome - inp.zakat, inp.eduFees, inp.eduKids)
    ensures r.grossTax == SlabTax(r.taxableIncome)
    ensures r.totalCredits ==
      InvestmentCredits(r.taxableIncome, r.grossTax, inp.donations, inp.pension, inp.housingInterest).total
    ensures r.rebates ==
      Rebates(Max(0.0, r.grossTax - r.totalCredits), r.taxableIncome, inp.teacher, inp.senior)
    ensures r.blockTax == inp.flying * 0.025
    ensures r.finalLiability ==
      Max(0.0, Max(0.0, r.grossTax - r.totalCredits) - r.rebates) + r.blockTax
    ensures r.finalLiability >= r.blockTax
    ensures r.rebates >= 0.0
  {
    var totalSalaryIncome := TotalSalaryIncome(inp);
    var zakat := inp.zakat;
    var incomeForEdu := totalSalaryIncome - zakat;
    var eduDeduction := EducationDeduction(incomeForEdu, inp.eduFees, inp.eduKids);
    var totalDeductions := zakat + eduDeduction;
    var taxableIncome := Max(0.0, totalSalaryIncome - totalDeductions);
    var grossTax := SlabTax(taxableIncome);
    var blockTax := inp.flying * 0.025;
    var credits := InvestmentCredits(taxableIncome, grossTax, inp.donations, inp.pension, inp.housingInterest);
    var taxAfterCredits := Max(0.0, grossTax - credits.total);
    var rebates := Rebates(taxAfterCredits, taxableIncome, inp.teacher, inp.senior);
    var netNormalTax := Max(0.0, taxAfterCredits - rebates);
    TaxResult(totalSalaryIncome, totalDeductions, taxableIncome, grossTax,
              credits.total, rebates, blockTax, netNormalTax + blockTax)
  }

  /** True when every amount on the form other than basic salary is zero (flags and car type are free). */
  predicate OnlyBasicAmount(inp: TaxInputs)
  {
    && inp.bonus == 0.0 && inp.other == 0.0 && inp.medical == 0.0
    && inp.carCost == 0.0 && inp.shareFmv == 0.0 && inp.shareCost == 0.0
    && inp.loanAmount == 0.0 && inp.loanRate == 0.0 && inp.flying == 0.0
    && inp.zakat == 0.0 && inp.eduFees == 0.0 && inp.eduKids == 0.0
    && inp.donations == 0.0 && inp.pension == 0.0 && inp.housingInterest == 0.0
  }

  /** Taxable income within the tax-free slab and no block income: nothing is owed. */
  lemma TaxFreeSlabOwesNothing(inp: TaxInputs)
    requires CalculateTax(inp).taxableIncome <= 600000.0
    requires inp.flying == 0.0
    ensures CalculateTax(inp).finalLiability == 0.0
  {
    var r := CalculateTax(inp);
    assert r.grossTax == 0.0;
    var credits := InvestmentCredits(r.taxableIncome, r.grossTax, inp.donations, inp.pension, inp.housingInterest);
    assert r.totalCredits == credits.total;
  }

  /** An all-zero form owes nothing. */
  lemma AllZeroOwesNothing(inp: TaxInputs)
    requires OnlyBasicAmount(inp) && inp.basic == 0.0
    ensures CalculateTax(inp).totalSalaryIncome == 0.0
    ensures CalculateTax(inp).finalLiability == 0.0
  {
    assert TotalSalaryIncome(inp) == 0.0;
    TaxFreeSlabOwesNothing(inp);
  }

  /** With no investments and no status rebate, the liability is the slab tax plus the block tax. */
  lemma NoCreditsNoRebates(inp: TaxInputs)
    requires inp.donations == 0.0 && inp.pension == 0.0 && inp.housingInterest == 0.0
    requires !inp.teacher && !inp.senior
    ensures CalculateTax(inp).finalLiability == SlabTax(CalculateTax(inp).taxableIncome) + inp.flying * 0.025
  {
    var r := CalculateTax(inp);
    assert r.totalCredits == 0.0 by {
      CreditsTotal(r.taxableIncome, r.grossTax, 0.0, 0.0, 0.0);
    }
    assert r.rebates == 0.0;
  }

  /** A form holding only a basic salary is taxed on exactly that salary. */
  lemma PlainBasicIncome(inp: TaxInputs)
    requires OnlyBasicAmount(inp)
    requires inp.basic >= 0.0
    requires !inp.medicalProvided && !inp.housingProvided
    ensures CalculateTax(inp).totalSalaryIncome == inp.basic
    ensures CalculateTax(inp).taxableIncome == inp.basic
    ensures CalculateTax(inp).blockTax == 0.0
  {
    BasicOnlySalary(inp);
  }

  /** The salary income of a form holding only a basic salary is that salary. */
  lemma BasicOnlySalary(inp: TaxInputs)
    requires OnlyBasicAmount(inp) && inp.basic >= 0.0
    requires !inp.medicalProvided && !inp.housingProvided
    ensures TotalSalaryIncome(inp) == inp.basic
  {
    assert SplitMedical(inp.medical, inp.basic, inp.medicalProvided).taxable == 0.0;
  }

  /** A basic salary of exactly 1.2 million and nothing else owes 30,000. */
  lemma BasicAtSecondThreshold(inp: TaxInputs)
    requires OnlyBasicAmount(inp)
    requires inp.basic == 1200000.0
    requires !inp.medicalProvided && !inp.housingProvided && !inp.teacher && !inp.senior
    ensures CalculateTax(inp).grossTax == 30000.0
    ensures CalculateTax(inp).finalLiability == 30000.0
  {
    PlainBasicIncome(inp);
    NoCreditsNoRebates(inp);
  }

  /**
   * Taxable income as a function of income after zakat: the education
   * deduction only ever takes a quarter of an increase, and losing it at
   * the 1.5 million ceiling only raises taxable income.
   */
  lemma TaxableAfterEducationMonotone(x1: real, x2: real, fees: real, kids: real)
    requires x1 <= x2
    requires kids >= 0.0
    ensures Max(0.0, x1 - EducationDeduction(x1, fees, kids)) <= Max(0.0, x2 - EducationDeduction(x2, fees, kids))
  {
    var d1 := EducationDeduction(x1, fees, kids);
    var d2 := EducationDeduction(x2, fees, kids);
    if x1 < EducationIncomeCeiling && fees > 0.0 {
      if x2 < EducationIncomeCeiling {
        // both below the ceiling: x - d is the largest of x - 5% fees, 75% x, x - 60k * kids
        assert x2 - d2 >= x1 - d1 by {
          if d2 == fees * 0.05 {
          } else if d2 == x2 * 0.25 {
            assert d1 <= x1 * 0.25;
          } else {
            assert d2 == 60000.0 * kids;
          }
        }
      } else {
        assert d2 == 0.0;
        if x1 >= 0.0 {
          assert d1 >= 0.0;
        }
      }
    }
  }

  lemma TotalSalaryMonotoneInBasic(inp: TaxInputs, basic2: real)
    requires inp.basic <= basic2
    ensures TotalSalaryIncome(inp) <= TotalSalaryIncome(inp.(basic := basic2))
  {
    var inp2 := inp.(basic := basic2);
    var m1 := SplitMedical(inp.medical, inp.basic, inp.medicalProvided);
    var m2 := SplitMedical(inp2.medical, inp2.basic, inp2.medicalProvided);
    assert m1.taxable - m2.taxable <= (basic2 - inp.basic) * 0.10;
    assert HousingBenefit(inp.basic, inp.housingProvided) <= HousingBenefit(basic2, inp.housingProvided);
  }

  /** Raising basic salary, all else fixed, never lowers taxable income. */
  lemma TaxableIncomeMonotoneInBasic(inp: TaxInputs, basic2: real)
    requires inp.basic <= basic2
    requires inp.eduKids >= 0.0
    ensures CalculateTax(inp).taxableIncome <= CalculateTax(inp.(basic := basic2)).taxableIncome
  {
    var inp2 := inp.(basic := basic2);
    TotalSalaryMonotoneInBasic(inp, basic2);
    var x1 := TotalSalaryIncome(inp) - inp.zakat;
    var x2 := TotalSalaryIncome(inp2) - inp.zakat;
    TaxableAfterEducationMonotone(x1, x2, inp.eduFees, inp.eduKids);
  }

  /** The employer-loan perquisite needs a principal above one million, whatever the rate. */
  lemma SmallLoanNoBenefit(inp: TaxInputs)
    requires inp.loanAmount <= LoanThreshold
    ensures TotalSalaryIncome(inp) == TotalSalaryIncome(inp.(loanAmount := 0.0, loanRate := 0.0))
  {
  }

  // ---------------------------------------------------------------------
  // Step 6: presentation figures of `renderAuditTrail`
  // ---------------------------------------------------------------------

  datatype AuditFigures = AuditFigures(monthly: real, cashIncome: real, monthlyNet: real, taxPercent: real, netPercent: real)

  /**
   * The monthly figures and the chart split: cash income (basic, bonus,
   * other and the whole medical allowance) is floored to 1 before it is
   * divided by, and the take-home share is never shown below zero.
   */
  function AuditNumbers(finalTax: real, basic: real, bonus: real, other: real, medical: real): (a: AuditFigures)
    ensures a.cashIncome > 0.0
    ensures basic + bonus + other + medical > 0.0 ==> a.cashIncome == basic + bonus + other + medical
    ensures basic + bonus + other + medical <= 0.0 ==> a.cashIncome == 1.0
    ensures a.monthly * 12.0 == finalTax
    ensures a.monthlyNet * 12.0 == a.cashIncome - finalTax
    ensures a.taxPercent * a.cashIncome == finalTax * 100.0
    ensures a.netPercent >= 0.0
    ensures a.taxPercent <= 100.0 ==> a.netPercent + a.taxPercent == 100.0
    ensures a.taxPercent > 100.0 ==> a.netPercent == 0.0
  {
    var monthly := finalTax / 12.0;
    var cash := basic + bonus + other + medical;
    var cashIncome := if cash <= 0.0 then 1.0 else cash;
    var monthlyNet := (cashIncome - finalTax) / 12.0;
    var taxPercent := (finalTax / cashIncome) * 100.0;
    var netPercent := 100.0 - taxPercent;
    AuditFigures(monthly, cashIncome, monthlyNet, taxPercent, if netPercent < 0.0 then 0.0 else netPercent)
  }

  /** The badge shown under the result. */
  datatype Badge = Badge(emoji: string, title: string, sub: string, level: string)

  /** One badge per slab, in slab order. */
  const BadgeTable: seq<Badge> := [
    Badge("\U{1F7E2}", "Tax Free!", "You owe nothing \U{2014} enjoy your full salary!", "green"),
    Badge("\U{1F331}", "Slab 2 \U{2014} Light", "Just 5% \U{2014} barely a scratch.", "green"),
    Badge("\U{1F4BC}", "Slab 3 \U{2014} Steady", "15% bracket. Solid professional range.", "blue"),
    Badge("\U{26A1}", "Slab 4 \U{2014} Elite", "25% bracket. You're in the big leagues.", "purple"),
    Badge("\U{1F525}", "Slab 5 \U{2014} Power", "30% bracket. High earner territory!", "orange"),
    Badge("\U{1F451}", "Slab 6 \U{2014} Top Bracket", "35% \U{2014} The pinnacle of income tax.", "red")
  ]

  /** `getBadgeInfo`: the badge is picked by the same thresholds as the slab tax. */
  function BadgeInfo(income: real): (b: Badge)
    ensures b == BadgeTable[Bracket(income)]
    ensures b.level == "green" <==> income <= 1200000.0
  {
    if income <= 600000.0 then BadgeTable[0]
    else if income <= 1200000.0 then BadgeTable[1]
    else if income <= 2200000.0 then BadgeTable[2]
    else if income <= 3200000.0 then BadgeTable[3]
    else if income <= 4100000.0 then BadgeTable[4]
    else BadgeTable[5]
  }
}
