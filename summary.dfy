/**
 * `transform_summary`: one row per contract. The planned sum adds up the
 * plan amount of every unit whose `plnPointId` is set and found in the
 * plan table; the savings exist only when both the planned sum and the
 * contract sum are positive. Two counters split the contracts by whether
 * their planned sum is positive.
 */
module Summary {
  import opened Records
  import opened Numbers
  import opened Cells

  datatype SummaryRow = SummaryRow(
    number: int,
    registryNumber: Option<string>,
    purchaseNumber: Option<string>,
    description: string,
    contractType: Option<string>,
    contractStatus: Option<string>,
    tradeMethod: Option<string>,
    finYear: Option<int>,
    plannedSum: Option<real>,
    actualSum: Option<real>,
    savings: Option<real>,
    supplier: Option<string>,
    signDate: Option<string>)

  /** The planned sum of a contract's units, adding them in order. */
  function PlannedSum(units: seq<Unit>, plans: map<int, Plan>): real
  {
    if units == [] then 0.0
    else
      var u := Last(units);
      var before := PlannedSum(units[..|units| - 1], plans);
      if Truthy(u.plnPointId) && u.plnPointId.value in plans
      then before + ParseNumber(plans[u.plnPointId.value].amount)
      else before
  }

  /** The row the loop builds for contract number `n`. */
  function SummaryRowOf(n: int, c: Contract, plans: map<int, Plan>): SummaryRow
  {
    var planSum := PlannedSum(c.units, plans);
    var contractSum := ParseNumber(c.contractSum);
    SummaryRow(
      n, c.contractNumberSys, c.trdBuyNumberAnno, Description(c),
      RefName(c.contractType), RefName(c.contractStatus), RefName(c.tradeMethod),
      c.finYear,
      Positive(planSum), Positive(contractSum), Savings(planSum, contractSum),
      RefName(c.supplier), c.signDate)
  }

  /** How many contracts have a positive planned sum. */
  function CountWithPlan(contracts: seq<Contract>, plans: map<int, Plan>): (k: nat)
    ensures k <= |contracts|
  {
    if contracts == [] then 0
    else
      CountWithPlan(contracts[..|contracts| - 1], plans)
        + (if PlannedSum(Last(contracts).units, plans) > 0.0 then 1 else 0)
  }

  lemma CountWithPlanStep(contracts: seq<Contract>, plans: map<int, Plan>, i: nat)
    requires i < |contracts|
    ensures CountWithPlan(contracts[..i + 1], plans)
         == CountWithPlan(contracts[..i], plans) + (if PlannedSum(contracts[i].units, plans) > 0.0 then 1 else 0)
  {
    assert contracts[..i + 1][..i] == contracts[..i];
  }

  /** The inner loop of `transform_summary`: the plan amounts of the
      units found in the plan table, added in order. */
  method UnitsPlanSum(units: seq<Unit>, plans: map<int, Plan>) returns (planSum: real)
    ensures planSum == PlannedSum(units, plans)
  {
    planSum := 0.0;
    for j := 0 to |units|
      invariant planSum == PlannedSum(units[..j], plans)
    {
      var plnPointId := units[j].plnPointId;
      assert units[..j + 1][..j] == units[..j];
      if plnPointId.Some? && plnPointId.value != 0 && plnPointId.value in plans {
        var plan := plans[plnPointId.value];
        planSum := planSum + ParseNumber(plan.amount);
      }
    }
    assert units[..|units|] == units;
  }

  /** The body of the contract loop of `transform_summary`: the planned
      sum of the contract's units and the row built from it. */
  method SummaryRowFor(n: int, contract: Contract, plans: map<int, Plan>) returns (row: SummaryRow, planSum: real)
    ensures planSum == PlannedSum(contract.units, plans)
    ensures row == SummaryRowOf(n, contract, plans)
  {
    planSum := UnitsPlanSum(contract.units, plans);
    var contractSum := ParseNumber(contract.contractSum);
    row := SummaryRow(
      n, contract.contractNumberSys, contract.trdBuyNumberAnno, Description(contract),
      RefName(contract.contractType), RefName(contract.contractStatus), RefName(contract.tradeMethod),
      contract.finYear,
      Positive(planSum), Positive(contractSum), Savings(planSum, contractSum),
      RefName(contract.supplier), contract.signDate);
  }

  /** Appending the row of contract `i` keeps every row in its place. */
  lemma RowsStep(rows: seq<SummaryRow>, row: SummaryRow, contracts: seq<Contract>, plans: map<int, Plan>, i: nat)
    requires i < |contracts| && |rows| == i
    requires forall k :: 0 <= k < i ==> rows[k] == SummaryRowOf(k + 1, contracts[k], plans)
    requires row == SummaryRowOf(i + 1, contracts[i], plans)
    ensures forall k :: 0 <= k < i + 1 ==> (rows + [row])[k] == SummaryRowOf(k + 1, contracts[k], plans)
  {
    forall k | 0 <= k < i + 1
      ensures (rows + [row])[k] == SummaryRowOf(k + 1, contracts[k], plans)
    {
      if k < i {
        assert (rows + [row])[k] == rows[k];
      }
    }
  }

  /** `transform_summary(contracts, plans_dict)`: the rows, in input order
      and numbered from 1, and the two counters. */
  method TransformSummary(contracts: seq<Contract>, plans: map<int, Plan>)
    returns (rows: seq<SummaryRow>, withPlan: nat, withoutPlan: nat)
    ensures |rows| == |contracts|
    ensures forall i :: 0 <= i < |contracts| ==> rows[i] == SummaryRowOf(i + 1, contracts[i], plans)
    ensures withPlan == CountWithPlan(contracts, plans)
    ensures withPlan + withoutPlan == |contracts|
  {
    rows := [];
    withPlan, withoutPlan := 0, 0;
    for i := 0 to |contracts|
      invariant |rows| == i
      invariant forall k :: 0 <= k < i ==> rows[k] == SummaryRowOf(k + 1, contracts[k], plans)
      invariant withPlan == CountWithPlan(contracts[..i], plans)
      invariant withPlan + withoutPlan == i
    {
      var row, planSum := SummaryRowFor(i + 1, contracts[i], plans);
      CountWithPlanStep(contracts, plans, i);
      RowsStep(rows, row, contracts, plans, i);
      if planSum > 0.0 {
        withPlan := withPlan + 1;
      } else {
        withoutPlan := withoutPlan + 1;
      }
      rows := rows + [row];
    }
    assert contracts[..|contracts|] == contracts;
  }

  /** Only units whose `plnPointId` is set and found count: the planned sum
      is the sum over those units alone. */
  lemma {:induction false} PlannedSumOverResolvedUnits(units: seq<Unit>, plans: map<int, Plan>)
    ensures PlannedSum(units, plans) == PlannedSum(Resolved(units, plans), plans)
    ensures forall u :: u in Resolved(units, plans) ==> Resolves(u, plans)
  {
    if units != [] {
      var init := units[..|units| - 1];
      PlannedSumOverResolvedUnits(init, plans);
      var r := Resolved(init, plans);
      if Resolves(Last(units), plans) {
        var r' := r + [Last(units)];
        assert Resolved(units, plans) == r';
        assert r'[..|r'| - 1] == r;
        assert Last(r') == Last(units);
      } else {
        assert r + [] == r;
        assert Resolved(units, plans) == r;
      }
    }
  }

  /** The units that `Resolves`, in order. */
  function Resolved(units: seq<Unit>, plans: map<int, Plan>): seq<Unit>
  {
    if units == [] then []
    else
      Resolved(units[..|units| - 1], plans) + (if Resolves(Last(units), plans) then [Last(units)] else [])
  }

  /** The planned sum adds up over the units of a contract split anywhere. */
  lemma {:induction false} PlannedSumAppend(a: seq<Unit>, b: seq<Unit>, plans: map<int, Plan>)
    ensures PlannedSum(a + b, plans) == PlannedSum(a, plans) + PlannedSum(b, plans)
    decreases |b|
  {
    if b == [] {
      assert a + b == a;
    } else {
      assert (a + b)[..|a + b| - 1] == a + b[..|b| - 1];
      assert Last(a + b) == Last(b);
      PlannedSumAppend(a, b[..|b| - 1], plans);
    }
  }

  /** The columns of a summary row: the planned and contract sums are
      shown only when positive, and the savings are shown exactly when both
      are, as their difference (0 when they are equal). */
  lemma SummaryRowColumns(n: int, c: Contract, plans: map<int, Plan>)
    ensures var row := SummaryRowOf(n, c, plans);
      var planSum := PlannedSum(c.units, plans);
      var contractSum := ParseNumber(c.contractSum);
      && row.number == n
      && (row.plannedSum.Some? <==> planSum > 0.0)
      && (row.plannedSum.Some? ==> row.plannedSum.value == planSum)
      && (row.actualSum.Some? <==> contractSum > 0.0)
      && (row.actualSum.Some? ==> row.actualSum.value == contractSum)
      && (row.savings.Some? <==> row.plannedSum.Some? && row.actualSum.Some?)
      && (row.savings.Some? ==> row.savings.value == row.plannedSum.value - row.actualSum.value)
      && (planSum == contractSum > 0.0 ==> row.savings == Some(0.0))
  {
    SavingsMatchesColumns(PlannedSum(c.units, plans), ParseNumber(c.contractSum));
  }

  /** The positions of the contracts whose planned sum is positive. */
  function WithPlanPositions(contracts: seq<Contract>, plans: map<int, Plan>): set<int>
  {
    set i | 0 <= i < |contracts| && PlannedSum(contracts[i].units, plans) > 0.0
  }

  lemma WithPlanPositionsStep(contracts: seq<Contract>, plans: map<int, Plan>)
    requires contracts != []
    ensures var n := |contracts| - 1;
      WithPlanPositions(contracts, plans)
        == WithPlanPositions(contracts[..n], plans)
           + (if PlannedSum(contracts[n].units, plans) > 0.0 then {n} else {})
  {
    var n := |contracts| - 1;
    var init := contracts[..n];
    var extra: set<int> := if PlannedSum(contracts[n].units, plans) > 0.0 then {n} else {};
    forall i | i in WithPlanPositions(contracts, plans)
      ensures i in WithPlanPositions(init, plans) + extra
    {
      if i < n { assert init[i] == contracts[i]; }
    }
    forall i | i in WithPlanPositions(init, plans) + extra
      ensures i in WithPlanPositions(contracts, plans)
    {
      if i < n { assert init[i] == contracts[i]; }
    }
  }

  /** The counters split the contracts: with a plan exactly when the
      planned sum is positive. */
  lemma {:induction false} CountWithPlanIsCount(contracts: seq<Contract>, plans: map<int, Plan>)
    ensures CountWithPlan(contracts, plans) == |WithPlanPositions(contracts, plans)|
  {
    if contracts != [] {
      var n := |contracts| - 1;
      var init := contracts[..n];
      CountWithPlanIsCount(init, plans);
      WithPlanPositionsStep(contracts, plans);
      var s0 := WithPlanPositions(init, plans);
      assert n !in s0;
      assert Last(contracts) == contracts[n];
    }
  }

  lemma DigitsOf1500(w: string)
    requires w == NatText(1500)
    ensures w == "1500"
  {
    assert NatText(1) == "1";
    assert NatText(15) == "15";
    assert NatText(150) == "150";
  }

  lemma DigitsOfZeroCents(f: string)
    requires f == "00"
    ensures AllDigits(f) && DigitsValue(f) == 0
  {
    var g := f[..1];
    assert g[..0] == [];
    assert DigitsValue(g) == DigitsValue(g[..0]) * 10 + DigitValue(g[0]);
    assert DigitsValue(f) == DigitsValue(g) * 10 + DigitValue(f[1]);
  }

  lemma ZeroCentsFraction(f: string)
    requires f == "00"
    ensures AllDigits(f) && DigitsValue(f) as real / Pow10(|f|) as real == 0.0
  {
    DigitsOfZeroCents(f);
  }

  /** The service's text "1500.00" reads as 1500. */
  lemma ContractSumText(t: string)
    requires t == "1500.00"
    ensures ParseNumber(Str(t)) == 1500.0
  {
    var cents := t[5..];
    ZeroCentsFraction(cents);
    DigitsOf1500(NatText(1500));
    var blank: string := [];
    assert t == blank + FractionText(1500, cents) + blank;
    ParseNumberFractionText(blank, 1500, cents, blank);
  }

  /** Two units found in the plan table at 600 and 1000 plan 1600. */
  lemma TwoPlannedUnits(units: seq<Unit>, plans: map<int, Plan>)
    requires |units| == 2 && Resolves(units[0], plans) && Resolves(units[1], plans)
    requires plans[units[0].plnPointId.value].amount == Num(600.0)
    requires plans[units[1].plnPointId.value].amount == Num(1000.0)
    ensures PlannedSum(units, plans) == 1600.0
  {
    assert units[..1][..0] == [];
    assert units[..|units| - 1] == units[..1];
    assert PlannedSum(units[..1], plans) == 600.0;
  }

  /** A contract sum of "1500.00" against units planned at 600 and 1000
      gives a planned sum of 1600, a contract sum of 1500 and savings 100. */
  lemma PlannedAndActualScenario(c: Contract, plans: map<int, Plan>)
    requires c.contractSum == Str("1500.00")
    requires |c.units| == 2 && Resolves(c.units[0], plans) && Resolves(c.units[1], plans)
    requires plans[c.units[0].plnPointId.value].amount == Num(600.0)
    requires plans[c.units[1].plnPointId.value].amount == Num(1000.0)
    ensures SummaryRowOf(1, c, plans).plannedSum == Some(1600.0)
    ensures SummaryRowOf(1, c, plans).actualSum == Some(1500.0)
    ensures SummaryRowOf(1, c, plans).savings == Some(100.0)
  {
    ContractSumText(c.contractSum.s);
    TwoPlannedUnits(c.units, plans);
  }

  /** A blank contract sum and no unit found in the plan table leave all
      three amount columns empty. */
  lemma BlankScenario(c: Contract, plans: map<int, Plan>)
    requires c.contractSum == Str("")
    requires forall j :: 0 <= j < |c.units| ==> !Resolves(c.units[j], plans)
    ensures SummaryRowOf(1, c, plans).plannedSum.None?
    ensures SummaryRowOf(1, c, plans).actualSum.None?
    ensures SummaryRowOf(1, c, plans).savings.None?
  {
    NoResolvedUnitsPlanNothing(c.units, plans);
  }

  lemma {:induction false} NoResolvedUnitsPlanNothing(units: seq<Unit>, plans: map<int, Plan>)
    requires forall j :: 0 <= j < |units| ==> !Resolves(units[j], plans)
    ensures PlannedSum(units, plans) == 0.0
  {
    if units != [] {
      NoResolvedUnitsPlanNothing(units[..|units| - 1], plans);
      assert !Resolves(units[|units| - 1], plans);
    }
  }
}
