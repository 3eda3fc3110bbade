/**
 * `transform_detailed`: every contract becomes a header row followed by one
 * item row per `ContractUnits` entry. The header carries the contract's own
 * columns and its total; each item row carries the plan line's name and
 * amount (when its `plnPointId` is found in the plan table), the unit's
 * quantity, price and sum, and the per-item savings.
 */
module Detailed {
  import opened Records
  import opened Numbers
  import opened Cells
  import Summary

  /** A row of the detailed sheet. The columns a row kind leaves blank
      (the item columns of a header, the contract columns of an item) are
      not stored. */
  datatype DetailRow =
    | Header(
        number: int,
        registryNumber: Option<string>,
        purchaseNumber: Option<string>,
        description: string,
        supplier: Option<string>,
        signDate: Option<string>,
        contractType: Option<string>,
        contractStatus: Option<string>,
        tradeMethod: Option<string>,
        finYear: Option<int>,
        contractTotal: Option<real>)
    | Item(
        positionName: Option<string>,
        quantity: Option<real>,
        unitPrice: Option<real>,
        plannedSum: Option<real>,
        actualSum: Option<real>,
        savings: Option<real>)

  /** The header row of contract number `n`. */
  function HeaderOf(n: int, c: Contract): DetailRow
  {
    Header(
      n, c.contractNumberSys, c.trdBuyNumberAnno, Description(c),
      RefName(c.supplier), c.signDate,
      RefName(c.contractType), RefName(c.contractStatus), RefName(c.tradeMethod),
      c.finYear, Positive(ParseNumber(c.contractSum)))
  }

  /** The plan amount of one unit: the plan line's amount when the unit's
      `plnPointId` is set and found, otherwise 0. */
  function ItemPlanAmount(u: Unit, plans: map<int, Plan>): real
  {
    if Resolves(u, plans) then ParseNumber(plans[u.plnPointId.value].amount) else 0.0
  }

  /** The item row of one unit. */
  function ItemOf(u: Unit, plans: map<int, Plan>): DetailRow
  {
    var planName := if Resolves(u, plans) then plans[u.plnPointId.value].nameRu else Some("-");
    var planAmount := ItemPlanAmount(u, plans);
    var unitSum := ParseNumber(u.totalSum);
    Item(
      planName,
      Positive(ParseNumber(u.quantity)), Positive(ParseNumber(u.itemPrice)),
      Positive(planAmount), Positive(unitSum), Savings(planAmount, unitSum))
  }

  /** The item rows of a contract's units, in order. */
  function Items(units: seq<Unit>, plans: map<int, Plan>): (rows: seq<DetailRow>)
    ensures |rows| == |units|
  {
    if units == [] then [] else Items(units[..|units| - 1], plans) + [ItemOf(Last(units), plans)]
  }

  /** The block of contract number `n`: its header, then its items. */
  function BlockOf(n: int, c: Contract, plans: map<int, Plan>): seq<DetailRow>
  {
    [HeaderOf(n, c)] + Items(c.units, plans)
  }

  /** The detailed sheet: the blocks of the contracts in order, numbered
      from 1. */
  function DetailRows(contracts: seq<Contract>, plans: map<int, Plan>): seq<DetailRow>
  {
    if contracts == [] then []
    else DetailRows(contracts[..|contracts| - 1], plans) + BlockOf(|contracts|, Last(contracts), plans)
  }

  /** How many units the contracts have in all. */
  function TotalUnits(contracts: seq<Contract>): nat
  {
    if contracts == [] then 0 else TotalUnits(contracts[..|contracts| - 1]) + |Last(contracts).units|
  }

  /** How many contracts have no units. */
  function CountWithoutUnits(contracts: seq<Contract>): (k: nat)
    ensures k <= |contracts|
  {
    if contracts == [] then 0
    else CountWithoutUnits(contracts[..|contracts| - 1]) + (if Last(contracts).units == [] then 1 else 0)
  }

  lemma DetailRowsStep(contracts: seq<Contract>, plans: map<int, Plan>, i: nat)
    requires i < |contracts|
    ensures DetailRows(contracts[..i + 1], plans)
         == DetailRows(contracts[..i], plans) + BlockOf(i + 1, contracts[i], plans)
    ensures TotalUnits(contracts[..i + 1]) == TotalUnits(contracts[..i]) + |contracts[i].units|
    ensures CountWithoutUnits(contracts[..i + 1])
         == CountWithoutUnits(contracts[..i]) + (if contracts[i].units == [] then 1 else 0)
  {
    assert contracts[..i + 1][..i] == contracts[..i];
  }

  lemma ItemsStep(units: seq<Unit>, plans: map<int, Plan>, j: nat)
    requires j < |units|
    ensures Items(units[..j + 1], plans) == Items(units[..j], plans) + [ItemOf(units[j], plans)]
  {
    assert units[..j + 1][..j] == units[..j];
  }

  /** The unit loop of `transform_detailed` for one contract: appends its
      item rows and counts its positions. */
  method AppendItems(rows: seq<DetailRow>, positions: nat, units: seq<Unit>, plans: map<int, Plan>)
    returns (rows': seq<DetailRow>, positions': nat)
    ensures rows' == rows + Items(units, plans)
    ensures positions' == positions + |units|
  {
    rows', positions' := rows, positions;
    for j := 0 to |units|
      invariant rows' == rows + Items(units[..j], plans)
      invariant positions' == positions + j
    {
      positions' := positions' + 1;
      var unit := units[j];
      var plnPointId := unit.plnPointId;
      var planName: Option<string>;
      var planAmount: real;
      if plnPointId.Some? && plnPointId.value != 0 && plnPointId.value in plans {
        var planData := plans[plnPointId.value];
        planName := planData.nameRu;
        planAmount := ParseNumber(planData.amount);
      } else {
        planName := Some("-");
        planAmount := 0.0;
      }
      var unitSum := ParseNumber(unit.totalSum);
      var unitPrice := ParseNumber(unit.itemPrice);
      var unitQty := ParseNumber(unit.quantity);
      var itemRow := Item(
        planName, Positive(unitQty), Positive(unitPrice),
        Positive(planAmount), Positive(unitSum), Savings(planAmount, unitSum));
      assert itemRow == ItemOf(unit, plans);
      ItemsStep(units, plans, j);
      ConcatAssoc(rows, Items(units[..j], plans), [itemRow]);
      rows' := rows' + [itemRow];
    }
    assert units[..|units|] == units;
  }

  /** The body of the contract loop of `transform_detailed`: the header
      row, then the unit rows; a contract without units is counted. */
  method AppendBlock(rows: seq<DetailRow>, positions: nat, withoutUnits: nat, n: int, contract: Contract,
                     plans: map<int, Plan>)
    returns (rows': seq<DetailRow>, positions': nat, withoutUnits': nat)
    ensures rows' == rows + BlockOf(n, contract, plans)
    ensures positions' == positions + |contract.units|
    ensures withoutUnits' == withoutUnits + (if contract.units == [] then 1 else 0)
  {
    var headerRow := Header(
      n, contract.contractNumberSys, contract.trdBuyNumberAnno, Description(contract),
      RefName(contract.supplier), contract.signDate,
      RefName(contract.contractType), RefName(contract.contractStatus), RefName(contract.tradeMethod),
      contract.finYear, Positive(ParseNumber(contract.contractSum)));
    rows', positions', withoutUnits' := rows + [headerRow], positions, withoutUnits;
    var contractUnits := contract.units;
    if contractUnits == [] {
      withoutUnits' := withoutUnits' + 1;
    } else {
      rows', positions' := AppendItems(rows', positions', contractUnits, plans);
    }
    ConcatAssoc(rows, [headerRow], Items(contractUnits, plans));
  }

  /** `transform_detailed(contracts, plans_dict)`: the rows and the three
      counters it reports. */
  method TransformDetailed(contracts: seq<Contract>, plans: map<int, Plan>)
    returns (rows: seq<DetailRow>, totalContracts: nat, totalPositions: nat, withoutUnits: nat)
    ensures rows == DetailRows(contracts, plans)
    ensures totalContracts == |contracts|
    ensures totalPositions == TotalUnits(contracts)
    ensures withoutUnits == CountWithoutUnits(contracts)
  {
    rows := [];
    var contractNum := 1;
    totalContracts, totalPositions, withoutUnits := 0, 0, 0;
    for i := 0 to |contracts|
      invariant rows == DetailRows(contracts[..i], plans)
      invariant contractNum == i + 1
      invariant totalContracts == i
      invariant totalPositions == TotalUnits(contracts[..i])
      invariant withoutUnits == CountWithoutUnits(contracts[..i])
    {
      totalContracts := totalContracts + 1;
      rows, totalPositions, withoutUnits := AppendBlock(rows, totalPositions, withoutUnits, contractNum, contracts[i], plans);
      DetailRowsStep(contracts, plans, i);
      contractNum := contractNum + 1;
    }
    assert contracts[..|contracts|] == contracts;
  }

  /** The sheet has one row per contract and one per unit. */
  lemma {:induction false} DetailRowsCount(contracts: seq<Contract>, plans: map<int, Plan>)
    ensures |DetailRows(contracts, plans)| == |contracts| + TotalUnits(contracts)
  {
    if contracts != [] {
      DetailRowsCount(contracts[..|contracts| - 1], plans);
    }
  }

  /** Where contract `i`'s block starts: after the blocks before it. */
  function BlockStart(contracts: seq<Contract>, i: nat): nat
    requires i <= |contracts|
  {
    i + TotalUnits(contracts[..i])
  }

  /** The sheet for a prefix of the contracts is a prefix of the sheet. */
  lemma {:induction false} DetailRowsPrefix(contracts: seq<Contract>, plans: map<int, Plan>, k: nat)
    requires k <= |contracts|
    ensures DetailRows(contracts[..k], plans) <= DetailRows(contracts, plans)
    decreases |contracts| - k
  {
    if k < |contracts| {
      DetailRowsPrefix(contracts, plans, k + 1);
      DetailRowsStep(contracts, plans, k);
    } else {
      assert contracts[..k] == contracts;
    }
  }

  lemma PrefixAt(a: seq<DetailRow>, b: seq<DetailRow>, rows: seq<DetailRow>, k: nat)
    requires a + b <= rows && k < |b|
    ensures |a| + k < |rows| && rows[|a| + k] == b[k]
  {
    assert (a + b)[|a| + k] == b[k];
  }

  /** A block is its header followed by the row of each unit. */
  lemma BlockAt(n: int, c: Contract, plans: map<int, Plan>, j: nat)
    requires j < |c.units|
    ensures 1 + j < |BlockOf(n, c, plans)| && BlockOf(n, c, plans)[1 + j] == ItemOf(c.units[j], plans)
  {
    ItemsAt(c.units, plans, j);
  }

  /** The block of contract `i` follows the blocks before it in the sheet. */
  lemma BlockWithin(contracts: seq<Contract>, plans: map<int, Plan>, i: nat)
    requires i < |contracts|
    ensures DetailRows(contracts[..i], plans) + BlockOf(i + 1, contracts[i], plans) <= DetailRows(contracts, plans)
    ensures |DetailRows(contracts[..i], plans)| == BlockStart(contracts, i)
  {
    DetailRowsPrefix(contracts, plans, i + 1);
    DetailRowsStep(contracts, plans, i);
    DetailRowsCount(contracts[..i], plans);
  }

  /** Contract `i` (counting from 0) appears as a header numbered `i + 1`
      at `BlockStart(contracts, i)`, and its units follow it in order as
      item rows. */
  lemma BlockLayout(contracts: seq<Contract>, plans: map<int, Plan>, i: nat)
    requires i < |contracts|
    ensures var rows := DetailRows(contracts, plans);
      var s := BlockStart(contracts, i);
      && s + |contracts[i].units| < |rows|
      && rows[s] == HeaderOf(i + 1, contracts[i])
      && forall j :: 0 <= j < |contracts[i].units| ==> rows[s + 1 + j] == ItemOf(contracts[i].units[j], plans)
  {
    BlockWithin(contracts, plans, i);
    BlockInRows(DetailRows(contracts[..i], plans), DetailRows(contracts, plans), i + 1, contracts[i], plans);
  }

  /** Wherever a block sits in a list of rows, its header comes first and
      the unit rows follow in order. */
  lemma BlockInRows(before: seq<DetailRow>, rows: seq<DetailRow>, n: int, c: Contract, plans: map<int, Plan>)
    requires before + BlockOf(n, c, plans) <= rows
    ensures |before| + |c.units| < |rows|
    ensures rows[|before|] == HeaderOf(n, c)
    ensures forall j :: 0 <= j < |c.units| ==> rows[|before| + 1 + j] == ItemOf(c.units[j], plans)
  {
    var block := BlockOf(n, c, plans);
    PrefixAt(before, block, rows, |c.units|);
    PrefixAt(before, block, rows, 0);
    forall j | 0 <= j < |c.units|
      ensures rows[|before| + 1 + j] == ItemOf(c.units[j], plans)
    {
      BlockAt(n, c, plans, j);
      PrefixAt(before, block, rows, 1 + j);
    }
  }

  /** The `j`-th item row is the row of the `j`-th unit. */
  lemma {:induction false} ItemsAt(units: seq<Unit>, plans: map<int, Plan>, j: nat)
    requires j < |units|
    ensures Items(units, plans)[j] == ItemOf(units[j], plans)
    decreases |units|
  {
    if j < |units| - 1 {
      ItemsAt(units[..|units| - 1], plans, j);
    }
  }

  /** The columns of an item row: the position name is the plan line's
      `nameRu` (possibly null) when its `plnPointId` is found and "-"
      otherwise; an unresolved unit has neither a planned sum nor savings;
      the savings are filled exactly when the planned and contract sums
      are, as their difference. */
  lemma ItemColumns(u: Unit, plans: map<int, Plan>)
    ensures var row := ItemOf(u, plans);
      && row.Item?
      && (Resolves(u, plans) ==> row.positionName == plans[u.plnPointId.value].nameRu)
      && (!Resolves(u, plans) ==> row.positionName == Some("-") && row.plannedSum.None? && row.savings.None?)
      && (row.plannedSum.Some? <==> Resolves(u, plans) && ParseNumber(plans[u.plnPointId.value].amount) > 0.0)
      && (row.actualSum.Some? <==> ParseNumber(u.totalSum) > 0.0)
      && (row.savings.Some? <==> row.plannedSum.Some? && row.actualSum.Some?)
      && (row.savings.Some? ==> row.savings.value == row.plannedSum.value - row.actualSum.value)
  {
    SavingsMatchesColumns(ItemPlanAmount(u, plans), ParseNumber(u.totalSum));
  }

  /** The planned-sum column of item rows, with empty cells as 0. */
  function PlannedColumnTotal(rows: seq<DetailRow>): real
  {
    if rows == [] then 0.0
    else
      PlannedColumnTotal(rows[..|rows| - 1])
        + (if Last(rows).Item? && Last(rows).plannedSum.Some? then Last(rows).plannedSum.value else 0.0)
  }

  /** The two report modes agree: when no plan amount is negative, the
      planned sums of a contract's item rows add up to the planned sum of
      its summary row. */
  lemma {:induction false} ItemsAddUpToSummary(units: seq<Unit>, plans: map<int, Plan>)
    requires forall j :: 0 <= j < |units| ==> ItemPlanAmount(units[j], plans) >= 0.0
    ensures PlannedColumnTotal(Items(units, plans)) == Summary.PlannedSum(units, plans)
  {
    if units != [] {
      var init := units[..|units| - 1];
      ItemsAddUpToSummary(init, plans);
      var rows := Items(units, plans);
      assert rows[..|rows| - 1] == Items(init, plans);
      assert ItemPlanAmount(units[|units| - 1], plans) >= 0.0;
    }
  }
}
