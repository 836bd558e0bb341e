/**
 The cash and debt position. A receipt first pays debt down, a payment first uses cash. The rule is
 written three times in the program: once as a mutation of the plant, once in the spend projection of
 the engine, once in the finance report.
 */
module Cash {
  import opened Seqs
  import opened Domain

  datatype Position = Position(cash: int, debt: int) {
    function Net(): int { cash - debt }

    /** Never cash and debt at once, and neither below zero. */
    predicate Normal() { cash >= 0 && debt >= 0 && (cash == 0 || debt == 0) }
  }

  /** The only normal position with a given net value. */
  function NormalForm(net: int): (p: Position)
    ensures p.Normal() && p.Net() == net
  {
    if net >= 0 then Position(net, 0) else Position(0, -net)
  }

  /** `projectCashDelta` of the engine. */
  function ProjectCashDelta(cash: int, debt: int, delta: int): Position {
    if delta == 0 then Position(cash, debt)
    else if delta > 0 then
      var paydown := Min(delta, debt);
      Position(cash + (delta - paydown), debt - paydown)
    else if cash >= -delta then Position(cash + delta, debt)
    else Position(0, debt + (-delta - cash))
  }

  /** `applyProjectedCashDelta` of the finance report, written out on its own there. */
  function ReportCashDelta(cash: int, debt: int, delta: int): Position {
    if delta == 0 then Position(cash, debt)
    else if delta > 0 then
      var paydown := Min(delta, debt);
      Position(cash + (delta - paydown), debt - paydown)
    else
      var spend := -delta;
      if cash >= spend then Position(cash - spend, debt) else Position(0, debt + (spend - cash))
  }

  function Identity(): int -> int { (x: int) => x }

  function Fold(p: Position, deltas: seq<int>): Position
    decreases |deltas|
  {
    if |deltas| == 0 then p else Fold(ProjectCashDelta(p.cash, p.debt, deltas[0]), deltas[1..])
  }

  /** Every step moves the net value by exactly the delta, whatever the position. */
  lemma NetMoves(cash: int, debt: int, delta: int)
    ensures ProjectCashDelta(cash, debt, delta).Net() == cash - debt + delta
  {
  }

  /** A normal position stays normal, so it depends on its net value only. */
  lemma {:induction false} StepIsNormalForm(p: Position, delta: int)
    requires p.Normal()
    ensures ProjectCashDelta(p.cash, p.debt, delta) == NormalForm(p.Net() + delta)
  {
    var q := ProjectCashDelta(p.cash, p.debt, delta);
    assert q.cash - q.debt == p.cash - p.debt + delta;
    assert q.cash >= 0 && q.debt >= 0 && (q.cash == 0 || q.debt == 0);
  }

  /** The position after a list of deltas depends on their sum alone. */
  lemma {:induction false} Settle(p: Position, deltas: seq<int>)
    requires p.Normal()
    ensures Fold(p, deltas) == NormalForm(p.Net() + Sum(Identity(), deltas))
    decreases |deltas|
  {
    if |deltas| > 0 {
      StepIsNormalForm(p, deltas[0]);
      Settle(ProjectCashDelta(p.cash, p.debt, deltas[0]), deltas[1..]);
    }
  }

  lemma OrderOfDeltasIsIrrelevant(p: Position, a: seq<int>, b: seq<int>)
    requires p.Normal() && multiset(a) == multiset(b)
    ensures Fold(p, a) == Fold(p, b)
  {
    Settle(p, a);
    Settle(p, b);
    SumPermutation(Identity(), a, b);
  }

  // ---------------------------------------------------------------- commitments

  function Amount(): CashCommitment -> int { (c: CashCommitment) => c.amount }

  function Receipts(items: seq<CashCommitment>): seq<int> {
    if |items| == 0 then [] else [items[0].amount] + Receipts(items[1..])
  }

  function Payments(items: seq<CashCommitment>): seq<int> {
    if |items| == 0 then [] else [-items[0].amount] + Payments(items[1..])
  }

  /** `projectedPlantPositionAfterCommitments`: all payables first, then all receivables. */
  function ProjectedPosition(plant: Plant): Position {
    Fold(Fold(Position(plant.cash, plant.debt), Payments(plant.payables)), Receipts(plant.receivables))
  }

  function ReportFold(p: Position, deltas: seq<int>): Position
    decreases |deltas|
  {
    if |deltas| == 0 then p else ReportFold(ReportCashDelta(p.cash, p.debt, deltas[0]), deltas[1..])
  }

  /** `projectedPositionAfterCommitments` of the finance report. */
  function ReportedPosition(plant: Plant): Position {
    ReportFold(ReportFold(Position(plant.cash, plant.debt), Payments(plant.payables)), Receipts(plant.receivables))
  }

  /** The two loops of the projection, which carry cash and debt as running variables. */
  method ProjectPosition(plant: Plant) returns (cash: int, debt: int)
    ensures Position(cash, debt) == ProjectedPosition(plant)
  {
    cash, debt := plant.cash, plant.debt;
    for i := 0 to |plant.payables|
      invariant Fold(Position(cash, debt), Payments(plant.payables[i..])) ==
                Fold(Position(plant.cash, plant.debt), Payments(plant.payables))
    {
      var next := ProjectCashDelta(cash, debt, -plant.payables[i].amount);
      assert plant.payables[i..][1..] == plant.payables[i + 1..];
      cash, debt := next.cash, next.debt;
    }
    ghost var paid := Position(cash, debt);
    for i := 0 to |plant.receivables|
      invariant Fold(Position(cash, debt), Receipts(plant.receivables[i..])) ==
                Fold(paid, Receipts(plant.receivables))
    {
      var next := ProjectCashDelta(cash, debt, plant.receivables[i].amount);
      assert plant.receivables[i..][1..] == plant.receivables[i + 1..];
      cash, debt := next.cash, next.debt;
    }
  }

  lemma {:induction false} CommitmentSums(items: seq<CashCommitment>)
    ensures Sum(Identity(), Receipts(items)) == Sum(Amount(), items)
    ensures Sum(Identity(), Payments(items)) == -Sum(Amount(), items)
  {
    if |items| > 0 {
      CommitmentSums(items[1..]);
    }
  }

  lemma {:induction false} ReportFoldAgrees(p: Position, deltas: seq<int>)
    ensures ReportFold(p, deltas) == Fold(p, deltas)
    decreases |deltas|
  {
    if |deltas| > 0 {
      ReportFoldAgrees(ReportCashDelta(p.cash, p.debt, deltas[0]), deltas[1..]);
    }
  }

  /**
   The projection pays first and collects afterwards; the end of a round collects first and pays
   afterwards. From a normal position both end in the same place, and so does the report.
   */
  lemma ProjectionEqualsSettlement(plant: Plant)
    requires Position(plant.cash, plant.debt).Normal()
    ensures ProjectedPosition(plant) ==
            Fold(Fold(Position(plant.cash, plant.debt), Receipts(plant.receivables)), Payments(plant.payables))
    ensures ReportedPosition(plant) == ProjectedPosition(plant)
    ensures ProjectedPosition(plant) ==
            NormalForm(plant.cash - plant.debt + Sum(Amount(), plant.receivables) - Sum(Amount(), plant.payables))
  {
    var p, pay, take := Position(plant.cash, plant.debt), Payments(plant.payables), Receipts(plant.receivables);
    Settle(p, pay);
    Settle(Fold(p, pay), take);
    Settle(p, take);
    Settle(Fold(p, take), pay);
    CommitmentSums(plant.payables);
    CommitmentSums(plant.receivables);
    ReportFoldAgrees(p, pay);
    ReportFoldAgrees(ReportFold(p, pay), take);
  }

  // ---------------------------------------------------------------- spend capacity

  /** `availableSpendCapacity` of a position under a ceiling. */
  function SpendCapacity(p: Position, ceiling: int): int {
    if ceiling <= 0 then p.cash else p.cash + Max(ceiling - p.debt, 0)
  }

  /** `availableProjectedSpendCapacity`. */
  function ProjectedSpendCapacity(plant: Plant): int {
    var p := ProjectedPosition(plant);
    if plant.debtCeiling <= 0 then Max(p.cash, 0)
    else Max(p.cash, 0) + Max(plant.debtCeiling - p.debt, 0)
  }

  /**
   Spending from a normal position leaves the debt within the ceiling exactly when it was within it before and the
   whole amount fits the capacity measured before. A ceiling that is not positive allows no debt.
   */
  lemma CapacityIsExact(p: Position, ceiling: int, spend: int)
    requires p.Normal() && spend >= 0
    ensures ProjectCashDelta(p.cash, p.debt, -spend).debt <= Max(ceiling, 0)
            <==> p.debt <= Max(ceiling, 0) && spend <= SpendCapacity(p, ceiling)
  {
  }
}
