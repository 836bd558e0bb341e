/**
 Capacity, labour and overtime of a workstation, and the scan that trims an allocation to what the
 plant can pay for.
 */
module Labor {
  import opened Seqs
  import opened Domain

  lemma ProductNonNegative(a: int, b: int)
    requires a >= 0 && b >= 0
    ensures a * b >= 0
  {
  }

  datatype Congestion = Congestion(effective: int, loss: int)

  /** Work in progress beyond the buffer takes capacity away, at most all of it. */
  function StressedCapacity(w: Workstation, wipUnits: int): (c: Congestion)
    ensures 0 <= c.effective <= Max(w.capacity, 0)
    ensures c.loss >= 0
    ensures w.capacity > 0 ==> c.effective + c.loss == w.capacity
  {
    if w.capacity <= 0 then Congestion(0, 0)
    else if w.stressPenalty <= 0 then Congestion(w.capacity, 0)
    else
      var threshold := w.capacity + w.stressBuffer;
      if wipUnits <= threshold then Congestion(w.capacity, 0)
      else
        ProductNonNegative(wipUnits - threshold, w.stressPenalty);
        var loss := Min((wipUnits - threshold) * w.stressPenalty, w.capacity);
        Congestion(w.capacity - loss, loss)
  }

  function EffectiveLabor(w: Workstation): int {
    if w.labor <= 0 then w.capacity else w.labor
  }

  function BaseLaborLeft(w: Workstation): int { Max(EffectiveLabor(w) - w.laborUsed, 0) }

  function LaborLeft(w: Workstation, overtime: int): int { BaseLaborLeft(w) + Max(overtime, 0) }

  function BaseUsed(w: Workstation, quantity: int): int { Min(BaseLaborLeft(w), quantity) }

  /** Overtime that `consumeLaborCapacity` books: what base labour does not cover, up to the request. */
  function OvertimeUsed(w: Workstation, quantity: int, overtime: int): int {
    Min(Max(overtime, 0), quantity - BaseUsed(w, quantity))
  }

  function ConsumeLabor(w: Workstation, quantity: int, overtime: int): Workstation {
    w.(laborUsed := w.laborUsed + BaseUsed(w, quantity),
       overtimeUsed := w.overtimeUsed + OvertimeUsed(w, quantity, overtime))
  }

  /** Overtime the scan assumes, computed without looking at the workstation. */
  function ProjectedOvertime(quantity: int, base: int, overtime: int): int {
    if quantity <= base then 0 else Min(quantity - base, Max(overtime, 0))
  }

  lemma ProjectionMatchesConsumption(w: Workstation, quantity: int, overtime: int)
    requires quantity >= 0
    ensures OvertimeUsed(w, quantity, overtime) == ProjectedOvertime(quantity, BaseLaborLeft(w), overtime)
    ensures quantity <= LaborLeft(w, overtime) ==>
            BaseUsed(w, quantity) + OvertimeUsed(w, quantity, overtime) == quantity
  {
  }

  // ---------------------------------------------------------------- the station ledger

  predicate Ledger(w: Workstation) {
    && 0 <= w.laborUsed <= Max(EffectiveLabor(w), 0)
    && 0 <= w.overtimeUsed
    && w.capacityUsed == w.laborUsed + w.overtimeUsed
    && w.capacityUsed <= Max(w.capacity, 0)
  }

  /**
   Booking a quantity that fits the labour and the effective capacity keeps the ledger, and moves
   overtime from the request to the station unit by unit. The effective capacity may be anything up to
   the nominal one, also less than what is already used.
   */
  lemma BookingKeepsLedger(w: Workstation, effective: int, quantity: int, overtime: int)
    requires Ledger(w) && overtime >= 0 && effective <= Max(w.capacity, 0)
    requires 0 < quantity <= Min(effective - w.capacityUsed, LaborLeft(w, overtime))
    ensures var booked := ConsumeLabor(w, quantity, overtime);
            var used := OvertimeUsed(w, quantity, overtime);
            && Ledger(booked.(capacityUsed := booked.capacityUsed + quantity))
            && 0 <= used <= overtime
            && booked.overtimeUsed + Max(0, overtime - used) == w.overtimeUsed + overtime
  {
  }

  // ---------------------------------------------------------------- affordable advance

  /** Production cost of a quantity plus the overtime it needs. */
  function LineCost(quantity: int, base: int, overtime: int, unit: int, overtimeUnit: int): int {
    quantity * unit + ProjectedOvertime(quantity, base, overtime) * overtimeUnit
  }

  function ScanFrom(quantity: int, affordable: int, limit: int, base: int, overtime: int,
                    unit: int, overtimeUnit: int, available: int): int
    decreases limit - quantity
  {
    if quantity > limit || LineCost(quantity, base, overtime, unit, overtimeUnit) > available then affordable
    else ScanFrom(quantity + 1, quantity, limit, base, overtime, unit, overtimeUnit, available)
  }

  /** `affordableProductionAdvance`. */
  function AffordableAdvance(limit: int, base: int, overtime: int, unit: int, overtimeUnit: int, available: int): int {
    if limit <= 0 || available <= 0 then 0
    else ScanFrom(1, 0, limit, base, overtime, unit, overtimeUnit, available)
  }

  /** Whatever the costs, the scan accepts nothing beyond its limit. */
  lemma {:induction false} ScanStaysBelow(quantity: int, affordable: int, limit: int, base: int, overtime: int,
                                          unit: int, overtimeUnit: int, available: int)
    requires affordable <= limit || affordable <= 0
    ensures ScanFrom(quantity, affordable, limit, base, overtime, unit, overtimeUnit, available) <= Max(limit, 0)
    decreases limit - quantity
  {
    hide LineCost;
    if quantity <= limit && LineCost(quantity, base, overtime, unit, overtimeUnit) <= available {
      ScanStaysBelow(quantity + 1, quantity, limit, base, overtime, unit, overtimeUnit, available);
    }
  }

  lemma AdvanceStaysBelow(limit: int, base: int, overtime: int, unit: int, overtimeUnit: int, available: int)
    ensures AffordableAdvance(limit, base, overtime, unit, overtimeUnit, available) <= Max(limit, 0)
  {
    if limit > 0 {
      ScanStaysBelow(1, 0, limit, base, overtime, unit, overtimeUnit, available);
    }
  }

  method ComputeAffordableAdvance(limit: int, base: int, overtime: int, unit: int, overtimeUnit: int, available: int)
    returns (affordable: int)
    ensures affordable == AffordableAdvance(limit, base, overtime, unit, overtimeUnit, available)
  {
    if limit <= 0 || available <= 0 { return 0; }
    affordable := 0;
    var quantity := 1;
    while quantity <= limit
      invariant ScanFrom(quantity, affordable, limit, base, overtime, unit, overtimeUnit, available) ==
                ScanFrom(1, 0, limit, base, overtime, unit, overtimeUnit, available)
    {
      var overtimeUnits := ProjectedOvertime(quantity, base, overtime);
      var totalCost := quantity * unit + overtimeUnits * overtimeUnit;
      if totalCost > available { break; }
      affordable := quantity;
      quantity := quantity + 1;
    }
  }

  ghost predicate PaidUpTo(q: int, base: int, overtime: int, unit: int, overtimeUnit: int, available: int) {
    forall p | 1 <= p <= q :: LineCost(p, base, overtime, unit, overtimeUnit) <= available
  }

  lemma {:induction false} ScanFromStops(quantity: int, limit: int, base: int, overtime: int,
                                         unit: int, overtimeUnit: int, available: int, q: int)
    requires 1 <= quantity <= limit + 1 && q <= limit
    requires PaidUpTo(quantity - 1, base, overtime, unit, overtimeUnit, available)
    ensures var r := ScanFrom(quantity, quantity - 1, limit, base, overtime, unit, overtimeUnit, available);
            && quantity - 1 <= r <= limit
            && (q <= r <==> PaidUpTo(q, base, overtime, unit, overtimeUnit, available))
    decreases limit - quantity
  {
    hide LineCost;
    if quantity <= limit && LineCost(quantity, base, overtime, unit, overtimeUnit) <= available {
      ScanFromStops(quantity + 1, limit, base, overtime, unit, overtimeUnit, available, q);
    }
  }

  /**
   Whatever the costs are: a quantity up to the limit is accepted exactly when it and all smaller ones
   can be paid for.
   */
  lemma ScanIsExact(limit: int, base: int, overtime: int, unit: int, overtimeUnit: int, available: int, q: int)
    requires available > 0 && q <= limit && limit > 0
    ensures q <= AffordableAdvance(limit, base, overtime, unit, overtimeUnit, available)
            <==> PaidUpTo(q, base, overtime, unit, overtimeUnit, available)
    ensures 0 <= AffordableAdvance(limit, base, overtime, unit, overtimeUnit, available) <= limit
  {
    hide LineCost;
    ScanFromStops(1, limit, base, overtime, unit, overtimeUnit, available, q);
  }

  /** What the scan accepted costs no more than the limit it scanned with. */
  lemma AcceptedIsPaidFor(limit: int, base: int, overtime: int, unit: int, overtimeUnit: int, available: int)
    ensures var r := AffordableAdvance(limit, base, overtime, unit, overtimeUnit, available);
            r > 0 ==> PaidUpTo(r, base, overtime, unit, overtimeUnit, available)
  {
    hide LineCost, ScanFrom;
    if limit > 0 && available > 0 {
      ScanIsExact(limit, base, overtime, unit, overtimeUnit, available, 1);
      ScanIsExact(limit, base, overtime, unit, overtimeUnit, available,
                  AffordableAdvance(limit, base, overtime, unit, overtimeUnit, available));
    }
  }

  /** Trimming to the budget and then to the cash is one trim to the smaller of the two. */
  lemma ScansCompose(limit: int, base: int, overtime: int, unit: int, overtimeUnit: int, first: int, second: int)
    ensures AffordableAdvance(AffordableAdvance(limit, base, overtime, unit, overtimeUnit, first),
                              base, overtime, unit, overtimeUnit, second)
         == AffordableAdvance(limit, base, overtime, unit, overtimeUnit, Min(first, second))
  {
    hide LineCost, ScanFrom;
    if limit > 0 && first > 0 && second > 0 {
      var a := AffordableAdvance(limit, base, overtime, unit, overtimeUnit, first);
      var c := AffordableAdvance(limit, base, overtime, unit, overtimeUnit, Min(first, second));
      AdvanceStaysBelow(limit, base, overtime, unit, overtimeUnit, first);
      AdvanceStaysBelow(limit, base, overtime, unit, overtimeUnit, Min(first, second));
      AdvanceStaysBelow(a, base, overtime, unit, overtimeUnit, second);
      ScanIsExact(limit, base, overtime, unit, overtimeUnit, first, a);
      ScanIsExact(limit, base, overtime, unit, overtimeUnit, Min(first, second), c);
      ScanIsExact(limit, base, overtime, unit, overtimeUnit, first, c);
      if a > 0 {
        var b := AffordableAdvance(a, base, overtime, unit, overtimeUnit, second);
        ScanIsExact(a, base, overtime, unit, overtimeUnit, second, b);
        ScanIsExact(a, base, overtime, unit, overtimeUnit, second, c);
        ScanIsExact(limit, base, overtime, unit, overtimeUnit, Min(first, second), b);
      }
    }
  }

  // ---------------------------------------------------------------- when the scan finds the largest quantity

  /** For every limit and every amount, no affordable quantity lies beyond the one the scan returns. */
  ghost predicate FindsLargest(base: int, overtime: int, unit: int, overtimeUnit: int) {
    forall limit: int, available: int, q: int | available > 0 && 1 <= q <= limit ::
      LineCost(q, base, overtime, unit, overtimeUnit) <= available ==>
        q <= AffordableAdvance(limit, base, overtime, unit, overtimeUnit, available)
  }

  lemma CostStep(q: int, base: int, overtime: int, unit: int, overtimeUnit: int)
    requires q >= 0 && base >= 0
    ensures LineCost(q + 1, base, overtime, unit, overtimeUnit) ==
            LineCost(q, base, overtime, unit, overtimeUnit) + unit +
            (if base <= q < base + overtime then overtimeUnit else 0)
  {
    var o1, o2 := ProjectedOvertime(q, base, overtime), ProjectedOvertime(q + 1, base, overtime);
    assert o2 == o1 + (if base <= q < base + overtime then 1 else 0);
    assert (q + 1) * unit == q * unit + unit;
    assert (o1 + 1) * overtimeUnit == o1 * overtimeUnit + overtimeUnit;
  }

  lemma CostInOvertime(q: int, base: int, overtime: int, unit: int, overtimeUnit: int)
    requires 0 <= base <= q <= base + overtime && unit + overtimeUnit < 0
    ensures LineCost(q, base, overtime, unit, overtimeUnit) <= base * unit
  {
    ProductNonNegative(q - base, -(unit + overtimeUnit));
    assert LineCost(q, base, overtime, unit, overtimeUnit) == base * unit + (q - base) * (unit + overtimeUnit);
  }

  /** An unaffordable quantity is followed by unaffordable ones only. */
  lemma {:induction false} CostStays(p: int, q: int, base: int, overtime: int, unit: int, overtimeUnit: int, available: int)
    requires 1 <= p <= q && base >= 0 && unit > 0 && available > 0
    requires overtime <= 0 || unit + overtimeUnit >= 0 || base * unit <= 1
    requires LineCost(p, base, overtime, unit, overtimeUnit) > available
    ensures LineCost(q, base, overtime, unit, overtimeUnit) > available
    decreases q - p
  {
    if p < q {
      CostStep(p, base, overtime, unit, overtimeUnit);
      if unit + overtimeUnit < 0 && base <= p < base + overtime {
        CostInOvertime(p, base, overtime, unit, overtimeUnit);
        assert false;
      } else {
        CostStays(p + 1, q, base, overtime, unit, overtimeUnit, available);
      }
    }
  }

  /**
   The scan stops at the first quantity it cannot pay for. That is the largest affordable quantity, for every
   limit and amount, if and only if no hour of overtime earns back more than the unit it works on, or none is
   requested, or base labour costs too little to be unaffordable.
   */
  lemma LargestExactlyWhen(base: int, overtime: int, unit: int, overtimeUnit: int)
    requires base >= 0 && unit > 0
    ensures FindsLargest(base, overtime, unit, overtimeUnit)
            <==> overtime <= 0 || unit + overtimeUnit >= 0 || base * unit <= 1
  {
    hide LineCost, ScanFrom, AffordableAdvance;
    if overtime <= 0 || unit + overtimeUnit >= 0 || base * unit <= 1 {
      forall limit: int, available: int, q: int | available > 0 && 1 <= q <= limit &&
        LineCost(q, base, overtime, unit, overtimeUnit) <= available
        ensures q <= AffordableAdvance(limit, base, overtime, unit, overtimeUnit, available)
      {
        ScanIsExact(limit, base, overtime, unit, overtimeUnit, available, q);
        forall p | 1 <= p <= q ensures LineCost(p, base, overtime, unit, overtimeUnit) <= available {
          if LineCost(p, base, overtime, unit, overtimeUnit) > available {
            CostStays(p, q, base, overtime, unit, overtimeUnit, available);
          }
        }
      }
    } else {
      SubsidyStopsShort(base, overtime, unit, overtimeUnit);
    }
  }

  lemma SubsidyStopsShort(base: int, overtime: int, unit: int, overtimeUnit: int)
    requires base >= 0 && unit > 0 && overtime > 0 && unit + overtimeUnit < 0 && base * unit > 1
    ensures !FindsLargest(base, overtime, unit, overtimeUnit)
  {
    hide AffordableAdvance;
    var available := base * unit - 1;
    CostStep(base, base, overtime, unit, overtimeUnit);
    assert LineCost(base, base, overtime, unit, overtimeUnit) == base * unit;
    assert LineCost(base + 1, base, overtime, unit, overtimeUnit) <= available;
    ScanIsExact(base + 1, base, overtime, unit, overtimeUnit, available, base + 1);
  }
}
