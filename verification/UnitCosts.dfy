/**
 Unit costs follow the units. Work, finished goods, goods on hold and promised returns of a product always cost what its
 material costs, within any band that holds the bills of the product at the prices of the parts.
 */
module UnitCosts {
  import opened Seqs
  import opened Domain
  import opened Cash
  import opened Inventory
  import opened Labor
  import opened Quality
  import opened Phases
  import opened Actions
  import opened Resolver
  import opened Ledger
  import opened LedgerPhases
  import opened Frames
  import opened Accounting
  import opened Costing
  import opened Valuation

  // ---------------------------------------------------------------- one list

  ghost predicate CostsWhere<K(!new)>(items: seq<Stock<K>>, sel: K -> bool, lo: int, hi: int) {
    forall s | s in items && sel(s.key) :: lo <= s.cost <= hi
  }

  lemma AddedWhere<K(!new)>(items: seq<Stock<K>>, sel: K -> bool, key: K, qty: int, cost: int, lo: int, hi: int)
    requires Tidy(items) && CostsWhere(items, sel, lo, hi) && 1 <= lo && qty > 0 && (sel(key) ==> lo <= cost <= hi)
    ensures Tidy(Add(items, key, qty, cost)) && CostsWhere(Add(items, key, qty, cost), sel, lo, hi)
  {
    AddTidy(items, key, qty, cost);
    var i, next := Index(items, key), Add(items, key, qty, cost);
    if i < |items| && sel(key) {
      assert items[i] in items;
      WeightedAverage(items[i].qty, items[i].cost, qty, cost);
      assert next == items[i := Merge(items[i], qty, cost)];
    }
  }

  lemma TakenWhere<K(!new)>(items: seq<Stock<K>>, sel: K -> bool, key: K, qty: int, lo: int, hi: int)
    requires Tidy(items) && CostsWhere(items, sel, lo, hi)
    ensures Tidy(Take(items, key, qty)) && CostsWhere(Take(items, key, qty), sel, lo, hi)
  {
    TakeTidy(items, key, qty);
    TakeShape(items, key, qty);
    var i := Index(items, key);
    assert i < |items| ==> items[i] in items;
  }

  lemma CostThere<K(!new)>(items: seq<Stock<K>>, sel: K -> bool, key: K, lo: int, hi: int)
    requires CostsWhere(items, sel, lo, hi) && sel(key) && QtyOf(items, key) > 0
    ensures lo <= CostOf(items, key) <= hi
  {
    assert items[Index(items, key)] in items;
  }

  // ---------------------------------------------------------------- material

  function BillQty(): BOMLine -> int { (l: BOMLine) => l.qty }

  lemma TimesWithin(n: int, c: int, a: int, b: int)
    requires n >= 0 && a <= c <= b
    ensures a * n <= n * c <= b * n
  {
    ProductNonNegative(n, c - a);
    ProductNonNegative(n, b - c);
    assert n * (c - a) == n * c - a * n;
    assert n * (b - c) == b * n - n * c;
  }

  lemma LineCostWithin(parts: seq<Stock<PartID>>, line: BOMLine, q: int, a: int, b: int)
    requires Tidy(parts) && CostsWithin(parts, a, b) && 1 <= a && q >= 1 && line.qty >= 0 && line.qty * q <= QtyOf(parts, line.part)
    ensures a * (line.qty * q) <= TakeCost(parts, line.part, line.qty * q, 0) <= b * (line.qty * q)
  {
    hide Tidy, TakeCost, Index;
    var i, n := Index(parts, line.part), line.qty * q;
    TakeCostIs(parts, line.part, n, 0);
    ProductNonNegative(line.qty, q);
    if i < |parts| {
      assert parts[i] in parts;
      TimesWithin(n, parts[i].cost, a, b);
    } else {
      assert n == 0;
    }
  }

  /** The material of a release costs at least and at most what the bill asks for at the ends of the band of part costs. */
  lemma {:induction false} MaterialCost(parts: seq<Stock<PartID>>, bom: seq<BOMLine>, q: int, cost: int, a: int, b: int)
    requires Tidy(parts) && CostsWithin(parts, a, b) && 1 <= a && q >= 1 && SoundBill(bom) && Buildable(parts, bom, q)
    ensures var used := Consume(parts, bom, q, cost).cost;
            cost + a * (Sum(BillQty(), bom) * q) <= used <= cost + b * (Sum(BillQty(), bom) * q)
    decreases |bom|
  {
    hide Tidy, CostsWithin, Buildable, Take, TakeCost, QtyOf;
    if |bom| > 0 {
      var line, rest := bom[0], Sum(BillQty(), bom[1..]);
      assert line in bom;
      WithinIsCosted(parts, a, b);
      BuildableRest(parts, bom, q);
      LineCostWithin(parts, line, q, a, b);
      TakeTidy(parts, line.part, line.qty * q);
      TakeCostsWithin(parts, line.part, line.qty * q, a, b);
      MaterialCost(Take(parts, line.part, line.qty * q), bom[1..], q, cost + TakeCost(parts, line.part, line.qty * q, 0), a, b);
      BandAddsUp(a, line.qty, rest, q);
      BandAddsUp(b, line.qty, rest, q);
    }
  }

  lemma BandAddsUp(c: int, own: int, others: int, q: int)
    ensures c * ((own + others) * q) == c * (own * q) + c * (others * q)
  {
    assert (own + others) * q == own * q + others * q;
  }

  lemma WithinIsCosted(parts: seq<Stock<PartID>>, a: int, b: int)
    requires Tidy(parts) && CostsWithin(parts, a, b) && 1 <= a
    ensures Costed(parts)
  {
  }

  /** The bills of a product, at part costs in one band, cost an amount per unit in another. */
  ghost predicate MaterialWithin(cfg: Config, product: ProductID, a: int, b: int, lo: int, hi: int) {
    forall st: MatchState, round: int ::
      var bill := cfg.bom(st, round, product);
      bill.known ==>
        && SoundBill(bill.parts) && (exists line :: line in bill.parts && line.qty > 0)
        && lo <= a * Sum(BillQty(), bill.parts) && b * Sum(BillQty(), bill.parts) <= hi
  }

  // ---------------------------------------------------------------- the plant

  /** Whatever there is of a product costs an amount in the band. */
  ghost predicate GoodsWithin(plant: Plant, product: ProductID, lo: int, hi: int) {
    && Tidy(plant.wip) && CostsWhere(plant.wip, OfProduct(product), lo, hi)
    && Tidy(plant.finished) && CostsWhere(plant.finished, IsKey(product), lo, hi)
    && (forall h | h in plant.holds && h.product == product :: lo <= h.cost <= hi)
    && (forall c | c in plant.pendingReturns && c.product == product :: lo <= c.cost <= hi)
    && (forall h | h in plant.holds :: h.qty > 0)
    && (forall c | c in plant.pendingReturns :: c.qty > 0)
  }

  ghost predicate SameGoods(a: Plant, b: Plant) {
    a.wip == b.wip && a.finished == b.finished && a.holds == b.holds && a.pendingReturns == b.pendingReturns
  }

  lemma StillWithin(a: Plant, b: Plant, product: ProductID, lo: int, hi: int)
    requires GoodsWithin(a, product, lo, hi) && SameGoods(a, b)
    ensures GoodsWithin(b, product, lo, hi)
  {
  }

  lemma FinishedWithin(p: Phase, product: ProductID, key: ProductID, qty: int, cost: int, lo: int, hi: int)
    requires GoodsWithin(p.st.plant, product, lo, hi) && 1 <= lo && qty > 0 && (key == product ==> lo <= cost <= hi)
    ensures GoodsWithin(AddFinished(p, key, qty, cost).st.plant, product, lo, hi)
  {
    hide Add, Tidy, CostsWhere;
    AddedWhere(p.st.plant.finished, IsKey(product), key, qty, cost, lo, hi);
  }

  lemma WorkWithin(p: Phase, product: ProductID, key: WipKey, qty: int, cost: int, lo: int, hi: int)
    requires GoodsWithin(p.st.plant, product, lo, hi) && 1 <= lo && qty > 0 && (key.product == product ==> lo <= cost <= hi)
    ensures GoodsWithin(AddWip(p, key, qty, cost).st.plant, product, lo, hi)
  {
    hide Add, Tidy, CostsWhere;
    AddedWhere(p.st.plant.wip, OfProduct(product), key, qty, cost, lo, hi);
  }

  lemma HeldWithin(p: Phase, product: ProductID, held: ProductID, qty: int, cost: int, round: int, release: int, reason: HoldReason,
                   origin: Option<WorkstationID>, lo: int, hi: int)
    requires GoodsWithin(p.st.plant, product, lo, hi) && 1 <= lo && qty > 0 && (held == product ==> lo <= cost <= hi)
    ensures GoodsWithin(PlaceHold(p, held, qty, cost, round, release, reason, origin).st.plant, product, lo, hi)
  {
    hide Tidy, CostsWhere;
    var holds := p.st.plant.holds;
    var i := HoldIndex(holds, held, release, reason);
    assert i < |holds| ==> holds[i] in holds;
  }

  lemma {:induction false} ReleasedWithin(p: Phase, holds: seq<InspectionHold>, product: ProductID, lo: int, hi: int)
    requires GoodsWithin(p.st.plant, product, lo, hi) && 1 <= lo
    requires forall h | h in holds :: h.qty > 0 && (h.product == product ==> lo <= h.cost <= hi)
    ensures GoodsWithin(ReleaseHolds(p, holds).st.plant, product, lo, hi)
    decreases |holds|
  {
    hide GoodsWithin, Add;
    if |holds| > 0 {
      var h := holds[0];
      assert h in holds;
      FinishedWithin(p, product, h.product, h.qty, h.cost, lo, hi);
      StillWithin(AddFinished(p, h.product, h.qty, h.cost).st.plant, ReleaseHold(p, h).st.plant, product, lo, hi);
      ReleasedWithin(ReleaseHold(p, h), holds[1..], product, lo, hi);
    }
  }

  lemma HoldsWithin(env: Env, p: Phase, product: ProductID, lo: int, hi: int)
    requires GoodsWithin(p.st.plant, product, lo, hi) && 1 <= lo
    ensures GoodsWithin(ReleaseInspectionHolds(env, p).st.plant, product, lo, hi)
  {
    hide ReleaseHolds, Filter, Tidy, CostsWhere;
    var holds := p.st.plant.holds;
    FilterMembers(ReleasedBy(env.round), holds);
    FilterMembers(HeldUntil(env.round), holds);
    ReleasedWithin(p, Filter(ReleasedBy(env.round), holds), product, lo, hi);
  }

  lemma {:induction false} AcceptedWithin(env: Env, p: Phase, items: seq<CustomerReturn>, product: ProductID, lo: int, hi: int)
    requires GoodsWithin(p.st.plant, product, lo, hi) && 1 <= lo
    requires forall c | c in items :: c.qty > 0 && (c.product == product ==> lo <= c.cost <= hi)
    ensures GoodsWithin(AcceptReturns(env, p, items).st.plant, product, lo, hi)
    decreases |items|
  {
    hide GoodsWithin, AddHold, Disappoint;
    if |items| > 0 {
      var item := items[0];
      assert item in items;
      var counted := p.(stats := p.stats.(customerReturnUnits := p.stats.customerReturnUnits + item.qty));
      HeldWithin(counted, product, item.product, item.qty, item.cost, env.round, env.round + 1, CustomerReturned, None, lo, hi);
      var held := PlaceHold(counted, item.product, item.qty, item.cost, env.round, env.round + 1, CustomerReturned, None);
      StillWithin(held.st.plant, AcceptReturn(env, p, item).st.plant, product, lo, hi);
      AcceptedWithin(env, AcceptReturn(env, p, item), items[1..], product, lo, hi);
    }
  }

  lemma ReturnsWithin(env: Env, p: Phase, product: ProductID, lo: int, hi: int)
    requires GoodsWithin(p.st.plant, product, lo, hi) && 1 <= lo
    ensures GoodsWithin(ProcessCustomerReturns(env, p).st.plant, product, lo, hi)
  {
    hide AcceptReturns, Filter, Tidy, CostsWhere, SyncCustomers;
    var items := p.st.plant.pendingReturns;
    FilterMembers(DueBy(env.round), items);
    FilterMembers(DueAfter(env.round), items);
    AcceptedWithin(env, p.WithPlant(p.st.plant.(pendingReturns := Filter(DueAfter(env.round), items))),
                   Filter(DueBy(env.round), items), product, lo, hi);
  }

  // ---------------------------------------------------------------- production

  /** Parts and goods together, each in its band. */
  ghost predicate PlantWithin(plant: Plant, product: ProductID, a: int, b: int, lo: int, hi: int) {
    Tidy(plant.parts) && CostsWithin(plant.parts, a, b) && GoodsWithin(plant, product, lo, hi)
  }

  lemma ReleaseWithin(env: Env, p: Phase, first: WorkstationID, release: ProductionRelease, product: ProductID,
                      a: int, b: int, lo: int, hi: int)
    requires PlantWithin(p.st.plant, product, a, b, lo, hi) && 1 <= a && 1 <= lo && MaterialWithin(env.cfg, product, a, b, lo, hi)
    ensures PlantWithin(ReleaseOne(env, p, first, release).st.plant, product, a, b, lo, hi)
  {
    hide GoodsWithin, Tidy, CostsWithin, Consume, Add, MaxBuildable, Buildable, SoundBill, MaterialWithin;
    var bill, parts := env.cfg.bom(p.st, env.round, release.product), p.st.plant.parts;
    var q := AcceptedRelease(parts, bill.parts, release.quantity);
    if release.quantity > 0 && bill.known && q > 0 {
      var used, key := Consume(parts, bill.parts, q, 0), WipKey(release.product, first);
      ConsumeTidy(parts, bill.parts, q, 0);
      ConsumeCostsWithin(parts, bill.parts, q, 0, a, b);
      if release.product == product {
        MaterialIsAsked(env, p.st, product, a, b, lo, hi);
        ReleaseCost(env, p, product, q, a, b, lo, hi);
      }
      WorkWithin(p, product, key, q, PerUnitCost(used.cost, q), lo, hi);
      StillWithin(AddWip(p, key, q, PerUnitCost(used.cost, q)).st.plant, ReleaseOne(env, p, first, release).st.plant, product, lo, hi);
    }
  }

  lemma MaterialIsAsked(env: Env, st: MatchState, product: ProductID, a: int, b: int, lo: int, hi: int)
    requires MaterialWithin(env.cfg, product, a, b, lo, hi) && env.cfg.bom(st, env.round, product).known
    ensures |env.cfg.bom(st, env.round, product).parts| > 0
  {
  }

  lemma ReleaseCost(env: Env, p: Phase, product: ProductID, q: int, a: int, b: int, lo: int, hi: int)
    requires Tidy(p.st.plant.parts) && CostsWithin(p.st.plant.parts, a, b) && 1 <= a && 1 <= lo && q >= 1
    requires MaterialWithin(env.cfg, product, a, b, lo, hi) && env.cfg.bom(p.st, env.round, product).known
    requires q <= MaxBuildable(p.st.plant.parts, env.cfg.bom(p.st, env.round, product).parts)
    ensures lo <= PerUnitCost(Consume(p.st.plant.parts, env.cfg.bom(p.st, env.round, product).parts, q, 0).cost, q) <= hi
  {
    hide Consume, MaxBuildable, Buildable, Tidy, CostsWithin, SoundBill;
    var bill, parts := env.cfg.bom(p.st, env.round, product).parts, p.st.plant.parts;
    MaxBuildableIsLargest(parts, bill, q);
    MaterialCost(parts, bill, q, 0, a, b);
    PerUnitWithin(Consume(parts, bill, q, 0).cost, q, a * Sum(BillQty(), bill), b * Sum(BillQty(), bill), lo, hi,
                  Sum(BillQty(), bill), a, b);
  }

  lemma PerUnitWithin(total: int, q: int, from: int, to: int, lo: int, hi: int, n: int, a: int, b: int)
    requires q >= 1 && 1 <= lo <= from && to <= hi && from == a * n && to == b * n
    requires a * (n * q) <= total <= b * (n * q)
    ensures lo <= PerUnitCost(total, q) <= hi
  {
    assert a * (n * q) == from * q && b * (n * q) == to * q;
    ProductNonNegative(q, from - lo);
    ProductNonNegative(q, hi - to);
    assert q * lo <= from * q && to * q <= q * hi;
    FloorAverage(total, q, lo, hi);
  }

  lemma {:induction false} ReleasesWithin(env: Env, p: Phase, first: WorkstationID, releases: seq<ProductionRelease>, product: ProductID,
                                          a: int, b: int, lo: int, hi: int)
    requires PlantWithin(p.st.plant, product, a, b, lo, hi) && 1 <= a && 1 <= lo && MaterialWithin(env.cfg, product, a, b, lo, hi)
    ensures PlantWithin(ReleaseAll(env, p, first, releases).st.plant, product, a, b, lo, hi)
    decreases |releases|
  {
    hide PlantWithin, MaterialWithin, ReleaseOne;
    if |releases| > 0 {
      ReleaseWithin(env, p, first, releases[0], product, a, b, lo, hi);
      ReleasesWithin(env, ReleaseOne(env, p, first, releases[0]), first, releases[1..], product, a, b, lo, hi);
    }
  }

  lemma LossesWithin(p: Phase, key: WipKey, scrap: int, rework: int, cost: int, product: ProductID, lo: int, hi: int)
    requires GoodsWithin(p.st.plant, product, lo, hi) && 1 <= lo && (key.product == product ==> lo <= cost <= hi)
    ensures GoodsWithin(ReworkUnits(ScrapUnits(p, key, scrap), key, rework, cost).st.plant, product, lo, hi)
  {
    hide GoodsWithin, Add;
    var q := ScrapUnits(p, key, scrap);
    StillWithin(p.st.plant, q.st.plant, product, lo, hi);
    if rework > 0 {
      WorkWithin(q.(stats := q.stats.(reworkUnits := q.stats.reworkUnits + rework)), product, key, rework, cost, lo, hi);
      StillWithin(AddWip(q.(stats := q.stats.(reworkUnits := q.stats.reworkUnits + rework)), key, rework, cost).st.plant,
                  ReworkUnits(q, key, rework, cost).st.plant, product, lo, hi);
    }
  }

  lemma YieldWithin(p: Phase, key: WipKey, held: int, good: int, cost: int, round: int, release: int,
                    product: ProductID, lo: int, hi: int)
    requires GoodsWithin(p.st.plant, product, lo, hi) && 1 <= lo && (key.product == product ==> lo <= cost <= hi)
    ensures GoodsWithin(StockUnits(HoldUnits(p, key, held, cost, round, release), key, good, cost).st.plant, product, lo, hi)
  {
    hide GoodsWithin, Add, AddHold;
    var q := HoldUnits(p, key, held, cost, round, release);
    if held > 0 {
      HeldWithin(p, product, key.product, held, cost, round, release, ProductionQuality, Some(key.station), lo, hi);
    }
    if good > 0 {
      FinishedWithin(q, product, key.product, good, cost, lo, hi);
      StillWithin(AddFinished(q, key.product, good, cost).st.plant, StockUnits(q, key, good, cost).st.plant, product, lo, hi);
    }
  }

  lemma MoveWithin(env: Env, p: Phase, key: WipKey, qty: int, cost: int, overtime: bool, product: ProductID, lo: int, hi: int)
    requires GoodsWithin(p.st.plant, product, lo, hi) && 1 <= lo && qty > 0 && (key.product == product ==> lo <= cost <= hi)
    ensures GoodsWithin(MoveUnits(env, p, key, qty, cost, overtime).st.plant, product, lo, hi)
  {
    hide GoodsWithin, ScrapUnits, ReworkUnits, HoldUnits, StockUnits, FinishedSplit, Normalized, Add;
    var route := env.cfg.route(p.st, env.round, key.product, key.station);
    if route.finished {
      var ctx := FinalInspection(key.product, key.station, qty, key.station in p.stressed, overtime);
      var profile := Normalized(env.cfg.quality(p.st, env.round, ctx));
      var split := FinishedSplit(qty, profile, env.random, p.drawn);
      var p0 := p.(drawn := Drawn(env.random, p.drawn, qty));
      LossesWithin(p0, key, split.scrap, split.rework, cost, product, lo, hi);
      YieldWithin(ReworkUnits(ScrapUnits(p0, key, split.scrap), key, split.rework, cost), key, split.hold, split.Good(qty), cost,
                  env.round, env.round + Max(profile.holdRounds, 1), product, lo, hi);
    } else {
      var to := WipKey(key.product, if route.next == NO_STATION then key.station else route.next);
      WorkWithin(p, product, to, qty, cost, lo, hi);
      StillWithin(AddWip(p, to, qty, cost).st.plant, MoveUnits(env, p, key, qty, cost, overtime).st.plant, product, lo, hi);
    }
  }

  lemma TakenWorkWithin(p: Phase, key: WipKey, qty: int, product: ProductID, lo: int, hi: int)
    requires GoodsWithin(p.st.plant, product, lo, hi) && 0 < qty <= QtyOf(p.st.plant.wip, key)
    ensures GoodsWithin(TakeWip(p, key, qty).st.plant, product, lo, hi)
    ensures key.product == product ==> lo <= PerUnitCost(TakeCost(p.st.plant.wip, key, qty, 0), qty) <= hi
  {
    hide Tidy, Take, TakeCost, QtyOf, CostOf, CostsWhere;
    TakenWhere(p.st.plant.wip, OfProduct(product), key, qty, lo, hi);
    MoveKeepsCost(p.st.plant.wip, key, qty);
    if key.product == product {
      CostThere(p.st.plant.wip, OfProduct(product), key, lo, hi);
    }
  }

  lemma AdvanceWithin(env: Env, s: Producing, cap: int, x: CapacityAllocation, product: ProductID, a: int, b: int, lo: int, hi: int)
    requires PlantWithin(s.p.st.plant, product, a, b, lo, hi) && 1 <= lo
    ensures PlantWithin(Advance(env, s, cap, x).p.st.plant, product, a, b, lo, hi)
  {
    hide GoodsWithin, PlanAdvance, BookAdvance, MoveUnits, Take, TakeCost, QtyOf, OvertimeUsed, StressedCapacity, LaborLeft, Tidy, CostsWithin;
    AdvanceFrame(env, s, cap, x);
    var i := StationIndex(s.p.st.plant.stations, x.station);
    if x.capacity > 0 && i < |s.p.st.plant.stations| {
      var p, left := MeasureStress(s.p, i), At(s.overtime, x.station);
      StillWithin(s.p.st.plant, p.st.plant, product, lo, hi);
      var plan := PlanAdvance(env, p, i, left, cap, s.spent, x);
      PlanWithinLimits(env, p, i, left, cap, s.spent, x);
      if plan.advance > 0 {
        var key := WipKey(x.product, x.station);
        var cost := PerUnitCost(TakeCost(p.st.plant.wip, key, plan.advance, 0), plan.advance);
        var overtime := OvertimeUsed(p.st.plant.stations[i], plan.advance, left) > 0;
        TakenWorkWithin(p, key, plan.advance, product, lo, hi);
        var taken := s.(p := TakeWip(p, key, plan.advance));
        var booked := BookAdvance(taken, i, plan);
        BookedGoods(taken, i, plan);
        StillWithin(taken.p.st.plant, booked.p.st.plant, product, lo, hi);
        MoveWithin(env, booked.p, key, plan.advance, cost, overtime, product, lo, hi);
      }
    }
  }

  lemma BookedGoods(s: Producing, i: nat, plan: Plan)
    requires i < |s.p.st.plant.stations|
    ensures SameGoods(s.p.st.plant, BookAdvance(s, i, plan).p.st.plant)
  {
    hide ConsumeLabor, OvertimeUsed;
  }

  lemma {:induction false} AdvancesWithin(env: Env, s: Producing, cap: int, allocations: seq<CapacityAllocation>, product: ProductID,
                                          a: int, b: int, lo: int, hi: int)
    requires PlantWithin(s.p.st.plant, product, a, b, lo, hi) && 1 <= lo
    ensures PlantWithin(AdvanceAll(env, s, cap, allocations).p.st.plant, product, a, b, lo, hi)
    decreases |allocations|
  {
    hide PlantWithin, Advance;
    if |allocations| > 0 {
      AdvanceWithin(env, s, cap, allocations[0], product, a, b, lo, hi);
      AdvancesWithin(env, Advance(env, s, cap, allocations[0]), cap, allocations[1..], product, a, b, lo, hi);
    }
  }

  lemma ProductionKeepsCosts(env: Env, p: Phase, action: Option<ActionSubmission>, product: ProductID, a: int, b: int, lo: int, hi: int)
    requires PlantWithin(p.st.plant, product, a, b, lo, hi) && 1 <= a && 1 <= lo && MaterialWithin(env.cfg, product, a, b, lo, hi)
    ensures GoodsWithin(ResolveProduction(env, p, action).st.plant, product, lo, hi)
  {
    hide ReleaseAll, AdvanceAll, RequestOvertime, ProjectCashDelta, GoodsWithin, Tidy, CostsWithin, MaterialWithin;
    if action.Some? && action.value.action.production.Some? && |p.st.plant.stations| > 0 {
      var todo, first := action.value.action.production.value, p.st.plant.stations[0].id;
      ReleasesWithin(env, p, first, todo.releases, product, a, b, lo, hi);
      var released := ReleaseAll(env, p, first, todo.releases);
      var s, cap := Producing(released, RequestOvertime(map[], todo.overtime), 0), CappedBudget(released.st.targets.productionSpendBudget);
      AdvancesWithin(env, s, cap, todo.allocations, product, a, b, lo, hi);
      StillWithin(AdvanceAll(env, s, cap, todo.allocations).p.st.plant, ResolveProduction(env, p, action).st.plant, product, lo, hi);
    }
  }

  // ---------------------------------------------------------------- sales

  lemma SaleWithin(env: Env, s: Selling, prices: map<ProductID, int>, entry: BacklogEntry, product: ProductID, lo: int, hi: int)
    requires GoodsWithin(s.p.st.plant, product, lo, hi)
    ensures GoodsWithin(ShipEntry(env, s, prices, entry).p.st.plant, product, lo, hi)
  {
    hide Take, QtyOf, CostOf, PaymentDelay, Price, Tidy, CostsWhere, ScheduleReceivable, ScheduleReturns;
    var finished := s.p.st.plant.finished;
    var qty, price := Min(entry.qty, QtyOf(finished, entry.product)), Price(prices, entry.product);
    if qty > 0 {
      TakenWhere(finished, IsKey(product), entry.product, qty, lo, hi);
      if entry.product == product {
        CostThere(finished, IsKey(product), product, lo, hi);
      }
      var sold := Ship(s.p, entry, qty, price);
      var delay := PaymentDelay(env, sold.st.customers, entry.customer);
      ReceivableGoods(env, sold, qty * price, delay);
      var logged := ScheduleReceivable(env, sold, qty * price, delay).Log(Shipped(entry.customer, entry.product, qty, price));
      StillWithin(sold.st.plant, logged.st.plant, product, lo, hi);
      PromiseWithin(env, logged, entry.customer, entry.product, qty, CostOf(finished, entry.product), product, lo, hi);
    }
  }

  lemma ReceivableGoods(env: Env, p: Phase, amount: int, delay: int)
    ensures SameGoods(p.st.plant, ScheduleReceivable(env, p, amount, delay).st.plant)
  {
    hide ProjectCashDelta;
  }

  lemma PromiseWithin(env: Env, p: Phase, customer: CustomerID, sold: ProductID, qty: int, cost: int, product: ProductID, lo: int, hi: int)
    requires GoodsWithin(p.st.plant, product, lo, hi) && (sold == product ==> lo <= cost <= hi)
    ensures GoodsWithin(ScheduleReturns(env, p, customer, sold, qty, cost).st.plant, product, lo, hi)
  {
    hide ReturnQuantity, DrawnForReturns, Normalized, Tidy, CostsWhere;
  }

  lemma {:induction false} SalesWithin(env: Env, s: Selling, prices: map<ProductID, int>, entries: seq<BacklogEntry>,
                                       product: ProductID, lo: int, hi: int)
    requires GoodsWithin(s.p.st.plant, product, lo, hi)
    ensures GoodsWithin(ShipAll(env, s, prices, entries).p.st.plant, product, lo, hi)
    decreases |entries|
  {
    hide GoodsWithin, ShipEntry;
    if |entries| > 0 {
      SaleWithin(env, s, prices, entries[0], product, lo, hi);
      SalesWithin(env, ShipEntry(env, s, prices, entries[0]), prices, entries[1..], product, lo, hi);
    }
  }

  lemma SalesKeepCosts(env: Env, p: Phase, action: Option<ActionSubmission>, product: ProductID, lo: int, hi: int)
    requires GoodsWithin(p.st.plant, product, lo, hi)
    ensures GoodsWithin(ResolveSales(env, p, action).st.plant, product, lo, hi)
  {
    hide GoodsWithin, ShipAll, SyncCustomers, EffectiveBacklog, SalesPrices;
    var entries := env.cfg.sort(EffectiveBacklog(p.st));
    SalesWithin(env, Selling(p, [], []), SalesPrices(action), entries, product, lo, hi);
    StillWithin(p.st.plant, SetBacklog(p, []).st.plant, product, lo, hi);
    var s := ShipAll(env, Selling(p, [], []), SalesPrices(action), entries);
    StillWithin(s.p.st.plant, SetBacklog(s.p, s.remaining).st.plant, product, lo, hi);
  }

  // ---------------------------------------------------------------- rounds and runs

  lemma BeforeWorldKeepsCosts(env: Env, p: Phase, actions: seq<ActionSubmission>, product: ProductID, a: int, b: int, lo: int, hi: int)
    requires PartsWithin(p.st.plant, a, b) && GoodsWithin(p.st.plant, product, lo, hi)
    requires 1 <= a && 1 <= lo && PricesWithin(env.cfg, a, b) && MaterialWithin(env.cfg, product, a, b, lo, hi)
    ensures GoodsWithin(BeforeWorld(env, p, actions).st.plant, product, lo, hi)
  {
    hide ResolveProcurement, ReceiveSupply, ReleaseInspectionHolds, ProcessCustomerReturns, ResolveProduction, ResolveSales;
    hide Tidy, CostsWithin, LotsWithin, PricesWithin, GoodsWithin, MaterialWithin;
    var buying := ActionFor(actions, ProcurementManager);
    var p1 := ResolveProcurement(env, p, buying);
    ProcurementWithin(env, p, buying, a, b);
    ProcurementFrame(env, p, buying);
    StillWithin(p.st.plant, p1.st.plant, product, lo, hi);
    var p2 := ReceiveSupply(env, p1);
    SupplyWithin(env, p1, a, b);
    SupplyFrame(env, p1);
    StillWithin(p1.st.plant, p2.st.plant, product, lo, hi);
    var p3 := ReleaseInspectionHolds(env, p2);
    HoldsFrame(env, p2);
    HoldsWithin(env, p2, product, lo, hi);
    var p4 := ProcessCustomerReturns(env, p3);
    ReturnsFrame(env, p3);
    ReturnsWithin(env, p3, product, lo, hi);
    ProductionKeepsCosts(env, p4, ActionFor(actions, ProductionManager), product, a, b, lo, hi);
    SalesKeepCosts(env, ResolveProduction(env, p4, ActionFor(actions, ProductionManager)), ActionFor(actions, SalesManager), product, lo, hi);
  }

  /**
   Every round keeps what there is of a product in its cost band: work starts at the cost of its material and carries its
   cost from station to station, into stock, onto hold, into returns and back.
   */
  lemma RoundKeepsUnitCosts(cfg: Config, random: Random, drawn: nat, st: MatchState, actions: seq<ActionSubmission>,
                            r: RoundResult, product: ProductID, a: int, b: int, lo: int, hi: int)
    requires OrderlyWorld(cfg) && Resolved(cfg, random, drawn, st, actions, r)
    requires 1 <= a && 1 <= lo && PricesWithin(cfg, a, b) && MaterialWithin(cfg, product, a, b, lo, hi)
    requires PartsWithin(st.plant, a, b) && GoodsWithin(st.plant, product, lo, hi)
    ensures PartsWithin(r.next.plant, a, b) && GoodsWithin(r.next.plant, product, lo, hi)
  {
    hide BeforeWorld, Finalize, NormalizeActions, ResetCapacity, GoodsWithin, PartsWithin, PricesWithin, MaterialWithin;
    RoundKeepsPartCosts(cfg, random, drawn, st, actions, r, a, b);
    FinalState(cfg, random, drawn, st, actions, r);
    var env, ordered := EnvOf(cfg, random, st), NormalizeActions(st, actions).value;
    var begin := Begin(st, drawn);
    StillWithin(st.plant, begin.st.plant, product, lo, hi);
    SameParts(st.plant, begin.st.plant, a, b);
    BeforeWorldKeepsCosts(env, begin, ordered, product, a, b, lo, hi);
    var p1 := BeforeWorld(env, begin, ordered);
    if cfg.world.Some? {
      assert OrderlyEffect(p1.st, cfg.world.value(p1.st, ordered, p1.drawn).value);
    }
    var p2 := ApplyWorld(env, p1, ordered).value;
    FinalizeFrame(env, p2, ActionFor(ordered, FinanceController));
    StillWithin(p1.st.plant, r.next.plant, product, lo, hi);
  }

  lemma SameParts(a: Plant, b: Plant, lo: int, hi: int)
    requires PartsWithin(a, lo, hi) && a.parts == b.parts && a.inTransit == b.inTransit
    ensures PartsWithin(b, lo, hi)
  {
  }

  /** The same over any run. With one price per part and one bill per product, unit costs never change at all. */
  lemma {:induction false} UnitCostsOverRun(cfg: Config, random: Random, drawn: nat, st: MatchState, inputs: seq<seq<ActionSubmission>>,
                                            product: ProductID, a: int, b: int, lo: int, hi: int)
    requires OrderlyWorld(cfg)
    requires 1 <= a && 1 <= lo && PricesWithin(cfg, a, b) && MaterialWithin(cfg, product, a, b, lo, hi)
    requires PartsWithin(st.plant, a, b) && GoodsWithin(st.plant, product, lo, hi)
    ensures GoodsWithin(Play(cfg, random, drawn, st, inputs).st.plant, product, lo, hi)
    decreases |inputs|
  {
    hide Resolve, OrderlyWorld, PricesWithin, PartsWithin, GoodsWithin, MaterialWithin;
    if |inputs| > 0 && Resolve(cfg, random, drawn, st, inputs[0]).Ok? {
      var r := Resolve(cfg, random, drawn, st, inputs[0]).value;
      RoundKeepsUnitCosts(cfg, random, drawn, st, inputs[0], r, product, a, b, lo, hi);
      UnitCostsOverRun(cfg, random, r.drawn, r.next, inputs[1..], product, a, b, lo, hi);
    }
  }

  // ---------------------------------------------------------------- goods on hold

  /** The hold is still there, as it was but for units that may have been added to it. */
  ghost predicate StillHeld(holds: seq<InspectionHold>, h: InspectionHold) {
    exists g :: g in holds && g.qty >= h.qty && g == h.(qty := g.qty)
  }

  /** Units join a hold at the cost of the units that are there already. */
  lemma AddingKeepsHolds(holds: seq<InspectionHold>, product: ProductID, qty: int, cost: int, round: int, release: int,
                         reason: HoldReason, h: InspectionHold)
    requires StillHeld(holds, h) && h.cost > 0
    ensures StillHeld(AddHold(holds, product, qty, cost, round, release, reason), h)
  {
    var g :| g in holds && g.qty >= h.qty && g == h.(qty := g.qty);
    var k :| 0 <= k < |holds| && holds[k] == g;
    var i, after := HoldIndex(holds, product, release, reason), AddHold(holds, product, qty, cost, round, release, reason);
    assert after[k] == if qty > 0 && i == k then g.(qty := g.qty + qty) else g;
    assert after[k] in after;
  }

  lemma {:induction false} AcceptingKeepsHolds(env: Env, p: Phase, items: seq<CustomerReturn>, h: InspectionHold)
    requires StillHeld(p.st.plant.holds, h) && h.cost > 0
    ensures StillHeld(AcceptReturns(env, p, items).st.plant.holds, h)
    decreases |items|
  {
    hide AddHold, Disappoint, StillHeld;
    if |items| > 0 {
      var item := items[0];
      AddingKeepsHolds(p.st.plant.holds, item.product, item.qty, item.cost, env.round, env.round + 1, CustomerReturned, h);
      AcceptingKeepsHolds(env, AcceptReturn(env, p, item), items[1..], h);
    }
  }

  lemma MovingKeepsHolds(env: Env, p: Phase, key: WipKey, qty: int, cost: int, overtime: bool, h: InspectionHold)
    requires StillHeld(p.st.plant.holds, h) && h.cost > 0
    ensures StillHeld(MoveUnits(env, p, key, qty, cost, overtime).st.plant.holds, h)
  {
    hide AddHold, Add, FinishedSplit, Normalized, Drawn, StillHeld;
    var profile := Normalized(env.cfg.quality(p.st, env.round, FinalInspection(key.product, key.station, qty, key.station in p.stressed, overtime)));
    var split := FinishedSplit(qty, profile, env.random, p.drawn);
    AddingKeepsHolds(p.st.plant.holds, key.product, split.hold, cost, env.round, env.round + Max(profile.holdRounds, 1),
                     ProductionQuality, h);
  }

  lemma AdvancingKeepsHolds(env: Env, s: Producing, cap: int, x: CapacityAllocation, h: InspectionHold)
    requires StillHeld(s.p.st.plant.holds, h) && h.cost > 0
    ensures StillHeld(Advance(env, s, cap, x).p.st.plant.holds, h)
  {
    hide PlanAdvance, MoveUnits, Take, TakeCost, OvertimeUsed, StressedCapacity, ConsumeLabor, StillHeld;
    var i := StationIndex(s.p.st.plant.stations, x.station);
    if x.capacity > 0 && i < |s.p.st.plant.stations| {
      var p, left := MeasureStress(s.p, i), At(s.overtime, x.station);
      var plan := PlanAdvance(env, p, i, left, cap, s.spent, x);
      if plan.advance > 0 {
        var key := WipKey(x.product, x.station);
        var cost := PerUnitCost(TakeCost(p.st.plant.wip, key, plan.advance, 0), plan.advance);
        var overtime := OvertimeUsed(p.st.plant.stations[i], plan.advance, left) > 0;
        MovingKeepsHolds(env, BookAdvance(s.(p := TakeWip(p, key, plan.advance)), i, plan).p, key, plan.advance, cost, overtime, h);
      }
    }
  }

  lemma {:induction false} AllAdvancesKeepHolds(env: Env, s: Producing, cap: int, allocations: seq<CapacityAllocation>, h: InspectionHold)
    requires StillHeld(s.p.st.plant.holds, h) && h.cost > 0
    ensures StillHeld(AdvanceAll(env, s, cap, allocations).p.st.plant.holds, h)
    decreases |allocations|
  {
    hide Advance, StillHeld;
    if |allocations| > 0 {
      AdvancingKeepsHolds(env, s, cap, allocations[0], h);
      AllAdvancesKeepHolds(env, Advance(env, s, cap, allocations[0]), cap, allocations[1..], h);
    }
  }

  lemma ProductionKeepsHolds(env: Env, p: Phase, action: Option<ActionSubmission>, h: InspectionHold)
    requires StillHeld(p.st.plant.holds, h) && h.cost > 0
    ensures StillHeld(ResolveProduction(env, p, action).st.plant.holds, h)
  {
    hide ReleaseAll, AdvanceAll, RequestOvertime, ProjectCashDelta, StillHeld;
    if action.Some? && action.value.action.production.Some? && |p.st.plant.stations| > 0 {
      var todo, first := action.value.action.production.value, p.st.plant.stations[0].id;
      ReleaseAllFrame(env, p, first, todo.releases);
      var released := ReleaseAll(env, p, first, todo.releases);
      AllAdvancesKeepHolds(env, Producing(released, RequestOvertime(map[], todo.overtime), 0),
                           CappedBudget(released.st.targets.productionSpendBudget), todo.allocations, h);
    }
  }

  lemma HoldsOfPhases(env: Env, p: Phase, actions: seq<ActionSubmission>, h: InspectionHold)
    requires h in p.st.plant.holds && h.release > env.round && h.cost > 0
    ensures StillHeld(BeforeWorld(env, p, actions).st.plant.holds, h)
  {
    hide ResolveProcurement, ReceiveSupply, ReleaseHolds, AcceptReturns, Filter, ResolveProduction, ResolveSales, SyncCustomers, StillHeld;
    var p1 := ResolveProcurement(env, p, ActionFor(actions, ProcurementManager));
    ProcurementFrame(env, p, ActionFor(actions, ProcurementManager));
    var p2 := ReceiveSupply(env, p1);
    SupplyFrame(env, p1);
    FilterMembers(HeldUntil(env.round), p2.st.plant.holds);
    var p3 := ReleaseInspectionHolds(env, p2);
    HeldAsIs(p3.st.plant.holds, h);
    var items := p3.st.plant.pendingReturns;
    AcceptingKeepsHolds(env, p3.WithPlant(p3.st.plant.(pendingReturns := Filter(DueAfter(env.round), items))),
                        Filter(DueBy(env.round), items), h);
    var p4 := ProcessCustomerReturns(env, p3);
    ProductionKeepsHolds(env, p4, ActionFor(actions, ProductionManager), h);
    SalesFrame(env, ResolveProduction(env, p4, ActionFor(actions, ProductionManager)), ActionFor(actions, SalesManager));
  }

  lemma HeldAsIs(holds: seq<InspectionHold>, h: InspectionHold)
    requires h in holds
    ensures StillHeld(holds, h)
  {
    assert h == h.(qty := h.qty);
  }

  /** A hold that is not due yet comes through a round unchanged, but for units that join it: at its cost, not at their own. */
  lemma HoldsKeepTheirCost(cfg: Config, random: Random, drawn: nat, st: MatchState, actions: seq<ActionSubmission>,
                           r: RoundResult, h: InspectionHold)
    requires OrderlyWorld(cfg) && Resolved(cfg, random, drawn, st, actions, r)
    requires h in st.plant.holds && h.release > st.currentRound && h.cost > 0
    ensures StillHeld(r.next.plant.holds, h)
  {
    hide BeforeWorld, Finalize, NormalizeActions, ComputeMetrics, StillHeld;
    FinalState(cfg, random, drawn, st, actions, r);
    var env, ordered := EnvOf(cfg, random, st), NormalizeActions(st, actions).value;
    HoldsOfPhases(env, Begin(st, drawn), ordered, h);
    var p1 := BeforeWorld(env, Begin(st, drawn), ordered);
    if cfg.world.Some? {
      assert OrderlyEffect(p1.st, cfg.world.value(p1.st, ordered, p1.drawn).value);
    }
    FinalizeFrame(env, ApplyWorld(env, p1, ordered).value, ActionFor(ordered, FinanceController));
  }
}
