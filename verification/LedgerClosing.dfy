/** Sales and the end of the round keep every account balanced. */
module LedgerClosing {
  import opened Seqs
  import opened Domain
  import opened Cash
  import opened Inventory
  import opened Labor
  import opened Quality
  import opened Phases
  import opened Ledger
  import opened LedgerPhases

  // ---------------------------------------------------------------- the two copies of the backlog

  /** Each customer's own list is the plant list filtered for that customer, in the same order. */
  ghost predicate Coherent(st: MatchState) {
    forall c | c in st.customers :: c.backlog == Filter(ForCustomer(c.id), st.plant.backlog)
  }

  lemma {:induction false} NoCustomerBacklog(customers: seq<Customer>)
    requires forall c | c in customers :: c.backlog == []
    ensures CustomerBacklogs(customers) == []
  {
    if |customers| > 0 {
      NoCustomerBacklog(customers[1..]);
    }
  }

  /** With coherent copies the fallback to the customer lists never disagrees with the plant list. */
  lemma FallbackAgrees(st: MatchState)
    requires Coherent(st)
    ensures EffectiveBacklog(st) == st.plant.backlog
  {
    if |st.plant.backlog| == 0 {
      NoCustomerBacklog(st.customers);
    }
  }

  function EntriesListed(): Customer -> int { (c: Customer) => |c.backlog| }

  lemma {:induction false} BacklogsInOrder(customers: seq<Customer>, i: nat)
    requires i < |customers|
    ensures var all, from, own := CustomerBacklogs(customers), Sum(EntriesListed(), customers[..i]), customers[i].backlog;
            0 <= from <= from + |own| <= |all| == Sum(EntriesListed(), customers) && all[from..from + |own|] == own
    decreases |customers|
  {
    var rest := customers[1..];
    var later := CustomerBacklogs(rest);
    if i == 0 {
      assert customers[..0] == [];
      if |rest| > 0 {
        BacklogsInOrder(rest, 0);
      }
    } else {
      BacklogsInOrder(rest, i - 1);
      assert customers[..i][1..] == rest[..i - 1] && customers[..i][0] == customers[0];
      var from := Sum(EntriesListed(), rest[..i - 1]);
      assert (customers[0].backlog + later)[|customers[0].backlog| + from..|customers[0].backlog| + from + |customers[i].backlog|]
             == later[from..from + |customers[i].backlog|];
    }
  }

  /** A plant without a list of its own is served by the lists of its customers, one after the other and each in its order. */
  lemma FallbackInOrder(st: MatchState, i: nat)
    requires st.plant.backlog == [] && i < |st.customers|
    ensures var all, from, own := EffectiveBacklog(st), Sum(EntriesListed(), st.customers[..i]), st.customers[i].backlog;
            0 <= from <= from + |own| <= |all| == Sum(EntriesListed(), st.customers) && all[from..from + |own|] == own
  {
    BacklogsInOrder(st.customers, i);
  }

  /** The sort of the source returns some permutation of its input. */
  ghost predicate PermutingSort(cfg: Config) {
    forall s: seq<BacklogEntry> :: multiset(cfg.sort(s)) == multiset(s)
  }

  // ---------------------------------------------------------------- sales

  lemma ReceivableHeld(plant: Plant, item: CashCommitment, k: Account)
    ensures PlantHeld(plant.(receivables := plant.receivables + [item]), k) ==
            PlantHeld(plant, k) + (if k.Accrual? then item.amount else if k == ReceivableItem(item) then 1 else 0)
  {
    SumPush(Amount(), plant.receivables, item);
    if k.ReceivableItem? {
      SumPush(Same(k.receivable), plant.receivables, item);
    }
  }

  lemma ReceivableAdded(p: Phase, item: CashCommitment, k: Account)
    requires TidyPlant(p.st.plant) && item.amount > 0 && item.kind.Receivable?
    ensures var q := p.WithPlant(p.st.plant.(receivables := p.st.plant.receivables + [item])).Log(Scheduled(item));
            && TidyPlant(q.st.plant)
            && Balance(q, k) == Balance(p, k) + (if k.Accrual? then item.amount else 0)
  {
    hide PlantHeld, StatHeld, Balance, Tidy;
    var plant := p.st.plant.(receivables := p.st.plant.receivables + [item]);
    ReceivableHeld(p.st.plant, item, k);
    PlantMoves(p, plant, k);
    LogMoves(p.WithPlant(plant), Scheduled(item), k);
  }

  lemma ReceiveTidy(p: Phase, amount: int)
    requires TidyPlant(p.st.plant)
    ensures TidyPlant(p.Receive(amount).st.plant)
  {
    hide ProjectCashDelta;
  }

  lemma ReceivableMoves(env: Env, p: Phase, amount: int, delay: int, k: Account)
    requires TidyPlant(p.st.plant) && amount > 0
    ensures TidyPlant(ScheduleReceivable(env, p, amount, delay).st.plant)
    ensures Balance(ScheduleReceivable(env, p, amount, delay), k) == Balance(p, k) + (if k.Accrual? then amount else 0)
  {
    hide Balance, TidyPlant, ProjectCashDelta;
    if Max(0, delay) == 0 {
      ReceiveMoves(p, amount, k);
      ReceiveTidy(p, amount);
    } else {
      ReceivableAdded(p, NewCommitment(Receivable, env.round, |p.st.plant.receivables|, amount, delay), k);
    }
  }

  lemma ReturnPromised(p: Phase, item: CustomerReturn, k: Account)
    requires TidyPlant(p.st.plant) && item.qty > 0
    ensures var q := p.WithPlant(p.st.plant.(pendingReturns := p.st.plant.pendingReturns + [item]));
            && TidyPlant(q.st.plant)
            && Balance(q, k) == Balance(p, k) + (if k == ReturnItem(item) then 1 else 0)
  {
    hide StatHeld;
    if k.ReturnItem? {
      SumPush(Same(k.item), p.st.plant.pendingReturns, item);
    }
  }

  lemma PromiseEvent(k: Account, item: CustomerReturn)
    ensures Movement(k, ReturnScheduled(item)) == if k == ReturnItem(item) then 1 else 0
  {
  }

  lemma ReturnsMove(env: Env, p: Phase, customer: CustomerID, product: ProductID, qty: int, cost: int, k: Account)
    requires TidyPlant(p.st.plant)
    ensures TidyPlant(ScheduleReturns(env, p, customer, product, qty, cost).st.plant)
    ensures Balance(ScheduleReturns(env, p, customer, product, qty, cost), k) == Balance(p, k)
  {
    hide Normalized, ReturnQuantity, DrawnForReturns, Balance, TidyPlant, PlantHeld, StatHeld, Movement;
    if qty > 0 {
      var profile := Normalized(env.cfg.quality(p.st, env.round, Shipment(product, customer, qty)));
      var returned := ReturnQuantity(qty, profile.returnPct, env.random, p.drawn);
      var q := p.(drawn := DrawnForReturns(env.random, p.drawn, qty, profile.returnPct));
      DrawMoves(p, q.drawn, k);
      assert q.st == p.st;
      if returned > 0 {
        var plant := q.st.plant;
        var item := CustomerReturn(ReturnID(env.round, |plant.pendingReturns| + 1), customer, product, returned, cost,
                                   env.round + Max(profile.returnDelay, 1), env.round);
        PromiseEvent(k, item);
        ReturnPromised(q, item, k);
        LogMoves(q.WithPlant(plant.(pendingReturns := plant.pendingReturns + [item])), ReturnScheduled(item), k);
      }
    }
  }

  lemma SaleCounted(p: Phase, qty: int, revenue: int, k: Account)
    ensures var q := p.(stats := p.stats.(revenue := p.stats.revenue + revenue, shippedUnits := p.stats.shippedUnits + qty));
            Balance(q, k) == Balance(p, k) + (if k.Accrual? then -revenue else if k.RevenueTotal? then revenue else if k.ShippedTotal? then qty else 0)
  {
    hide PlantHeld;
  }

  lemma ShipMoves(p: Phase, entry: BacklogEntry, qty: int, price: int, k: Account)
    requires TidyPlant(p.st.plant) && 0 < qty <= QtyOf(p.st.plant.finished, entry.product)
    ensures TidyPlant(Ship(p, entry, qty, price).st.plant)
    ensures Balance(Ship(p, entry, qty, price), k) ==
            Balance(p, k) + (if k == ProductUnits(entry.product) then -qty
                             else if k.Accrual? then -(qty * price)
                             else if k.RevenueTotal? then qty * price
                             else if k.ShippedTotal? then qty else 0)
  {
    hide Take, QtyOf, Balance, TidyPlant, Units;
    PlantStocks(p.st.plant);
    var finished := Take(p.st.plant.finished, entry.product, qty);
    TakeTidy(p.st.plant.finished, entry.product, qty);
    if k.ProductUnits? {
      TakeUnits(IsKey(k.product), p.st.plant.finished, entry.product, qty);
    }
    FinishedTidy(p.st.plant, finished);
    FinishedBalance(p, finished, k);
    SaleCounted(p.WithPlant(p.st.plant.(finished := finished)), qty, qty * price, k);
  }

  /** What a sale leaves alone: the backlog lists are written only after the last shipment. */
  lemma ShipEntryKeepsBacklog(env: Env, s: Selling, prices: map<ProductID, int>, entry: BacklogEntry)
    ensures var t := ShipEntry(env, s, prices, entry);
            t.p.st.plant.backlog == s.p.st.plant.backlog && t.p.st.customers == s.p.st.customers
  {
    hide ReturnQuantity, Normalized, ProjectCashDelta, Take, QtyOf, CostOf, Price, PaymentDelay, DrawnForReturns;
  }

  function OpenUnits(k: Account, entries: seq<BacklogEntry>): int {
    if k.BacklogUnits? then Sum(EntryOf(k.customer, k.ordered), entries) else 0
  }

  lemma OpenUnitsPush(k: Account, entries: seq<BacklogEntry>, entry: BacklogEntry)
    ensures OpenUnits(k, entries + [entry]) ==
            OpenUnits(k, entries) + (if k == BacklogUnits(entry.customer, entry.product) then entry.qty else 0)
  {
    if k.BacklogUnits? {
      SumPush(EntryOf(k.customer, k.ordered), entries, entry);
    }
  }

  lemma ShipmentEvent(k: Account, customer: CustomerID, product: ProductID, qty: int, price: int)
    requires qty > 0
    ensures Movement(k, Shipped(customer, product, qty, price)) ==
            if k == ProductUnits(product) || k == BacklogUnits(customer, product) then -qty
            else if k.ShippedTotal? then qty else if k.RevenueTotal? then qty * price else 0
  {
  }

  lemma ShipEntryMoves(env: Env, s: Selling, prices: map<ProductID, int>, entry: BacklogEntry, k: Account)
    requires TidyPlant(s.p.st.plant) && entry.qty > 0 && forall e | e in s.remaining :: e.qty > 0
    ensures var t := ShipEntry(env, s, prices, entry);
            && TidyPlant(t.p.st.plant)
            && (forall e | e in t.remaining :: e.qty > 0)
            && Balance(t.p, k) + OpenUnits(k, t.remaining) ==
               Balance(s.p, k) + OpenUnits(k, s.remaining)
               + (if k == BacklogUnits(entry.customer, entry.product) then entry.qty else 0)
  {
    hide Balance, TidyPlant, Ship, ScheduleReceivable, ScheduleReturns, QtyOf, CostOf, PaymentDelay, OpenUnits, Movement;
    hide Price;
    PricePositive(prices, entry.product);
    var finished := s.p.st.plant.finished;
    var qty := Min(entry.qty, QtyOf(finished, entry.product));
    OpenUnitsPush(k, s.remaining, entry);
    OpenUnitsPush(k, s.remaining, entry.(qty := entry.qty - qty));
    if qty > 0 {
      var price := Price(prices, entry.product);
      ProductPositive(qty, price);
      ShipmentEvent(k, entry.customer, entry.product, qty, price);
      ShipMoves(s.p, entry, qty, price, k);
      var sold := Ship(s.p, entry, qty, price);
      ReceivableMoves(env, sold, qty * price, PaymentDelay(env, sold.st.customers, entry.customer), k);
      var due := ScheduleReceivable(env, sold, qty * price, PaymentDelay(env, sold.st.customers, entry.customer));
      LogMoves(due, Shipped(entry.customer, entry.product, qty, price), k);
      LogTidy(due, Shipped(entry.customer, entry.product, qty, price));
      ReturnsMove(env, due.Log(Shipped(entry.customer, entry.product, qty, price)),
                  entry.customer, entry.product, qty, CostOf(finished, entry.product), k);
    }
  }

  lemma PricePositive(prices: map<ProductID, int>, product: ProductID)
    ensures Price(prices, product) > 0
  {
  }

  lemma LogTidy(p: Phase, e: Event)
    ensures p.Log(e).st == p.st
  {
  }

  lemma ProductPositive(a: int, b: int)
    requires a > 0 && b > 0
    ensures a * b > 0
  {
  }

  lemma {:induction false} ShipAllMove(env: Env, s: Selling, prices: map<ProductID, int>, entries: seq<BacklogEntry>, k: Account)
    requires TidyPlant(s.p.st.plant)
    requires (forall e | e in s.remaining :: e.qty > 0) && (forall e | e in entries :: e.qty > 0)
    ensures var t := ShipAll(env, s, prices, entries);
            && TidyPlant(t.p.st.plant)
            && (forall e | e in t.remaining :: e.qty > 0)
            && t.p.st.plant.backlog == s.p.st.plant.backlog && t.p.st.customers == s.p.st.customers
            && Balance(t.p, k) + OpenUnits(k, t.remaining) ==
               Balance(s.p, k) + OpenUnits(k, s.remaining) + OpenUnits(k, entries)
    decreases |entries|
  {
    hide Balance, TidyPlant, ShipEntry;
    if |entries| > 0 {
      ShipEntryMoves(env, s, prices, entries[0], k);
      ShipEntryKeepsBacklog(env, s, prices, entries[0]);
      ShipAllMove(env, ShipEntry(env, s, prices, entries[0]), prices, entries[1..], k);
    }
  }

  lemma SetBacklogMoves(p: Phase, backlog: seq<BacklogEntry>, k: Account)
    requires TidyPlant(p.st.plant) && forall e | e in backlog :: e.qty > 0
    ensures TidyPlant(SetBacklog(p, backlog).st.plant)
    ensures Balance(SetBacklog(p, backlog), k) == Balance(p, k) + OpenUnits(k, backlog) - OpenUnits(k, p.st.plant.backlog)
    ensures Coherent(SetBacklog(p, backlog).st)
  {
    hide StatHeld;
  }

  lemma SortKeepsUnits(cfg: Config, backlog: seq<BacklogEntry>, k: Account)
    requires PermutingSort(cfg)
    ensures OpenUnits(k, cfg.sort(backlog)) == OpenUnits(k, backlog)
    ensures (forall e | e in backlog :: e.qty > 0) ==> forall e | e in cfg.sort(backlog) :: e.qty > 0
  {
    assert multiset(cfg.sort(backlog)) == multiset(backlog);
    assert forall e | e in cfg.sort(backlog) :: e in multiset(cfg.sort(backlog));
    if k.BacklogUnits? {
      SumPermutation(EntryOf(k.customer, k.ordered), cfg.sort(backlog), backlog);
    }
  }

  lemma SalesBalance(env: Env, p: Phase, action: Option<ActionSubmission>, k: Account)
    requires TidyPlant(p.st.plant) && Coherent(p.st) && PermutingSort(env.cfg)
    ensures Balance(ResolveSales(env, p, action), k) == Balance(p, k)
    ensures TidyPlant(ResolveSales(env, p, action).st.plant)
    ensures Coherent(ResolveSales(env, p, action).st)
  {
    hide Balance, ShipAll, SyncCustomers, Coherent;
    var backlog := p.st.plant.backlog;
    FallbackAgrees(p.st);
    if |backlog| == 0 {
      SetBacklogMoves(p, [], k);
    } else {
      SortKeepsUnits(env.cfg, backlog, k);
      var s := ShipAll(env, Selling(p, [], []), SalesPrices(action), env.cfg.sort(backlog));
      ShipAllMove(env, Selling(p, [], []), SalesPrices(action), env.cfg.sort(backlog), k);
      SetBacklogMoves(s.p, s.remaining, k);
    }
  }

  // ---------------------------------------------------------------- aging

  lemma LossCounted(p: Phase, qty: int, customers: seq<Customer>, k: Account)
    ensures var q := p.(stats := p.stats.(lostSalesUnits := p.stats.lostSalesUnits + qty), st := p.st.(customers := customers));
            Balance(q, k) == Balance(p, k) + (if k.LostTotal? then qty else 0)
  {
    hide PlantHeld;
  }

  lemma ExpiryEvent(k: Account, customer: CustomerID, product: ProductID, qty: int)
    requires qty > 0
    ensures Movement(k, BacklogExpired(customer, product, qty)) ==
            if k == BacklogUnits(customer, product) then -qty else if k.LostTotal? then qty else 0
  {
  }

  lemma CollectionEvent(k: Account, item: CashCommitment)
    ensures Movement(k, Collected(item)) == if k == ReceivableItem(item) then -1 else if k == CollectedItem(item) then 1 else 0
  {
    hide Required, SameOrder, DueHold;
  }

  lemma PaymentEvent(k: Account, item: CashCommitment)
    ensures Movement(k, Paid(item)) == if k == PayableItem(item) then -1 else if k == PaidItem(item) then 1 else 0
  {
    hide Required, SameOrder, DueHold;
  }

  lemma AgeEntryMoves(env: Env, a: Aging, entry: BacklogEntry, k: Account)
    requires entry.qty > 0 && forall e | e in a.aged :: e.qty > 0
    ensures var b := AgeEntry(env, a, entry);
            && (forall e | e in b.aged :: e.qty > 0)
            && b.p.st.plant == a.p.st.plant
            && Balance(b.p, k) + OpenUnits(k, b.aged) ==
               Balance(a.p, k) + OpenUnits(k, a.aged)
               + (if k == BacklogUnits(entry.customer, entry.product) then entry.qty else 0)
  {
    hide Disappoint, OpenUnits, Balance, Movement, StatHeld, PlantHeld;
    ExpiryEvent(k, entry.customer, entry.product, entry.qty);
    OpenUnitsPush(k, a.aged, entry.(age := entry.age + 1));
    var customers := Disappoint(a.p.st.customers, entry.customer);
    LossCounted(a.p, entry.qty, customers, k);
    var p := a.p.(stats := a.p.stats.(lostSalesUnits := a.p.stats.lostSalesUnits + entry.qty),
                  st := a.p.st.(customers := customers));
    LogMoves(p, BacklogExpired(entry.customer, entry.product, entry.qty), k);
  }

  lemma {:induction false} AgeAllMove(env: Env, a: Aging, entries: seq<BacklogEntry>, k: Account)
    requires TidyPlant(a.p.st.plant)
    requires (forall e | e in a.aged :: e.qty > 0) && (forall e | e in entries :: e.qty > 0)
    ensures var b := AgeAll(env, a, entries);
            && TidyPlant(b.p.st.plant)
            && (forall e | e in b.aged :: e.qty > 0)
            && b.p.st.plant == a.p.st.plant
            && Balance(b.p, k) + OpenUnits(k, b.aged) ==
               Balance(a.p, k) + OpenUnits(k, a.aged) + OpenUnits(k, entries)
    decreases |entries|
  {
    hide Balance, TidyPlant, AgeEntry;
    if |entries| > 0 {
      AgeEntryMoves(env, a, entries[0], k);
      AgeAllMove(env, AgeEntry(env, a, entries[0]), entries[1..], k);
    }
  }

  lemma AgingBalances(env: Env, p: Phase, k: Account)
    requires TidyPlant(p.st.plant) && Coherent(p.st)
    ensures Balance(AgeBacklog(env, p), k) == Balance(p, k)
    ensures TidyPlant(AgeBacklog(env, p).st.plant)
    ensures Coherent(AgeBacklog(env, p).st)
  {
    hide Balance, AgeAll, SyncCustomers, Coherent;
    FallbackAgrees(p.st);
    AgeAllMove(env, Aging(p, []), p.st.plant.backlog, k);
    var a := AgeAll(env, Aging(p, []), p.st.plant.backlog);
    SetBacklogMoves(a.p, a.aged, k);
  }

  // ---------------------------------------------------------------- settlement

  /** What settling a list adds to an account: its total in money, or how often it holds one commitment. */
  function Settled(k: Account, items: seq<CashCommitment>, collecting: bool): int {
    match k
    case Accrual => if collecting then Sum(Amount(), items) else -Sum(Amount(), items)
    case CashFlow => if collecting then Sum(Amount(), items) else -Sum(Amount(), items)
    case ReceivableItem(item) => if collecting then Sum(Same(item), items) else 0
    case PayableItem(item) => if collecting then 0 else Sum(Same(item), items)
    case CollectedItem(item) => if collecting then -Sum(Same(item), items) else 0
    case PaidItem(item) => if collecting then 0 else -Sum(Same(item), items)
    case _ => 0
  }

  lemma CollectOneMoves(p: Phase, item: CashCommitment, k: Account)
    requires TidyPlant(p.st.plant)
    ensures TidyPlant(CollectOne(p, item).st.plant)
    ensures Balance(CollectOne(p, item), k) == Balance(p, k) + Settled(k, [item], true)
  {
    hide ProjectCashDelta, PlantHeld, StatHeld, Movement, Sum;
    CollectionEvent(k, item);
    CashMoves(p, item.amount, k);
    LogMoves(p.ApplyCash(item.amount), Collected(item), k);
    SumOne(Amount(), item);
    if k.ReceivableItem? {
      SumOne(Same(k.receivable), item);
    } else if k.CollectedItem? {
      SumOne(Same(k.collected), item);
    }
  }

  lemma PayOneMoves(p: Phase, item: CashCommitment, k: Account)
    requires TidyPlant(p.st.plant)
    ensures TidyPlant(PayOne(p, item).st.plant)
    ensures Balance(PayOne(p, item), k) == Balance(p, k) + Settled(k, [item], false)
  {
    hide ProjectCashDelta, PlantHeld, StatHeld, Movement, Sum;
    PaymentEvent(k, item);
    CashMoves(p, -item.amount, k);
    LogMoves(p.ApplyCash(-item.amount), Paid(item), k);
    SumOne(Amount(), item);
    if k.PayableItem? {
      SumOne(Same(k.payable), item);
    } else if k.PaidItem? {
      SumOne(Same(k.paid), item);
    }
  }

  lemma SettledSplits(k: Account, items: seq<CashCommitment>, collecting: bool)
    requires |items| > 0
    ensures Settled(k, items, collecting) == Settled(k, [items[0]], collecting) + Settled(k, items[1..], collecting)
  {
    SumOne(Amount(), items[0]);
    if k.ReceivableItem? {
      SumOne(Same(k.receivable), items[0]);
    } else if k.PayableItem? {
      SumOne(Same(k.payable), items[0]);
    } else if k.CollectedItem? {
      SumOne(Same(k.collected), items[0]);
    } else if k.PaidItem? {
      SumOne(Same(k.paid), items[0]);
    }
  }

  lemma {:induction false} CollectEachMoves(p: Phase, items: seq<CashCommitment>, k: Account)
    requires TidyPlant(p.st.plant)
    ensures TidyPlant(CollectEach(p, items).st.plant)
    ensures Balance(CollectEach(p, items), k) == Balance(p, k) + Settled(k, items, true)
    decreases |items|
  {
    if |items| > 0 {
      hide Balance, TidyPlant, CollectOne, Settled;
      CollectOneMoves(p, items[0], k);
      SettledSplits(k, items, true);
      CollectEachMoves(CollectOne(p, items[0]), items[1..], k);
    }
  }

  lemma {:induction false} PayEachMoves(p: Phase, items: seq<CashCommitment>, k: Account)
    requires TidyPlant(p.st.plant)
    ensures TidyPlant(PayEach(p, items).st.plant)
    ensures Balance(PayEach(p, items), k) == Balance(p, k) + Settled(k, items, false)
    decreases |items|
  {
    if |items| > 0 {
      hide Balance, TidyPlant, PayOne, Settled;
      PayOneMoves(p, items[0], k);
      SettledSplits(k, items, false);
      PayEachMoves(PayOne(p, items[0]), items[1..], k);
    }
  }

  lemma SplitCommitments(items: seq<CashCommitment>, round: int)
    requires forall c | c in items :: c.amount > 0
    ensures Sum(Amount(), items) == Sum(Amount(), Filter(Open(round), items)) + Sum(Amount(), Filter(Matured(round), items))
    ensures Sum(Amount(), Filter(Matured(round), items)) >= 0
    ensures forall c | c in Filter(Open(round), items) :: c.amount > 0
  {
    FilterMembers(Matured(round), items);
    FilterMembers(Open(round), items);
    SumSplit(Amount(), Open(round), Matured(round), items);
    SumNonNegative(Amount(), Filter(Matured(round), items));
  }

  lemma OpenHeld(plant: Plant, round: int, k: Account)
    requires forall c | c in plant.receivables + plant.payables :: c.amount > 0
    ensures PlantHeld(plant.(receivables := Filter(Open(round), plant.receivables)), k) ==
            PlantHeld(plant, k) - (if k.CashFlow? || Settling(k) then 0 else Settled(k, Filter(Matured(round), plant.receivables), true))
    ensures PlantHeld(plant.(payables := Filter(Open(round), plant.payables)), k) ==
            PlantHeld(plant, k) - (if k.CashFlow? || Settling(k) then 0 else Settled(k, Filter(Matured(round), plant.payables), false))
  {
    hide Filter, Sum;
    SplitCommitments(plant.receivables, round);
    SplitCommitments(plant.payables, round);
    if k.ReceivableItem? {
      SumSplit(Same(k.receivable), Open(round), Matured(round), plant.receivables);
    } else if k.PayableItem? {
      SumSplit(Same(k.payable), Open(round), Matured(round), plant.payables);
    }
  }

  lemma OpenTidy(plant: Plant, round: int)
    requires TidyPlant(plant)
    ensures TidyPlant(plant.(receivables := Filter(Open(round), plant.receivables)))
    ensures TidyPlant(plant.(payables := Filter(Open(round), plant.payables)))
  {
    hide Tidy, Filter;
    SplitCommitments(plant.receivables, round);
    SplitCommitments(plant.payables, round);
  }

  lemma SettlementCounted(p: Phase, receipts: int, disbursements: int, k: Account)
    ensures var q := p.(stats := p.stats.(cashReceipts := p.stats.cashReceipts + receipts,
                                          cashDisbursements := p.stats.cashDisbursements + disbursements));
            Balance(q, k) == Balance(p, k) + (if k.CashFlow? then disbursements - receipts else 0)
  {
    hide PlantHeld;
  }

  lemma CollectBalances(env: Env, p: Phase, k: Account)
    requires TidyPlant(p.st.plant)
    ensures Balance(CollectReceivablesDue(env, p), k) == Balance(p, k) -
              (if k.CollectedItem? then Sum(Same(k.collected), Filter(Matured(env.round), p.st.plant.receivables)) else 0)
    ensures TidyPlant(CollectReceivablesDue(env, p).st.plant)
  {
    hide CollectEach, Filter, Sum, Balance, TidyPlant, PlantHeld;
    var items := p.st.plant.receivables;
    ReceivablesPositive(p.st.plant);
    OpenHeld(p.st.plant, env.round, k);
    OpenTidy(p.st.plant, env.round);
    PlantMoves(p, p.st.plant.(receivables := Filter(Open(env.round), items)), k);
    SplitCommitments(items, env.round);
    var open := p.WithPlant(p.st.plant.(receivables := Filter(Open(env.round), items)));
    CollectEachMoves(open, Filter(Matured(env.round), items), k);
    SettlementCounted(CollectEach(open, Filter(Matured(env.round), items)), Sum(Amount(), Filter(Matured(env.round), items)), 0, k);
  }

  lemma ReceivablesPositive(plant: Plant)
    requires TidyPlant(plant)
    ensures forall c | c in plant.receivables :: c.amount > 0
    ensures forall c | c in plant.payables :: c.amount > 0
  {
  }

  lemma PayBalances(env: Env, p: Phase, k: Account)
    requires TidyPlant(p.st.plant)
    ensures Balance(PayPayablesDue(env, p), k) == Balance(p, k) -
              (if k.PaidItem? then Sum(Same(k.paid), Filter(Matured(env.round), p.st.plant.payables)) else 0)
    ensures TidyPlant(PayPayablesDue(env, p).st.plant)
  {
    hide PayEach, Filter, Sum, Balance, TidyPlant, PlantHeld;
    var items := p.st.plant.payables;
    ReceivablesPositive(p.st.plant);
    OpenHeld(p.st.plant, env.round, k);
    OpenTidy(p.st.plant, env.round);
    PlantMoves(p, p.st.plant.(payables := Filter(Open(env.round), items)), k);
    SplitCommitments(items, env.round);
    var open := p.WithPlant(p.st.plant.(payables := Filter(Open(env.round), items)));
    PayEachMoves(open, Filter(Matured(env.round), items), k);
    SettlementCounted(PayEach(open, Filter(Matured(env.round), items)), 0, Sum(Amount(), Filter(Matured(env.round), items)), k);
  }

  lemma {:induction false} LaborNonNegative(stations: seq<Workstation>)
    ensures Sum(StationLaborCost(), stations) >= 0
    ensures Sum(StationOvertimeCost(), stations) >= 0
  {
    if |stations| > 0 {
      var w := stations[0];
      if w.laborCost > 0 && EffectiveLabor(w) > 0 {
        ProductPositive(EffectiveLabor(w), w.laborCost);
      }
      if w.overtimeCost > 0 && w.overtimeUsed > 0 {
        ProductPositive(w.overtimeUsed, w.overtimeCost);
      }
      LaborNonNegative(stations[1..]);
    }
  }

  lemma PayrollMoves(env: Env, p: Phase, amount: int, k: Account)
    requires TidyPlant(p.st.plant) && amount >= 0
    ensures TidyPlant(SchedulePayroll(env, p, amount).st.plant)
    ensures Balance(SchedulePayroll(env, p, amount), k) == Balance(p, k) - (if k.Accrual? then amount else 0)
  {
    hide Balance, ProjectCashDelta;
    if amount > 0 {
      if env.cfg.payrollDelay == 0 {
        DisburseMoves(p, amount, k);
      } else {
        PayableMoves(p, NewCommitment(Payroll, env.round, |p.st.plant.payables|, amount, env.cfg.payrollDelay), k);
      }
    }
  }

  lemma PayrollBooked(p: Phase, idle: int, labor: int, overtime: int, k: Account)
    requires p.stats.payrollExpense == 0 && !Closing(k)
    ensures var q := p.(stats := p.stats.(idleLaborUnits := idle, payrollExpense := labor + overtime,
                                          laborCost := labor, overtimeCost := overtime));
            Balance(q, k) == Balance(p, k) + (if k.Accrual? then labor + overtime else 0)
  {
  }

  lemma LaborBalances(env: Env, p: Phase, k: Account)
    requires TidyPlant(p.st.plant) && p.stats.payrollExpense == 0 && !Closing(k)
    ensures Balance(ApplyLaborCosts(env, p), k) == Balance(p, k)
    ensures TidyPlant(ApplyLaborCosts(env, p).st.plant)
    ensures ApplyLaborCosts(env, p).stats.holdingCost == p.stats.holdingCost
    ensures ApplyLaborCosts(env, p).stats.debtServiceCost == p.stats.debtServiceCost
  {
    hide Sum, Balance, TidyPlant, ProjectCashDelta;
    var stations := p.st.plant.stations;
    LaborNonNegative(stations);
    var labor, overtime := Sum(StationLaborCost(), stations), Sum(StationOvertimeCost(), stations);
    PayrollBooked(p, Sum(StationIdle(), stations), labor, overtime, k);
    var stats := p.stats.(idleLaborUnits := Sum(StationIdle(), stations), payrollExpense := labor + overtime,
                          laborCost := labor, overtimeCost := overtime);
    PayrollMoves(env, p.(stats := stats), labor + overtime, k);
  }

  /**
   Carrying costs are charged only when their total is positive. A hook that reports a negative holding cost
   larger than the debt cost raises the profit without touching the cash: the gap is that total.
   */
  lemma OperatingGap(env: Env, p: Phase, k: Account)
    requires TidyPlant(p.st.plant) && p.stats.holdingCost == 0 && p.stats.debtServiceCost == 0 && !Closing(k)
    ensures var q := ApplyOperatingCosts(env, p);
            Balance(q, k) == Balance(p, k) + (if k.Accrual? then Min(q.stats.holdingCost + q.stats.debtServiceCost, 0) else 0)
    ensures TidyPlant(ApplyOperatingCosts(env, p).st.plant)
  {
    hide HoldingCost, CarryingCost, ProjectCashDelta;
    var holding, debt := HoldingCost(env, p.st), CarryingCost(p.st.plant.debt);
    DisburseMoves(p, holding + debt, k);
  }
}
