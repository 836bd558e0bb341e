/**
 Who gets the finished goods. Entries are served oldest first, each as far as the stock of its product
 reaches; the units a customer receives are a closed formula of the backlog, whatever its order.
 */
module Shipping {
  import opened Seqs
  import opened Domain
  import opened Cash
  import opened Inventory
  import opened Quality
  import opened Phases
  import opened Ledger
  import opened LedgerClosing
  import opened Accounting

  // ---------------------------------------------------------------- the shipping order

  /** Origin round, then customer, then product. */
  predicate Earlier(a: BacklogEntry, b: BacklogEntry) {
    || a.origin < b.origin
    || (a.origin == b.origin && a.customer < b.customer)
    || (a.origin == b.origin && a.customer == b.customer && a.product < b.product)
  }

  predicate SameKey(a: BacklogEntry, b: BacklogEntry) {
    a.origin == b.origin && a.customer == b.customer && a.product == b.product
  }

  ghost predicate InShippingOrder(s: seq<BacklogEntry>) {
    forall i, j | 0 <= i < j < |s| :: !Earlier(s[j], s[i])
  }

  /** The library sort: ordered by the comparison, with equal entries in any order. */
  ghost predicate ShippingSort(cfg: Config) {
    forall s: seq<BacklogEntry> :: multiset(cfg.sort(s)) == multiset(s) && InShippingOrder(cfg.sort(s))
  }

  // ---------------------------------------------------------------- what each entry gets

  function Portion(entry: BacklogEntry, finished: seq<Stock<ProductID>>): int {
    Max(Min(entry.qty, QtyOf(finished, entry.product)), 0)
  }

  function After(entry: BacklogEntry, finished: seq<Stock<ProductID>>): seq<Stock<ProductID>> {
    if Portion(entry, finished) > 0 then Take(finished, entry.product, Portion(entry, finished)) else finished
  }

  function Allocation(entries: seq<BacklogEntry>, finished: seq<Stock<ProductID>>): (portions: seq<int>)
    ensures |portions| == |entries|
  {
    if |entries| == 0 then []
    else [Portion(entries[0], finished)] + Allocation(entries[1..], After(entries[0], finished))
  }

  function Revenue(entries: seq<BacklogEntry>, finished: seq<Stock<ProductID>>, prices: map<ProductID, int>): int {
    if |entries| == 0 then 0
    else Portion(entries[0], finished) * Price(prices, entries[0].product)
         + Revenue(entries[1..], After(entries[0], finished), prices)
  }

  lemma ShipEntryIsPortion(env: Env, s: Selling, prices: map<ProductID, int>, entry: BacklogEntry)
    ensures var t, portion := ShipEntry(env, s, prices, entry), Portion(entry, s.p.st.plant.finished);
            && t.shipped == s.shipped + [portion]
            && t.p.st.plant.finished == After(entry, s.p.st.plant.finished)
            && t.p.stats.revenue == s.p.stats.revenue + portion * Price(prices, entry.product)
            && t.p.stats.shippedUnits == s.p.stats.shippedUnits + portion
  {
    hide ReturnQuantity, Normalized, ProjectCashDelta, Take, QtyOf, CostOf, Price, PaymentDelay, DrawnForReturns;
    if Portion(entry, s.p.st.plant.finished) == 0 {
      assert Portion(entry, s.p.st.plant.finished) * Price(prices, entry.product) == 0;
    }
  }

  function Id(): int -> int { (x: int) => x }

  /** The selling loop hands out exactly the allocation and books exactly its revenue. */
  lemma {:induction false} ShipAllIsAllocation(env: Env, s: Selling, prices: map<ProductID, int>, entries: seq<BacklogEntry>)
    ensures var t, finished := ShipAll(env, s, prices, entries), s.p.st.plant.finished;
            && t.shipped == s.shipped + Allocation(entries, finished)
            && t.p.stats.revenue == s.p.stats.revenue + Revenue(entries, finished, prices)
            && t.p.stats.shippedUnits == s.p.stats.shippedUnits + Sum(Id(), Allocation(entries, finished))
    decreases |entries|
  {
    hide ShipEntry, Portion, After, Price;
    if |entries| > 0 {
      var finished := s.p.st.plant.finished;
      ShipEntryIsPortion(env, s, prices, entries[0]);
      ShipAllIsAllocation(env, ShipEntry(env, s, prices, entries[0]), prices, entries[1..]);
      var portion, rest := Portion(entries[0], finished), Allocation(entries[1..], After(entries[0], finished));
      assert ([portion] + rest)[1..] == rest;
      assert s.shipped + [portion] + rest == s.shipped + ([portion] + rest);
    }
  }

  // ---------------------------------------------------------------- oldest first, and never idle

  lemma AfterTidy(entry: BacklogEntry, finished: seq<Stock<ProductID>>, product: ProductID)
    requires Tidy(finished)
    ensures Tidy(After(entry, finished))
    ensures QtyOf(After(entry, finished), product) ==
            QtyOf(finished, product) - (if product == entry.product then Portion(entry, finished) else 0)
    ensures QtyOf(finished, product) >= 0 && 0 <= Portion(entry, finished) <= QtyOf(finished, entry.product)
  {
    QtyIsUnits(finished, product);
    QtyIsUnits(finished, entry.product);
    TakeTidy(finished, entry.product, Portion(entry, finished));
    TakeQty(finished, entry.product, Portion(entry, finished), product);
  }

  lemma AllocationStep(entries: seq<BacklogEntry>, finished: seq<Stock<ProductID>>)
    requires |entries| > 0
    ensures Allocation(entries, finished)[0] == Portion(entries[0], finished)
    ensures Allocation(entries, finished)[1..] == Allocation(entries[1..], After(entries[0], finished))
  {
  }

  lemma {:induction false} NothingLeft(entries: seq<BacklogEntry>, finished: seq<Stock<ProductID>>, product: ProductID, j: nat)
    requires Tidy(finished) && QtyOf(finished, product) == 0 && j < |entries| && entries[j].product == product
    ensures Allocation(entries, finished)[j] == 0
    decreases |entries|
  {
    AfterTidy(entries[0], finished, product);
    if j > 0 {
      NothingLeft(entries[1..], After(entries[0], finished), product, j - 1);
    }
  }

  /** An entry left short has exhausted its product: every later entry of that product gets nothing. */
  lemma {:induction false} ShortEntryEndsProduct(entries: seq<BacklogEntry>, finished: seq<Stock<ProductID>>, i: nat, j: nat)
    requires Tidy(finished) && i < j < |entries| && entries[i].product == entries[j].product
    requires Allocation(entries, finished)[i] < entries[i].qty
    ensures Allocation(entries, finished)[j] == 0
    decreases |entries|
  {
    hide After, Tidy, QtyOf, Allocation;
    var rest, after := entries[1..], After(entries[0], finished);
    AfterTidy(entries[0], finished, entries[0].product);
    AllocationStep(entries, finished);
    if i == 0 {
      NothingLeft(rest, after, entries[0].product, j - 1);
    } else {
      ShortEntryEndsProduct(rest, after, i - 1, j - 1);
    }
  }

  function Ordered(product: ProductID): BacklogEntry -> int {
    (e: BacklogEntry) => if e.product == product then e.qty else 0
  }

  /** What the selected entries get together. */
  function PortionsWhere(sel: BacklogEntry -> bool, entries: seq<BacklogEntry>, portions: seq<int>): int
    requires |portions| == |entries|
  {
    if |entries| == 0 then 0
    else (if sel(entries[0]) then portions[0] else 0) + PortionsWhere(sel, entries[1..], portions[1..])
  }

  function ForProduct(product: ProductID): BacklogEntry -> bool { (e: BacklogEntry) => e.product == product }

  function UnderKey(key: BacklogEntry): BacklogEntry -> bool { (e: BacklogEntry) => SameKey(e, key) }

  function OfCustomer(customer: CustomerID, product: ProductID): BacklogEntry -> bool {
    (e: BacklogEntry) => e.customer == customer && e.product == product
  }

  function PortionsOf(entries: seq<BacklogEntry>, portions: seq<int>, product: ProductID): int
    requires |portions| == |entries|
  {
    PortionsWhere(ForProduct(product), entries, portions)
  }

  ghost predicate Positive(entries: seq<BacklogEntry>) { forall e | e in entries :: e.qty > 0 }

  lemma DemandNotNegative(f: BacklogEntry -> int, entries: seq<BacklogEntry>)
    requires forall e | e in entries :: f(e) >= 0
    ensures Sum(f, entries) >= 0
  {
    SumNonNegative(f, entries);
  }

  /** Per product, as much is shipped as stock and backlog together allow. */
  lemma {:induction false} WorkConserving(entries: seq<BacklogEntry>, finished: seq<Stock<ProductID>>, product: ProductID)
    requires Tidy(finished) && Positive(entries)
    ensures PortionsOf(entries, Allocation(entries, finished), product) ==
            Min(QtyOf(finished, product), Sum(Ordered(product), entries))
    decreases |entries|
  {
    QtyIsUnits(finished, product);
    if |entries| > 0 {
      var rest, after := entries[1..], After(entries[0], finished);
      AfterTidy(entries[0], finished, product);
      WorkConserving(rest, after, product);
      DemandNotNegative(Ordered(product), rest);
      assert Allocation(entries, finished)[1..] == Allocation(rest, after);
    }
  }

  // ---------------------------------------------------------------- the closed formula

  /** Units ordered for a product no later than a key. */
  function UpTo(key: BacklogEntry): BacklogEntry -> int {
    (e: BacklogEntry) => if e.product == key.product && !Earlier(key, e) then e.qty else 0
  }

  /** Units ordered for a product strictly earlier than a key. */
  function Below(key: BacklogEntry): BacklogEntry -> int {
    (e: BacklogEntry) => if e.product == key.product && Earlier(e, key) then e.qty else 0
  }

  function PortionsFor(entries: seq<BacklogEntry>, portions: seq<int>, key: BacklogEntry): int
    requires |portions| == |entries|
  {
    PortionsWhere(UnderKey(key), entries, portions)
  }

  /** What a key receives when older demand is served first from a stock. */
  function Share(backlog: seq<BacklogEntry>, key: BacklogEntry, stock: int): int {
    Min(stock, Sum(UpTo(key), backlog)) - Min(stock, Sum(Below(key), backlog))
  }

  lemma {:induction false} NothingBelow(entries: seq<BacklogEntry>, key: BacklogEntry)
    requires forall e | e in entries :: !Earlier(e, key)
    ensures Sum(Below(key), entries) == 0
  {
    if |entries| > 0 {
      NothingBelow(entries[1..], key);
    }
  }

  lemma {:induction false} NothingUpTo(entries: seq<BacklogEntry>, key: BacklogEntry)
    requires forall e | e in entries :: Earlier(key, e)
    ensures Sum(UpTo(key), entries) == 0
  {
    if |entries| > 0 {
      NothingUpTo(entries[1..], key);
    }
  }

  lemma {:induction false} SharesInOrder(entries: seq<BacklogEntry>, finished: seq<Stock<ProductID>>, key: BacklogEntry)
    requires Tidy(finished) && Positive(entries) && InShippingOrder(entries)
    ensures PortionsFor(entries, Allocation(entries, finished), key) ==
            Share(entries, key, QtyOf(finished, key.product))
    decreases |entries|
  {
    if |entries| > 0 {
      hide Allocation, Portion, After, Tidy, Earlier;
      var e, rest, after := entries[0], entries[1..], After(entries[0], finished);
      AfterTidy(e, finished, key.product);
      OrderTail(entries);
      SharesInOrder(rest, after, key);
      ShareStep(entries, finished, key);
      AllocationStep(entries, finished);
    } else {
      QtyIsUnits(finished, key.product);
    }
  }

  lemma OrderTail(entries: seq<BacklogEntry>)
    requires |entries| > 0 && InShippingOrder(entries)
    ensures InShippingOrder(entries[1..])
    ensures forall e | e in entries[1..] :: !Earlier(e, entries[0])
  {
    assert forall i | 0 <= i < |entries[1..]| :: entries[1..][i] == entries[i + 1];
  }

  /** What older demand leaves, after the first entry has taken its portion. */
  lemma CutOff(stock: int, qty: int, others: int)
    requires stock >= 0 && qty > 0 && others >= 0
    ensures Min(stock, qty + others) == Min(qty, stock) + Min(stock - Min(qty, stock), others)
  {
  }

  lemma Heads(entries: seq<BacklogEntry>, key: BacklogEntry)
    requires |entries| > 0 && Positive(entries)
    ensures Sum(UpTo(key), entries) == UpTo(key)(entries[0]) + Sum(UpTo(key), entries[1..])
    ensures Sum(Below(key), entries) == Below(key)(entries[0]) + Sum(Below(key), entries[1..])
    ensures entries[0].qty > 0 && Sum(UpTo(key), entries[1..]) >= 0 && Sum(Below(key), entries[1..]) >= 0
  {
    var rest := entries[1..];
    assert forall e | e in rest :: e in entries;
    DemandNotNegative(UpTo(key), rest);
    DemandNotNegative(Below(key), rest);
    assert entries[0] in entries;
  }

  /** Whether the first entry counts for a key, and whether it counts as older. */
  lemma HeadCounts(e: BacklogEntry, key: BacklogEntry)
    ensures UpTo(key)(e) == if e.product == key.product && (SameKey(e, key) || Earlier(e, key)) then e.qty else 0
    ensures Below(key)(e) == if e.product == key.product && Earlier(e, key) then e.qty else 0
    ensures SameKey(e, key) ==> !Earlier(e, key) && !Earlier(key, e) && e.product == key.product
    ensures e.product == key.product && !SameKey(e, key) && !Earlier(e, key) ==> Earlier(key, e)
  {
  }

  /** No key that is served no earlier than an entry comes before that entry. */
  lemma LaterRest(e: BacklogEntry, rest: seq<BacklogEntry>, key: BacklogEntry)
    requires forall x | x in rest :: !Earlier(x, e)
    ensures SameKey(e, key) || Earlier(key, e) ==> Sum(Below(key), rest) == 0
    ensures Earlier(key, e) ==> Sum(UpTo(key), rest) == 0
  {
    if Earlier(key, e) {
      NothingUpTo(rest, key);
      NothingBelow(rest, key);
    } else if SameKey(e, key) {
      NothingBelow(rest, key);
    }
  }

  /** Serving the first entry leaves every other key the same share of what is left. */
  lemma ShareStep(entries: seq<BacklogEntry>, finished: seq<Stock<ProductID>>, key: BacklogEntry)
    requires |entries| > 0 && Tidy(finished) && Positive(entries)
    requires forall e | e in entries[1..] :: !Earlier(e, entries[0])
    ensures var e := entries[0];
            Share(entries, key, QtyOf(finished, key.product)) ==
            (if SameKey(e, key) then Portion(e, finished) else 0)
            + Share(entries[1..], key, QtyOf(After(e, finished), key.product))
  {
    hide Sum, UpTo, Below, QtyOf, After, Tidy, Earlier, SameKey, Positive;
    var e, rest := entries[0], entries[1..];
    var stock, up, below := QtyOf(finished, key.product), Sum(UpTo(key), rest), Sum(Below(key), rest);
    AfterTidy(e, finished, key.product);
    Heads(entries, key);
    HeadCounts(e, key);
    LaterRest(e, rest, key);
    if e.product == key.product && !Earlier(key, e) {
      CutOff(stock, e.qty, up);
      CutOff(stock, e.qty, below);
    }
  }

  /**
   Oldest first, in closed form: with any sort that respects the shipping order, a customer's entries of one
   origin round and product receive the share of the stock that older demand leaves, computed on the backlog
   as it stands.
   */
  lemma SharesOfBacklog(cfg: Config, backlog: seq<BacklogEntry>, finished: seq<Stock<ProductID>>, key: BacklogEntry)
    requires ShippingSort(cfg) && Tidy(finished) && Positive(backlog)
    ensures PortionsFor(cfg.sort(backlog), Allocation(cfg.sort(backlog), finished), key) ==
            Share(backlog, key, QtyOf(finished, key.product))
  {
    hide Allocation, Portion, Tidy;
    var entries := cfg.sort(backlog);
    SortedPositive(cfg, backlog);
    SharesInOrder(entries, finished, key);
    SumPermutation(UpTo(key), entries, backlog);
    SumPermutation(Below(key), entries, backlog);
  }

  lemma SortedPositive(cfg: Config, backlog: seq<BacklogEntry>)
    requires ShippingSort(cfg) && Positive(backlog)
    ensures multiset(cfg.sort(backlog)) == multiset(backlog)
    ensures InShippingOrder(cfg.sort(backlog)) && Positive(cfg.sort(backlog))
  {
    assert multiset(cfg.sort(backlog)) == multiset(backlog);
    assert forall e | e in cfg.sort(backlog) :: e in multiset(cfg.sort(backlog));
  }

  // ---------------------------------------------------------------- revenue

  function LineRevenue(backlog: seq<BacklogEntry>, prices: map<ProductID, int>): Stock<ProductID> -> int {
    (line: Stock<ProductID>) => Min(line.qty, Sum(Ordered(line.key), backlog)) * Price(prices, line.key)
  }

  /** Revenue by product: what stock and backlog allow, at the price of the product. */
  function RevenueByProduct(finished: seq<Stock<ProductID>>, backlog: seq<BacklogEntry>, prices: map<ProductID, int>): int {
    Sum(LineRevenue(backlog, prices), finished)
  }

  lemma {:induction false} OtherLines(lines: seq<Stock<ProductID>>, entry: BacklogEntry, rest: seq<BacklogEntry>, prices: map<ProductID, int>)
    requires forall l | l in lines :: l.key != entry.product
    ensures RevenueByProduct(lines, [entry] + rest, prices) == RevenueByProduct(lines, rest, prices)
  {
    if |lines| > 0 {
      assert ([entry] + rest)[1..] == rest;
      OtherLines(lines[1..], entry, rest, prices);
    }
  }

  lemma RevenueStep(finished: seq<Stock<ProductID>>, entry: BacklogEntry, rest: seq<BacklogEntry>, prices: map<ProductID, int>)
    requires Tidy(finished) && entry.qty > 0 && Positive(rest)
    ensures RevenueByProduct(finished, [entry] + rest, prices) ==
            Portion(entry, finished) * Price(prices, entry.product)
            + RevenueByProduct(After(entry, finished), rest, prices)
  {
    hide Take;
    var i := Index(finished, entry.product);
    if i == |finished| {
      OtherLines(finished, entry, rest, prices);
    } else {
      var before, line, after := finished[..i], finished[i], finished[i + 1..];
      var portion := Portion(entry, finished);
      assert finished == before + [line] + after;
      TakeShape(finished, entry.product, portion);
      var now, then_ := LineRevenue([entry] + rest, prices), LineRevenue(rest, prices);
      OtherLines(before, entry, rest, prices);
      OtherLines(after, entry, rest, prices);
      SumConcat(now, before + [line], after);
      SumPush(now, before, line);
      SumConcat(then_, before + Left(line, portion), after);
      SumConcat(then_, before, Left(line, portion));
      LineStep(line, entry, rest, prices, portion);
    }
  }

  lemma LineStep(line: Stock<ProductID>, entry: BacklogEntry, rest: seq<BacklogEntry>, prices: map<ProductID, int>, portion: int)
    requires line.key == entry.product && line.qty > 0 && entry.qty > 0 && Positive(rest)
    requires portion == Min(entry.qty, line.qty)
    ensures LineRevenue([entry] + rest, prices)(line) ==
            portion * Price(prices, entry.product) + Sum(LineRevenue(rest, prices), Left(line, portion))
  {
    var d, price := Sum(Ordered(line.key), rest), Price(prices, line.key);
    assert ([entry] + rest)[1..] == rest;
    DemandNotNegative(Ordered(line.key), rest);
    assert Sum(Ordered(line.key), [entry] + rest) == entry.qty + d;
    if line.qty > portion {
      var left := line.(qty := line.qty - portion);
      assert Left(line, portion) == [left] && [left][1..] == [];
      assert Sum(LineRevenue(rest, prices), [left]) == Min(left.qty, d) * price;
      assert Min(line.qty, entry.qty + d) == portion + Min(left.qty, d);
      assert (portion + Min(left.qty, d)) * price == portion * price + Min(left.qty, d) * price;
    }
  }

  lemma {:induction false} RevenueIsByProduct(entries: seq<BacklogEntry>, finished: seq<Stock<ProductID>>, prices: map<ProductID, int>)
    requires Tidy(finished) && Positive(entries)
    ensures Revenue(entries, finished, prices) == RevenueByProduct(finished, entries, prices)
    decreases |entries|
  {
    hide Portion, After, Price, Tidy;
    if |entries| == 0 {
      NoRevenue(finished, entries, prices);
    } else {
      AfterTidy(entries[0], finished, 0);
      RevenueIsByProduct(entries[1..], After(entries[0], finished), prices);
      RevenueStep(finished, entries[0], entries[1..], prices);
      assert entries == [entries[0]] + entries[1..];
    }
  }

  lemma {:induction false} NoRevenue(finished: seq<Stock<ProductID>>, entries: seq<BacklogEntry>, prices: map<ProductID, int>)
    requires |entries| == 0 && Tidy(finished)
    ensures RevenueByProduct(finished, entries, prices) == 0
  {
    if |finished| > 0 {
      NoRevenue(finished[1..], entries, prices);
    }
  }

  lemma {:induction false} SameLineRevenue(finished: seq<Stock<ProductID>>, a: seq<BacklogEntry>, b: seq<BacklogEntry>, prices: map<ProductID, int>)
    requires multiset(a) == multiset(b)
    ensures RevenueByProduct(finished, a, prices) == RevenueByProduct(finished, b, prices)
  {
    if |finished| > 0 {
      SumPermutation(Ordered(finished[0].key), a, b);
      SameLineRevenue(finished[1..], a, b, prices);
    }
  }

  // ---------------------------------------------------------------- what is left, and what is logged

  /** Units the selected entries still wait for. */
  function Wanted(sel: BacklogEntry -> bool): BacklogEntry -> int { (e: BacklogEntry) => if sel(e) then e.qty else 0 }

  /** A selection that does not look at the quantity. */
  ghost predicate BlindToQty(sel: BacklogEntry -> bool) {
    forall e: BacklogEntry, n: int :: sel(e.(qty := n)) == sel(e)
  }

  lemma ShipEntryLeaves(env: Env, s: Selling, prices: map<ProductID, int>, entry: BacklogEntry, sel: BacklogEntry -> bool)
    requires BlindToQty(sel) && entry.qty > 0
    ensures Sum(Wanted(sel), ShipEntry(env, s, prices, entry).remaining) ==
            Sum(Wanted(sel), s.remaining) +
              (if sel(entry) then entry.qty - Portion(entry, s.p.st.plant.finished) else 0)
  {
    hide Sum, QtyOf, CostOf, Price, PaymentDelay, ScheduleReceivable, ScheduleReturns, Ship;
    var qty := Min(entry.qty, QtyOf(s.p.st.plant.finished, entry.product));
    SumPush(Wanted(sel), s.remaining, entry);
    SumPush(Wanted(sel), s.remaining, entry.(qty := entry.qty - qty));
    assert sel(entry.(qty := entry.qty - qty)) == sel(entry);
  }

  /** What is left on the backlog is what was there, less what was handed out. */
  lemma {:induction false} ShipAllLeaves(env: Env, s: Selling, prices: map<ProductID, int>, entries: seq<BacklogEntry>,
                                         sel: BacklogEntry -> bool)
    requires BlindToQty(sel) && Positive(entries)
    ensures Sum(Wanted(sel), ShipAll(env, s, prices, entries).remaining) ==
            Sum(Wanted(sel), s.remaining) + Sum(Wanted(sel), entries)
            - PortionsWhere(sel, entries, Allocation(entries, s.p.st.plant.finished))
    decreases |entries|
  {
    hide ShipEntry, Portion, After, Price, BlindToQty;
    if |entries| > 0 {
      ShipEntryIsPortion(env, s, prices, entries[0]);
      ShipEntryLeaves(env, s, prices, entries[0], sel);
      ShipAllLeaves(env, ShipEntry(env, s, prices, entries[0]), prices, entries[1..], sel);
      AllocationStep(entries, s.p.st.plant.finished);
    }
  }

  lemma {:induction false} ShipAllStock(env: Env, s: Selling, prices: map<ProductID, int>, entries: seq<BacklogEntry>, product: ProductID)
    requires Tidy(s.p.st.plant.finished)
    ensures QtyOf(ShipAll(env, s, prices, entries).p.st.plant.finished, product) ==
            QtyOf(s.p.st.plant.finished, product) - PortionsOf(entries, Allocation(entries, s.p.st.plant.finished), product)
    decreases |entries|
  {
    hide ShipEntry, Portion, After, Price, QtyOf, Tidy;
    if |entries| > 0 {
      ShipEntryIsPortion(env, s, prices, entries[0]);
      AfterTidy(entries[0], s.p.st.plant.finished, product);
      ShipAllStock(env, ShipEntry(env, s, prices, entries[0]), prices, entries[1..], product);
      AllocationStep(entries, s.p.st.plant.finished);
    }
  }

  /** A measure of the log that sees of a sale only what was shipped to the selected entries. */
  ghost predicate Sees(g: Event -> int, sel: BacklogEntry -> bool) {
    && (forall e: BacklogEntry, qty: int, price: int :: g(Shipped(e.customer, e.product, qty, price)) == if sel(e) then qty else 0)
    && (forall c: CashCommitment :: g(Scheduled(c)) == 0)
    && (forall c: CustomerReturn :: g(ReturnScheduled(c)) == 0)
  }

  lemma ReceivableIsNotSeen(env: Env, p: Phase, amount: int, delay: int, g: Event -> int, sel: BacklogEntry -> bool)
    requires Sees(g, sel)
    ensures Sum(g, ScheduleReceivable(env, p, amount, delay).events) == Sum(g, p.events)
  {
    hide Sum, ProjectCashDelta;
    var item := NewCommitment(Receivable, env.round, |p.st.plant.receivables|, amount, delay);
    SumPush(g, p.events, Scheduled(item));
    assert g(Scheduled(item)) == 0;
  }

  lemma ReturnIsNotSeen(env: Env, p: Phase, customer: CustomerID, product: ProductID, qty: int, cost: int,
                        g: Event -> int, sel: BacklogEntry -> bool)
    requires Sees(g, sel)
    ensures Sum(g, ScheduleReturns(env, p, customer, product, qty, cost).events) == Sum(g, p.events)
  {
    hide Sum, Normalized, ReturnQuantity, DrawnForReturns;
    var profile := Normalized(env.cfg.quality(p.st, env.round, Shipment(product, customer, qty)));
    var returned := ReturnQuantity(qty, profile.returnPct, env.random, p.drawn);
    var item := CustomerReturn(ReturnID(env.round, |p.st.plant.pendingReturns| + 1), customer, product, returned, cost,
                               env.round + Max(profile.returnDelay, 1), env.round);
    SumPush(g, p.events, ReturnScheduled(item));
    assert g(ReturnScheduled(item)) == 0;
  }

  lemma ShipEntryLogs(env: Env, s: Selling, prices: map<ProductID, int>, entry: BacklogEntry, g: Event -> int, sel: BacklogEntry -> bool)
    requires Sees(g, sel) && entry.qty > 0
    ensures Sum(g, ShipEntry(env, s, prices, entry).p.events) ==
            Sum(g, s.p.events) + (if sel(entry) then Portion(entry, s.p.st.plant.finished) else 0)
  {
    hide Sum, Take, QtyOf, CostOf, Price, PaymentDelay, ScheduleReceivable, ScheduleReturns;
    var finished := s.p.st.plant.finished;
    var qty := Min(entry.qty, QtyOf(finished, entry.product));
    if qty > 0 {
      var price := Price(prices, entry.product);
      var sold := Ship(s.p, entry, qty, price);
      var delay := PaymentDelay(env, sold.st.customers, entry.customer);
      ReceivableIsNotSeen(env, sold, qty * price, delay, g, sel);
      var due, shipped := ScheduleReceivable(env, sold, qty * price, delay), Shipped(entry.customer, entry.product, qty, price);
      SumPush(g, due.events, shipped);
      assert g(shipped) == if sel(entry) then qty else 0;
      ReturnIsNotSeen(env, due.Log(shipped), entry.customer, entry.product, qty, CostOf(finished, entry.product), g, sel);
    }
  }

  /** The log of a sale says what was handed out. */
  lemma {:induction false} ShipAllLogs(env: Env, s: Selling, prices: map<ProductID, int>, entries: seq<BacklogEntry>,
                                       g: Event -> int, sel: BacklogEntry -> bool)
    requires Sees(g, sel) && Positive(entries)
    ensures Sum(g, ShipAll(env, s, prices, entries).p.events) ==
            Sum(g, s.p.events) + PortionsWhere(sel, entries, Allocation(entries, s.p.st.plant.finished))
    decreases |entries|
  {
    hide ShipEntry, Portion, After, Price, Sees;
    if |entries| > 0 {
      ShipEntryIsPortion(env, s, prices, entries[0]);
      ShipEntryLogs(env, s, prices, entries[0], g, sel);
      ShipAllLogs(env, ShipEntry(env, s, prices, entries[0]), prices, entries[1..], g, sel);
      AllocationStep(entries, s.p.st.plant.finished);
    }
  }

  // ---------------------------------------------------------------- the sales phase

  /** What the sales phase is about: tidy stocks, one backlog in two coherent copies, and a sort in shipping order. */
  ghost predicate CanSell(env: Env, p: Phase) { ShippingSort(env.cfg) && TidyPlant(p.st.plant) && Coherent(p.st) }

  lemma CanSellIs(env: Env, p: Phase)
    requires CanSell(env, p)
    ensures ShippingSort(env.cfg) && Tidy(p.st.plant.finished) && Positive(p.st.plant.backlog)
    ensures EffectiveBacklog(p.st) == p.st.plant.backlog
  {
    hide Tidy;
    FallbackAgrees(p.st);
  }

  function Sold(env: Env, p: Phase, action: Option<ActionSubmission>): Selling {
    ShipAll(env, Selling(p, [], []), SalesPrices(action), env.cfg.sort(p.st.plant.backlog))
  }

  /** The phase is the selling loop on the sorted backlog, also when there is nothing to sell. */
  lemma SalesAreSold(env: Env, p: Phase, action: Option<ActionSubmission>)
    requires CanSell(env, p)
    ensures var q, s := ResolveSales(env, p, action), Sold(env, p, action);
            && q.stats == s.p.stats && q.events == s.p.events
            && q.st.plant.finished == s.p.st.plant.finished && q.st.plant.backlog == s.remaining
  {
    hide CanSell, ShipEntry, SyncCustomers;
    CanSellIs(env, p);
    SortedPositive(env.cfg, p.st.plant.backlog);
    if |p.st.plant.backlog| == 0 {
      assert |env.cfg.sort(p.st.plant.backlog)| == |multiset(p.st.plant.backlog)| == 0;
    }
  }

  /**
   Units of a selection of the backlog, however the selection is made: what is left plus what the loop hands out is
   what was wanted.
   */
  lemma SalesLeave(env: Env, p: Phase, action: Option<ActionSubmission>, sel: BacklogEntry -> bool)
    requires CanSell(env, p) && BlindToQty(sel)
    ensures var sorted := env.cfg.sort(p.st.plant.backlog);
            Sum(Wanted(sel), ResolveSales(env, p, action).st.plant.backlog) ==
            Sum(Wanted(sel), p.st.plant.backlog) - PortionsWhere(sel, sorted, Allocation(sorted, p.st.plant.finished))
  {
    hide CanSell, ResolveSales, ShipAll, Allocation, PortionsWhere, BlindToQty, Wanted;
    CanSellIs(env, p);
    SalesAreSold(env, p, action);
    var sorted := env.cfg.sort(p.st.plant.backlog);
    SortedPositive(env.cfg, p.st.plant.backlog);
    ShipAllLeaves(env, Selling(p, [], []), SalesPrices(action), sorted, sel);
    SumPermutation(Wanted(sel), sorted, p.st.plant.backlog);
  }

  /** Units of one origin round, customer and product: the older demand is served first. */
  lemma SalesByKey(env: Env, p: Phase, action: Option<ActionSubmission>, key: BacklogEntry)
    requires CanSell(env, p)
    ensures Sum(Wanted(UnderKey(key)), ResolveSales(env, p, action).st.plant.backlog) ==
            Sum(Wanted(UnderKey(key)), p.st.plant.backlog)
            - Share(p.st.plant.backlog, key, QtyOf(p.st.plant.finished, key.product))
  {
    hide CanSell, ResolveSales, Allocation, PortionsWhere, Wanted, Sum, Share;
    CanSellIs(env, p);
    assert BlindToQty(UnderKey(key));
    SalesLeave(env, p, action, UnderKey(key));
    SharesOfBacklog(env.cfg, p.st.plant.backlog, p.st.plant.finished, key);
  }

  function Shippable(p: Phase, product: ProductID): int {
    Min(QtyOf(p.st.plant.finished, product), Sum(Ordered(product), p.st.plant.backlog))
  }

  lemma ProductPortions(env: Env, p: Phase, product: ProductID)
    requires CanSell(env, p)
    ensures var sorted := env.cfg.sort(p.st.plant.backlog);
            PortionsOf(sorted, Allocation(sorted, p.st.plant.finished), product) == Shippable(p, product)
  {
    hide CanSell, Allocation, Ordered, QtyOf;
    CanSellIs(env, p);
    var sorted := env.cfg.sort(p.st.plant.backlog);
    SortedPositive(env.cfg, p.st.plant.backlog);
    WorkConserving(sorted, p.st.plant.finished, product);
    SumPermutation(Ordered(product), sorted, p.st.plant.backlog);
  }

  lemma {:induction false} OrderedIsWanted(entries: seq<BacklogEntry>, product: ProductID)
    ensures Sum(Ordered(product), entries) == Sum(Wanted(ForProduct(product)), entries)
  {
    if |entries| > 0 {
      OrderedIsWanted(entries[1..], product);
    }
  }

  /**
   Per product the phase ships the smaller of stock and backlog: that much leaves the stock, that much leaves the
   backlog, and that much is logged. So nobody is left waiting while there is stock.
   */
  lemma SalesByProduct(env: Env, p: Phase, action: Option<ActionSubmission>, product: ProductID)
    requires CanSell(env, p)
    ensures var q, shipped := ResolveSales(env, p, action), Shippable(p, product);
            && QtyOf(q.st.plant.finished, product) == QtyOf(p.st.plant.finished, product) - shipped
            && Sum(Ordered(product), q.st.plant.backlog) == Sum(Ordered(product), p.st.plant.backlog) - shipped
            && Sum(ShippedOf(product), q.events) == Sum(ShippedOf(product), p.events) + shipped
            && (QtyOf(q.st.plant.finished, product) == 0 || Sum(Ordered(product), q.st.plant.backlog) == 0)
  {
    hide CanSell, ResolveSales, ShipAll, Allocation, Ordered, QtyOf, Sum, PortionsWhere, Wanted;
    CanSellIs(env, p);
    SalesAreSold(env, p, action);
    ProductPortions(env, p, product);
    var sorted, start := env.cfg.sort(p.st.plant.backlog), Selling(p, [], []);
    SortedPositive(env.cfg, p.st.plant.backlog);
    ShipAllStock(env, start, SalesPrices(action), sorted, product);
    assert BlindToQty(ForProduct(product));
    SalesLeave(env, p, action, ForProduct(product));
    OrderedIsWanted(p.st.plant.backlog, product);
    OrderedIsWanted(ResolveSales(env, p, action).st.plant.backlog, product);
    assert Sees(ShippedOf(product), ForProduct(product));
    ShipAllLogs(env, start, SalesPrices(action), sorted, ShippedOf(product), ForProduct(product));
  }

  /** A round's revenue, in closed form. */
  lemma RevenueOfSales(env: Env, p: Phase, action: Option<ActionSubmission>)
    requires CanSell(env, p)
    ensures ResolveSales(env, p, action).stats.revenue ==
            p.stats.revenue + RevenueByProduct(p.st.plant.finished, p.st.plant.backlog, SalesPrices(action))
  {
    hide CanSell, ResolveSales, ShipAll, Allocation, Revenue, RevenueByProduct;
    CanSellIs(env, p);
    SalesAreSold(env, p, action);
    var backlog, finished, prices := p.st.plant.backlog, p.st.plant.finished, SalesPrices(action);
    SortedPositive(env.cfg, backlog);
    ShipAllIsAllocation(env, Selling(p, [], []), prices, env.cfg.sort(backlog));
    RevenueIsByProduct(env.cfg.sort(backlog), finished, prices);
    SameLineRevenue(finished, env.cfg.sort(backlog), backlog, prices);
  }

  /** The shipments logged for a customer and product are the units taken off that customer's backlog. */
  lemma ShippedToCustomer(env: Env, p: Phase, action: Option<ActionSubmission>, customer: CustomerID, product: ProductID)
    requires CanSell(env, p)
    ensures var q, sel := ResolveSales(env, p, action), OfCustomer(customer, product);
            Sum(ShippedTo(customer, product), q.events) - Sum(ShippedTo(customer, product), p.events) ==
            Sum(Wanted(sel), p.st.plant.backlog) - Sum(Wanted(sel), q.st.plant.backlog)
  {
    hide CanSell, ResolveSales, ShipAll, Allocation, Sum, PortionsWhere, Wanted;
    CanSellIs(env, p);
    SalesAreSold(env, p, action);
    var sorted, sel := env.cfg.sort(p.st.plant.backlog), OfCustomer(customer, product);
    SortedPositive(env.cfg, p.st.plant.backlog);
    assert BlindToQty(sel);
    SalesLeave(env, p, action, sel);
    assert Sees(ShippedTo(customer, product), sel);
    ShipAllLogs(env, Selling(p, [], []), SalesPrices(action), sorted, ShippedTo(customer, product), sel);
  }

  /** Two phase states with the same finished goods and the same backlog, listed in any order. */
  ghost predicate SameDemand(p: Phase, q: Phase) {
    && q.st.plant.finished == p.st.plant.finished
    && multiset(q.st.plant.backlog) == multiset(p.st.plant.backlog)
  }

  /**
   The order of the incoming backlog decides nothing: two states that differ in it, and in anything but their finished
   goods, earn the same revenue and ship the same units of every product, and the same units stay open for every origin
   round, customer and product.
   */
  lemma BacklogOrderIsIrrelevant(env: Env, p: Phase, q: Phase, action: Option<ActionSubmission>, key: BacklogEntry)
    requires CanSell(env, p) && CanSell(env, q) && SameDemand(p, q)
    ensures var a, b := ResolveSales(env, p, action), ResolveSales(env, q, action);
            && a.stats.revenue - p.stats.revenue == b.stats.revenue - q.stats.revenue
            && Sum(Wanted(UnderKey(key)), a.st.plant.backlog) == Sum(Wanted(UnderKey(key)), b.st.plant.backlog)
            && QtyOf(a.st.plant.finished, key.product) == QtyOf(b.st.plant.finished, key.product)
            && Sum(ShippedOf(key.product), a.events) - Sum(ShippedOf(key.product), p.events) ==
               Sum(ShippedOf(key.product), b.events) - Sum(ShippedOf(key.product), q.events)
  {
    hide CanSell, ResolveSales, Sum, QtyOf, RevenueByProduct, Wanted, UpTo, Below, Ordered;
    SalesByKey(env, p, action, key);
    SalesByKey(env, q, action, key);
    SumPermutation(Wanted(UnderKey(key)), p.st.plant.backlog, q.st.plant.backlog);
    SumPermutation(UpTo(key), p.st.plant.backlog, q.st.plant.backlog);
    SumPermutation(Below(key), p.st.plant.backlog, q.st.plant.backlog);
    SalesByProduct(env, p, action, key.product);
    SalesByProduct(env, q, action, key.product);
    SumPermutation(Ordered(key.product), p.st.plant.backlog, q.st.plant.backlog);
    RevenueOfSales(env, p, action);
    RevenueOfSales(env, q, action);
    SameLineRevenue(p.st.plant.finished, p.st.plant.backlog, q.st.plant.backlog, SalesPrices(action));
  }
}
