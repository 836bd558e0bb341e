/**
 The demand hook of a scenario: it writes every new order twice, into the plant backlog and into the list of
 its customer, visiting the products of each customer in an arbitrary order.
 */
module Demand {
  import opened Seqs
  import opened Domain
  import opened Phases
  import opened Offers
  import opened Ledger
  import opened LedgerClosing
  import opened Accounting

  datatype DemandProfile = DemandProfile(referencePrice: int, baseDemand: int, priceSensitivity: int)

  datatype ProductCost = ProductCost(product: ProductID, baseUnitCost: int)

  /** Customers by identifier, and for each the products it asks for. */
  type Markets = map<CustomerID, map<ProductID, DemandProfile>>

  // ---------------------------------------------------------------- prices

  function BasePrices(prices: map<ProductID, int>, products: seq<ProductCost>): map<ProductID, int>
    decreases |products|
  {
    if |products| == 0 then prices
    else BasePrices(prices[products[0].product := products[0].baseUnitCost * 2], products[1..])
  }

  function ActionPrices(prices: map<ProductID, int>, actions: seq<ActionSubmission>): map<ProductID, int>
    decreases |actions|
  {
    if |actions| == 0 then prices
    else
      var a := actions[0];
      ActionPrices(if !a.role.SalesManager? || a.action.sales.None? then prices
                   else OfferPrices(prices, a.action.sales.value), actions[1..])
  }

  function CurrentPrices(products: seq<ProductCost>, actions: seq<ActionSubmission>): map<ProductID, int> {
    ActionPrices(BasePrices(map[], products), actions)
  }

  // Where the price of a product comes from.

  ghost predicate LastEntry(products: seq<ProductCost>, product: ProductID, k: nat) {
    && k < |products| && products[k].product == product
    && forall j | k < j < |products| :: products[j].product != product
  }

  ghost predicate Listed(products: seq<ProductCost>, product: ProductID) { exists p :: p in products && p.product == product }

  lemma LastEntryCons(products: seq<ProductCost>, product: ProductID)
    requires |products| > 0
    ensures Listed(products, product) <==> products[0].product == product || Listed(products[1..], product)
    ensures forall k: nat | LastEntry(products[1..], product, k) :: LastEntry(products, product, k + 1)
    ensures products[0].product == product && !Listed(products[1..], product) ==> LastEntry(products, product, 0)
  {
    var rest := products[1..];
    assert forall j | 0 < j < |products| :: products[j] == rest[j - 1] && rest[j - 1] in rest;
  }

  /** Without offers a product costs twice the base cost of its last catalogue entry. */
  lemma {:induction false} BasePriceIs(products: seq<ProductCost>, product: ProductID, before: map<ProductID, int>)
    ensures var m := BasePrices(before, products);
            if Listed(products, product)
            then product in m && exists k: nat :: LastEntry(products, product, k) && m[product] == 2 * products[k].baseUnitCost
            else SamePrice(product, before, m)
    decreases |products|
  {
    if |products| > 0 {
      var p, m := products[0], BasePrices(before, products);
      BasePriceIs(products[1..], product, before[p.product := p.baseUnitCost * 2]);
      LastEntryCons(products, product);
      if Listed(products[1..], product) {
        var k: nat :| LastEntry(products[1..], product, k) && m[product] == 2 * products[1..][k].baseUnitCost;
        assert LastEntry(products, product, k + 1) && products[1..][k] == products[k + 1];
      }
    }
  }

  /** The offers an action makes, if it is one of the sales manager. */
  function OffersOf(a: ActionSubmission): seq<ProductOffer> {
    if a.role.SalesManager? && a.action.sales.Some? then a.action.sales.value else []
  }

  ghost predicate LastPricing(actions: seq<ActionSubmission>, product: ProductID, i: nat) {
    && i < |actions| && !Unpriced(OffersOf(actions[i]), product)
    && forall j | i < j < |actions| :: Unpriced(OffersOf(actions[j]), product)
  }

  ghost predicate PricedBy(a: ActionSubmission, product: ProductID, price: int) {
    exists j: nat :: LastPriced(OffersOf(a), product, j) && OffersOf(a)[j].unitPrice == price
  }

  /** The last action with a price for the product sets it. */
  ghost predicate LastPrice(actions: seq<ActionSubmission>, product: ProductID, price: int) {
    exists i: nat :: LastPricing(actions, product, i) && PricedBy(actions[i], product, price)
  }

  ghost predicate NobodyPrices(actions: seq<ActionSubmission>, product: ProductID) {
    forall a | a in actions :: Unpriced(OffersOf(a), product)
  }

  lemma LastPricingCons(actions: seq<ActionSubmission>, product: ProductID, price: int)
    requires |actions| > 0
    ensures NobodyPrices(actions, product) <==> Unpriced(OffersOf(actions[0]), product) && NobodyPrices(actions[1..], product)
    ensures LastPrice(actions[1..], product, price) ==> LastPrice(actions, product, price)
    ensures !Unpriced(OffersOf(actions[0]), product) && NobodyPrices(actions[1..], product) && PricedBy(actions[0], product, price)
            ==> LastPrice(actions, product, price)
  {
    hide Unpriced, OffersOf, PricedBy;
    var rest := actions[1..];
    assert forall j | 0 < j < |actions| :: actions[j] == rest[j - 1] && rest[j - 1] in rest;
    if i: nat :| LastPricing(rest, product, i) && PricedBy(rest[i], product, price) {
      assert LastPricing(actions, product, i + 1) && actions[i + 1] == rest[i];
    }
    if !Unpriced(OffersOf(actions[0]), product) && NobodyPrices(rest, product) {
      assert LastPricing(actions, product, 0);
    }
  }

  lemma LastPricedIsPriced(offers: seq<ProductOffer>, product: ProductID, i: nat)
    requires LastPriced(offers, product, i)
    ensures !Unpriced(offers, product)
  {
    assert offers[i] in offers;
  }

  lemma {:induction false} ActionPriceIs(actions: seq<ActionSubmission>, product: ProductID, before: map<ProductID, int>)
    ensures var m := ActionPrices(before, actions);
            if NobodyPrices(actions, product) then SamePrice(product, before, m)
            else product in m && LastPrice(actions, product, m[product])
    decreases |actions|
  {
    hide Unpriced, OfferPrices, LastPriced, NobodyPrices, LastPrice, PricedBy;
    if |actions| > 0 {
      var a, m := actions[0], ActionPrices(before, actions);
      var middle := OfferPrices(before, OffersOf(a));
      NoOffersNoChange(before);
      ActionPriceIs(actions[1..], product, middle);
      LastPricingCons(actions, product, At(m, product));
      OneActionPrices(a, product, before);
    } else {
      NobodyActs(product);
    }
  }

  lemma NobodyActs(product: ProductID)
    ensures NobodyPrices([], product)
  {
  }

  lemma NoOffersNoChange(before: map<ProductID, int>)
    ensures OfferPrices(before, []) == before
  {
  }

  lemma OneActionPrices(a: ActionSubmission, product: ProductID, before: map<ProductID, int>)
    ensures var m := OfferPrices(before, OffersOf(a));
            if Unpriced(OffersOf(a), product) then SamePrice(product, before, m)
            else product in m && PricedBy(a, product, m[product])
  {
    OffersDecide(OffersOf(a), product, before);
    forall i: nat | LastPriced(OffersOf(a), product, i) ensures !Unpriced(OffersOf(a), product) {
      LastPricedIsPriced(OffersOf(a), product, i);
    }
  }

  /**
   The price demand answers to, for every product: the last offer of the sales manager with a price for it, in the last
   action that has one; without any, twice the base cost of its last catalogue entry; and no price, so no demand, for
   a product that is neither offered nor in the catalogue.
   */
  lemma PriceOfProduct(products: seq<ProductCost>, actions: seq<ActionSubmission>, product: ProductID)
    ensures var m := CurrentPrices(products, actions);
            if !NobodyPrices(actions, product)
            then product in m && LastPrice(actions, product, m[product])
            else if Listed(products, product)
            then product in m && exists k: nat :: LastEntry(products, product, k) && m[product] == 2 * products[k].baseUnitCost
            else product !in m
  {
    hide NobodyPrices, LastPrice, BasePrices, ActionPrices;
    BasePriceIs(products, product, map[]);
    ActionPriceIs(actions, product, BasePrices(map[], products));
  }

  /** `currentOfferPrices`. */
  method CurrentOfferPrices(products: seq<ProductCost>, actions: seq<ActionSubmission>) returns (prices: map<ProductID, int>)
    ensures prices == CurrentPrices(products, actions)
  {
    prices := map[];
    for i := 0 to |products|
      invariant BasePrices(prices, products[i..]) == BasePrices(map[], products)
    {
      assert products[i..][1..] == products[i + 1..];
      prices := prices[products[i].product := products[i].baseUnitCost * 2];
    }
    ghost var base := prices;
    for i := 0 to |actions|
      invariant ActionPrices(prices, actions[i..]) == ActionPrices(base, actions)
    {
      assert actions[i..][1..] == actions[i + 1..];
      if !actions[i].role.SalesManager? || actions[i].action.sales.None? { continue; }
      var offers := actions[i].action.sales.value;
      ghost var before := prices;
      for j := 0 to |offers|
        invariant OfferPrices(prices, offers[j..]) == OfferPrices(before, offers)
      {
        assert offers[j..][1..] == offers[j + 1..];
        if offers[j].unitPrice > 0 {
          prices := prices[offers[j].product := offers[j].unitPrice];
        }
      }
    }
  }

  // ---------------------------------------------------------------- demand of one customer for one product

  /** Sentiment earns demand, also a bad one; only a price above the reference costs any. */
  function DemandScore(profile: DemandProfile, sentiment: int, price: int): int {
    profile.baseDemand * (Max(1, sentiment) + 2) - profile.priceSensitivity * Max(0, price - profile.referencePrice)
  }

  /** One unit for every full five points of the score, and none for a score below five. */
  function RealizedDemand(profile: DemandProfile, sentiment: int, price: int): (units: int)
    ensures units >= 0
    ensures units > 0 ==> 5 * units <= DemandScore(profile, sentiment, price)
    ensures DemandScore(profile, sentiment, price) < 5 * units + 5
  {
    Max(0, Quot(DemandScore(profile, sentiment, price), 5))
  }

  /**
   What a customer orders of a product. The base demand counts three times for a customer in no better mood than one, and
   once more for every point above; every money unit above the reference price costs the sensitivity. Every full five points
   are one unit.
   */
  lemma DemandAnswers(profile: DemandProfile, sentiment: int, price: int)
    ensures var units := RealizedDemand(profile, sentiment, price);
            var mood, excess := if sentiment > 1 then sentiment - 1 else 0, if price > profile.referencePrice then price - profile.referencePrice else 0;
            var points := 3 * profile.baseDemand + profile.baseDemand * mood - profile.priceSensitivity * excess;
            && (units == 0 <==> points < 5)
            && (units > 0 ==> 5 * units <= points < 5 * units + 5)
  {
    var mood := if sentiment > 1 then sentiment - 1 else 0;
    assert profile.baseDemand * (Max(1, sentiment) + 2) == 3 * profile.baseDemand + profile.baseDemand * mood;
  }

  lemma DemandFollows(profile: DemandProfile, sentiment: int, price: int, happier: int, cheaper: int)
    requires profile.baseDemand >= 0 && profile.priceSensitivity >= 0 && sentiment <= happier && cheaper <= price
    ensures RealizedDemand(profile, sentiment, price) <= RealizedDemand(profile, happier, cheaper)
  {
    var s1, s2 := Max(1, sentiment) + 2, Max(1, happier) + 2;
    var d1, d2 := Max(0, price - profile.referencePrice), Max(0, cheaper - profile.referencePrice);
    ProductGrows(profile.baseDemand, s1, s2);
    ProductGrows(profile.priceSensitivity, d2, d1);
  }

  lemma ProductGrows(a: int, b: int, c: int)
    requires a >= 0 && b <= c
    ensures a * b <= a * c
  {
  }

  function OrderOf(markets: Markets, prices: map<ProductID, int>, customer: Customer, product: ProductID): int {
    if customer.id in markets && product in markets[customer.id] && product in prices
    then RealizedDemand(markets[customer.id][product], customer.sentiment, prices[product]) else 0
  }

  // ---------------------------------------------------------------- booking

  /** `appendCustomerBacklog`: the first customer with the identifier gets the entry. */
  function AppendToCustomer(customers: seq<Customer>, id: CustomerID, entry: BacklogEntry): seq<Customer> {
    var i := CustomerIndex(customers, id);
    if i < |customers| then customers[i := customers[i].(backlog := customers[i].backlog + [entry])] else customers
  }

  datatype Market = Market(st: MatchState, events: seq<Event>)

  function Book(m: Market, entry: BacklogEntry): Market {
    Market(m.st.(plant := m.st.plant.(backlog := m.st.plant.backlog + [entry]),
                 customers := AppendToCustomer(m.st.customers, entry.customer, entry)),
           m.events + [DemandRealized(entry.customer, entry.product, entry.qty),
                       BacklogCreated(entry.customer, entry.product, entry.qty)])
  }

  /** The entry one product of one customer gives rise to, if any. */
  function EntryFor(markets: Markets, prices: map<ProductID, int>, customer: Customer, round: int, product: ProductID): seq<BacklogEntry> {
    var units := OrderOf(markets, prices, customer, product);
    if units > 0 then [BacklogEntry(customer.id, product, units, round, 0)] else []
  }

  function EntriesFor(markets: Markets, prices: map<ProductID, int>, customer: Customer, round: int,
                      products: seq<ProductID>): seq<BacklogEntry> {
    if |products| == 0 then []
    else EntryFor(markets, prices, customer, round, products[0]) + EntriesFor(markets, prices, customer, round, products[1..])
  }

  /** `orders[i]` is the order in which customer i's products come up. */
  function NewDemand(markets: Markets, prices: map<ProductID, int>, customers: seq<Customer>, round: int,
                     orders: seq<seq<ProductID>>): seq<BacklogEntry>
    requires |orders| == |customers|
  {
    if |customers| == 0 then []
    else EntriesFor(markets, prices, customers[0], round, orders[0])
         + NewDemand(markets, prices, customers[1..], round, orders[1..])
  }

  function BookAll(m: Market, entries: seq<BacklogEntry>): Market
    decreases |entries|
  {
    if |entries| == 0 then m else BookAll(Book(m, entries[0]), entries[1..])
  }

  /** Each key once, in some order. */
  ghost predicate Ordering(keys: set<ProductID>, order: seq<ProductID>) {
    multiset(order) == multiset(keys)
  }

  ghost predicate Orderings(keys: set<ProductID>, customers: seq<Customer>, orders: seq<seq<ProductID>>) {
    |orders| == |customers| && forall i | 0 <= i < |orders| :: Ordering(keys, orders[i])
  }

  lemma {:induction false} BookAllConcat(m: Market, a: seq<BacklogEntry>, b: seq<BacklogEntry>)
    ensures BookAll(m, a + b) == BookAll(BookAll(m, a), b)
    decreases |a|
  {
    if |a| == 0 {
      assert a + b == b;
    } else {
      assert (a + b)[1..] == a[1..] + b;
      BookAllConcat(Book(m, a[0]), a[1..], b);
    }
  }

  lemma {:induction false} BookAllIs(m: Market, entries: seq<BacklogEntry>)
    ensures var n := BookAll(m, entries);
            && n.st == m.st.(customers := n.st.customers, plant := m.st.plant.(backlog := m.st.plant.backlog + entries))
            && |n.st.customers| == |m.st.customers|
            && forall i | 0 <= i < |m.st.customers| ::
                 n.st.customers[i] == m.st.customers[i].(backlog := n.st.customers[i].backlog)
    decreases |entries|
  {
    if |entries| == 0 {
      assert m.st.plant.backlog + entries == m.st.plant.backlog;
    } else {
      BookAllIs(Book(m, entries[0]), entries[1..]);
      assert m.st.plant.backlog + [entries[0]] + entries[1..] == m.st.plant.backlog + entries;
    }
  }

  /** The next key of a map, whichever that is. */
  method SomeKey<K>(keys: set<K>) returns (x: K)
    requires |keys| > 0
    ensures x in keys
  {
    x :| x in keys;
  }

  /**
   The mutable state the hook works on. Ranging over a map in Go visits the keys in an arbitrary order, so the
   loop picks any product that is left.
   */
  class World {
    var state: MatchState
    var events: seq<Event>

    constructor (st: MatchState)
      ensures View() == Market(st, [])
    {
      state, events := st, [];
    }

    ghost function View(): Market
      reads this
    {
      Market(state, events)
    }

    method AppendCustomerBacklog(id: CustomerID, entry: BacklogEntry)
      modifies this
      ensures View() == old(View()).(st := old(state).(customers := AppendToCustomer(old(state.customers), id, entry)))
    {
      for i := 0 to |state.customers|
        invariant View() == old(View())
        invariant forall j | 0 <= j < i :: state.customers[j].id != id
      {
        if state.customers[i].id == id {
          state := state.(customers := state.customers[i := state.customers[i].(backlog := state.customers[i].backlog + [entry])]);
          return;
        }
      }
    }

    method BookEntry(entry: BacklogEntry)
      modifies this
      ensures View() == Book(old(View()), entry)
    {
      state := state.(plant := state.plant.(backlog := state.plant.backlog + [entry]));
      AppendCustomerBacklog(entry.customer, entry);
      events := events + [DemandRealized(entry.customer, entry.product, entry.qty)];
      events := events + [BacklogCreated(entry.customer, entry.product, entry.qty)];
    }

    /** One customer's pass over the price map. */
    method DemandOf(markets: Markets, prices: map<ProductID, int>, customer: Customer) returns (ghost order: seq<ProductID>)
      requires customer.id in markets
      modifies this
      ensures Ordering(prices.Keys, order)
      ensures View() == BookAll(old(View()), EntriesFor(markets, prices, customer, old(state.currentRound), order))
    {
      order := [];
      var left := prices.Keys;
      ghost var round := state.currentRound;
      while |left| > 0
        invariant left <= prices.Keys
        invariant multiset(order) + multiset(left) == multiset(prices.Keys)
        invariant state.currentRound == round
        invariant View() == BookAll(old(View()), EntriesFor(markets, prices, customer, round, order))
        decreases |left|
      {
        var product := SomeKey(left);
        left := left - {product};
        ghost var before := order;
        order := order + [product];
        EntriesPush(markets, prices, customer, round, before, product);
        BookAllConcat(old(View()), EntriesFor(markets, prices, customer, round, before),
                      EntryFor(markets, prices, customer, round, product));
        if product !in markets[customer.id] { continue; }
        var realized := RealizedDemand(markets[customer.id][product], customer.sentiment, prices[product]);
        if realized <= 0 { continue; }
        var entry := BacklogEntry(customer.id, product, realized, state.currentRound, 0);
        assert EntryFor(markets, prices, customer, round, product) == [entry];
        assert [entry][1..] == [];
        BookEntry(entry);
      }
      assert left == {};
    }

    /** `applyDemand`. */
    method ApplyDemand(markets: Markets, products: seq<ProductCost>, actions: seq<ActionSubmission>)
      returns (ghost orders: seq<seq<ProductID>>)
      modifies this
      ensures Orderings(CurrentPrices(products, actions).Keys, old(state.customers), orders)
      ensures View() == BookAll(old(View()), NewDemand(markets, CurrentPrices(products, actions), old(state.customers),
                                                       old(state.currentRound), orders))
    {
      hide BookAll;
      var prices := CurrentOfferPrices(products, actions);
      var customers := state.customers;
      ghost var keys, round, start := prices.Keys, state.currentRound, View();
      orders := [];
      NothingBooked(start);
      for i := 0 to |customers|
        invariant Orderings(keys, customers[..i], orders)
        invariant state.currentRound == round
        invariant View() == BookAll(start, NewDemand(markets, prices, customers[..i], round, orders))
      {
        ghost var order: seq<ProductID>;
        if customers[i].id in markets {
          order := DemandOf(markets, prices, customers[i]);
        } else {
          order := AnyOrder(keys);
          NoMarket(markets, prices, customers[i], round, order);
          NothingBooked(View());
        }
        BookAllConcat(start, NewDemand(markets, prices, customers[..i], round, orders),
                      EntriesFor(markets, prices, customers[i], round, order));
        DemandPush(markets, prices, customers[..i], round, orders, customers[i], order);
        assert customers[..i] + [customers[i]] == customers[..i + 1];
        orders := orders + [order];
        BookAllIs(start, NewDemand(markets, prices, customers[..i + 1], round, orders));
      }
      assert customers[..|customers|] == customers;
    }
  }

  lemma NothingBooked(m: Market)
    ensures BookAll(m, []) == m
  {
  }

  ghost function KeyOf<K(!new)>(keys: set<K>): (x: K)
    requires |keys| > 0
    ensures x in keys
  {
    var x :| x in keys;
    x
  }

  ghost function AnyOrder(keys: set<ProductID>): (order: seq<ProductID>)
    ensures Ordering(keys, order)
    decreases |keys|
  {
    if |keys| == 0 then []
    else
      var x := KeyOf(keys);
      assert multiset(keys) == multiset{x} + multiset(keys - {x});
      [x] + AnyOrder(keys - {x})
  }

  lemma {:induction false} NoMarket(markets: Markets, prices: map<ProductID, int>, customer: Customer, round: int, order: seq<ProductID>)
    requires customer.id !in markets
    ensures EntriesFor(markets, prices, customer, round, order) == []
  {
    if |order| > 0 {
      NoMarket(markets, prices, customer, round, order[1..]);
    }
  }

  lemma {:induction false} EntriesPush(markets: Markets, prices: map<ProductID, int>, customer: Customer, round: int,
                                       products: seq<ProductID>, product: ProductID)
    ensures EntriesFor(markets, prices, customer, round, products + [product]) ==
            EntriesFor(markets, prices, customer, round, products) + EntryFor(markets, prices, customer, round, product)
  {
    if |products| == 0 {
      assert products + [product] == [product];
      assert EntriesFor(markets, prices, customer, round, [product][1..]) == [];
    } else {
      assert (products + [product])[1..] == products[1..] + [product];
      EntriesPush(markets, prices, customer, round, products[1..], product);
    }
  }

  lemma {:induction false} DemandPush(markets: Markets, prices: map<ProductID, int>, customers: seq<Customer>, round: int,
                                      orders: seq<seq<ProductID>>, customer: Customer, order: seq<ProductID>)
    requires |orders| == |customers|
    ensures NewDemand(markets, prices, customers + [customer], round, orders + [order]) ==
            NewDemand(markets, prices, customers, round, orders) + EntriesFor(markets, prices, customer, round, order)
    decreases |customers|
  {
    if |customers| == 0 {
      assert customers + [customer] == [customer] && orders + [order] == [order];
      assert NewDemand(markets, prices, [customer][1..], round, [order][1..]) == [];
    } else {
      assert (customers + [customer])[1..] == customers[1..] + [customer];
      assert (orders + [order])[1..] == orders[1..] + [order];
      DemandPush(markets, prices, customers[1..], round, orders[1..], customer, order);
    }
  }

  // ---------------------------------------------------------------- what the hook achieves

  lemma {:induction false} EntriesAreNew(markets: Markets, prices: map<ProductID, int>, customer: Customer, round: int,
                                         products: seq<ProductID>)
    ensures forall e | e in EntriesFor(markets, prices, customer, round, products) ::
              e.qty > 0 && e.origin == round && e.age == 0 && e.customer == customer.id
  {
    if |products| > 0 {
      EntriesAreNew(markets, prices, customer, round, products[1..]);
    }
  }

  lemma {:induction false} DemandIsNew(markets: Markets, prices: map<ProductID, int>, customers: seq<Customer>, round: int,
                                       orders: seq<seq<ProductID>>)
    requires |orders| == |customers|
    ensures forall e | e in NewDemand(markets, prices, customers, round, orders) :: e.qty > 0 && e.origin == round && e.age == 0
    ensures forall e | e in NewDemand(markets, prices, customers, round, orders) ::
              exists c | c in customers :: c.id == e.customer
    decreases |customers|
  {
    if |customers| > 0 {
      EntriesAreNew(markets, prices, customers[0], round, orders[0]);
      DemandIsNew(markets, prices, customers[1..], round, orders[1..]);
    }
  }

  lemma BookMovements(e: BacklogEntry, k: Account)
    ensures Movement(k, DemandRealized(e.customer, e.product, e.qty)) == 0
    ensures Movement(k, BacklogCreated(e.customer, e.product, e.qty)) == OpenUnits(k, [e])
  {
    if k.BacklogUnits? {
      SumOne(EntryOf(k.customer, k.ordered), e);
    }
  }

  lemma BookLogs(m: Market, e: BacklogEntry, k: Account)
    ensures Sum(Moved(k), Book(m, e).events) == Sum(Moved(k), m.events) + OpenUnits(k, [e])
  {
    hide Movement, OpenUnits, AppendToCustomer, Sum;
    BookMovements(e, k);
    var first := m.events + [DemandRealized(e.customer, e.product, e.qty)];
    SumPush(Moved(k), m.events, DemandRealized(e.customer, e.product, e.qty));
    SumPush(Moved(k), first, BacklogCreated(e.customer, e.product, e.qty));
    assert Book(m, e).events == first + [BacklogCreated(e.customer, e.product, e.qty)];
  }

  lemma OpenUnitsSplit(k: Account, entries: seq<BacklogEntry>)
    requires |entries| > 0
    ensures OpenUnits(k, entries) == OpenUnits(k, [entries[0]]) + OpenUnits(k, entries[1..])
  {
    if k.BacklogUnits? {
      SumConcat(EntryOf(k.customer, k.ordered), [entries[0]], entries[1..]);
      assert [entries[0]] + entries[1..] == entries;
    }
  }

  lemma NoOpenUnits(k: Account)
    ensures OpenUnits(k, []) == 0
  {
  }

  lemma {:induction false} BookAllLogs(m: Market, entries: seq<BacklogEntry>, k: Account)
    ensures Sum(Moved(k), BookAll(m, entries).events) == Sum(Moved(k), m.events) + OpenUnits(k, entries)
    decreases |entries|
  {
    hide Movement, OpenUnits, Sum, Book;
    if |entries| == 0 {
      NoOpenUnits(k);
      assert entries == [];
    } else {
      BookLogs(m, entries[0], k);
      OpenUnitsSplit(k, entries);
      BookAllLogs(Book(m, entries[0]), entries[1..], k);
    }
  }

  /** Both places are written alike: booking for a known customer keeps the copies coherent. */
  lemma BookKeepsCoherence(m: Market, entry: BacklogEntry)
    requires Coherent(m.st) && DistinctCustomers(m.st.customers)
    requires exists c | c in m.st.customers :: c.id == entry.customer
    ensures Coherent(Book(m, entry).st) && DistinctCustomers(Book(m, entry).st.customers)
  {
    var customers, n := m.st.customers, Book(m, entry).st;
    var i := CustomerIndex(customers, entry.customer);
    forall j | 0 <= j < |customers|
      ensures n.customers[j].backlog == Filter(ForCustomer(customers[j].id), m.st.plant.backlog + [entry])
    {
      FilterPush(ForCustomer(customers[j].id), m.st.plant.backlog, entry);
      assert customers[j] in customers;
    }
  }

  lemma {:induction false} BookAllKeepsCoherence(m: Market, entries: seq<BacklogEntry>)
    requires Coherent(m.st) && DistinctCustomers(m.st.customers)
    requires forall e | e in entries :: exists c | c in m.st.customers :: c.id == e.customer
    ensures Coherent(BookAll(m, entries).st)
    decreases |entries|
  {
    hide Coherent;
    if |entries| > 0 {
      assert entries[0] in entries;
      BookKeepsCoherence(m, entries[0]);
      var n := Book(m, entries[0]);
      forall e | e in entries[1..] ensures exists c | c in n.st.customers :: c.id == e.customer {
        var c :| c in m.st.customers && c.id == e.customer;
        var j :| 0 <= j < |m.st.customers| && m.st.customers[j] == c;
        assert n.st.customers[j].id == e.customer;
      }
      BookAllKeepsCoherence(n, entries[1..]);
    }
  }

  /** Whatever the order of the products, the hook has exactly the effect the rest of the round relies on. */
  lemma DemandIsOrderly(markets: Markets, prices: map<ProductID, int>, st: MatchState, drawn: nat, orders: seq<seq<ProductID>>)
    requires |orders| == |st.customers|
    ensures var m := BookAll(Market(st, []), NewDemand(markets, prices, st.customers, st.currentRound, orders));
            OrderlyEffect(st, WorldEffect(m.st, drawn, m.events))
  {
    hide Coherent, NewDemand, BookAll;
    var entries := NewDemand(markets, prices, st.customers, st.currentRound, orders);
    var start := Market(st, []);
    var m := BookAll(start, entries);
    BookAllIs(start, entries);
    DemandIsNew(markets, prices, st.customers, st.currentRound, orders);
    var effect := WorldEffect(m.st, drawn, m.events);
    assert NewEntries(st, effect) == entries;
    forall k: Account ensures Sum(Moved(k), effect.events) == OpenUnits(k, entries) {
      BookAllLogs(start, entries, k);
    }
    if Coherent(st) && DistinctCustomers(st.customers) {
      BookAllKeepsCoherence(start, entries);
    }
  }

  // ---------------------------------------------------------------- the order does not matter

  function OrderSize(markets: Markets, prices: map<ProductID, int>, customer: Customer, entry: BacklogEntry, round: int): ProductID -> int {
    (x: ProductID) => multiset(EntryFor(markets, prices, customer, round, x))[entry]
  }

  lemma {:induction false} EntriesCount(markets: Markets, prices: map<ProductID, int>, customer: Customer, round: int,
                                        products: seq<ProductID>, entry: BacklogEntry)
    ensures multiset(EntriesFor(markets, prices, customer, round, products))[entry] ==
            Sum(OrderSize(markets, prices, customer, entry, round), products)
  {
    if |products| > 0 {
      EntriesCount(markets, prices, customer, round, products[1..], entry);
    }
  }

  /** The new backlog as a multiset is the same for every order in which the maps are visited. */
  lemma {:induction false} DemandOrderIsIrrelevant(markets: Markets, prices: map<ProductID, int>, customers: seq<Customer>, round: int,
                                                   a: seq<seq<ProductID>>, b: seq<seq<ProductID>>)
    requires Orderings(prices.Keys, customers, a) && Orderings(prices.Keys, customers, b)
    ensures multiset(NewDemand(markets, prices, customers, round, a)) == multiset(NewDemand(markets, prices, customers, round, b))
    decreases |customers|
  {
    if |customers| > 0 {
      var x, y := EntriesFor(markets, prices, customers[0], round, a[0]), EntriesFor(markets, prices, customers[0], round, b[0]);
      forall e: BacklogEntry ensures multiset(x)[e] == multiset(y)[e] {
        EntriesCount(markets, prices, customers[0], round, a[0], e);
        EntriesCount(markets, prices, customers[0], round, b[0], e);
        SumPermutation(OrderSize(markets, prices, customers[0], e, round), a[0], b[0]);
      }
      assert multiset(x) == multiset(y);
      DemandOrderIsIrrelevant(markets, prices, customers[1..], round, a[1..], b[1..]);
    }
  }

  function Wanted(markets: Markets, prices: map<ProductID, int>, customer: Customer, product: ProductID): ProductID -> int {
    (x: ProductID) => if x == product then OrderOf(markets, prices, customer, product) else 0
  }

  lemma {:induction false} EntriesOf(markets: Markets, prices: map<ProductID, int>, customer: Customer, round: int,
                                     products: seq<ProductID>, id: CustomerID, product: ProductID)
    ensures Sum(EntryOf(id, product), EntriesFor(markets, prices, customer, round, products)) ==
            if customer.id == id then Sum(Wanted(markets, prices, customer, product), products) else 0
  {
    if |products| > 0 {
      EntriesOf(markets, prices, customer, round, products[1..], id, product);
      var one := EntryFor(markets, prices, customer, round, products[0]);
      SumConcat(EntryOf(id, product), one, EntriesFor(markets, prices, customer, round, products[1..]));
      if |one| > 0 {
        SumOne(EntryOf(id, product), one[0]);
        assert one == [one[0]];
      }
    }
  }

  lemma CountHead(order: seq<ProductID>, product: ProductID)
    requires |order| > 0
    ensures multiset(order)[product] == (if order[0] == product then 1 else 0) + multiset(order[1..])[product]
  {
    assert order == [order[0]] + order[1..];
  }

  lemma OneMore(n: int, v: int)
    ensures (1 + n) * v == v + n * v
  {
  }

  lemma {:induction false} WantedOnce(order: seq<ProductID>, f: ProductID -> int, product: ProductID)
    requires forall x | x in order && x != product :: f(x) == 0
    ensures Sum(f, order) == multiset(order)[product] * f(product)
  {
    if |order| > 0 {
      WantedOnce(order[1..], f, product);
      CountHead(order, product);
      OneMore(multiset(order[1..])[product], f(product));
    }
  }

  lemma {:induction false} NoneForOthers(markets: Markets, prices: map<ProductID, int>, customers: seq<Customer>, round: int,
                                         orders: seq<seq<ProductID>>, id: CustomerID, product: ProductID)
    requires |orders| == |customers| && forall c | c in customers :: c.id != id
    ensures Sum(EntryOf(id, product), NewDemand(markets, prices, customers, round, orders)) == 0
    decreases |customers|
  {
    if |customers| > 0 {
      var first := EntriesFor(markets, prices, customers[0], round, orders[0]);
      EntriesOf(markets, prices, customers[0], round, orders[0], id, product);
      NoneForOthers(markets, prices, customers[1..], round, orders[1..], id, product);
      SumConcat(EntryOf(id, product), first, NewDemand(markets, prices, customers[1..], round, orders[1..]));
    }
  }

  lemma EachKeyOnce(markets: Markets, prices: map<ProductID, int>, customer: Customer, order: seq<ProductID>, product: ProductID)
    requires Ordering(prices.Keys, order)
    ensures Sum(Wanted(markets, prices, customer, product), order) == OrderOf(markets, prices, customer, product)
  {
    hide RealizedDemand, Sum;
    WantedOnce(order, Wanted(markets, prices, customer, product), product);
    assert multiset(prices.Keys)[product] == if product in prices then 1 else 0;
  }

  /** Every customer's new backlog for a product is exactly its realized demand at the price on offer. */
  lemma {:induction false} DemandIsBooked(markets: Markets, prices: map<ProductID, int>, customers: seq<Customer>, round: int,
                                          orders: seq<seq<ProductID>>, i: nat, product: ProductID)
    requires Orderings(prices.Keys, customers, orders) && DistinctCustomers(customers) && i < |customers|
    ensures Sum(EntryOf(customers[i].id, product), NewDemand(markets, prices, customers, round, orders)) ==
            OrderOf(markets, prices, customers[i], product)
    decreases i
  {
    hide OrderOf, RealizedDemand, EntriesFor, EntryOf, Wanted, Ordering, Sum;
    var id := customers[i].id;
    var first := EntriesFor(markets, prices, customers[0], round, orders[0]);
    EntriesOf(markets, prices, customers[0], round, orders[0], id, product);
    SumConcat(EntryOf(id, product), first, NewDemand(markets, prices, customers[1..], round, orders[1..]));
    if i == 0 {
      EachKeyOnce(markets, prices, customers[0], orders[0], product);
      NoneForOthers(markets, prices, customers[1..], round, orders[1..], id, product);
    } else {
      DemandIsBooked(markets, prices, customers[1..], round, orders[1..], i - 1, product);
    }
  }
}
