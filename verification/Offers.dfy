/** What a list of offers says about the price of a product: the last offer with a price decides. */
module Offers {
  import opened Domain
  import opened Phases

  ghost predicate LastPriced(offers: seq<ProductOffer>, product: ProductID, i: nat) {
    && i < |offers| && offers[i].product == product && offers[i].unitPrice > 0
    && forall j | i < j < |offers| && offers[j].product == product :: offers[j].unitPrice <= 0
  }

  ghost predicate Unpriced(offers: seq<ProductOffer>, product: ProductID) {
    forall o | o in offers && o.product == product :: o.unitPrice <= 0
  }

  /** Prices after the offers, against the prices before them. */
  ghost predicate Repriced(offers: seq<ProductOffer>, product: ProductID, before: map<ProductID, int>, after: map<ProductID, int>) {
    || (exists i: nat :: LastPriced(offers, product, i) && product in after && after[product] == offers[i].unitPrice)
    || (Unpriced(offers, product) && SamePrice(product, before, after))
  }

  ghost predicate SamePrice(product: ProductID, before: map<ProductID, int>, after: map<ProductID, int>) {
    if product in before then product in after && after[product] == before[product] else product !in after
  }

  lemma RepricedCons(offers: seq<ProductOffer>, product: ProductID, before: map<ProductID, int>, after: map<ProductID, int>)
    requires |offers| > 0
    requires var first := offers[0];
             Repriced(offers[1..], product, if first.unitPrice <= 0 then before else before[first.product := first.unitPrice], after)
    ensures Repriced(offers, product, before, after)
  {
    var first, rest := offers[0], offers[1..];
    assert forall j | 0 < j < |offers| :: offers[j] == rest[j - 1] && rest[j - 1] in rest;
    if i: nat :| LastPriced(rest, product, i) && product in after && after[product] == rest[i].unitPrice {
      assert LastPriced(offers, product, i + 1);
    } else if first.product == product && first.unitPrice > 0 {
      assert LastPriced(offers, product, 0);
    }
  }

  lemma NothingRepriced(product: ProductID, before: map<ProductID, int>)
    ensures Repriced([], product, before, before)
  {
  }

  lemma {:induction false} OffersDecide(offers: seq<ProductOffer>, product: ProductID, before: map<ProductID, int>)
    ensures Repriced(offers, product, before, OfferPrices(before, offers))
    decreases |offers|
  {
    hide Repriced;
    if |offers| > 0 {
      var first := offers[0];
      OffersDecide(offers[1..], product, if first.unitPrice <= 0 then before else before[first.product := first.unitPrice]);
      RepricedCons(offers, product, before, OfferPrices(before, offers));
    } else {
      NothingRepriced(product, before);
    }
  }

  /** The price a list of offers gives a product: that of its last offer with a price, or one. */
  ghost predicate OfferedPrice(offers: seq<ProductOffer>, product: ProductID, price: int) {
    || (exists i: nat :: LastPriced(offers, product, i) && offers[i].unitPrice == price)
    || (price == 1 && Unpriced(offers, product))
  }

  /** Goods are sold at the price of the last offer for them that names one, and at one where there is none. */
  lemma SoldAtLastOffer(action: Option<ActionSubmission>, product: ProductID)
    ensures OfferedPrice(if action.Some? && action.value.action.sales.Some? then action.value.action.sales.value else [],
                         product, Price(SalesPrices(action), product))
  {
    if action.Some? && action.value.action.sales.Some? {
      OffersDecide(action.value.action.sales.value, product, map[]);
    }
  }
}
