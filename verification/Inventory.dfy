/**
 Parts, work in progress and finished goods. The three kinds of stock share one shape and one set of
 helper functions here; the program repeats them per kind.
 */
module Inventory {
  import opened Seqs
  import opened Domain

  // ---------------------------------------------------------------- specification

  /** Position of the first line with a key, or the length of the list. */
  function Index<K(==)>(items: seq<Stock<K>>, key: K): (i: nat)
    ensures i <= |items|
    ensures i < |items| ==> items[i].key == key
    ensures forall j | 0 <= j < i :: items[j].key != key
  {
    if |items| == 0 || items[0].key == key then 0 else 1 + Index(items[1..], key)
  }

  function QtyOf<K(==)>(items: seq<Stock<K>>, key: K): int {
    var i := Index(items, key);
    if i < |items| then items[i].qty else 0
  }

  function CostOf<K(==)>(items: seq<Stock<K>>, key: K): int {
    var i := Index(items, key);
    if i < |items| then items[i].cost else 0
  }

  /** Adding to an existing line averages the unit cost, rounding down. */
  function Merge<K>(item: Stock<K>, qty: int, cost: int): Stock<K> {
    if item.cost <= 0 then Stock(item.key, item.qty + qty, cost)
    else if cost <= 0 then Stock(item.key, item.qty + qty, item.cost)
    else Stock(item.key, item.qty + qty, PerUnitCost(item.qty * item.cost + qty * cost, item.qty + qty))
  }

  function Add<K(==)>(items: seq<Stock<K>>, key: K, qty: int, cost: int): seq<Stock<K>> {
    if qty <= 0 then items
    else
      var i := Index(items, key);
      if i < |items| then items[i := Merge(items[i], qty, cost)]
      else items + [Stock(key, qty, cost)]
  }

  function Reduced<K(==)>(item: Stock<K>, key: K, qty: int): Stock<K> {
    if item.key == key then item.(qty := item.qty - qty) else item
  }

  /** Subtract from every line with the key, then keep the lines that still hold something. */
  function Take<K(==)>(items: seq<Stock<K>>, key: K, qty: int): seq<Stock<K>> {
    if |items| == 0 then []
    else
      var item := Reduced(items[0], key, qty);
      (if item.qty > 0 then [item] else []) + Take(items[1..], key, qty)
  }

  /** The cost the taking loop reports: that of the last line with the key. */
  function TakeCost<K(==)>(items: seq<Stock<K>>, key: K, qty: int, soFar: int): int {
    if |items| == 0 then soFar
    else TakeCost(items[1..], key, qty, if items[0].key == key then qty * items[0].cost else soFar)
  }

  // ---------------------------------------------------------------- the slices of the source

  /**
   A slice reached through a pointer: an array with a used prefix. Taking compacts the used prefix in
   place, writing behind the position it reads.
   */
  class StockList<K(==)> {
    var data: array<Stock<K>>
    var len: nat

    ghost predicate Valid() reads this { len <= data.Length }

    ghost function Items(): seq<Stock<K>>
      requires Valid()
      reads this, data
    {
      data[..len]
    }

    constructor (items: seq<Stock<K>>)
      ensures Valid() && fresh(data) && Items() == items
    {
      data := new Stock<K>[|items|](i requires 0 <= i < |items| => items[i]);
      len := |items|;
      new;
      assert data[..len] == items;
    }

    method AddInPlace(key: K, qty: int, cost: int)
      requires Valid()
      modifies this, data
      ensures Valid() && (data == old(data) || fresh(data))
      ensures Items() == Add(old(Items()), key, qty, cost)
    {
      if qty <= 0 { return; }
      ghost var before := Items();
      for index := 0 to len
        invariant Items() == before && unchanged(this) && unchanged(data)
        invariant forall j | 0 <= j < index :: before[j].key != key
      {
        if data[index].key == key {
          assert Index(before, key) == index;
          data[index] := Merge(data[index], qty, cost);
          return;
        }
      }
      assert Index(before, key) == len;
      if len == data.Length {
        var grown := new Stock<K>[2 * len + 1](
          i requires 0 <= i < 2 * len + 1 reads this, data =>
            if i < len && i < data.Length then data[i] else Stock(key, qty, cost));
        assert grown[..len] == before;
        data := grown;
      }
      data[len] := Stock(key, qty, cost);
      len := len + 1;
      assert Items() == before + [Stock(key, qty, cost)];
    }

    method TakeInPlace(key: K, qty: int) returns (totalCost: int)
      requires Valid()
      modifies this, data
      ensures Valid() && data == old(data)
      ensures Items() == Take(old(Items()), key, qty)
      ensures totalCost == TakeCost(old(Items()), key, qty, 0)
    {
      hide Take, TakeCost;
      totalCost := 0;
      ghost var before, done := Items(), [];
      var write := 0;
      for read := 0 to len
        invariant write <= read
        invariant unchanged(this)
        invariant forall k | read <= k < len :: data[k] == before[k]
        invariant |done| == write && forall k | 0 <= k < write :: data[k] == done[k]
        invariant done + Take(before[read..], key, qty) == Take(before, key, qty)
        invariant TakeCost(before[read..], key, qty, totalCost) == TakeCost(before, key, qty, 0)
      {
        var item := data[read];
        TakeHead(before, read, key, qty, totalCost, done);
        if item.key == key {
          totalCost := qty * item.cost;
          item := item.(qty := item.qty - qty);
        }
        if item.qty > 0 {
          data[write] := item;
          write := write + 1;
          done := done + [item];
        }
      }
      assert before[len..] == [];
      TakeNothing(key, qty, totalCost);
      assert data[..write] == done;
      len := write;
    }
  }

  lemma TakeNothing<K>(key: K, qty: int, soFar: int)
    ensures Take<K>([], key, qty) == [] && TakeCost<K>([], key, qty, soFar) == soFar
  {
  }

  lemma TakeHead<K>(items: seq<Stock<K>>, i: nat, key: K, qty: int, soFar: int, done: seq<Stock<K>>)
    requires i < |items|
    ensures var item := Reduced(items[i], key, qty);
            done + Take(items[i..], key, qty) ==
            (if item.qty > 0 then done + [item] else done) + Take(items[i + 1..], key, qty)
    ensures TakeCost(items[i..], key, qty, soFar) ==
            TakeCost(items[i + 1..], key, qty, if items[i].key == key then qty * items[i].cost else soFar)
  {
    assert items[i..][1..] == items[i + 1..];
    var item, rest := Reduced(items[i], key, qty), Take(items[i + 1..], key, qty);
    assert done + ([item] + rest) == (done + [item]) + rest;
    assert done + ([] + rest) == done + rest;
  }

  // ---------------------------------------------------------------- units

  function QtyWhere<K>(sel: K -> bool): Stock<K> -> int {
    (s: Stock<K>) => if sel(s.key) then s.qty else 0
  }

  /** Units held on the selected lines. */
  function Units<K>(sel: K -> bool, items: seq<Stock<K>>): int { Sum(QtyWhere(sel), items) }

  function AnyKey<K>(): K -> bool { (k: K) => true }

  function IsKey<K(==)>(key: K): K -> bool { (k: K) => k == key }

  function OfProduct(product: ProductID): WipKey -> bool { (k: WipKey) => k.product == product }

  function AtStation(station: WorkstationID): WipKey -> bool { (k: WipKey) => k.station == station }

  /** Keys are distinct and every line holds something. */
  ghost predicate Tidy<K(!new)>(items: seq<Stock<K>>) {
    && (forall i | 0 <= i < |items| :: items[i].qty > 0)
    && (forall i, j | 0 <= i < j < |items| :: items[i].key != items[j].key)
  }

  lemma AddTidy<K(!new)>(items: seq<Stock<K>>, key: K, qty: int, cost: int)
    requires Tidy(items)
    ensures Tidy(Add(items, key, qty, cost))
  {
  }

  lemma AddUnits<K(!new)>(sel: K -> bool, items: seq<Stock<K>>, key: K, qty: int, cost: int)
    ensures Units(sel, Add(items, key, qty, cost)) ==
            Units(sel, items) + (if sel(key) then Max(qty, 0) else 0)
  {
    if qty > 0 {
      var i := Index(items, key);
      if i < |items| {
        SumUpdate(QtyWhere(sel), items, i, Merge(items[i], qty, cost));
      } else {
        SumPush(QtyWhere(sel), items, Stock(key, qty, cost));
      }
    }
  }

  lemma {:induction false} TakeConcat<K>(a: seq<Stock<K>>, b: seq<Stock<K>>, key: K, qty: int)
    ensures Take(a + b, key, qty) == Take(a, key, qty) + Take(b, key, qty)
  {
    if |a| == 0 {
      assert a + b == b;
    } else {
      assert (a + b)[1..] == a[1..] + b;
      TakeConcat(a[1..], b, key, qty);
    }
  }

  lemma {:induction false} TakeAbsent<K>(items: seq<Stock<K>>, key: K, qty: int)
    requires forall s | s in items :: s.key != key && s.qty > 0
    ensures Take(items, key, qty) == items
  {
    if |items| > 0 {
      TakeAbsent(items[1..], key, qty);
    }
  }

  function Left<K>(item: Stock<K>, qty: int): seq<Stock<K>> {
    if item.qty > qty then [item.(qty := item.qty - qty)] else []
  }

  lemma TakeFound<K>(before: seq<Stock<K>>, item: Stock<K>, after: seq<Stock<K>>, key: K, qty: int)
    requires item.key == key
    requires forall s | s in before + after :: s.key != key && s.qty > 0
    ensures Take(before + [item] + after, key, qty) == before + Left(item, qty) + after
  {
    TakeConcat(before + [item], after, key, qty);
    TakeConcat(before, [item], key, qty);
    TakeAbsent(before, key, qty);
    TakeAbsent(after, key, qty);
    assert [item][1..] == [];
    assert Take([item], key, qty) == Left(item, qty);
  }

  /** Every line not under the key is copied, in order; the line under the key shrinks or goes. */
  lemma TakeShape<K(!new)>(items: seq<Stock<K>>, key: K, qty: int)
    requires Tidy(items)
    ensures var i := Index(items, key);
            Take(items, key, qty) ==
              if i == |items| then items else items[..i] + Left(items[i], qty) + items[i + 1..]
  {
    var i := Index(items, key);
    if i == |items| {
      TakeAbsent(items, key, qty);
    } else {
      assert items == items[..i] + [items[i]] + items[i + 1..];
      TakeFound(items[..i], items[i], items[i + 1..], key, qty);
    }
  }

  lemma LeftTidy<K(!new)>(before: seq<Stock<K>>, item: Stock<K>, after: seq<Stock<K>>, qty: int)
    requires Tidy(before + [item] + after)
    ensures Tidy(before + Left(item, qty) + after)
  {
    var items, next, n := before + [item] + after, before + Left(item, qty) + after, |before|;
    assert forall i | 0 <= i < n :: next[i] == items[i];
    if Left(item, qty) == [] {
      assert forall i | n <= i < |next| :: next[i] == items[i + 1];
    } else {
      assert next[n].key == items[n].key;
      assert forall i | n < i < |next| :: next[i] == items[i];
    }
  }

  lemma TakeTidy<K(!new)>(items: seq<Stock<K>>, key: K, qty: int)
    requires Tidy(items)
    ensures Tidy(Take(items, key, qty))
  {
    TakeShape(items, key, qty);
    var i := Index(items, key);
    if i < |items| {
      assert items == items[..i] + [items[i]] + items[i + 1..];
      LeftTidy(items[..i], items[i], items[i + 1..], qty);
    }
  }

  lemma SumLeft<K>(sel: K -> bool, item: Stock<K>, qty: int)
    requires item.qty > 0 && qty >= 0
    ensures Sum(QtyWhere(sel), Left(item, qty)) == if sel(item.key) then item.qty - Min(qty, item.qty) else 0
  {
    assert Left(item, qty) != [] ==> Left(item, qty)[1..] == [];
  }

  /** Taking removes what was asked for, or all there is: stock never goes below zero. */
  lemma TakeUnits<K(!new)>(sel: K -> bool, items: seq<Stock<K>>, key: K, qty: int)
    requires Tidy(items) && qty >= 0
    ensures Units(sel, Take(items, key, qty)) ==
            Units(sel, items) - (if sel(key) then Min(qty, QtyOf(items, key)) else 0)
  {
    TakeShape(items, key, qty);
    var i := Index(items, key);
    if i < |items| {
      var before, item, after := items[..i], items[i], items[i + 1..];
      assert items == before + [item] + after;
      SumConcat(QtyWhere(sel), before + Left(item, qty), after);
      SumConcat(QtyWhere(sel), before, Left(item, qty));
      SumConcat(QtyWhere(sel), before + [item], after);
      SumPush(QtyWhere(sel), before, item);
      SumLeft(sel, item, qty);
    }
  }

  /** The lookup of the source, which stops at the first line, sees all units of the key. */
  lemma {:induction false} QtyIsUnits<K(!new)>(items: seq<Stock<K>>, key: K)
    requires Tidy(items)
    ensures QtyOf(items, key) == Units(IsKey(key), items)
    ensures QtyOf(items, key) >= 0
  {
    if |items| > 0 {
      QtyIsUnits(items[1..], key);
      if items[0].key == key {
        assert Index(items[1..], key) == |items[1..]|;
      }
    }
  }

  lemma TakeQty<K(!new)>(items: seq<Stock<K>>, key: K, qty: int, other: K)
    requires Tidy(items) && qty >= 0
    ensures QtyOf(Take(items, key, qty), other) ==
            if other == key then Max(QtyOf(items, key) - qty, 0) else QtyOf(items, other)
  {
    TakeTidy(items, key, qty);
    TakeUnits(IsKey(other), items, key, qty);
    QtyIsUnits(items, other);
    QtyIsUnits(Take(items, key, qty), other);
  }

  lemma {:induction false} TakeCostIs<K(!new)>(items: seq<Stock<K>>, key: K, qty: int, soFar: int)
    requires Tidy(items)
    ensures TakeCost(items, key, qty, soFar) ==
            if Index(items, key) < |items| then qty * CostOf(items, key) else soFar
  {
    if |items| > 0 {
      if items[0].key == key {
        TakeCostIs(items[1..], key, qty, qty * items[0].cost);
        assert Index(items[1..], key) == |items[1..]|;
      } else {
        TakeCostIs(items[1..], key, qty, soFar);
      }
    }
  }

  // ---------------------------------------------------------------- bills of material

  function MaxBuildable(parts: seq<Stock<PartID>>, bom: seq<BOMLine>): int {
    if |bom| == 0 then 0
    else
      var allowed := BuildableFrom(parts, bom, -1);
      if allowed < 0 then 0 else allowed
  }

  function BuildableFrom(parts: seq<Stock<PartID>>, bom: seq<BOMLine>, allowed: int): int
    decreases |bom|
  {
    if |bom| == 0 then allowed
    else if bom[0].qty <= 0 then BuildableFrom(parts, bom[1..], allowed)
    else
      var buildable := Quot(QtyOf(parts, bom[0].part), bom[0].qty);
      BuildableFrom(parts, bom[1..], if allowed < 0 || buildable < allowed then buildable else allowed)
  }

  method ComputeMaxBuildable(parts: seq<Stock<PartID>>, bom: seq<BOMLine>) returns (quantity: int)
    ensures quantity == MaxBuildable(parts, bom)
  {
    if |bom| == 0 { return 0; }
    var allowed := -1;
    for i := 0 to |bom|
      invariant BuildableFrom(parts, bom[i..], allowed) == BuildableFrom(parts, bom, -1)
    {
      var line := bom[i];
      assert bom[i..][1..] == bom[i + 1..];
      if line.qty <= 0 { continue; }
      var buildable := Quot(QtyOf(parts, line.part), line.qty);
      if allowed < 0 || buildable < allowed {
        allowed := buildable;
      }
    }
    assert bom[|bom|..] == [];
    return if allowed < 0 then 0 else allowed;
  }

  ghost predicate Buildable(parts: seq<Stock<PartID>>, bom: seq<BOMLine>, q: int) {
    forall line | line in bom && line.qty > 0 :: line.qty * q <= QtyOf(parts, line.part)
  }

  lemma QuotBound(have: int, per: int, q: int)
    requires have >= 0 && per > 0
    ensures per * q <= have <==> q <= Quot(have, per)
  {
    var d := have / per;
    assert have == per * d + have % per;
    if q <= d {
      assert per * q <= per * d;
    } else {
      assert per * q >= per * (d + 1);
    }
  }

  lemma {:induction false} BuildableFromIs(parts: seq<Stock<PartID>>, bom: seq<BOMLine>, allowed: int, q: int)
    requires Tidy(parts) && q >= 0 && allowed >= -1
    ensures BuildableFrom(parts, bom, allowed) >= -1
    ensures BuildableFrom(parts, bom, allowed) == -1 <==>
            allowed == -1 && forall line | line in bom :: line.qty <= 0
    ensures BuildableFrom(parts, bom, allowed) != -1 ==>
            (q <= BuildableFrom(parts, bom, allowed) <==>
             (allowed == -1 || q <= allowed) && Buildable(parts, bom, q))
    decreases |bom|
  {
    if |bom| > 0 {
      var line := bom[0];
      assert forall l | l in bom :: l == line || l in bom[1..];
      if line.qty <= 0 {
        BuildableFromIs(parts, bom[1..], allowed, q);
      } else {
        QtyIsUnits(parts, line.part);
        QuotBound(QtyOf(parts, line.part), line.qty, q);
        QuotBound(QtyOf(parts, line.part), line.qty, 0);
        var buildable := Quot(QtyOf(parts, line.part), line.qty);
        BuildableFromIs(parts, bom[1..], if allowed < 0 || buildable < allowed then buildable else allowed, q);
      }
    }
  }

  /**
   With at least one line that asks for something, the computed limit is exactly the largest quantity
   for which every line alone fits the stock.
   */
  lemma MaxBuildableIsLargest(parts: seq<Stock<PartID>>, bom: seq<BOMLine>, q: int)
    requires Tidy(parts) && q >= 0
    requires exists line :: line in bom && line.qty > 0
    ensures q <= MaxBuildable(parts, bom) <==> Buildable(parts, bom, q)
  {
    BuildableFromIs(parts, bom, -1, q);
  }

  datatype Consumed = Consumed(parts: seq<Stock<PartID>>, cost: int)

  function Consume(parts: seq<Stock<PartID>>, bom: seq<BOMLine>, q: int, cost: int): Consumed
    decreases |bom|
  {
    if |bom| == 0 then Consumed(parts, cost)
    else
      Consume(Take(parts, bom[0].part, bom[0].qty * q), bom[1..], q,
              cost + TakeCost(parts, bom[0].part, bom[0].qty * q, 0))
  }

  function LineQty(part: PartID): BOMLine -> int { (l: BOMLine) => if l.part == part then l.qty else 0 }

  function Required(bom: seq<BOMLine>, part: PartID): int { Sum(LineQty(part), bom) }

  lemma CutOffTwice(have: int, own: int, others: int, q: int)
    requires have >= 0 && own >= 0 && others >= 0 && q >= 0
    ensures Max(Max(have - own * q, 0) - others * q, 0) == Max(have - (own + others) * q, 0)
  {
    assert (own + others) * q == own * q + others * q;
    assert own * q >= 0 && others * q >= 0;
  }

  /**
   Whatever the bill lists, even one part twice, the stock left is what was there less the whole
   requirement, cut off at zero.
   */
  lemma {:induction false} ConsumeLeaves(parts: seq<Stock<PartID>>, bom: seq<BOMLine>, q: int, cost: int, part: PartID)
    requires Tidy(parts) && q >= 0 && forall line | line in bom :: line.qty >= 0
    ensures Tidy(Consume(parts, bom, q, cost).parts)
    ensures Required(bom, part) >= 0
    ensures QtyOf(Consume(parts, bom, q, cost).parts, part) ==
            Max(QtyOf(parts, part) - Required(bom, part) * q, 0)
    decreases |bom|
  {
    if |bom| == 0 {
      QtyIsUnits(parts, part);
    } else {
      var line := bom[0];
      assert line.qty * q >= 0;
      TakeTidy(parts, line.part, line.qty * q);
      TakeQty(parts, line.part, line.qty * q, part);
      QtyIsUnits(parts, part);
      var next := Take(parts, line.part, line.qty * q);
      ConsumeLeaves(next, bom[1..], q, cost + TakeCost(parts, line.part, line.qty * q, 0), part);
      assert Required(bom, part) == LineQty(part)(line) + Required(bom[1..], part);
      CutOffTwice(QtyOf(parts, part), LineQty(part)(line), Required(bom[1..], part), q);
    }
  }

  /** Consumption is exact for a part precisely when its whole requirement was in stock. */
  lemma ConsumptionExactWhenCovered(parts: seq<Stock<PartID>>, bom: seq<BOMLine>, q: int, part: PartID)
    requires Tidy(parts) && q >= 0 && forall line | line in bom :: line.qty >= 0
    ensures QtyOf(Consume(parts, bom, q, 0).parts, part) == QtyOf(parts, part) - Required(bom, part) * q
       <==> Required(bom, part) * q <= QtyOf(parts, part)
  {
    ConsumeLeaves(parts, bom, q, 0, part);
  }

  ghost predicate DistinctParts(bom: seq<BOMLine>) {
    forall i, j | 0 <= i < j < |bom| :: bom[i].part != bom[j].part
  }

  lemma {:induction false} RequiredIsLine(bom: seq<BOMLine>, part: PartID)
    requires DistinctParts(bom)
    ensures forall line | line in bom && line.part == part :: Required(bom, part) == line.qty
    ensures (forall line | line in bom :: line.part != part) ==> Required(bom, part) == 0
  {
    if |bom| > 0 {
      RequiredIsLine(bom[1..], part);
      assert forall l | l in bom :: l == bom[0] || l in bom[1..];
    }
  }

  /**
   A release of distinct parts, up to the computed limit, consumes exactly bill times quantity and
   never overdraws any part.
   */
  lemma BuildableReleaseIsExact(parts: seq<Stock<PartID>>, bom: seq<BOMLine>, q: int, part: PartID)
    requires Tidy(parts) && 0 <= q <= MaxBuildable(parts, bom)
    requires DistinctParts(bom) && forall line | line in bom :: line.qty >= 0
    ensures QtyOf(Consume(parts, bom, q, 0).parts, part) == QtyOf(parts, part) - Required(bom, part) * q
  {
    ConsumptionExactWhenCovered(parts, bom, q, part);
    RequiredIsLine(bom, part);
    QtyIsUnits(parts, part);
    BuildableFromIs(parts, bom, -1, q);
    if line :| line in bom && line.part == part && line.qty > 0 {
      assert line.qty * q <= QtyOf(parts, line.part);
    } else {
      assert Required(bom, part) == 0;
    }
  }

  /** A bill that lists one part twice passes the limit and overdraws the stock. */
  lemma RepeatedLineOverdraws()
    ensures var parts, bom := [Stock(1, 3, 1)], [BOMLine(1, 2), BOMLine(1, 2)];
            && MaxBuildable(parts, bom) == 1
            && Required(bom, 1) * 1 > QtyOf(parts, 1)
            && Consume(parts, bom, 1, 0) == Consumed([], 4)
  {
    var parts, bom, line := [Stock(1, 3, 1)], [BOMLine(1, 2), BOMLine(1, 2)], [BOMLine(1, 2)];
    assert bom[1..] == line && line[1..] == [];
    assert LineQty(1)(BOMLine(1, 2)) == 2;
    assert Required(line, 1) == 2;
    assert BuildableFrom(parts, line, 1) == 1;
    assert Take(parts, 1, 2) == [Stock(1, 1, 1)];
    assert Take([Stock(1, 1, 1)], 1, 2) == [];
    assert Consume([Stock(1, 1, 1)], line, 1, 2) == Consumed([], 4);
  }

  // ---------------------------------------------------------------- costs

  function LineValue<K>(): Stock<K> -> int { (s: Stock<K>) => s.qty * s.cost }

  function Value<K>(items: seq<Stock<K>>): int { Sum(LineValue(), items) }

  /** Floor division of a weighted sum stays between the two weights. */
  lemma WeightedAverage(q1: int, c1: int, q2: int, c2: int)
    requires q1 > 0 && q2 > 0 && c1 > 0 && c2 > 0
    ensures var avg := PerUnitCost(q1 * c1 + q2 * c2, q1 + q2);
            && Min(c1, c2) <= avg <= Max(c1, c2)
            && 0 <= (q1 * c1 + q2 * c2) - (q1 + q2) * avg < q1 + q2
  {
    var total, n := q1 * c1 + q2 * c2, q1 + q2;
    WeightedBounds(q1, c1, q2, c2);
    FloorAverage(total, n, Min(c1, c2), Max(c1, c2));
  }

  lemma WeightedBounds(q1: int, c1: int, q2: int, c2: int)
    requires q1 > 0 && q2 > 0 && c1 > 0 && c2 > 0
    ensures 0 < (q1 + q2) * Min(c1, c2) <= q1 * c1 + q2 * c2 <= (q1 + q2) * Max(c1, c2)
  {
    var lo, hi := Min(c1, c2), Max(c1, c2);
    assert q1 * lo <= q1 * c1 <= q1 * hi;
    assert q2 * lo <= q2 * c2 <= q2 * hi;
    assert q1 * lo > 0 && q2 * lo > 0;
    assert (q1 + q2) * lo == q1 * lo + q2 * lo;
    assert (q1 + q2) * hi == q1 * hi + q2 * hi;
  }

  lemma FloorAverage(total: int, n: int, lo: int, hi: int)
    requires n > 0 && 0 < n * lo <= total <= n * hi
    ensures lo <= PerUnitCost(total, n) <= hi
    ensures 0 <= total - n * PerUnitCost(total, n) < n
  {
    var avg := Quot(total, n);
    QuotBound(total, n, lo);
    QuotBound(total, n, avg);
    QuotBound(total, n, avg + 1);
    QuotBound(total, n, hi + 1);
    assert n * (avg + 1) == n * avg + n;
    assert n * (hi + 1) == n * hi + n;
  }

  ghost predicate CostsWithin<K(!new)>(items: seq<Stock<K>>, lo: int, hi: int) {
    forall s | s in items :: lo <= s.cost <= hi
  }

  /**
   With positive costs an addition never creates value, loses less than one money unit per unit on the
   line, and leaves every unit cost inside any band that held the stock and the addition.
   */
  lemma AddValue<K(!new)>(items: seq<Stock<K>>, key: K, qty: int, cost: int, lo: int, hi: int)
    requires Tidy(items) && CostsWithin(items, lo, hi) && 1 <= lo <= cost <= hi && qty > 0
    ensures CostsWithin(Add(items, key, qty, cost), lo, hi)
    ensures Value(items) + qty * cost - (QtyOf(items, key) + qty) < Value(Add(items, key, qty, cost))
    ensures Value(Add(items, key, qty, cost)) <= Value(items) + qty * cost
  {
    var i := Index(items, key);
    var next := Add(items, key, qty, cost);
    if i < |items| {
      var merged := Merge(items[i], qty, cost);
      assert items[i] in items;
      WeightedAverage(items[i].qty, items[i].cost, qty, cost);
      SumUpdate(LineValue(), items, i, merged);
      assert Value(next) == Value(items) - items[i].qty * items[i].cost + merged.qty * merged.cost;
      assert next == items[i := merged];
      forall s | s in next ensures lo <= s.cost <= hi {
        assert s == merged || s in items;
      }
    } else {
      SumPush(LineValue(), items, Stock(key, qty, cost));
    }
  }

  lemma TakeCostsWithin<K(!new)>(items: seq<Stock<K>>, key: K, qty: int, lo: int, hi: int)
    requires Tidy(items) && CostsWithin(items, lo, hi)
    ensures CostsWithin(Take(items, key, qty), lo, hi)
  {
    TakeShape(items, key, qty);
    var i := Index(items, key);
    if i < |items| {
      assert items[i] in items;
    }
  }

  lemma {:induction false} ConsumeTidy(parts: seq<Stock<PartID>>, bom: seq<BOMLine>, q: int, cost: int)
    requires Tidy(parts)
    ensures Tidy(Consume(parts, bom, q, cost).parts)
    decreases |bom|
  {
    if |bom| > 0 {
      var taken := bom[0].qty * q;
      TakeTidy(parts, bom[0].part, taken);
      ConsumeTidy(Take(parts, bom[0].part, taken), bom[1..], q, cost + TakeCost(parts, bom[0].part, taken, 0));
    }
  }

  lemma {:induction false} ConsumeCostsWithin(parts: seq<Stock<PartID>>, bom: seq<BOMLine>, q: int, cost: int, lo: int, hi: int)
    requires Tidy(parts) && CostsWithin(parts, lo, hi)
    ensures CostsWithin(Consume(parts, bom, q, cost).parts, lo, hi)
    decreases |bom|
  {
    if |bom| > 0 {
      var taken := bom[0].qty * q;
      TakeTidy(parts, bom[0].part, taken);
      TakeCostsWithin(parts, bom[0].part, taken, lo, hi);
      ConsumeCostsWithin(Take(parts, bom[0].part, taken), bom[1..], q,
                         cost + TakeCost(parts, bom[0].part, taken, 0), lo, hi);
    }
  }

  /** Taking some units and dividing their cost again gives back the unit cost, with no rounding. */
  lemma MoveKeepsCost<K(!new)>(items: seq<Stock<K>>, key: K, qty: int)
    requires Tidy(items) && 0 < qty <= QtyOf(items, key)
    ensures PerUnitCost(TakeCost(items, key, qty, 0), qty) == CostOf(items, key)
  {
    TakeCostIs(items, key, qty, 0);
    var c := CostOf(items, key);
    QuotExact(c, qty);
  }

  lemma QuotExact(c: int, q: int)
    requires q > 0
    ensures Quot(q * c, q) == c
  {
    if c >= 0 {
      QuotExactNonNegative(c, q);
    } else {
      assert -(q * c) == q * (-c);
      QuotExactNonNegative(-c, q);
    }
  }

  lemma QuotExactNonNegative(c: int, q: int)
    requires q > 0 && c >= 0
    ensures q * c >= 0
    ensures (q * c) / q == c
  {
    assert q * c >= 0;
    QuotBound(q * c, q, c);
    QuotBound(q * c, q, c + 1);
    assert q * (c + 1) == q * c + q;
  }
}
