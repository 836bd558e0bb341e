/** The quality split of finished units and the customer returns of shipped units. */
module Quality {
  import opened Seqs
  import opened Domain

  datatype Random = NoRandom | Random(rolls: nat -> int)

  datatype Profile = Profile(
    scrapPct: int, reworkPct: int, holdPct: int, returnPct: int, holdRounds: int, returnDelay: int)

  function ClampPct(pct: int): int { Min(100, Max(0, pct)) }

  /** Clamps every rate; an excess over 100 is taken from the hold rate as far as that goes. */
  function Normalized(p: Profile): Profile {
    var scrap, rework, hold := ClampPct(p.scrapPct), ClampPct(p.reworkPct), ClampPct(p.holdPct);
    var total := scrap + rework + hold;
    Profile(scrap, rework, if total > 100 then Max(0, hold - (total - 100)) else hold, ClampPct(p.returnPct),
            Max(p.holdRounds, 0), Max(p.returnDelay, 0))
  }

  datatype Split = Split(scrap: int, rework: int, hold: int) {
    function Good(quantity: int): int { Max(quantity - scrap - rework - hold, 0) }
  }

  function CountByPct(quantity: int, pct: int): int {
    if quantity <= 0 || pct <= 0 then 0 else Quot(quantity * pct, 100)
  }

  function Judge(s: Split, roll: int, p: Profile): Split {
    if roll < p.scrapPct then s.(scrap := s.scrap + 1)
    else if roll < p.scrapPct + p.reworkPct then s.(rework := s.rework + 1)
    else if roll < p.scrapPct + p.reworkPct + p.holdPct then s.(hold := s.hold + 1)
    else s
  }

  /** One roll per unit. */
  function RollSplit(quantity: int, p: Profile, rolls: nat -> int, from: nat): Split {
    if quantity <= 0 then Split(0, 0, 0)
    else Judge(RollSplit(quantity - 1, p, rolls, from), rolls(from + quantity - 1), p)
  }

  function CountedSplit(quantity: int, p: Profile): Split {
    var scrap := CountByPct(quantity, p.scrapPct);
    var rework := CountByPct(Max(quantity - scrap, 0), p.reworkPct);
    var hold := CountByPct(Max(quantity - scrap - rework, 0), p.holdPct);
    Split(scrap, rework, hold)
  }

  function FinishedSplit(quantity: int, p: Profile, random: Random, from: nat): Split {
    match random
    case NoRandom => CountedSplit(quantity, p)
    case Random(rolls) => RollSplit(quantity, p, rolls, from)
  }

  // ---------------------------------------------------------------- which rolls decide

  function RollOf(rolls: nat -> int, from: nat, unit: nat): int { rolls(from + unit) }

  /** The units of a batch, by their place in it, whose own roll lies in a band. */
  function InBand(quantity: int, rolls: nat -> int, from: nat, low: int, high: int): set<nat> {
    set u: nat | u < quantity && low <= RollOf(rolls, from, u) < high
  }

  function Below(quantity: int, rolls: nat -> int, from: nat, high: int): set<nat> {
    set u: nat | u < quantity && RollOf(rolls, from, u) < high
  }

  lemma BandGrows(quantity: nat, rolls: nat -> int, from: nat, low: int, high: int)
    requires quantity > 0
    ensures var last := quantity - 1;
            |InBand(quantity, rolls, from, low, high)| ==
            |InBand(last, rolls, from, low, high)| + (if low <= rolls(from + last) < high then 1 else 0)
  {
    var last: nat := quantity - 1;
    var before, after := InBand(last, rolls, from, low, high), InBand(quantity, rolls, from, low, high);
    assert after == if low <= RollOf(rolls, from, last) < high then before + {last} else before;
  }

  lemma BelowGrows(quantity: nat, rolls: nat -> int, from: nat, high: int)
    requires quantity > 0
    ensures var last := quantity - 1;
            |Below(quantity, rolls, from, high)| == |Below(last, rolls, from, high)| + (if rolls(from + last) < high then 1 else 0)
  {
    var last: nat := quantity - 1;
    var before, after := Below(last, rolls, from, high), Below(quantity, rolls, from, high);
    assert after == if RollOf(rolls, from, last) < high then before + {last} else before;
  }

  /** Where a split comes from: from the rolls of the units themselves, or from the rates of a batch without rolls. */
  ghost predicate SplitByRates(s: Split, quantity: int, p: Profile, random: Random, from: nat) {
    var rework, hold := p.scrapPct + p.reworkPct, p.scrapPct + p.reworkPct + p.holdPct;
    match random
    case Random(rolls) =>
      && s.scrap == |Below(quantity, rolls, from, p.scrapPct)|
      && s.rework == |InBand(quantity, rolls, from, p.scrapPct, rework)|
      && s.hold == |InBand(quantity, rolls, from, rework, hold)|
    case NoRandom =>
      && Share(s.scrap, Max(quantity, 0), p.scrapPct)
      && Share(s.rework, Max(quantity - s.scrap, 0), p.reworkPct)
      && Share(s.hold, Max(quantity - s.scrap - s.rework, 0), p.holdPct)
  }

  /** The whole units in a percentage of some units. */
  predicate Share(units: int, quantity: nat, pct: int) { units * 100 <= quantity * Max(pct, 0) < (units + 1) * 100 }

  lemma {:induction false} RollsDecide(quantity: int, p: Profile, rolls: nat -> int, from: nat)
    requires p.scrapPct >= 0 && p.reworkPct >= 0 && p.holdPct >= 0
    ensures SplitByRates(RollSplit(quantity, p, rolls, from), quantity, p, Random(rolls), from)
    decreases quantity
  {
    if quantity > 0 {
      RollsDecide(quantity - 1, p, rolls, from);
      BelowGrows(quantity, rolls, from, p.scrapPct);
      BandGrows(quantity, rolls, from, p.scrapPct, p.scrapPct + p.reworkPct);
      BandGrows(quantity, rolls, from, p.scrapPct + p.reworkPct, p.scrapPct + p.reworkPct + p.holdPct);
    } else {
      assert Below(quantity, rolls, from, p.scrapPct) == {};
      assert InBand(quantity, rolls, from, p.scrapPct, p.scrapPct + p.reworkPct) == {};
      assert InBand(quantity, rolls, from, p.scrapPct + p.reworkPct, p.scrapPct + p.reworkPct + p.holdPct) == {};
    }
  }

  lemma CountIsShare(quantity: int, pct: int)
    ensures Share(CountByPct(quantity, pct), Max(quantity, 0), pct)
  {
    if quantity > 0 && pct > 0 {
      assert quantity * pct >= 0;
    }
  }

  /** Every unit is judged by its own roll, or the batch by its rates where nothing is rolled. */
  lemma SplitFollowsRates(quantity: int, p: Profile, random: Random, from: nat)
    requires p.scrapPct >= 0 && p.reworkPct >= 0 && p.holdPct >= 0
    ensures SplitByRates(FinishedSplit(quantity, p, random, from), quantity, p, random, from)
  {
    if random.Random? {
      RollsDecide(quantity, p, random.rolls, from);
    } else {
      var scrap := CountByPct(quantity, p.scrapPct);
      CountIsShare(quantity, p.scrapPct);
      CountIsShare(Max(quantity - scrap, 0), p.reworkPct);
      CountIsShare(Max(quantity - scrap - CountByPct(Max(quantity - scrap, 0), p.reworkPct), 0), p.holdPct);
    }
  }

  ghost predicate Percentage(rate: int) { 0 <= rate <= 100 }

  /** The percentage nearest to a rate: the rate itself, or the end of the range it lies beyond. */
  ghost predicate NearestPct(normal: int, rate: int) {
    && Percentage(normal)
    && (Percentage(rate) ==> normal == rate)
    && (rate < 0 ==> normal == 0)
    && (rate > 100 ==> normal == 100)
  }

  /**
   What normalizing does to a profile: rates become percentages, only the hold rate is cut, by the excess over one
   hundred and at most to nothing, and delays are not negative.
   */
  lemma NormalizedRates(p: Profile)
    ensures var n := Normalized(p);
            && NearestPct(n.scrapPct, p.scrapPct) && NearestPct(n.reworkPct, p.reworkPct) && NearestPct(n.returnPct, p.returnPct)
            && (exists hold :: NearestPct(hold, p.holdPct) && n.holdPct <= hold
                  && (n.scrapPct + n.reworkPct + hold <= 100 ==> n.holdPct == hold)
                  && (n.scrapPct + n.reworkPct + hold > 100 ==>
                        n.holdPct >= 0 && (n.holdPct == 0 || n.scrapPct + n.reworkPct + n.holdPct == 100)
                        && n.scrapPct + n.reworkPct + n.holdPct == Max(100, n.scrapPct + n.reworkPct)))
            && n.holdRounds == Max(p.holdRounds, 0) && n.returnDelay == Max(p.returnDelay, 0)
  {
    assert NearestPct(ClampPct(p.holdPct), p.holdPct);
  }

  /** The rolling loop of `resolveFinishedQuality`, then the override for a missing random source. */
  method ResolveFinishedQuality(quantity: int, p: Profile, random: Random, from: nat)
    returns (split: Split, next: nat)
    ensures split == FinishedSplit(quantity, p, random, from)
    ensures next == Drawn(random, from, quantity)
    ensures p.scrapPct >= 0 && p.reworkPct >= 0 && p.holdPct >= 0 ==> SplitByRates(split, quantity, p, random, from)
    ensures next == from + (if random.Random? then Max(quantity, 0) else 0)
  {
    if p.scrapPct >= 0 && p.reworkPct >= 0 && p.holdPct >= 0 {
      SplitFollowsRates(quantity, p, random, from);
    }
    var scrap, rework, hold := 0, 0, 0;
    next := from;
    var unit := 0;
    while unit < quantity
      invariant 0 <= unit <= Max(quantity, 0)
      invariant next == Drawn(random, from, unit)
      invariant random.Random? ==> Split(scrap, rework, hold) == RollSplit(unit, p, random.rolls, from)
    {
      var roll := 100;
      if random.Random? {
        roll := random.rolls(next);
        next := next + 1;
      }
      if roll < p.scrapPct {
        scrap := scrap + 1;
      } else if roll < p.scrapPct + p.reworkPct {
        rework := rework + 1;
      } else if roll < p.scrapPct + p.reworkPct + p.holdPct {
        hold := hold + 1;
      }
      unit := unit + 1;
    }
    if random.NoRandom? {
      scrap := CountByPct(quantity, p.scrapPct);
      rework := CountByPct(Max(quantity - scrap, 0), p.reworkPct);
      hold := CountByPct(Max(quantity - scrap - rework, 0), p.holdPct);
    }
    split := Split(scrap, rework, hold);
  }

  function Drawn(random: Random, from: nat, quantity: int): nat {
    if random.Random? then from + Max(quantity, 0) else from
  }

  lemma CountByPctBound(quantity: int, pct: int)
    requires quantity >= 0 && pct <= 100
    ensures 0 <= CountByPct(quantity, pct) <= quantity
  {
    if quantity > 0 && pct > 0 {
      assert quantity * pct <= quantity * 100;
      assert quantity * pct >= 0;
    }
  }

  lemma {:induction false} RollSplitBounds(quantity: int, p: Profile, rolls: nat -> int, from: nat)
    requires quantity >= 0
    ensures var s := RollSplit(quantity, p, rolls, from);
            s.scrap >= 0 && s.rework >= 0 && s.hold >= 0 && s.scrap + s.rework + s.hold <= quantity
    decreases quantity
  {
    if quantity > 0 {
      RollSplitBounds(quantity - 1, p, rolls, from);
    }
  }

  /**
   Every unit of a finished batch goes to exactly one of scrap, rework, hold and good, for any stream of
   rolls and for none, even where the normalized rates still add up to more than 100.
   */
  lemma SplitConserves(quantity: int, profile: Profile, random: Random, from: nat)
    requires quantity >= 0
    ensures var s := FinishedSplit(quantity, Normalized(profile), random, from);
            && s.scrap >= 0 && s.rework >= 0 && s.hold >= 0 && s.Good(quantity) >= 0
            && s.scrap + s.rework + s.hold + s.Good(quantity) == quantity
  {
    var p := Normalized(profile);
    if random.Random? {
      RollSplitBounds(quantity, p, random.rolls, from);
    } else {
      var s := CountedSplit(quantity, p);
      CountByPctBound(quantity, p.scrapPct);
      CountByPctBound(Max(quantity - s.scrap, 0), p.reworkPct);
      CountByPctBound(Max(quantity - s.scrap - s.rework, 0), p.holdPct);
    }
  }

  lemma RatesMayExceedHundred()
    ensures var p := Normalized(Profile(80, 80, 50, 0, 0, 0)); p.scrapPct + p.reworkPct + p.holdPct == 160
  {
  }

  // ---------------------------------------------------------------- customer returns

  function CountReturns(quantity: int, pct: int, rolls: nat -> int, from: nat): int {
    if quantity <= 0 then 0
    else CountReturns(quantity - 1, pct, rolls, from) + (if rolls(from + quantity - 1) < pct then 1 else 0)
  }

  function ReturnQuantity(quantity: int, pct: int, random: Random, from: nat): int {
    if pct <= 0 || quantity <= 0 then 0
    else
      match random
      case NoRandom => CountByPct(quantity, pct)
      case Random(rolls) => CountReturns(quantity, pct, rolls, from)
  }

  /** The units of a shipment that come back: those whose own roll is below the return rate, or the rate's share. */
  ghost predicate ReturnedByRate(returned: int, quantity: int, pct: int, random: Random, from: nat) {
    match random
    case Random(rolls) => returned == |Below(quantity, rolls, from, pct)|
    case NoRandom => Share(returned, Max(quantity, 0), pct)
  }

  lemma {:induction false} RollsReturn(quantity: int, pct: int, rolls: nat -> int, from: nat)
    ensures CountReturns(quantity, pct, rolls, from) == |Below(quantity, rolls, from, pct)|
    decreases quantity
  {
    if quantity > 0 {
      RollsReturn(quantity - 1, pct, rolls, from);
      BelowGrows(quantity, rolls, from, pct);
    } else {
      assert Below(quantity, rolls, from, pct) == {};
    }
  }

  /** A rate of zero rolls nothing and returns nothing, whatever the rolls would have been. */
  lemma ReturnsFollowRate(quantity: int, pct: int, random: Random, from: nat)
    ensures pct > 0 ==> ReturnedByRate(ReturnQuantity(quantity, pct, random, from), quantity, pct, random, from)
    ensures pct <= 0 ==> ReturnQuantity(quantity, pct, random, from) == 0
  {
    if pct > 0 {
      if random.Random? {
        RollsReturn(quantity, pct, random.rolls, from);
        assert quantity <= 0 ==> Below(quantity, random.rolls, from, pct) == {};
      } else {
        CountIsShare(quantity, pct);
      }
    }
  }

  function DrawnForReturns(random: Random, from: nat, quantity: int, pct: int): nat {
    if pct <= 0 || quantity <= 0 then from else Drawn(random, from, quantity)
  }

  method ResolveReturnQuantity(quantity: int, pct: int, random: Random, from: nat)
    returns (returned: int, next: nat)
    ensures returned == ReturnQuantity(quantity, pct, random, from)
    ensures next == DrawnForReturns(random, from, quantity, pct)
    ensures if pct > 0 then ReturnedByRate(returned, quantity, pct, random, from) else returned == 0
    ensures next == from + (if random.Random? && pct > 0 then Max(quantity, 0) else 0)
  {
    ReturnsFollowRate(quantity, pct, random, from);
    next := from;
    if pct <= 0 || quantity <= 0 { return 0, next; }
    if random.NoRandom? { return CountByPct(quantity, pct), next; }
    returned := 0;
    for unit := 0 to quantity
      invariant next == from + unit
      invariant returned == CountReturns(unit, pct, random.rolls, from)
    {
      if random.rolls(next) < pct {
        returned := returned + 1;
      }
      next := next + 1;
    }
  }

  lemma {:induction false} ReturnsBounded(quantity: int, profile: Profile, random: Random, from: nat)
    requires quantity >= 0
    ensures 0 <= ReturnQuantity(quantity, Normalized(profile).returnPct, random, from) <= quantity
  {
    var pct := Normalized(profile).returnPct;
    if random.Random? {
      CountReturnsBounded(quantity, pct, random.rolls, from);
    } else {
      CountByPctBound(quantity, pct);
    }
  }

  lemma {:induction false} CountReturnsBounded(quantity: int, pct: int, rolls: nat -> int, from: nat)
    requires quantity >= 0
    ensures 0 <= CountReturns(quantity, pct, rolls, from) <= quantity
    decreases quantity
  {
    if quantity > 0 {
      CountReturnsBounded(quantity - 1, pct, rolls, from);
    }
  }
}
