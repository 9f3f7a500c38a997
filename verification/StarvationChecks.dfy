/** The depletion check of a village: when it fires, what it does, and that it gets there. */
module StarvationChecks {
  import opened Economy
  import opened Armies
  import opened Options
  import opened Starvation

  // ------------------------------------------------------------------ the artifact factor

  /** Round half away from zero, of a non-negative number. */
  function Round(x: real): int { (x + 0.5).Floor }

  /** A village as the handler reads it: its roster, the hourly crop before troops, the artifact
      factor on upkeep, and its storage and other rates. */
  datatype Rules = Rules(roster: seq<UnitSpec>, crop: int, factor: real, rates: Rates, caps: Capacities)

  /** What the garrison eats an hour, artifacts included. */
  function Upkeep(r: Rules, garrison: UnitCounts): int {
    Round(GarrisonUpkeep(garrison, r.roster) as real * r.factor)
  }

  function NetCrop(r: Rules, garrison: UnitCounts): int { r.crop - Upkeep(r, garrison) }

  function ProductionOf(r: Rules, garrison: UnitCounts): Production {
    Production(r.rates.(cropNet := NetCrop(r, garrison)), r.caps)
  }

  /** With a factor of at most one, the cull leaves a village that feeds its troops, or one where
      nobody eats. */
  lemma CulledVillagesAreSustainable(r: Rules, garrison: UnitCounts)
    requires InU32(garrison) && 0.0 <= r.factor <= 1.0
    ensures var survivors := Spared(garrison, r.roster, NetCrop(r, garrison) + Upkeep(r, garrison));
            NetCrop(r, survivors) >= 0 || GarrisonUpkeep(survivors, r.roster) == 0
  {
    TheCullIsSufficient(garrison, r.roster, r.crop, "");
    var survivors := Spared(garrison, r.roster, r.crop);
    if GarrisonUpkeep(survivors, r.roster) <= r.crop {
      WhoEatsWithinTheCropIsFed(r, survivors);
    }
  }

  lemma WhoEatsWithinTheCropIsFed(r: Rules, c: UnitCounts)
    requires 0.0 <= r.factor <= 1.0 && GarrisonUpkeep(c, r.roster) <= r.crop
    ensures NetCrop(r, c) >= 0
  {
    RoundOfAPart(GarrisonUpkeep(c, r.roster), r.factor);
  }

  lemma RoundOfAPart(n: nat, factor: real)
    requires 0.0 <= factor <= 1.0
    ensures Round(n as real * factor) <= n
  {
    assert n as real * factor <= n as real;
  }

  /** The village after the cull feeds its troops, or nobody in it eats. */
  predicate Sustained(r: Rules, garrison: UnitCounts) {
    var survivors := Spared(garrison, r.roster, NetCrop(r, garrison) + Upkeep(r, garrison));
    NetCrop(r, survivors) >= 0 || GarrisonUpkeep(survivors, r.roster) == 0
  }

  /** Two units of one type, over a crop that feeds one of them by its raw upkeep. */
  function TwoOfAKind(unit: UnitId, upkeep: nat, factor: real): Rules {
    Rules([UnitSpec(unit, Infantry, upkeep)], upkeep, factor, Rates(0, 0, 0, 0), Capacities(0, 0))
  }

  /** The cull counts raw upkeep, so with a factor that adds half a crop to one unit's upkeep the one it
      leaves still starves. */
  lemma AFactorAboveOneUndercuts(unit: UnitId, upkeep: nat, factor: real)
    requires upkeep > 0 && upkeep as real * (factor - 1.0) >= 0.5
    ensures !Sustained(TwoOfAKind(unit, upkeep, factor), [(unit, 2)])
  {
    var r := TwoOfAKind(unit, upkeep, factor);
    var c, one := [(unit, 2)], [(unit, 1)];
    OneTypeEats(unit, upkeep, 2);
    OneTypeEats(unit, upkeep, 1);
    assert KillOrder(c, r.roster) == c by {
      assert c[1..] == [] && KillOrder([], r.roster) == [];
    }
    AQuotientOfItself(upkeep);
    assert Killed(2, upkeep, upkeep) == 1;
    assert Bulk(c, r.roster, upkeep) == one by {
      assert c[1..] == [] && Bulk([], r.roster, 0) == [];
    }
    assert Alive(one) == one by {
      assert one[1..] == [] && Alive([]) == [];
    }
    assert Spared(c, r.roster, upkeep) == one;
    assert upkeep as real * factor == upkeep as real * (factor - 1.0) + upkeep as real;
  }

  lemma AQuotientOfItself(n: nat)
    requires n > 0
    ensures n / n == 1 && n % n == 0
  {
  }

  lemma OneTypeEats(unit: UnitId, upkeep: nat, n: nat)
    ensures GarrisonUpkeep([(unit, n)], [UnitSpec(unit, Infantry, upkeep)]) == upkeep * n
  {
    assert [(unit, n)][1..] == [];
    assert GarrisonUpkeep([], [UnitSpec(unit, Infantry, upkeep)]) == 0;
  }

  /** Every culled village is sustained, whatever its crop, roster and garrison, if and only if the
      artifact factor is at most one. */
  lemma CullsSustainIffTheFactorIsAtMostOne(factor: real, unit: UnitId)
    requires 0.0 <= factor
    ensures (forall r: Rules, garrison: UnitCounts :: r.factor == factor && InU32(garrison) ==> Sustained(r, garrison))
       <==> factor <= 1.0
  {
    if factor <= 1.0 {
      forall r: Rules, garrison: UnitCounts | r.factor == factor && InU32(garrison) ensures Sustained(r, garrison) {
        CulledVillagesAreSustainable(r, garrison);
      }
    } else {
      var upkeep := UpkeepThatShows(factor);
      AFactorAboveOneUndercuts(unit, upkeep, factor);
      assert TwoOfAKind(unit, upkeep, factor).factor == factor && InU32([(unit, 2)]);
    }
  }

  /** An upkeep large enough for the factor to show after rounding. */
  lemma UpkeepThatShows(factor: real) returns (upkeep: nat)
    requires factor > 1.0
    ensures upkeep > 0 && upkeep as real * (factor - 1.0) >= 0.5
  {
    var excess := factor - 1.0;
    var needed := 0.5 / excess;
    upkeep := needed.Floor + 1;
    assert upkeep as real >= needed;
    assert needed * excess == 0.5;
    assert (upkeep as real - needed) * excess >= 0.0;
  }

  // ------------------------------------------------------------------ when the store is dry

  /** Seconds until the store empties at this rate; absent unless the rate is negative. */
  function DepletionSecs(crop: int, net: int): (r: Option<nat>)
    ensures r.Some? <==> net < 0
    ensures r.Some? && crop > 0 ==> r.value > 0
  {
    if net >= 0 then None
    else
      var scaled := Saturate(Max(0, crop) * 3600);
      Some(scaled / -net + if scaled % -net != 0 then 1 else 0)
  }

  /** The crop a check at `now` sees. */
  function CropAt(stored: int, at: int, net: int, cap: nat, now: int): int {
    Accrue(stored, net, ElapsedSecs(at, now), cap)
  }

  /** When the check is due again. */
  function NextDue(stored: int, at: int, net: int, cap: nat, now: int): int
    requires net < 0
  {
    now + DepletionSecs(CropAt(stored, at, net, cap, now), net).value * 1000
  }

  /** Crop eaten since the last settle. */
  function Eaten(at: int, net: int, now: int): nat
    requires net < 0
  {
    var eats := ElapsedSecs(at, now) * -net;
    assert eats >= 0;
    eats / 3600
  }

  /** Uncapped, what would be left. */
  function Left(stored: int, at: int, net: int, now: int): int
    requires net < 0
  {
    stored - Eaten(at, net, now)
  }

  lemma MulComm(a: int, b: int)
    ensures a * b == b * a && (-a) * b == -(a * b)
  {
  }

  /** A store within the 64-bit range of the arithmetic shows what is left, capped. */
  lemma CropIsWhatIsLeft(stored: int, at: int, net: int, cap: nat, now: int)
    requires net < 0 && 0 <= stored && stored * 3600 <= I64_MAX
    ensures CropAt(stored, at, net, cap, now) == Max(0, Min(Left(stored, at, net, now), cap))
  {
    var secs := ElapsedSecs(at, now);
    var eats := secs * -net;
    assert eats >= 0;
    MulComm(-net, secs);
    assert net * secs == -eats;
    EatenIsAtLeast(eats, stored);
  }

  lemma EatenIsAtLeast(eats: int, stored: int)
    requires 0 <= eats && 0 <= stored && stored * 3600 <= I64_MAX
    ensures TruncDiv(-eats, 3600) == -(eats / 3600)
    ensures -eats < I64_MIN ==> stored + TruncDiv(I64_MIN, 3600) <= 0 && stored - eats / 3600 <= 0
    ensures stored - eats / 3600 < I64_MIN ==> Saturate(stored - eats / 3600) < 0
  {
  }

  lemma SecsAdvance(at: int, now: int, later: int, secs: nat)
    requires now + secs * 1000 <= later
    ensures ElapsedSecs(at, later) >= ElapsedSecs(at, now)
    ensures at <= now ==> ElapsedSecs(at, later) >= ElapsedSecs(at, now) + secs
    ensures now < at ==> ElapsedSecs(at, now) == 0
  {
  }

  lemma Eats(secs: nat, more: nat, rate: nat, crop: nat)
    requires rate > 0 && more * rate >= crop * 3600
    ensures (secs + more) * rate / 3600 >= secs * rate / 3600 + crop
  {
    assert (secs + more) * rate == secs * rate + more * rate;
  }

  lemma EatsMore(secs: nat, later: nat, rate: nat)
    requires secs <= later
    ensures secs * rate / 3600 <= later * rate / 3600
  {
    assert later * rate == secs * rate + (later - secs) * rate;
  }

  lemma CeilCovers(scaled: nat, rate: nat)
    requires rate > 0
    ensures (scaled / rate + if scaled % rate != 0 then 1 else 0) * rate >= scaled
  {
    var q := scaled / rate;
    assert scaled == q * rate + scaled % rate;
    assert (q + 1) * rate == q * rate + rate;
  }

  /** Rounded up, a quotient is the least number that many times covers. */
  lemma CeilIsLeast(scaled: nat, rate: nat)
    requires rate > 0
    ensures var n := scaled / rate + if scaled % rate != 0 then 1 else 0;
            n * rate >= scaled && (n > 0 ==> (n - 1) * rate < scaled)
  {
    var q := scaled / rate;
    assert scaled == q * rate + scaled % rate;
    assert (q + 1) * rate == q * rate + rate && q * rate == (q - 1) * rate + rate;
  }

  /** A check comes back after the least number of whole seconds in which all the crop it saw is eaten at
      the hourly rate. */
  lemma TheCheckComesBackWhenTheCropIsGone(stored: int, at: int, net: int, cap: nat, now: int)
    requires net < 0 && 0 <= stored && stored * 3600 <= I64_MAX
    ensures var crop := CropAt(stored, at, net, cap, now);
            exists secs: nat :: NextDue(stored, at, net, cap, now) == now + secs * 1000
              && secs * -net >= crop * 3600 && (secs > 0 ==> (secs - 1) * -net < crop * 3600)
  {
    var crop := CropAt(stored, at, net, cap, now);
    CropIsWhatIsLeft(stored, at, net, cap, now);
    assert 0 <= crop * 3600 <= I64_MAX by { assert 0 <= crop <= stored; }
    CeilIsLeast(crop * 3600, -net);
    var secs := DepletionSecs(crop, net).value;
    assert NextDue(stored, at, net, cap, now) == now + secs * 1000;
  }

  /** By the next due instant (or any later one) everything this check saw has been eaten. */
  lemma WhatWasSeenIsEaten(stored: int, at: int, net: int, cap: nat, now: int, later: int)
    requires net < 0 && 0 <= stored && stored * 3600 <= I64_MAX && at <= now
    requires NextDue(stored, at, net, cap, now) <= later
    ensures Left(stored, at, net, later) <= Left(stored, at, net, now) - CropAt(stored, at, net, cap, now)
  {
    var crop := CropAt(stored, at, net, cap, now);
    CropIsWhatIsLeft(stored, at, net, cap, now);
    assert 0 <= crop * 3600 <= I64_MAX;
    var more := DepletionSecs(crop, net).value;
    assert crop * 3600 >= 0;
    CeilCovers(crop * 3600, -net);
    SecsAdvance(at, now, later, more);
    var secs := ElapsedSecs(at, now);
    Eats(secs, more, -net, crop);
    EatsMore(secs + more, ElapsedSecs(at, later), -net);
  }

  /** Firing instants of a check nothing disturbs: each no earlier than the one before made due. */
  predicate Refires(stored: int, at: int, net: int, cap: nat, fires: seq<int>)
    requires net < 0
  {
    |fires| > 1 ==> NextDue(stored, at, net, cap, fires[0]) <= fires[1] && Refires(stored, at, net, cap, fires[1..])
  }

  /** A check that finds crop is put off, strictly. */
  lemma ANotYetEmptyCheckMovesLater(stored: int, at: int, net: int, cap: nat, now: int)
    requires net < 0 && CropAt(stored, at, net, cap, now) > 0
    ensures NextDue(stored, at, net, cap, now) >= now + 1000
  {
  }

  /** If nothing else settles the village, its check finds the store dry at its first re-fire if the
      store was within its cap, and in any case after `stored / cap` of them, rounded up. */
  lemma {:induction false} TheCheckReachesTheDryState(stored: int, at: int, net: int, cap: nat, fires: seq<int>, seen: nat)
    requires net < 0 && 0 <= stored && stored * 3600 <= I64_MAX
    requires fires != [] && at <= fires[0] && Refires(stored, at, net, cap, fires)
    requires Left(stored, at, net, fires[0]) <= seen
    requires seen <= (|fires| - 1) * cap
    ensures CropAt(stored, at, net, cap, fires[|fires| - 1]) == 0
    decreases |fires|
  {
    var now := fires[0];
    CropIsWhatIsLeft(stored, at, net, cap, now);
    if |fires| == 1 {
      assert 0 * cap == 0;
    } else {
      WhatWasSeenIsEaten(stored, at, net, cap, now, fires[1]);
      OneCapLess(seen, |fires| - 1, cap);
      assert fires[1..][|fires| - 2] == fires[|fires| - 1];
      TheCheckReachesTheDryState(stored, at, net, cap, fires[1..], Max(0, seen - cap));
    }
  }

  lemma OneCapLess(seen: nat, n: nat, cap: nat)
    requires n > 0 && seen <= n * cap
    ensures Max(0, seen - cap) <= (n - 1) * cap
  {
    assert n * cap == (n - 1) * cap + cap;
    assert (n - 1) * cap >= 0;
  }

  lemma DryAtTheFirstRefireWithinCap(stored: int, at: int, net: int, cap: nat, now: int, later: int)
    requires net < 0 && 0 <= stored <= cap && stored * 3600 <= I64_MAX && at <= now
    requires NextDue(stored, at, net, cap, now) <= later
    ensures CropAt(stored, at, net, cap, later) == 0
  {
    var fires := [now, later];
    assert fires[1..] == [later];
    assert Refires(stored, at, net, cap, fires);
    TheCheckReachesTheDryState(stored, at, net, cap, fires, stored);
  }

  lemma EatsOneMoreAtMost(secs: nat, more: nat, rate: nat, crop: int)
    requires more * rate < crop * 3600
    ensures (secs + more) * rate / 3600 <= secs * rate / 3600 + crop
  {
    assert (secs + more) * rate == secs * rate + more * rate;
  }

  lemma TruncationAddsASecondAtMost(at: int, now: int, later: int)
    requires at <= now <= later
    ensures 0 <= ElapsedSecs(at, later) - ElapsedSecs(at, now) <= (later - now) / 1000 + 1
  {
  }

  /** How early a store can be dry: not before the crop seen, but for its last unit, could be eaten by
      one second less than the time that has passed. */
  lemma NotDryBeforeTheLastOfTheCrop(stored: int, at: int, net: int, cap: nat, now: int, later: int)
    requires net < 0 && 0 <= stored && stored * 3600 <= I64_MAX && at <= now <= later
    requires ((later - now) / 1000 + 1) * -net < (CropAt(stored, at, net, cap, now) - 1) * 3600
    ensures CropAt(stored, at, net, cap, later) > 0
  {
    var crop := CropAt(stored, at, net, cap, now);
    var secs, more := ElapsedSecs(at, now), ElapsedSecs(at, later) - ElapsedSecs(at, now);
    TruncationAddsASecondAtMost(at, now, later);
    TimesAtMost(more, (later - now) / 1000 + 1, -net);
    EatsOneMoreAtMost(secs, more, -net, crop - 1);
    CropIsWhatIsLeft(stored, at, net, cap, now);
    CropIsWhatIsLeft(stored, at, net, cap, later);
    assert 0 <= secs * -net && crop > 1;
  }

  lemma TimesAtMost(a: int, b: int, c: nat)
    requires a <= b
    ensures a * c <= b * c
  {
    assert (b - a) * c >= 0;
  }

  // ------------------------------------------------------------------ the handler

  datatype Check = NoCheck | Pending(due: int) | Claimed | Finished

  datatype Village = Village(garrison: UnitCounts, stored: Amounts, at: int, check: Check)

  /** One village, its depletion check, and the two use-cases that touch them. */
  class Handler {
    var garrison: UnitCounts
    var stored: Amounts
    var at: int
    var check: Check
    const rules: Rules

    constructor (v: Village, r: Rules)
      ensures State() == v && rules == r
    {
      garrison, stored, at, check, rules := v.garrison, v.stored, v.at, v.check, r;
    }

    function State(): Village
      reads this
    {
      Village(garrison, stored, at, check)
    }

    /** `sync_starvation_check`: no check without troops or at a non-negative net; else one for when all
        the crop seen is eaten, at the latest. */
    method Sync(now: int)
      modifies this`check
      ensures check == if garrison != [] && NetCrop(rules, garrison) < 0
                       then Pending(NextDue(stored.crop, at, NetCrop(rules, garrison), rules.caps.granary, now))
                       else NoCheck
    {
      check := NoCheck;
      if garrison != [] {
        var p := ProductionOf(rules, garrison);
        var seen := Settle(stored, ElapsedSecs(at, now), p);
        var secs := DepletionSecs(seen.crop, p.rates.cropNet);
        if secs.Some? {
          check := Pending(now + secs.value * 1000);
        }
      }
    }

    /** `starve_village` on a claimed check, from what it has read. A cull happens only if troops were
        read at a negative net with the store empty, and the row has not been settled since; it replaces
        the garrison by the survivors of the one read, and leaves of each resource what the village has
        at this instant. A check that finds crop comes back, strictly later, when that crop is gone; a
        cull refused because someone settled in between is retried at once. */
    method StarveVillage(now: int, seen: Village) returns (culled: bool)
      requires check == Claimed && InU32(seen.garrison)
      modifies this
      ensures var net := NetCrop(rules, seen.garrison);
              var crop := CropAt(seen.stored.crop, seen.at, net, rules.caps.granary, now);
              var due := seen.garrison != [] && net < 0 && crop == 0;
              && (culled <==> due && old(at) == seen.at)
              && (culled ==> garrison == Spared(seen.garrison, rules.roster, rules.crop) && at == now
                             && stored.crop == 0 && check == Finished)
              && (culled && Ordinary(seen.stored, rules.caps) ==>
                    SettledAs(seen.stored, ElapsedSecs(seen.at, now), Production(rules.rates.(cropNet := net), rules.caps),
                              stored))
              && (!culled ==> garrison == old(garrison) && stored == old(stored) && at == old(at))
              && (seen.garrison == [] || net >= 0 ==> check == Finished)
              && (seen.garrison != [] && net < 0 && crop > 0 ==>
                    check == Pending(NextDue(seen.stored.crop, seen.at, net, rules.caps.granary, now))
                    && check.due >= now + 1000)
              && (due && !culled ==> check == Pending(now))
    {
      culled := false;
      if seen.garrison == [] {
        check := Finished;
        return;
      }
      var upkeep := Upkeep(rules, seen.garrison);
      var p := ProductionOf(rules, seen.garrison);
      var settled := Settle(seen.stored, ElapsedSecs(seen.at, now), p);
      if Ordinary(seen.stored, rules.caps) { SettleAccruesEachAtItsRate(seen.stored, ElapsedSecs(seen.at, now), p); }
      var net := p.rates.cropNet;
      if net >= 0 {
        check := Finished;
        return;
      }
      if settled.crop > 0 {
        ANotYetEmptyCheckMovesLater(seen.stored.crop, seen.at, net, rules.caps.granary, now);
        var secs := DepletionSecs(settled.crop, net);
        check := Pending(now + secs.value * 1000);
        return;
      }
      var survivors, casualties := Starve(seen.garrison, rules.roster, net + upkeep);
      if at != seen.at {
        check := Pending(now);
        return;
      }
      garrison, stored, at, check := survivors, settled, now, Finished;
      culled := true;
    }
  }
}
