/** What a raiding army carries off: a proportional split whose rounding is repaired unit by unit. */
module Loot {
  import opened Economy
  import opened Armies

  /** Above this many repairs the server gives up. */
  const REPAIRS: nat := 256

  type Four = s: seq<int> | |s| == 4 witness [0, 0, 0, 0]

  function Sum4(s: Four): int { s[0] + s[1] + s[2] + s[3] }

  function AsFour(a: Amounts): Four { [a.wood, a.clay, a.iron, a.crop] }

  function AsAmounts(s: Four): Amounts { Amounts(s[0], s[1], s[2], s[3]) }

  /** The part of each resource the Cranny does not hide. */
  function Lootable(stored: Amounts, protection: Amounts): (r: Four)
    ensures forall i :: 0 <= i < 4 ==> r[i] >= 0
  {
    [Max(0, stored.wood - protection.wood), Max(0, stored.clay - protection.clay),
     Max(0, stored.iron - protection.iron), Max(0, stored.crop - protection.crop)]
  }

  /** Each resource's exact share of `total`. */
  function Share(l: int, total: int, all: int): real
    requires all > 0
  {
    l as real * total as real / all as real
  }

  predicate Within(loot: Four, lootable: Four) {
    forall i :: 0 <= i < 4 ==> 0 <= loot[i] <= lootable[i]
  }

  /** The indices by lootable amount, largest first, ties by index. */
  predicate Before(lootable: Four, i: nat, j: nat)
    requires i < 4 && j < 4
  {
    lootable[i] > lootable[j] || (lootable[i] == lootable[j] && i < j)
  }

  /** The four indices, largest lootable amount first. */
  predicate IsOrder(order: seq<nat>, lootable: Four) {
    && |order| == 4
    && order[0] < 4 && order[1] < 4 && order[2] < 4 && order[3] < 4
    && Before(lootable, order[0], order[1])
    && Before(lootable, order[1], order[2])
    && Before(lootable, order[2], order[3])
  }

  /** Insert an index into a sorted list of indices. */
  method Insert(lootable: Four, i: nat, order: seq<nat>) returns (longer: seq<nat>)
    requires i < 4 && Sorted(order, lootable) && i !in order
    ensures Sorted(longer, lootable) && |longer| == |order| + 1
    ensures forall x :: x in longer <==> x == i || x in order
  {
    var k := 0;
    while k < |order| && Before(lootable, order[k], i)
      invariant 0 <= k <= |order|
      invariant forall j :: 0 <= j < k ==> Before(lootable, order[j], i)
    {
      k := k + 1;
    }
    longer := order[..k] + [i] + order[k..];
    assert order == order[..k] + order[k..];
  }

  ghost predicate Sorted(order: seq<nat>, lootable: Four) {
    && (forall k :: 0 <= k < |order| ==> order[k] < 4)
    && (forall j, k :: 0 <= j < k < |order| ==> Before(lootable, order[j], order[k]))
  }

  /** The stable sort of the four indices. */
  method Order(lootable: Four) returns (order: seq<nat>)
    ensures IsOrder(order, lootable)
  {
    order := [];
    for i := 0 to 4
      invariant Sorted(order, lootable) && |order| == i
      invariant forall x :: x in order ==> x < i
    {
      order := Insert(lootable, i, order);
    }
  }

  // ------------------------------------------------------------------ rounding

  lemma ShareIsWithin(l: int, total: int, all: int)
    requires 0 <= l && 0 <= total <= all && all > 0
    ensures 0.0 <= Share(l, total, all) <= l as real
  {
    var t, a := total as real, all as real;
    assert l as real * t <= l as real * a;
    assert l as real * t / a <= l as real;
  }

  lemma RoundedShareIsWithin(l: int, total: int, all: int)
    requires 0 <= l && 0 <= total <= all && all > 0
    ensures 0 <= RoundTiesEven(Share(l, total, all)) <= l
  {
    ShareIsWithin(l, total, all);
    RoundsToNearest(Share(l, total, all));
  }

  lemma SharesAddUp(l: Four, total: int)
    requires Sum4(l) > 0
    ensures Share(l[0], total, Sum4(l)) + Share(l[1], total, Sum4(l)) + Share(l[2], total, Sum4(l))
          + Share(l[3], total, Sum4(l)) == total as real
  {
    var t, a := total as real, Sum4(l) as real;
    var sum := l[0] as real * t + l[1] as real * t + l[2] as real * t + l[3] as real * t;
    assert sum == a * t;
    assert l[0] as real * t / a + l[1] as real * t / a + l[2] as real * t / a + l[3] as real * t / a == sum / a;
    assert a * t / a == t;
  }

  function Rounded(l: Four, total: int): Four
    requires Sum4(l) > 0
  {
    [RoundTiesEven(Share(l[0], total, Sum4(l))), RoundTiesEven(Share(l[1], total, Sum4(l))),
     RoundTiesEven(Share(l[2], total, Sum4(l))), RoundTiesEven(Share(l[3], total, Sum4(l)))]
  }

  /** Rounding the four shares misses the total by at most two. */
  lemma RoundingMissesByAtMostTwo(l: Four, total: int)
    requires Within([0, 0, 0, 0], l) && 0 <= total <= Sum4(l) && Sum4(l) > 0
    ensures Within(Rounded(l, total), l)
    ensures -2 <= total - Sum4(Rounded(l, total)) <= 2
  {
    SharesAddUp(l, total);
    forall i | 0 <= i < 4 ensures 0 <= Rounded(l, total)[i] <= l[i] {
      RoundedShareIsWithin(l[i], total, Sum4(l));
    }
    RoundsToNearest(Share(l[0], total, Sum4(l)));
    RoundsToNearest(Share(l[1], total, Sum4(l)));
    RoundsToNearest(Share(l[2], total, Sum4(l)));
    RoundsToNearest(Share(l[3], total, Sum4(l)));
  }

  // ------------------------------------------------------------------ the repair

  predicate CanMove(loot: Four, lootable: Four, step: int, i: nat)
    requires i < 4
  {
    0 <= loot[i] + step <= lootable[i]
  }

  lemma SomeIndexCanMove(loot: Four, lootable: Four, total: int) returns (i: nat)
    requires Within(loot, lootable) && 0 <= total < Sum4(lootable) && Sum4(loot) != total
    ensures i < 4 && CanMove(loot, lootable, Direction(total - Sum4(loot)), i)
  {
    var step := Direction(total - Sum4(loot));
    i := if CanMove(loot, lootable, step, 0) then 0
         else if CanMove(loot, lootable, step, 1) then 1
         else if CanMove(loot, lootable, step, 2) then 2
         else 3;
  }

  function Direction(diff: int): int { if diff > 0 then 1 else -1 }

  lemma EveryIndexIsRanked(order: seq<nat>, lootable: Four, i: nat)
    requires IsOrder(order, lootable) && i < 4
    ensures i == order[0] || i == order[1] || i == order[2] || i == order[3]
  {
  }

  /** The last `tried` tries, ending before position `at` of the round robin, could not be moved. */
  predicate Stuck(loot: Four, lootable: Four, step: int, order: seq<nat>, at: nat, tried: nat)
    requires IsOrder(order, lootable)
  {
    && (tried >= 1 ==> !CanMove(loot, lootable, step, order[(at + 3) % 4]))
    && (tried >= 2 ==> !CanMove(loot, lootable, step, order[(at + 2) % 4]))
    && (tried >= 3 ==> !CanMove(loot, lootable, step, order[(at + 1) % 4]))
    && (tried >= 4 ==> !CanMove(loot, lootable, step, order[at % 4]))
  }

  lemma NotStuckForever(loot: Four, lootable: Four, total: int, order: seq<nat>, at: nat, tried: nat)
    requires Within(loot, lootable) && 0 <= total < Sum4(lootable) && Sum4(loot) != total
    requires IsOrder(order, lootable)
    requires Stuck(loot, lootable, Direction(total - Sum4(loot)), order, at, tried)
    ensures tried < 4
  {
    var i := SomeIndexCanMove(loot, lootable, total);
    EveryIndexIsRanked(order, lootable, i);
    var r := at % 4;
    assert (at + 1) % 4 == (r + 1) % 4 && (at + 2) % 4 == (r + 2) % 4 && (at + 3) % 4 == (r + 3) % 4;
  }

  function Distance(a: int, b: int): nat { if a >= b then a - b else b - a }

  predicate Near(a: Four, b: Four, d: nat) {
    forall i :: 0 <= i < 4 ==> Distance(a[i], b[i]) <= d
  }

  /** One try: move one unit of resource `i` the right way, if it may be moved. */
  method TryMove(loot: Four, lootable: Four, diff: int, i: nat) returns (loot': Four, diff': int)
    requires Within(loot, lootable) && diff != 0 && i < 4
    ensures Within(loot', lootable) && Sum4(loot') + diff' == Sum4(loot) + diff
    ensures if CanMove(loot, lootable, Direction(diff), i)
            then diff' == diff - Direction(diff) && loot' == loot[i := loot[i] + Direction(diff)]
            else loot' == loot && diff' == diff
  {
    loot', diff' := loot, diff;
    var step := Direction(diff);
    if CanMove(loot, lootable, step, i) {
      loot' := loot[i := loot[i] + step];
      diff' := diff - step;
    }
  }

  /** The repair of a resource is over: it was moved, or it cannot be. */
  predicate Tended(loot: Four, rounded: Four, lootable: Four, step: int, i: nat)
    requires i < 4
  {
    loot[i] != rounded[i] || !CanMove(rounded, lootable, step, i)
  }

  /** No resource is moved against the direction of the repair. */
  predicate Ahead(loot: Four, rounded: Four, step: int) {
    forall i :: 0 <= i < 4 ==> if step > 0 then loot[i] >= rounded[i] else loot[i] <= rounded[i]
  }

  /** The remainder goes to the largest lootable amounts, unit by unit: a resource is touched only once
      every larger one is tended to, and a second time only once all of them are. */
  predicate LargestFirst(loot: Four, rounded: Four, lootable: Four, step: int) {
    && Ahead(loot, rounded, step)
    && (forall i, j :: 0 <= i < 4 && 0 <= j < 4 && Before(lootable, i, j) && loot[j] != rounded[j] ==>
          Tended(loot, rounded, lootable, step, i))
    && (forall i, j :: 0 <= i < 4 && 0 <= j < 4 && Distance(loot[i], rounded[i]) == 2 ==>
          Tended(loot, rounded, lootable, step, j))
  }

  /** A resource that was tried is tended to; one that was not is as it was. */
  predicate Served(loot: Four, rounded: Four, lootable: Four, step: int, i: nat, tried: bool)
    requires i < 4
  {
    if tried then Tended(loot, rounded, lootable, step, i) else loot[i] == rounded[i]
  }

  /** The repair after `k` tries. */
  predicate FirstRound(loot: Four, rounded: Four, lootable: Four, step: int, order: seq<nat>, k: nat)
    requires IsOrder(order, lootable)
  {
    && Served(loot, rounded, lootable, step, order[0], k > 0)
    && Served(loot, rounded, lootable, step, order[1], k > 1)
    && Served(loot, rounded, lootable, step, order[2], k > 2)
    && Served(loot, rounded, lootable, step, order[3], k > 3)
    && (k <= 4 ==> Near(loot, rounded, 1))
  }

  lemma TheFirstRoundIsLargestFirst(loot: Four, rounded: Four, lootable: Four, step: int, order: seq<nat>, k: nat)
    requires IsOrder(order, lootable) && FirstRound(loot, rounded, lootable, step, order, k)
    requires Ahead(loot, rounded, step)
    ensures LargestFirst(loot, rounded, lootable, step)
  {
    forall i, j | 0 <= i < 4 && 0 <= j < 4 && Before(lootable, i, j) && loot[j] != rounded[j]
      ensures Tended(loot, rounded, lootable, step, i)
    {
      EveryIndexIsRanked(order, lootable, i);
      EveryIndexIsRanked(order, lootable, j);
    }
    forall i, j | 0 <= i < 4 && 0 <= j < 4 && Distance(loot[i], rounded[i]) == 2
      ensures Tended(loot, rounded, lootable, step, j)
    {
      EveryIndexIsRanked(order, lootable, j);
    }
  }

  /** One more try of resource `i`, untouched so far or already tended to. */
  lemma ATryServes(loot: Four, loot': Four, rounded: Four, lootable: Four, step: int, i: nat, tried: bool)
    requires (step == 1 || step == -1) && i < 4 && Ahead(loot, rounded, step)
    requires Served(loot, rounded, lootable, step, i, tried)
    requires loot' == if CanMove(loot, lootable, step, i) then loot[i := loot[i] + step] else loot
    ensures Ahead(loot', rounded, step) && Tended(loot', rounded, lootable, step, i)
    ensures forall j :: 0 <= j < 4 && j != i ==> loot'[j] == loot[j]
    ensures !tried ==> Distance(loot'[i], rounded[i]) <= 1
  {
  }

  lemma TheFirstRoundGoesOn(loot: Four, loot': Four, rounded: Four, lootable: Four, step: int, order: seq<nat>, k: nat)
    requires IsOrder(order, lootable) && FirstRound(loot, rounded, lootable, step, order, k)
    requires (step == 1 || step == -1) && Ahead(loot, rounded, step)
    requires var i := order[k % 4];
             loot' == if CanMove(loot, lootable, step, i) then loot[i := loot[i] + step] else loot
    ensures FirstRound(loot', rounded, lootable, step, order, k + 1)
    ensures Ahead(loot', rounded, step)
  {
    ATryServes(loot, loot', rounded, lootable, step, order[k % 4], k >= 4);
    if k < 4 {
      forall j | 0 <= j < 4 ensures Distance(loot'[j], rounded[j]) <= 1 {}
    }
  }

  lemma NearAdds(a: Four, b: Four, c: Four, d: nat)
    requires Near(a, b, 1) && Near(b, c, d)
    ensures Near(a, c, d + 1)
  {
  }

  /** The repair under way: `diff` is still missing after `tries` tries, the last `tried` of them in vain. */
  predicate Repairing(loot: Four, rounded: Four, lootable: Four, order: seq<nat>, step: int, diff: int, tries: nat, tried: nat)
    requires IsOrder(order, lootable)
  {
    && Within(loot, lootable) && Distance(diff, 0) <= 2 && Near(loot, rounded, 2 - Distance(diff, 0))
    && (diff != 0 ==> Direction(diff) == step && Stuck(loot, lootable, step, order, tries, tried))
    && FirstRound(loot, rounded, lootable, step, order, tries) && Ahead(loot, rounded, step)
    && tried < 4 && tries <= 4 * (2 - Distance(diff, 0)) + tried
  }

  lemma TheRepairGoesOn(loot: Four, loot': Four, rounded: Four, lootable: Four, order: seq<nat>, step: int, diff: int,
                        diff': int, tries: nat, tried: nat)
    requires IsOrder(order, lootable) && Repairing(loot, rounded, lootable, order, step, diff, tries, tried)
    requires 0 <= Sum4(loot) + diff < Sum4(lootable) && diff != 0
    requires var i := order[tries % 4];
             if CanMove(loot, lootable, step, i) then loot' == loot[i := loot[i] + step] && diff' == diff - step
             else loot' == loot && diff' == diff
    ensures var tried' := if CanMove(loot, lootable, step, order[tries % 4]) then 0 else tried + 1;
            Repairing(loot', rounded, lootable, order, step, diff', tries + 1, tried')
  {
    TheFirstRoundGoesOn(loot, loot', rounded, lootable, step, order, tries);
    if CanMove(loot, lootable, step, order[tries % 4]) {
      NearAdds(loot', loot, rounded, 2 - Distance(diff, 0));
    } else {
      StuckLonger(loot, lootable, step, order, tries, tried + 1);
      NotStuckForever(loot, lootable, Sum4(loot) + diff, order, tries + 1, tried + 1);
    }
  }

  /** Move one unit at a time, largest lootable first, until the sum is right. */
  method Repair(rounded: Four, lootable: Four, total: int) returns (loot: Four)
    requires Within(rounded, lootable) && 0 <= total < Sum4(lootable)
    requires Distance(total, Sum4(rounded)) <= 2
    ensures Within(loot, lootable) && Sum4(loot) == total
    ensures Near(loot, rounded, 2) && LargestFirst(loot, rounded, lootable, Direction(total - Sum4(rounded)))
  {
    loot := rounded;
    var diff := total - Sum4(rounded);
    var order := Order(lootable);
    var tries := 0;
    ghost var tried := 0;
    ghost var step := Direction(diff);
    while diff != 0 && tries < REPAIRS
      invariant Sum4(loot) + diff == total
      invariant Repairing(loot, rounded, lootable, order, step, diff, tries, tried)
      decreases REPAIRS - tries
    {
      var i := order[tries % 4];
      ghost var before, missing := loot, diff;
      loot, diff := TryMove(loot, lootable, diff, i);
      TheRepairGoesOn(before, loot, rounded, lootable, order, step, missing, diff, tries, tried);
      tried := if CanMove(before, lootable, step, i) then 0 else tried + 1;
      tries := tries + 1;
    }
    TheFirstRoundIsLargestFirst(loot, rounded, lootable, step, order, tries);
  }

  lemma StuckLonger(loot: Four, lootable: Four, step: int, order: seq<nat>, at: nat, tried: nat)
    requires IsOrder(order, lootable) && tried >= 1
    requires Stuck(loot, lootable, step, order, at, tried - 1) && !CanMove(loot, lootable, step, order[at % 4])
    ensures Stuck(loot, lootable, step, order, at + 1, tried)
  {
    assert (at + 1 + 3) % 4 == at % 4 && (at + 1 + 2) % 4 == (at + 3) % 4 && (at + 1 + 1) % 4 == (at + 2) % 4;
  }

  /** Each resource is within two units and a rounding of its proportional share. */
  predicate Proportional(loot: Four, lootable: Four, total: int) {
    Sum4(lootable) > 0 ==> forall i :: 0 <= i < 4 ==>
      -2.5 <= loot[i] as real - Share(lootable[i], total, Sum4(lootable)) <= 2.5
  }

  lemma NearRoundedIsProportional(loot: Four, lootable: Four, total: int)
    requires Sum4(lootable) > 0 && Near(loot, Rounded(lootable, total), 2)
    ensures Proportional(loot, lootable, total)
  {
    forall i | 0 <= i < 4
      ensures -2.5 <= loot[i] as real - Share(lootable[i], total, Sum4(lootable)) <= 2.5
    {
      RoundsToNearest(Share(lootable[i], total, Sum4(lootable)));
      assert Distance(loot[i], Rounded(lootable, total)[i]) <= 2;
    }
  }

  lemma AllOrNothingIsProportional(lootable: Four)
    ensures Proportional([0, 0, 0, 0], lootable, 0)
    ensures Proportional(lootable, lootable, Sum4(lootable))
  {
    var all := Sum4(lootable);
    if all > 0 {
      forall i | 0 <= i < 4
        ensures Share(lootable[i], 0, all) == 0.0 && Share(lootable[i], all, all) == lootable[i] as real
      {
      }
    }
  }

  predicate IsSplit(four: Four, lootable: Four, total: int) {
    && Within(four, lootable) && Sum4(four) == total && Proportional(four, lootable, total)
    && (0 < total < Sum4(lootable) ==>
          var rounded := Rounded(lootable, total);
          LargestFirst(four, rounded, lootable, Direction(total - Sum4(rounded))))
  }

  method SplitTotal(lootable: Four, total: int) returns (four: Four)
    requires Within([0, 0, 0, 0], lootable) && 0 <= total <= Sum4(lootable)
    ensures IsSplit(four, lootable, total)
  {
    AllOrNothingIsProportional(lootable);
    if total == 0 {
      return [0, 0, 0, 0];
    }
    if total == Sum4(lootable) {
      return lootable;
    }
    RoundingMissesByAtMostTwo(lootable, total);
    four := Repair(Rounded(lootable, total), lootable, total);
    NearRoundedIsProportional(four, lootable, total);
  }

  /** What of a resource is open to looting, and what stays hidden. */
  function Hidden(stored: Amounts, protection: Amounts, kind: Kind): int {
    Min(stored.Of(kind), protection.Of(kind))
  }

  function OpenTotal(stored: Amounts, protection: Amounts): int {
    stored.Total() - Hidden(stored, protection, Wood) - Hidden(stored, protection, Clay)
      - Hidden(stored, protection, Iron) - Hidden(stored, protection, Crop)
  }

  lemma WhatIsNotHiddenLiesOpen(stored: Amounts, protection: Amounts)
    ensures Sum4(Lootable(stored, protection)) == OpenTotal(stored, protection)
    ensures var open := AsAmounts(Lootable(stored, protection));
            forall k: Kind :: open.Of(k) == stored.Of(k) - Hidden(stored, protection, k)
  {
  }

  lemma AllTakenIsAllOfEach(loot: Four, lootable: Four)
    requires Within(loot, lootable) && Sum4(loot) == Sum4(lootable)
    ensures loot == lootable
  {
  }

  /** `loot_split`: the army leaves with all that it can carry of what lies open. Of each resource at least
      the protected part stays, and no more than that if the army can carry the rest; otherwise the
      resources are taken in proportion to what lies open, the remainder from the largest. The repair of
      the rounding always finishes, long before its limit. */
  method Split(stored: Amounts, protection: Amounts, capacity: nat) returns (loot: Amounts)
    ensures loot.Total() == Min(OpenTotal(stored, protection), Min(capacity, I64_MAX))
    ensures forall k: Kind :: loot.Of(k) >= 0 && stored.Of(k) - loot.Of(k) >= Hidden(stored, protection, k)
    ensures OpenTotal(stored, protection) <= Min(capacity, I64_MAX) ==>
              forall k: Kind :: stored.Of(k) - loot.Of(k) == Hidden(stored, protection, k)
    ensures IsSplit(AsFour(loot), Lootable(stored, protection), loot.Total())
  {
    var lootable := Lootable(stored, protection);
    var total := Min(Sum4(lootable), Min(capacity, I64_MAX));
    var four := SplitTotal(lootable, total);
    loot := AsAmounts(four);
    assert AsFour(loot) == four && Sum4(four) == loot.Total();
    WhatIsNotHiddenLiesOpen(stored, protection);
    if total == Sum4(lootable) { AllTakenIsAllOfEach(four, lootable); }
  }
}
