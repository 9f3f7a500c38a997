/** Compositions: per-unit counts as lists, where a unit id may repeat. Accounted by per-unit sums. */
module Armies {

  type UnitId = string

  type UnitCounts = seq<(UnitId, nat)>

  datatype Role = Infantry | Cavalry | Scout | Siege | Expansion

  datatype UnitSpec = UnitSpec(id: UnitId, role: Role, upkeep: nat)

  /** How many of `unit` the composition holds, over all its entries. */
  function Count(c: UnitCounts, unit: UnitId): nat {
    if c == [] then 0 else (if c[0].0 == unit then c[0].1 else 0) + Count(c[1..], unit)
  }

  predicate Mentions(c: UnitCounts, unit: UnitId) {
    c != [] && (c[0].0 == unit || Mentions(c[1..], unit))
  }

  /** No unit id repeats. */
  predicate UniqueKeys(c: UnitCounts) {
    c != [] ==> !Mentions(c[1..], c[0].0) && UniqueKeys(c[1..])
  }

  /** No entry is zero. */
  predicate Positive(c: UnitCounts) {
    c != [] ==> c[0].1 > 0 && Positive(c[1..])
  }

  /** Add `n` of `unit`: onto the first entry of that id, or as a new entry. */
  function Add(c: UnitCounts, unit: UnitId, n: nat): UnitCounts {
    if c == [] then [(unit, n)]
    else if c[0].0 == unit then [(unit, c[0].1 + n)] + c[1..]
    else [c[0]] + Add(c[1..], unit, n)
  }

  /** Add every entry of `more`, in order. */
  function AddAll(c: UnitCounts, more: UnitCounts): UnitCounts
    decreases |more|
  {
    if more == [] then c else AddAll(Add(c, more[0].0, more[0].1), more[1..])
  }

  function Merged(c: UnitCounts, groups: seq<UnitCounts>): UnitCounts
    decreases |groups|
  {
    if groups == [] then c else Merged(AddAll(c, groups[0]), groups[1..])
  }

  function CountAll(groups: seq<UnitCounts>, unit: UnitId): nat {
    if groups == [] then 0 else Count(groups[0], unit) + CountAll(groups[1..], unit)
  }

  /** Where `find`ing the entry of `unit` stops: its first index, or the length. */
  function FirstEntry(c: UnitCounts, unit: UnitId): (i: nat)
    ensures i <= |c|
  {
    if c == [] || c[0].0 == unit then 0 else 1 + FirstEntry(c[1..], unit)
  }

  lemma {:induction false} AddAtFirstEntry(c: UnitCounts, unit: UnitId, n: nat)
    ensures var i := FirstEntry(c, unit);
            if i < |c| then c[i].0 == unit && Add(c, unit, n) == c[i := (unit, c[i].1 + n)]
            else Add(c, unit, n) == c + [(unit, n)]
  {
    if c != [] && c[0].0 != unit {
      AddAtFirstEntry(c[1..], unit, n);
      assert c == [c[0]] + c[1..];
    }
  }

  method FindEntry(c: UnitCounts, unit: UnitId) returns (i: nat)
    ensures i == FirstEntry(c, unit)
  {
    i := 0;
    while i < |c| && c[i].0 != unit
      invariant 0 <= i <= |c|
      invariant i + FirstEntry(c[i..], unit) == FirstEntry(c, unit)
    {
      assert c[i..][1..] == c[i + 1..];
      i := i + 1;
    }
  }

  /** Sum several compositions into one entry per unit. */
  method MergeCounts(groups: seq<UnitCounts>) returns (out: UnitCounts)
    ensures out == Merged([], groups)
  {
    out := [];
    var g := 0;
    while g < |groups|
      invariant 0 <= g <= |groups|
      invariant Merged(out, groups[g..]) == Merged([], groups)
    {
      var group := groups[g];
      ghost var start := out;
      var e := 0;
      while e < |group|
        invariant 0 <= e <= |group|
        invariant AddAll(out, group[e..]) == AddAll(start, group)
      {
        AddAtFirstEntry(out, group[e].0, group[e].1);
        var i := FindEntry(out, group[e].0);
        if i < |out| {
          out := out[i := (out[i].0, out[i].1 + group[e].1)];
        } else {
          out := out + [group[e]];
        }
        assert group[e..][1..] == group[e + 1..];
        e := e + 1;
      }
      assert groups[g..][1..] == groups[g + 1..];
      g := g + 1;
    }
  }

  lemma {:induction false} AddCounts(c: UnitCounts, unit: UnitId, n: nat, u: UnitId)
    ensures Count(Add(c, unit, n), u) == Count(c, u) + if u == unit then n else 0
    ensures Mentions(Add(c, unit, n), u) <==> Mentions(c, u) || u == unit
  {
    if c != [] && c[0].0 != unit {
      AddCounts(c[1..], unit, n, u);
    }
  }

  lemma {:induction false} AddKeepsUnique(c: UnitCounts, unit: UnitId, n: nat)
    requires UniqueKeys(c)
    ensures UniqueKeys(Add(c, unit, n))
    ensures Positive(c) && n > 0 ==> Positive(Add(c, unit, n))
  {
    if c != [] && c[0].0 != unit {
      AddKeepsUnique(c[1..], unit, n);
      AddCounts(c[1..], unit, n, c[0].0);
    }
  }

  lemma {:induction false} AddAllCounts(c: UnitCounts, more: UnitCounts, u: UnitId)
    ensures Count(AddAll(c, more), u) == Count(c, u) + Count(more, u)
    ensures Mentions(AddAll(c, more), u) <==> Mentions(c, u) || Mentions(more, u)
    decreases |more|
  {
    if more != [] {
      AddCounts(c, more[0].0, more[0].1, u);
      AddAllCounts(Add(c, more[0].0, more[0].1), more[1..], u);
    }
  }

  lemma {:induction false} AddAllKeepsUnique(c: UnitCounts, more: UnitCounts)
    requires UniqueKeys(c)
    ensures UniqueKeys(AddAll(c, more))
    ensures Positive(c) && Positive(more) ==> Positive(AddAll(c, more))
    decreases |more|
  {
    if more != [] {
      AddKeepsUnique(c, more[0].0, more[0].1);
      AddAllKeepsUnique(Add(c, more[0].0, more[0].1), more[1..]);
    }
  }

  /** `merge_counts` loses and invents nobody: per unit the merged count is the sum over the groups,
      and each unit has one entry, whatever repeats within or across the groups. */
  lemma {:induction false} MergeConserves(c: UnitCounts, groups: seq<UnitCounts>, u: UnitId)
    requires UniqueKeys(c)
    ensures Count(Merged(c, groups), u) == Count(c, u) + CountAll(groups, u)
    ensures UniqueKeys(Merged(c, groups))
    decreases |groups|
  {
    if groups != [] {
      AddAllCounts(c, groups[0], u);
      AddAllKeepsUnique(c, groups[0]);
      MergeConserves(AddAll(c, groups[0]), groups[1..], u);
    }
  }

  // ------------------------------------------------------------------ casualties

  /** Round half to even. */
  function RoundTiesEven(x: real): int {
    var low := x.Floor;
    var rest := x - low as real;
    if rest < 0.5 then low
    else if rest > 0.5 then low + 1
    else if low % 2 == 0 then low else low + 1
  }

  lemma RoundsToNearest(x: real)
    ensures -0.5 <= RoundTiesEven(x) as real - x <= 0.5
    ensures RoundTiesEven(x) as real - x == 0.5 || RoundTiesEven(x) as real - x == -0.5 ==> RoundTiesEven(x) % 2 == 0
  {
  }

  function Clamp01(x: real): real { if x < 0.0 then 0.0 else if x > 1.0 then 1.0 else x }

  function RoundedUpTo(x: real, count: nat): nat
    requires x >= 0.0
  {
    var r := RoundTiesEven(x);
    if r < count then r else count
  }

  function Part(count: nat, frac: real): real { count as real * frac }

  lemma AProductIsWithin(a: real, b: real, x: real)
    requires 0.0 <= b <= 1.0 && a >= 0.0 && x == a * b
    ensures 0.0 <= x <= a
  {
  }

  lemma APartIsWithin(count: nat, frac: real)
    requires 0.0 <= frac <= 1.0
    ensures 0.0 <= Part(count, frac) <= count as real
  {
    AProductIsWithin(count as real, frac, Part(count, frac));
  }

  function LostOf(count: nat, frac: real): (lost: nat)
    ensures lost <= count
  {
    APartIsWithin(count, Clamp01(frac));
    RoundedUpTo(Part(count, Clamp01(frac)), count)
  }

  /** The nearest whole number to `x`, the even one if two are as near. */
  predicate IsNearest(n: int, x: real) {
    && -0.5 <= n as real - x <= 0.5
    && (n as real - x == 0.5 || n as real - x == -0.5 ==> n % 2 == 0)
  }

  lemma RoundedUpToIsNearest(x: real, count: nat)
    requires 0.0 <= x <= count as real
    ensures IsNearest(RoundedUpTo(x, count), x)
  {
    RoundsToNearest(x);
  }

  /** Of `count` units the fraction that falls is lost, to the nearest unit. */
  lemma TheNearestNumberIsLost(count: nat, frac: real, lost: nat)
    requires 0.0 <= frac <= 1.0 && lost == LostOf(count, frac)
    ensures IsNearest(lost, count as real * frac)
  {
    APartIsWithin(count, frac);
    RoundedUpToIsNearest(Part(count, frac), count);
    assert Clamp01(frac) == frac;
  }

  /** Prepend an entry unless it is empty. */
  function Entry(unit: UnitId, n: nat, rest: UnitCounts): UnitCounts {
    if n > 0 then [(unit, n)] + rest else rest
  }

  lemma EntryFacts(unit: UnitId, n: nat, rest: UnitCounts, u: UnitId)
    ensures Count(Entry(unit, n, rest), u) == Count(rest, u) + if u == unit then n else 0
    ensures Mentions(Entry(unit, n, rest), u) <==> Mentions(rest, u) || (u == unit && n > 0)
    ensures Positive(Entry(unit, n, rest)) <==> Positive(rest)
    ensures UniqueKeys(rest) && !Mentions(rest, unit) ==> UniqueKeys(Entry(unit, n, rest))
  {
    assert n > 0 ==> Entry(unit, n, rest)[1..] == rest;
  }

  /** `apply_losses`: survivors and losses, entry by entry, zero counts left out. */
  function Survivors(c: UnitCounts, frac: real): UnitCounts {
    if c == [] then [] else Entry(c[0].0, c[0].1 - LostOf(c[0].1, frac), Survivors(c[1..], frac))
  }

  function Losses(c: UnitCounts, frac: real): UnitCounts {
    if c == [] then [] else Entry(c[0].0, LostOf(c[0].1, frac), Losses(c[1..], frac))
  }

  lemma LossesFrom(c: UnitCounts, frac: real, i: nat, lost: nat, survivors: UnitCounts, losses: UnitCounts)
    requires i < |c| && lost == LostOf(c[i].1, frac)
    ensures survivors + Survivors(c[i..], frac)
         == survivors + Entry(c[i].0, c[i].1 - lost, []) + Survivors(c[i + 1..], frac)
    ensures losses + Losses(c[i..], frac) == losses + Entry(c[i].0, lost, []) + Losses(c[i + 1..], frac)
  {
    assert c[i..][1..] == c[i + 1..];
    assert Survivors(c[i..], frac) == Entry(c[i].0, c[i].1 - lost, []) + Survivors(c[i + 1..], frac);
    assert Losses(c[i..], frac) == Entry(c[i].0, lost, []) + Losses(c[i + 1..], frac);
  }

  method ApplyLosses(c: UnitCounts, frac: real) returns (survivors: UnitCounts, losses: UnitCounts)
    ensures survivors == Survivors(c, frac) && losses == Losses(c, frac)
  {
    survivors, losses := [], [];
    var i := 0;
    while i < |c|
      invariant 0 <= i <= |c|
      invariant survivors + Survivors(c[i..], frac) == Survivors(c, frac)
      invariant losses + Losses(c[i..], frac) == Losses(c, frac)
    {
      var lost := LostOf(c[i].1, frac);
      LossesFrom(c, frac, i, lost, survivors, losses);
      survivors := survivors + Entry(c[i].0, c[i].1 - lost, []);
      losses := losses + Entry(c[i].0, lost, []);
      i := i + 1;
    }
  }

  /** Everyone either survives or is lost. */
  lemma {:induction false} LossesConserve(c: UnitCounts, frac: real, u: UnitId)
    ensures Count(Survivors(c, frac), u) + Count(Losses(c, frac), u) == Count(c, u)
    ensures Positive(Survivors(c, frac)) && Positive(Losses(c, frac))
    ensures Mentions(Survivors(c, frac), u) || Mentions(Losses(c, frac), u) ==> Mentions(c, u)
  {
    if c != [] {
      LossesConserve(c[1..], frac, u);
      var lost := LostOf(c[0].1, frac);
      EntryFacts(c[0].0, lost, Losses(c[1..], frac), u);
      EntryFacts(c[0].0, c[0].1 - lost, Survivors(c[1..], frac), u);
    }
  }

  lemma {:induction false} OnlyTheMentionedCount(c: UnitCounts, u: UnitId)
    ensures !Mentions(c, u) ==> Count(c, u) == 0
  {
    if c != [] { OnlyTheMentionedCount(c[1..], u); }
  }

  lemma {:induction false} EachUnitLosesItsOwn(c: UnitCounts, frac: real, u: UnitId)
    requires UniqueKeys(c)
    ensures Count(Losses(c, frac), u) == LostOf(Count(c, u), frac)
  {
    if c != [] {
      EachUnitLosesItsOwn(c[1..], frac, u);
      EntryFacts(c[0].0, LostOf(c[0].1, frac), Losses(c[1..], frac), u);
      OnlyTheMentionedCount(c[1..], u);
    }
  }

  /** Of each unit of an army that lists its units once, the fraction that falls is lost, to the nearest
      unit. */
  lemma TheFractionFalls(c: UnitCounts, frac: real, u: UnitId, had: nat, lost: nat)
    requires UniqueKeys(c) && 0.0 <= frac <= 1.0
    requires had == Count(c, u) && lost == Count(Losses(c, frac), u)
    ensures IsNearest(lost, had as real * frac)
  {
    EachUnitLosesItsOwn(c, frac, u);
    TheNearestNumberIsLost(had, frac, lost);
  }

  lemma {:induction false} LossesKeepUnique(c: UnitCounts, frac: real)
    requires UniqueKeys(c)
    ensures UniqueKeys(Survivors(c, frac)) && UniqueKeys(Losses(c, frac))
  {
    if c != [] {
      LossesKeepUnique(c[1..], frac);
      LossesConserve(c[1..], frac, c[0].0);
      var lost := LostOf(c[0].1, frac);
      EntryFacts(c[0].0, lost, Losses(c[1..], frac), c[0].0);
      EntryFacts(c[0].0, c[0].1 - lost, Survivors(c[1..], frac), c[0].0);
    }
  }

  /** The extremes: a fraction of one or more wipes the army out, zero or less spares it. */
  lemma {:induction false} LossExtremes(c: UnitCounts, frac: real)
    requires frac <= 0.0 || frac >= 1.0
    ensures frac >= 1.0 ==> Survivors(c, frac) == []
    ensures frac <= 0.0 ==> Losses(c, frac) == []
  {
    if c != [] {
      LossExtremes(c[1..], frac);
    }
  }

  // ------------------------------------------------------------------ upkeep

  /** The crop one unit eats per hour: that of its first spec in the roster, 0 if unknown. */
  function UpkeepOf(roster: seq<UnitSpec>, unit: UnitId): nat {
    if roster == [] then 0 else if roster[0].id == unit then roster[0].upkeep else UpkeepOf(roster[1..], unit)
  }

  function GarrisonUpkeep(c: UnitCounts, roster: seq<UnitSpec>): nat {
    if c == [] then 0 else UpkeepOf(roster, c[0].0) * c[0].1 + GarrisonUpkeep(c[1..], roster)
  }

  lemma {:induction false} AddRaisesUpkeep(c: UnitCounts, unit: UnitId, n: nat, roster: seq<UnitSpec>)
    ensures GarrisonUpkeep(Add(c, unit, n), roster) == GarrisonUpkeep(c, roster) + UpkeepOf(roster, unit) * n
  {
    if c == [] {
      assert [(unit, n)][1..] == [];
    } else if c[0].0 == unit {
      assert Add(c, unit, n)[1..] == c[1..];
      var k := UpkeepOf(roster, unit);
      assert k * (c[0].1 + n) == k * c[0].1 + k * n;
    } else {
      assert Add(c, unit, n)[1..] == Add(c[1..], unit, n);
      AddRaisesUpkeep(c[1..], unit, n, roster);
    }
  }
}
