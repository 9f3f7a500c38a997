/** Casualty bookkeeping of an attack that scouts may ride along with. */
module Battles {
  import opened Armies

  predicate IsScout(roster: seq<UnitSpec>, unit: UnitId) {
    roster != [] && ((roster[0].id == unit && roster[0].role == Scout) || IsScout(roster[1..], unit))
  }

  /** The entries of a composition that are scouts (or, with `wanted` false, that are not). */
  function Filtered(c: UnitCounts, roster: seq<UnitSpec>, wanted: bool): UnitCounts {
    if c == [] then []
    else if IsScout(roster, c[0].0) == wanted then [c[0]] + Filtered(c[1..], roster, wanted)
    else Filtered(c[1..], roster, wanted)
  }

  /** What the report of the scouts needs; absent if none rode along. */
  datatype Espionage = NoScouts | Scouts(sent: UnitCounts, lost: UnitCounts, back: UnitCounts)

  datatype Casualties = Casualties(survivors: UnitCounts, losses: UnitCounts, scouts: Espionage)

  /** Intelligence comes home only if a scout does. */
  predicate HasIntel(e: Espionage) { e.Scouts? && e.back != [] }

  /** Scouts sent to spy first meet the defender's scouts; those who slip through fight (and fall)
      beside the others in the battle itself. Without a scouting order there is only the battle. */
  method Resolve(troops: UnitCounts, roster: seq<UnitSpec>, spying: bool, spyFrac: real, battleFrac: real)
    returns (c: Casualties)
    ensures c == Resolved(troops, roster, spying, spyFrac, battleFrac)
  {
    var scouts, others := [], [];
    var i := |troops|;
    while i > 0
      invariant 0 <= i <= |troops|
      invariant scouts == Filtered(troops[i..], roster, true)
      invariant others == Filtered(troops[i..], roster, false)
    {
      i := i - 1;
      assert troops[i..] == [troops[i]] + troops[i + 1..];
      if IsScout(roster, troops[i].0) {
        scouts := [troops[i]] + scouts;
      } else {
        others := [troops[i]] + others;
      }
    }
    assert troops[0..] == troops;
    if !spying || scouts == [] {
      var survivors, losses := ApplyLosses(troops, battleFrac);
      return Casualties(survivors, losses, NoScouts);
    }
    var slipped, caught := ApplyLosses(scouts, spyFrac);
    var othersBack, othersLost := ApplyLosses(others, battleFrac);
    var scoutsBack, scoutsFallen := ApplyLosses(slipped, battleFrac);
    var survivors := MergeCounts([othersBack, scoutsBack]);
    var losses := MergeCounts([othersLost, caught, scoutsFallen]);
    var scoutsLost := MergeCounts([caught, scoutsFallen]);
    c := Casualties(survivors, losses, Scouts(scouts, scoutsLost, scoutsBack));
  }

  function Resolved(troops: UnitCounts, roster: seq<UnitSpec>, spying: bool, spyFrac: real, battleFrac: real): Casualties {
    var scouts, others := Filtered(troops, roster, true), Filtered(troops, roster, false);
    if !spying || scouts == [] then
      Casualties(Survivors(troops, battleFrac), Losses(troops, battleFrac), NoScouts)
    else
      var slipped, caught := Survivors(scouts, spyFrac), Losses(scouts, spyFrac);
      var scoutsBack, scoutsFallen := Survivors(slipped, battleFrac), Losses(slipped, battleFrac);
      Casualties(Merged([], [Survivors(others, battleFrac), scoutsBack]),
                 Merged([], [Losses(others, battleFrac), caught, scoutsFallen]),
                 Scouts(scouts, Merged([], [caught, scoutsFallen]), scoutsBack))
  }

  // ------------------------------------------------------------------ the bookkeeping adds up

  lemma {:induction false} FilterCounts(c: UnitCounts, roster: seq<UnitSpec>, wanted: bool, u: UnitId)
    ensures Count(Filtered(c, roster, wanted), u) == if IsScout(roster, u) == wanted then Count(c, u) else 0
    ensures Mentions(Filtered(c, roster, wanted), u) <==> Mentions(c, u) && IsScout(roster, u) == wanted
  {
    if c != [] {
      FilterCounts(c[1..], roster, wanted, u);
      assert ([c[0]] + Filtered(c[1..], roster, wanted))[1..] == Filtered(c[1..], roster, wanted);
    }
  }

  lemma MergeTwo(a: UnitCounts, b: UnitCounts, u: UnitId)
    ensures Count(Merged([], [a, b]), u) == Count(a, u) + Count(b, u)
    ensures UniqueKeys(Merged([], [a, b]))
  {
    MergeConserves([], [a, b], u);
    assert [a, b][1..] == [b] && [b][1..] == [];
    assert CountAll([b], u) == Count(b, u) + CountAll([], u);
  }

  lemma MergeThree(a: UnitCounts, b: UnitCounts, c: UnitCounts, u: UnitId)
    ensures Count(Merged([], [a, b, c]), u) == Count(a, u) + Count(b, u) + Count(c, u)
    ensures UniqueKeys(Merged([], [a, b, c]))
  {
    MergeConserves([], [a, b, c], u);
    assert [a, b, c][1..] == [b, c] && [b, c][1..] == [c] && [c][1..] == [];
    assert CountAll([b, c], u) == Count(b, u) + CountAll([c], u);
    assert CountAll([c], u) == Count(c, u) + CountAll([], u);
  }

  /** For every composition, repeats included, and any loss fractions: everyone sent survives or is
      lost; a scout lost is among the attacker's losses and no other unit counts as one; with scouts
      on a mission the survivors and losses have one entry per unit. */
  lemma EveryoneSentIsAccountedFor(troops: UnitCounts, roster: seq<UnitSpec>, spying: bool, spyFrac: real,
                                   battleFrac: real, u: UnitId)
    ensures var c := Resolved(troops, roster, spying, spyFrac, battleFrac);
            && Count(c.survivors, u) + Count(c.losses, u) == Count(troops, u)
            && (UniqueKeys(troops) || c.scouts.Scouts? ==> UniqueKeys(c.survivors) && UniqueKeys(c.losses))
            && (c.scouts.Scouts? ==>
                  && UniqueKeys(c.scouts.lost)
                  && Count(c.scouts.lost, u) == (if IsScout(roster, u) then Count(c.losses, u) else 0)
                  && Count(c.scouts.back, u) == (if IsScout(roster, u) then Count(c.survivors, u) else 0)
                  && Count(c.scouts.sent, u) == Count(c.scouts.lost, u) + Count(c.scouts.back, u))
  {
    var c := Resolved(troops, roster, spying, spyFrac, battleFrac);
    if c.scouts.NoScouts? {
      LossesConserve(troops, battleFrac, u);
      if UniqueKeys(troops) {
        LossesKeepUnique(troops, battleFrac);
      }
    } else {
      var scouts, others := Filtered(troops, roster, true), Filtered(troops, roster, false);
      var slipped, caught := Survivors(scouts, spyFrac), Losses(scouts, spyFrac);
      FilterCounts(troops, roster, true, u);
      FilterCounts(troops, roster, false, u);
      LossesConserve(scouts, spyFrac, u);
      LossesConserve(others, battleFrac, u);
      LossesConserve(slipped, battleFrac, u);
      MergeTwo(Survivors(others, battleFrac), Survivors(slipped, battleFrac), u);
      MergeThree(Losses(others, battleFrac), caught, Losses(slipped, battleFrac), u);
      MergeTwo(caught, Losses(slipped, battleFrac), u);
    }
  }

  /** A unit is a scout if some spec of that id in the roster says so. */
  lemma {:induction false} ScoutsAreWhoTheRosterSays(roster: seq<UnitSpec>, unit: UnitId)
    ensures IsScout(roster, unit) <==> exists i :: 0 <= i < |roster| && roster[i].id == unit && roster[i].role == Scout
  {
    if roster != [] {
      ScoutsAreWhoTheRosterSays(roster[1..], unit);
      assert forall i :: 0 < i < |roster| ==> roster[i] == roster[1..][i - 1];
    }
  }

  lemma {:induction false} FilterKeepsUnique(c: UnitCounts, roster: seq<UnitSpec>, wanted: bool)
    requires UniqueKeys(c)
    ensures UniqueKeys(Filtered(c, roster, wanted))
  {
    if c != [] {
      FilterKeepsUnique(c[1..], roster, wanted);
      FilterCounts(c[1..], roster, wanted, c[0].0);
      assert ([c[0]] + Filtered(c[1..], roster, wanted))[1..] == Filtered(c[1..], roster, wanted);
    }
  }

  /** Who falls where: a unit loses its share of the battle, and a scout on a mission first the share that
      is caught spying, and of those who slip through the share of the battle. */
  lemma ScoutsPassTwoStages(troops: UnitCounts, roster: seq<UnitSpec>, spying: bool, spyFrac: real, battleFrac: real,
                            u: UnitId)
    requires UniqueKeys(troops)
    ensures var sent := Count(troops, u);
            var caught := if spying && IsScout(roster, u) then LostOf(sent, spyFrac) else 0;
            Count(Resolved(troops, roster, spying, spyFrac, battleFrac).losses, u)
              == caught + LostOf(sent - caught, battleFrac)
  {
    var scouts, others := Filtered(troops, roster, true), Filtered(troops, roster, false);
    FilterCounts(troops, roster, true, u);
    FilterCounts(troops, roster, false, u);
    if !spying || scouts == [] {
      EachUnitLosesItsOwn(troops, battleFrac, u);
    } else {
      var slipped, caught := Survivors(scouts, spyFrac), Losses(scouts, spyFrac);
      FilterKeepsUnique(troops, roster, true);
      FilterKeepsUnique(troops, roster, false);
      LossesKeepUnique(scouts, spyFrac);
      LossesConserve(scouts, spyFrac, u);
      EachUnitLosesItsOwn(scouts, spyFrac, u);
      EachUnitLosesItsOwn(slipped, battleFrac, u);
      EachUnitLosesItsOwn(others, battleFrac, u);
      MergeThree(Losses(others, battleFrac), caught, Losses(slipped, battleFrac), u);
    }
  }

  lemma {:induction false} SomebodyThere(c: UnitCounts) returns (u: UnitId)
    requires Positive(c) && c != []
    ensures Count(c, u) > 0
  {
    u := c[0].0;
  }

  /** There is intelligence exactly if scouts were sent to spy and one of them survives both stages. */
  lemma IntelIffAScoutSurvives(troops: UnitCounts, roster: seq<UnitSpec>, spying: bool, spyFrac: real, battleFrac: real)
    ensures var c := Resolved(troops, roster, spying, spyFrac, battleFrac);
            HasIntel(c.scouts) <==> spying && exists u :: IsScout(roster, u) && Count(c.survivors, u) > 0
  {
    var c := Resolved(troops, roster, spying, spyFrac, battleFrac);
    forall u: UnitId
      ensures IsScout(roster, u) && Count(c.survivors, u) > 0 && spying ==> HasIntel(c.scouts)
    {
      EveryoneSentIsAccountedFor(troops, roster, spying, spyFrac, battleFrac, u);
      FilterCounts(troops, roster, true, u);
    }
    if HasIntel(c.scouts) {
      var slipped := Survivors(Filtered(troops, roster, true), spyFrac);
      LossesConserve(slipped, battleFrac, "");
      var u := SomebodyThere(c.scouts.back);
      EveryoneSentIsAccountedFor(troops, roster, spying, spyFrac, battleFrac, u);
    }
  }

  /** If nobody is caught spying, the two-stage bookkeeping gives the counts of the plain battle. */
  lemma UnopposedSpyingChangesNothing(troops: UnitCounts, roster: seq<UnitSpec>, spyFrac: real, battleFrac: real, u: UnitId)
    requires spyFrac <= 0.0
    ensures Count(Resolved(troops, roster, true, spyFrac, battleFrac).losses, u)
         == Count(Resolved(troops, roster, false, spyFrac, battleFrac).losses, u)
  {
    var scouts, others := Filtered(troops, roster, true), Filtered(troops, roster, false);
    if scouts != [] {
      NobodyLostNobodyMoved(scouts, spyFrac);
      var slipped := Survivors(scouts, spyFrac);
      MergeThree(Losses(others, battleFrac), Losses(scouts, spyFrac), Losses(slipped, battleFrac), u);
      assert Count(Losses(slipped, battleFrac), u) == Count(Losses(scouts, battleFrac), u);
      LossesSplit(troops, roster, battleFrac, u);
    }
  }

  lemma {:induction false} NobodyLostNobodyMoved(c: UnitCounts, frac: real)
    requires frac <= 0.0
    ensures Losses(c, frac) == []
    ensures forall f, u {:trigger Count(Losses(c, f), u)} ::
              Count(Losses(Survivors(c, frac), f), u) == Count(Losses(c, f), u)
  {
    if c != [] {
      NobodyLostNobodyMoved(c[1..], frac);
      var rest := Survivors(c[1..], frac);
      assert c[0].1 > 0 ==> ([c[0]] + rest)[1..] == rest && ([(c[0].0, c[0].1)] + rest)[1..] == rest;
      forall f, u ensures Count(Losses(Survivors(c, frac), f), u) == Count(Losses(c, f), u) {
        assert Count(Losses(rest, f), u) == Count(Losses(c[1..], f), u);
        EntryFacts(c[0].0, LostOf(c[0].1, f), Losses(c[1..], f), u);
        EntryFacts(c[0].0, LostOf(c[0].1, f), Losses(rest, f), u);
      }
    }
  }

  lemma {:induction false} LossesSplit(c: UnitCounts, roster: seq<UnitSpec>, frac: real, u: UnitId)
    ensures Count(Losses(c, frac), u)
         == Count(Losses(Filtered(c, roster, true), frac), u) + Count(Losses(Filtered(c, roster, false), frac), u)
  {
    if c != [] {
      LossesSplit(c[1..], roster, frac, u);
      var scout := IsScout(roster, c[0].0);
      var same := Filtered(c[1..], roster, scout);
      assert ([c[0]] + same)[1..] == same;
      EntryFacts(c[0].0, LostOf(c[0].1, frac), Losses(c[1..], frac), u);
      EntryFacts(c[0].0, LostOf(c[0].1, frac), Losses(same, frac), u);
    }
  }
}
