/** The regrow tick against the census: when an oasis is topped up and when it is culled. */
module RegrowLaws {
  import opened Armies
  import opened Sums
  import opened Troops
  import opened TroopLaws
  import Economy
  import Oases

  /** The animals the oasis was seeded with, which are all a tick keeps. */
  function SeededAnimals(r: Oases.Rules): Army {
    if r.seeded == [] then multiset{} else Force([r.seeded[0]])
  }

  lemma ForceOfEntry(unit: UnitId, n: nat)
    ensures Force([(unit, n)]) == multiset{}[unit := n]
  {
    assert [(unit, n)][1..] == [];
  }

  lemma {:induction false} FirstCountIsTheCount(c: UnitCounts, unit: UnitId)
    requires UniqueKeys(c)
    ensures Oases.CountOfFirst(c, unit) == Force(c)[unit]
  {
    if c != [] {
      FirstCountIsTheCount(c[1..], unit);
      if c[0].0 == unit {
        UnmentionedCountsNone(c[1..], unit);
        ForceCounts(c[1..], unit);
      }
    }
  }

  lemma {:induction false} UnmentionedCountsNone(c: UnitCounts, unit: UnitId)
    requires !Mentions(c, unit)
    ensures Count(c, unit) == 0
  {
    if c != [] {
      UnmentionedCountsNone(c[1..], unit);
    }
  }

  /** A step keeps every animal there exactly if there is nothing but the seeded ones, and no more of
      them than were seeded. */
  lemma AStepKeepsAllIffAllAreSeeded(current: UnitCounts, r: Oases.Rules)
    requires UniqueKeys(current)
    ensures Force(current) <= Force(Oases.RegrowStep(current, r).0) <==> Force(current) <= SeededAnimals(r)
  {
    var next := Oases.RegrowStep(current, r).0;
    if r.seeded != [] {
      var (id, target) := r.seeded[0];
      FirstCountIsTheCount(current, id);
      ForceOfEntry(id, target);
      var grown := Economy.Min(Force(current)[id] + Economy.Max(r.perStep, 1), target);
      ForceOfEntry(id, grown);
      assert Force(next) == multiset{}[id := grown];
      assert SeededAnimals(r) == multiset{}[id := target];
      WithinOneKind(Force(current), id, grown);
      WithinOneKind(Force(current), id, target);
    }
  }

  lemma WithinOneKind(a: Army, id: UnitId, n: nat)
    ensures a <= multiset{}[id := n] <==> a[id] <= n && forall u :: u != id ==> a[u] == 0
  {
    if a <= multiset{}[id := n] {
      forall u | u != id ensures a[u] == 0 {
        assert multiset{}[id := n][u] == 0;
      }
    }
  }

  /** Undisturbed, a regrow tick keeps the census if and only if the oasis holds none but its seeded
      animals and no more of them than it was seeded with. Troops left behind in an oasis nobody owns
      vanish unrecorded at its next tick. */
  lemma RegrowIsExactIffTheOasisIsWild(w: World, sid: nat, current: UnitCounts, r: Oases.Rules)
    requires Sound(w) && Current(w, sid) && CanRegrow(w, sid)
    requires UniqueKeys(current) && Force(current) == w.sights[sid].troops
    ensures Fresh(w, Regrow(sid, Force(Oases.RegrowStep(current, r).0)))
       <==> w.oases[w.sights[sid].oasis].troops <= SeededAnimals(r)
  {
    UndisturbedStepsAreFresh(w, Regrow(sid, Force(Oases.RegrowStep(current, r).0)));
    AStepKeepsAllIffAllAreSeeded(current, r);
  }
}
