/**
 Starvation: when a village's crop store runs dry at a negative net rate, its garrison is culled to a
 sustainable size, highest upkeep first.
 */
module Starvation {
  import opened Arithmetic
  import opened Economy
  import opened Armies
  import opened Options

  // ------------------------------------------------------------------ the kill order

  /** Where a unit stands in the roster; unknown units stand last. */
  function RosterIndex(roster: seq<UnitSpec>, unit: UnitId): (r: nat)
    ensures r <= |roster|
    ensures r < |roster| ==> roster[r].id == unit
    ensures forall k :: 0 <= k < r ==> roster[k].id != unit
  {
    if roster == [] || roster[0].id == unit then 0 else 1 + RosterIndex(roster[1..], unit)
  }

  /** A unit eats what its first spec says, and nothing if the roster does not know it. */
  lemma {:induction false} UpkeepIsThatOfTheFirstSpec(roster: seq<UnitSpec>, unit: UnitId)
    ensures var r := RosterIndex(roster, unit);
            UpkeepOf(roster, unit) == if r < |roster| then roster[r].upkeep else 0
  {
    if roster != [] && roster[0].id != unit { UpkeepIsThatOfTheFirstSpec(roster[1..], unit); }
  }

  /** `a` is culled no later than `b`: higher upkeep first, ties in roster order. */
  predicate NoLater(roster: seq<UnitSpec>, a: UnitId, b: UnitId) {
    || UpkeepOf(roster, a) > UpkeepOf(roster, b)
    || (UpkeepOf(roster, a) == UpkeepOf(roster, b) && RosterIndex(roster, a) <= RosterIndex(roster, b))
  }

  function Insert(e: (UnitId, nat), c: UnitCounts, roster: seq<UnitSpec>): UnitCounts {
    if c == [] || NoLater(roster, e.0, c[0].0) then [e] + c else [c[0]] + Insert(e, c[1..], roster)
  }

  /** The stable sort of a garrison into kill order. */
  function KillOrder(c: UnitCounts, roster: seq<UnitSpec>): UnitCounts {
    if c == [] then [] else Insert(c[0], KillOrder(c[1..], roster), roster)
  }

  predicate InOrder(c: UnitCounts, roster: seq<UnitSpec>) {
    c != [] ==> (|c| > 1 ==> NoLater(roster, c[0].0, c[1].0)) && InOrder(c[1..], roster)
  }

  lemma {:induction false} InsertFacts(e: (UnitId, nat), c: UnitCounts, roster: seq<UnitSpec>, u: UnitId)
    ensures InOrder(c, roster) ==> InOrder(Insert(e, c, roster), roster)
    ensures Count(Insert(e, c, roster), u) == Count(c, u) + if u == e.0 then e.1 else 0
    ensures GarrisonUpkeep(Insert(e, c, roster), roster) == GarrisonUpkeep(c, roster) + UpkeepOf(roster, e.0) * e.1
    ensures Insert(e, c, roster) != []
    ensures Insert(e, c, roster)[0] == e || (c != [] && Insert(e, c, roster)[0] == c[0])
  {
    if c == [] || NoLater(roster, e.0, c[0].0) {
      assert ([e] + c)[1..] == c;
    } else {
      InsertFacts(e, c[1..], roster, u);
      var rest := Insert(e, c[1..], roster);
      assert ([c[0]] + rest)[1..] == rest;
    }
  }

  lemma {:induction false} KillOrderFacts(c: UnitCounts, roster: seq<UnitSpec>, u: UnitId)
    ensures InOrder(KillOrder(c, roster), roster)
    ensures Count(KillOrder(c, roster), u) == Count(c, u)
    ensures GarrisonUpkeep(KillOrder(c, roster), roster) == GarrisonUpkeep(c, roster)
  {
    if c != [] {
      KillOrderFacts(c[1..], roster, u);
      InsertFacts(c[0], KillOrder(c[1..], roster), roster, u);
    }
  }

  // ------------------------------------------------------------------ one unit at a time

  function Total(c: UnitCounts): nat {
    if c == [] then 0 else c[0].1 + Total(c[1..])
  }

  /** The first entry with somebody left. */
  function FirstAlive(c: UnitCounts): (i: nat)
    ensures i <= |c|
    ensures i < |c| ==> c[i].1 > 0
    ensures forall j :: 0 <= j < i ==> c[j].1 == 0
  {
    if c == [] || c[0].1 > 0 then 0 else 1 + FirstAlive(c[1..])
  }

  /** The rule of the game, on a list in kill order: while the troops eat more than there is, one unit
      of the type eating most (ties in roster order) dies, until they do not, or nobody is left who
      eats. */
  function OneAtATime(c: UnitCounts, roster: seq<UnitSpec>, deficit: int): UnitCounts
    decreases Total(c), |c|
  {
    if c == [] || deficit <= 0 then c
    else if c[0].1 == 0 then [c[0]] + OneAtATime(c[1..], roster, deficit)
    else if UpkeepOf(roster, c[0].0) == 0 then c
    else OneAtATime(OneFewer(c), roster, deficit - UpkeepOf(roster, c[0].0))
  }

  /** The first type with one unit less. */
  function OneFewer(c: UnitCounts): (d: UnitCounts)
    requires c != [] && c[0].1 > 0
    ensures |d| == |c| && Total(d) == Total(c) - 1
  {
    var d := [(c[0].0, c[0].1 - 1)] + c[1..];
    assert d[1..] == c[1..];
    d
  }

  /** Each death is that of the first one alive. */
  lemma {:induction false} TheFirstAliveDies(c: UnitCounts, roster: seq<UnitSpec>, deficit: int, d: UnitCounts)
    requires deficit > 0 && FirstAlive(c) < |c| && UpkeepOf(roster, c[FirstAlive(c)].0) > 0
    requires d == c[FirstAlive(c) := (c[FirstAlive(c)].0, c[FirstAlive(c)].1 - 1)]
    ensures OneAtATime(c, roster, deficit) == OneAtATime(d, roster, deficit - UpkeepOf(roster, c[FirstAlive(c)].0))
  {
    if c[0].1 > 0 {
      assert OneFewer(c) == d;
    } else {
      assert d[1..] == c[1..][FirstAlive(c) - 1 := d[FirstAlive(c)]];
      TheFirstAliveDies(c[1..], roster, deficit, d[1..]);
      assert d[0] == c[0];
      NobodyDies([c[0]] + d[1..], roster, deficit - UpkeepOf(roster, c[FirstAlive(c)].0));
      assert d == [c[0]] + d[1..] && ([c[0]] + d[1..])[1..] == d[1..];
    }
  }

  /** The rule stops once the deficit is met. */
  lemma NobodyDies(c: UnitCounts, roster: seq<UnitSpec>, deficit: int)
    ensures deficit <= 0 ==> OneAtATime(c, roster, deficit) == c
    ensures deficit <= 0 && c != [] ==> c == [c[0]] + OneAtATime(c[1..], roster, deficit)
  {
  }

  /** In kill order the first one alive is the one the rule picks: nobody alive eats more, and nobody
      who eats as much stands before it in the roster. */
  lemma {:induction false} TheFirstAliveIsTheVictim(c: UnitCounts, roster: seq<UnitSpec>, j: nat)
    requires InOrder(c, roster) && FirstAlive(c) <= j < |c|
    ensures var victim, other := c[FirstAlive(c)].0, c[j].0;
            && UpkeepOf(roster, victim) >= UpkeepOf(roster, other)
            && (UpkeepOf(roster, victim) == UpkeepOf(roster, other) ==> RosterIndex(roster, victim) <= RosterIndex(roster, other))
  {
    if c[0].1 == 0 {
      TheFirstAliveIsTheVictim(c[1..], roster, j - 1);
    } else {
      HeadIsFirst(c, roster, j);
    }
  }

  lemma {:induction false} HeadIsFirst(c: UnitCounts, roster: seq<UnitSpec>, j: nat)
    requires InOrder(c, roster) && j < |c|
    ensures NoLater(roster, c[0].0, c[j].0)
  {
    if j > 0 {
      HeadIsFirst(c[1..], roster, j - 1);
    }
  }

  // ------------------------------------------------------------------ in bulk

  const U32_MAX: nat := 0xffff_ffff

  /** How many of one type the bulk cull takes. */
  function Killed(count: nat, upkeep: nat, deficit: int): (k: nat)
    requires deficit > 0 && upkeep > 0
    ensures k <= count
  {
    var needed := Min(deficit / upkeep + (if deficit % upkeep != 0 then 1 else 0), U32_MAX);
    Min(needed, count)
  }

  /** The cull type by type; entries that run out stay with count zero. */
  function Bulk(c: UnitCounts, roster: seq<UnitSpec>, deficit: int): UnitCounts {
    if c == [] || deficit <= 0 || UpkeepOf(roster, c[0].0) == 0 then c
    else
      var upkeep := UpkeepOf(roster, c[0].0);
      var k := Killed(c[0].1, upkeep, deficit);
      [(c[0].0, c[0].1 - k)] + Bulk(c[1..], roster, deficit - upkeep * k)
  }

  function Casualties(c: UnitCounts, roster: seq<UnitSpec>, deficit: int): UnitCounts {
    if c == [] || deficit <= 0 || UpkeepOf(roster, c[0].0) == 0 then []
    else
      var upkeep := UpkeepOf(roster, c[0].0);
      var k := Killed(c[0].1, upkeep, deficit);
      [(c[0].0, k)] + Casualties(c[1..], roster, deficit - upkeep * k)
  }

  function Alive(c: UnitCounts): UnitCounts {
    if c == [] then [] else Entry(c[0].0, c[0].1, Alive(c[1..]))
  }

  /** One type's turn in the loop: what was done, then the rest. */
  lemma BulkTurn(done: UnitCounts, c: UnitCounts, i: nat, roster: seq<UnitSpec>, deficit: int)
    requires i < |c| && deficit > 0 && UpkeepOf(roster, c[i].0) > 0
    ensures var upkeep := UpkeepOf(roster, c[i].0);
            var k := Killed(c[i].1, upkeep, deficit);
            && done + Bulk(c[i..], roster, deficit)
               == done + [(c[i].0, c[i].1 - k)] + Bulk(c[i + 1..], roster, deficit - upkeep * k)
  {
    assert c[i..][1..] == c[i + 1..];
  }

  lemma CasualtyTurn(done: UnitCounts, c: UnitCounts, i: nat, roster: seq<UnitSpec>, deficit: int)
    requires i < |c| && deficit > 0 && UpkeepOf(roster, c[i].0) > 0
    ensures var upkeep := UpkeepOf(roster, c[i].0);
            var k := Killed(c[i].1, upkeep, deficit);
            && done + Casualties(c[i..], roster, deficit)
               == done + [(c[i].0, k)] + Casualties(c[i + 1..], roster, deficit - upkeep * k)
  {
    assert c[i..][1..] == c[i + 1..];
  }

  /** The cull of a list in kill order: what is left of it, entry by entry, and the casualties. */
  method Cull(c: UnitCounts, roster: seq<UnitSpec>, deficit: int) returns (remaining: UnitCounts, casualties: UnitCounts)
    ensures remaining == Bulk(c, roster, deficit)
    ensures casualties == Casualties(c, roster, deficit)
  {
    var done := [];
    var left := deficit;
    casualties := [];
    var i := 0;
    while i < |c| && left > 0 && UpkeepOf(roster, c[i].0) > 0
      invariant 0 <= i <= |c|
      invariant done + Bulk(c[i..], roster, left) == Bulk(c, roster, deficit)
      invariant casualties + Casualties(c[i..], roster, left) == Casualties(c, roster, deficit)
    {
      var upkeep := UpkeepOf(roster, c[i].0);
      var killed := Killed(c[i].1, upkeep, left);
      BulkTurn(done, c, i, roster, left);
      CasualtyTurn(casualties, c, i, roster, left);
      done := done + [(c[i].0, c[i].1 - killed)];
      casualties := casualties + [(c[i].0, killed)];
      left := left - upkeep * killed;
      i := i + 1;
    }
    remaining := done + c[i..];
  }

  /** `starve`: survivors and casualties, in kill order. */
  method Starve(garrison: UnitCounts, roster: seq<UnitSpec>, net: int)
    returns (survivors: UnitCounts, casualties: UnitCounts)
    ensures survivors == Spared(garrison, roster, net)
    ensures casualties == Casualties(KillOrder(garrison, roster), roster, GarrisonUpkeep(garrison, roster) - net)
  {
    var remaining;
    remaining, casualties := Cull(KillOrder(garrison, roster), roster, GarrisonUpkeep(garrison, roster) - net);
    survivors := Retain(remaining);
  }

  /** Who survives a cull down to what `net` can feed. */
  function Spared(garrison: UnitCounts, roster: seq<UnitSpec>, net: int): UnitCounts {
    Alive(Bulk(KillOrder(garrison, roster), roster, GarrisonUpkeep(garrison, roster) - net))
  }

  lemma AliveTurn(done: UnitCounts, c: UnitCounts, i: nat)
    requires i < |c|
    ensures done + Alive(c[i..]) == done + Entry(c[i].0, c[i].1, []) + Alive(c[i + 1..])
  {
    assert c[i..][1..] == c[i + 1..];
    assert Alive(c[i..]) == Entry(c[i].0, c[i].1, []) + Alive(c[i + 1..]);
  }

  method Retain(c: UnitCounts) returns (kept: UnitCounts)
    ensures kept == Alive(c)
  {
    kept := [];
    var i := 0;
    while i < |c|
      invariant 0 <= i <= |c|
      invariant kept + Alive(c[i..]) == Alive(c)
    {
      AliveTurn(kept, c, i);
      kept := kept + Entry(c[i].0, c[i].1, []);
      i := i + 1;
    }
  }

  // ------------------------------------------------------------------ bulk is one at a time

  lemma DivCeil(deficit: int, upkeep: nat)
    requires deficit > 0 && upkeep > 0
    ensures var k := deficit / upkeep + (if deficit % upkeep != 0 then 1 else 0);
            && k >= 1 && upkeep * k >= deficit && upkeep * (k - 1) < deficit
  {
    var q := deficit / upkeep;
    assert deficit == upkeep * q + deficit % upkeep;
    assert upkeep * (q + 1) == upkeep * q + upkeep;
    assert upkeep * (q - 1) == upkeep * q - upkeep;
  }

  /** The bulk count kills nobody beyond need, and either meets the need or takes the whole type. */
  lemma KilledFacts(count: nat, upkeep: nat, deficit: int, k: nat, left: int)
    requires deficit > 0 && upkeep > 0 && count <= U32_MAX
    requires k == Killed(count, upkeep, deficit) && left == deficit - upkeep * k
    ensures k > 0 ==> left + upkeep > 0
    ensures k < count ==> left <= 0
    ensures count > 0 ==> k > 0
  {
    var needed := deficit / upkeep + (if deficit % upkeep != 0 then 1 else 0);
    DivCeil(deficit, upkeep);
    assert upkeep * (k - 1) == upkeep * k - upkeep;
    if k < needed {
      MulMonotone(upkeep, k - 1, needed - 1);
    }
  }

  /** Killing `k` of the first type one by one. */
  lemma {:induction false} KillFromHead(c: UnitCounts, roster: seq<UnitSpec>, deficit: int, k: nat, left: int)
    requires c != [] && k <= c[0].1 && UpkeepOf(roster, c[0].0) > 0
    requires left == deficit - UpkeepOf(roster, c[0].0) * k
    requires k > 0 ==> left + UpkeepOf(roster, c[0].0) > 0
    ensures OneAtATime(c, roster, deficit) == OneAtATime([(c[0].0, c[0].1 - k)] + c[1..], roster, left)
    decreases k
  {
    var upkeep := UpkeepOf(roster, c[0].0);
    if k == 0 {
      assert [(c[0].0, c[0].1)] + c[1..] == c;
    } else {
      var d := OneFewer(c);
      assert upkeep * (k - 1) == upkeep * k - upkeep;
      assert upkeep * (k - 1) >= 0;
      KillFromHead(d, roster, deficit - upkeep, k - 1, left);
      assert d[1..] == c[1..];
    }
  }

  lemma {:induction false} NobodyEats(c: UnitCounts, roster: seq<UnitSpec>, deficit: int)
    requires InOrder(c, roster)
    requires c != [] && UpkeepOf(roster, c[0].0) == 0
    ensures OneAtATime(c, roster, deficit) == c
  {
    if |c| > 1 {
      NobodyEats(c[1..], roster, deficit);
    }
    assert c == [c[0]] + c[1..];
  }

  /** The cull in bulk is the rule of the game: exactly who would have died one at a time dies. */
  lemma {:induction false} BulkIsOneAtATime(c: UnitCounts, roster: seq<UnitSpec>, deficit: int)
    requires InOrder(c, roster)
    requires forall i :: 0 <= i < |c| ==> c[i].1 <= U32_MAX
    ensures Bulk(c, roster, deficit) == OneAtATime(c, roster, deficit)
  {
    if c != [] && deficit > 0 {
      var upkeep := UpkeepOf(roster, c[0].0);
      if upkeep == 0 {
        NobodyEats(c, roster, deficit);
      } else {
        var k := Killed(c[0].1, upkeep, deficit);
        var left := deficit - upkeep * k;
        KilledFacts(c[0].1, upkeep, deficit, k, left);
        KillFromHead(c, roster, deficit, k, left);
        BulkIsOneAtATime(c[1..], roster, left);
        HeadThenRest((c[0].0, c[0].1 - k), c[1..], roster, left);
      }
    }
  }

  lemma HeadThenRest(e: (UnitId, nat), c: UnitCounts, roster: seq<UnitSpec>, left: int)
    requires e.1 == 0 || left <= 0
    ensures OneAtATime([e] + c, roster, left) == [e] + OneAtATime(c, roster, left)
  {
    assert ([e] + c)[1..] == c;
  }

  // ------------------------------------------------------------------ who survives

  lemma {:induction false} AliveFacts(c: UnitCounts, roster: seq<UnitSpec>, u: UnitId)
    ensures Count(Alive(c), u) == Count(c, u)
    ensures GarrisonUpkeep(Alive(c), roster) == GarrisonUpkeep(c, roster)
    ensures Positive(Alive(c))
  {
    if c != [] {
      AliveFacts(c[1..], roster, u);
      EntryFacts(c[0].0, c[0].1, Alive(c[1..]), u);
      if c[0].1 > 0 {
        assert ([c[0]] + Alive(c[1..]))[1..] == Alive(c[1..]);
      }
    }
  }

  lemma {:induction false} BulkConserves(c: UnitCounts, roster: seq<UnitSpec>, deficit: int, u: UnitId)
    ensures Count(Bulk(c, roster, deficit), u) + Count(Casualties(c, roster, deficit), u) == Count(c, u)
    ensures GarrisonUpkeep(Bulk(c, roster, deficit), roster) + GarrisonUpkeep(Casualties(c, roster, deficit), roster)
         == GarrisonUpkeep(c, roster)
  {
    if c != [] && deficit > 0 && UpkeepOf(roster, c[0].0) > 0 {
      var upkeep := UpkeepOf(roster, c[0].0);
      var k := Killed(c[0].1, upkeep, deficit);
      var left := deficit - upkeep * k;
      BulkConserves(c[1..], roster, left, u);
      assert ([(c[0].0, c[0].1 - k)] + Bulk(c[1..], roster, left))[1..] == Bulk(c[1..], roster, left);
      assert ([(c[0].0, k)] + Casualties(c[1..], roster, left))[1..] == Casualties(c[1..], roster, left);
      assert upkeep * (c[0].1 - k) + upkeep * k == upkeep * c[0].1;
    } else {
      assert Casualties(c, roster, deficit) == [];
    }
  }

  /** The cull covers the deficit, or nobody who eats is left. */
  lemma {:induction false} BulkCoversTheDeficit(c: UnitCounts, roster: seq<UnitSpec>, deficit: int)
    requires InOrder(c, roster)
    requires forall i :: 0 <= i < |c| ==> c[i].1 <= U32_MAX
    ensures GarrisonUpkeep(Casualties(c, roster, deficit), roster) >= deficit
         || GarrisonUpkeep(Bulk(c, roster, deficit), roster) == 0
  {
    if c != [] && deficit > 0 {
      var upkeep := UpkeepOf(roster, c[0].0);
      if upkeep == 0 {
        NobodyEatsMeansNoUpkeep(c, roster);
      } else {
        var k := Killed(c[0].1, upkeep, deficit);
        var left := deficit - upkeep * k;
        KilledFacts(c[0].1, upkeep, deficit, k, left);
        BulkCoversTheDeficit(c[1..], roster, left);
        assert ([(c[0].0, c[0].1 - k)] + Bulk(c[1..], roster, left))[1..] == Bulk(c[1..], roster, left);
        assert ([(c[0].0, k)] + Casualties(c[1..], roster, left))[1..] == Casualties(c[1..], roster, left);
      }
    }
  }

  lemma {:induction false} NobodyEatsMeansNoUpkeep(c: UnitCounts, roster: seq<UnitSpec>)
    requires InOrder(c, roster)
    requires c != [] ==> UpkeepOf(roster, c[0].0) == 0
    ensures GarrisonUpkeep(c, roster) == 0
  {
    if c != [] {
      NobodyEatsMeansNoUpkeep(c[1..], roster);
    }
  }

  predicate InU32(c: UnitCounts) {
    c != [] ==> c[0].1 <= U32_MAX && InU32(c[1..])
  }

  lemma {:induction false} InsertInU32(e: (UnitId, nat), c: UnitCounts, roster: seq<UnitSpec>)
    requires e.1 <= U32_MAX && InU32(c)
    ensures InU32(Insert(e, c, roster))
  {
    if c == [] || NoLater(roster, e.0, c[0].0) {
      assert ([e] + c)[1..] == c;
    } else {
      InsertInU32(e, c[1..], roster);
    }
  }

  lemma {:induction false} KillOrderInU32(c: UnitCounts, roster: seq<UnitSpec>)
    requires InU32(c)
    ensures InU32(KillOrder(c, roster))
  {
    if c != [] {
      KillOrderInU32(c[1..], roster);
      InsertInU32(c[0], KillOrder(c[1..], roster), roster);
    }
  }

  lemma {:induction false} InU32At(c: UnitCounts, i: nat)
    requires InU32(c) && i < |c|
    ensures c[i].1 <= U32_MAX
  {
    if i > 0 {
      InU32At(c[1..], i - 1);
    }
  }

  /** Survivors are a sub-army, per unit; they eat no more than `net`, or nothing at all; and they are
      exactly those whom culling one unit at a time would have left. */
  lemma TheCullIsSufficient(garrison: UnitCounts, roster: seq<UnitSpec>, net: int, u: UnitId)
    requires InU32(garrison)
    ensures var survivors := Spared(garrison, roster, net);
            var deficit := GarrisonUpkeep(garrison, roster) - net;
            && Count(survivors, u) <= Count(garrison, u)
            && Count(survivors, u) + Count(Casualties(KillOrder(garrison, roster), roster, deficit), u)
               == Count(garrison, u)
            && (GarrisonUpkeep(survivors, roster) <= net || GarrisonUpkeep(survivors, roster) == 0)
            && survivors == Alive(OneAtATime(KillOrder(garrison, roster), roster, deficit))
  {
    var sorted := KillOrder(garrison, roster);
    var deficit := GarrisonUpkeep(garrison, roster) - net;
    KillOrderFacts(garrison, roster, u);
    KillOrderInU32(garrison, roster);
    forall i | 0 <= i < |sorted| ensures sorted[i].1 <= U32_MAX { InU32At(sorted, i); }
    BulkIsOneAtATime(sorted, roster, deficit);
    BulkConserves(sorted, roster, deficit, u);
    BulkCoversTheDeficit(sorted, roster, deficit);
    AliveFacts(Bulk(sorted, roster, deficit), roster, u);
  }
}
