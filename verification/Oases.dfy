/** Oases: who may hold how many, and how wild animals come back to the ones nobody holds. */
module Oases {
  import opened Economy
  import opened Options
  import opened Armies

  // ------------------------------------------------------------------ occupation

  /** Who owns each oasis, and how many each village's Outpost lets it hold. */
  datatype Land = Land(owners: seq<Option<nat>>, capacity: seq<nat>)

  /** How many oases `v` holds. */
  function Held(owners: seq<Option<nat>>, v: nat): nat {
    if owners == [] then 0 else (if owners[0] == Some(v) then 1 else 0) + Held(owners[1..], v)
  }

  /** The oases from the `k`-th on that `v` holds. */
  function HeldBy(owners: seq<Option<nat>>, v: nat, k: nat): set<nat> {
    set i: nat | k <= i < |owners| && owners[i] == Some(v)
  }

  lemma {:induction false} HeldCountsItsOases(owners: seq<Option<nat>>, v: nat, k: nat)
    requires k <= |owners|
    ensures Held(owners[k..], v) == |HeldBy(owners, v, k)|
    decreases |owners| - k
  {
    if k == |owners| {
      assert HeldBy(owners, v, k) == {};
    } else {
      HeldCountsItsOases(owners, v, k + 1);
      assert owners[k..][1..] == owners[k + 1..];
      assert HeldBy(owners, v, k) == HeldBy(owners, v, k + 1) + if owners[k] == Some(v) then {k} else {};
    }
  }

  datatype Ownership = Unchanged | Occupy(village: nat) | Free

  /** What a battle decides, from the owner the oasis was found to have and the number of oases its village
      was found to hold. */
  function Decide(owner: Option<nat>, home: nat, won: bool, held: nat, capacity: nat): Ownership {
    if !won then Unchanged
    else if held < capacity then Occupy(home)
    else if owner.Some? then Free
    else Unchanged
  }

  function OwnerAfter(outcome: Ownership, owner: Option<nat>): Option<nat> {
    match outcome
    case Unchanged => owner
    case Occupy(v) => Some(v)
    case Free => None
  }

  function Outcome(land: Land, oasis: nat, home: nat, won: bool, held: nat): Ownership
    requires oasis < |land.owners| && home < |land.capacity|
  {
    Decide(land.owners[oasis], home, won, held, land.capacity[home])
  }

  function Settled(land: Land, oasis: nat, outcome: Ownership): Land
    requires oasis < |land.owners|
  {
    land.(owners := land.owners[oasis := OwnerAfter(outcome, land.owners[oasis])])
  }

  /** A resolved attack (read and apply with no other resolve between), or a rise of an Outpost. */
  datatype Event = Resolve(oasis: nat, home: nat, won: bool) | Raise(village: nat, capacity: nat)

  function After(land: Land, e: Event): Land {
    match e
    case Resolve(oasis, home, won) =>
      if oasis < |land.owners| && home < |land.capacity|
      then Settled(land, oasis, Outcome(land, oasis, home, won, Held(land.owners, home)))
      else land
    case Raise(v, c) =>
      if v < |land.capacity| && land.capacity[v] <= c then land.(capacity := land.capacity[v := c]) else land
  }

  /** A lost battle changes nothing. A won one gives the oasis to the attacker exactly if it holds fewer
      oases than it may; without room for it the oasis is nobody's afterwards. No other oasis ever changes
      hands, and no village's room. */
  lemma ABattleDecidesItsOasis(land: Land, oasis: nat, home: nat, won: bool)
    requires oasis < |land.owners| && home < |land.capacity|
    ensures var after := After(land, Resolve(oasis, home, won));
            && |after.owners| == |land.owners| && after.capacity == land.capacity
            && (forall o :: 0 <= o < |land.owners| && o != oasis ==> after.owners[o] == land.owners[o])
            && (!won ==> after == land)
            && (won ==> (after.owners[oasis] == Some(home) <==> Held(land.owners, home) < land.capacity[home]))
            && (won && Held(land.owners, home) >= land.capacity[home] ==> after.owners[oasis] == None)
  {
    assert land.owners[oasis := land.owners[oasis]] == land.owners;
  }

  /** A rise of an Outpost gives room to its village and changes nothing else; it is never a fall. */
  lemma ARiseGivesRoom(land: Land, village: nat, capacity: nat)
    requires village < |land.capacity|
    ensures After(land, Raise(village, capacity))
         == land.(capacity := land.capacity[village := Max(capacity, land.capacity[village])])
  {
    assert land.capacity[village := land.capacity[village]] == land.capacity;
  }

  function AfterAll(land: Land, es: seq<Event>): Land
    decreases |es|
  {
    if es == [] then land else AfterAll(After(land, es[0]), es[1..])
  }

  ghost predicate WithinCapacity(land: Land) {
    forall v :: 0 <= v < |land.capacity| ==> Held(land.owners, v) <= land.capacity[v]
  }

  lemma {:induction false} HeldAfterChange(owners: seq<Option<nat>>, i: nat, o: Option<nat>, v: nat)
    requires i < |owners|
    ensures Held(owners[i := o], v)
         == Held(owners, v) - (if owners[i] == Some(v) then 1 else 0) + (if o == Some(v) then 1 else 0)
  {
    if i == 0 {
      assert owners[0 := o][1..] == owners[1..];
    } else {
      assert owners[i := o][1..] == owners[1..][i - 1 := o];
      HeldAfterChange(owners[1..], i - 1, o, v);
    }
  }

  lemma ResolvingKeepsWithinCapacity(land: Land, e: Event)
    requires WithinCapacity(land)
    ensures WithinCapacity(After(land, e))
  {
    if e.Resolve? && e.oasis < |land.owners| && e.home < |land.capacity| {
      forall v | 0 <= v < |land.capacity| ensures Held(After(land, e).owners, v) <= land.capacity[v] {
        HeldAfterChange(land.owners, e.oasis, Some(e.home), v);
        HeldAfterChange(land.owners, e.oasis, land.owners[e.oasis], v);
        HeldAfterChange(land.owners, e.oasis, None, v);
      }
    }
  }

  /** With one scheduler resolving battles one after the other, and Outposts that do not fall, no
      village ever holds more oases than its Outpost allows. */
  lemma {:induction false} OasesNeverExceedCapacity(land: Land, es: seq<Event>)
    requires WithinCapacity(land)
    ensures WithinCapacity(AfterAll(land, es))
    decreases |es|
  {
    if es != [] {
      ResolvingKeepsWithinCapacity(land, es[0]);
      OasesNeverExceedCapacity(After(land, es[0]), es[1..]);
    }
  }

  /** A battle applied on an earlier count stays within capacity exactly if, were it to occupy, the
      village has room for the oasis by then (or holds it already). */
  lemma AppliedLateIsWithinCapacityIffThereIsRoom(land: Land, oasis: nat, home: nat, held: nat)
    requires WithinCapacity(land) && oasis < |land.owners| && home < |land.capacity| && held < land.capacity[home]
    ensures WithinCapacity(Settled(land, oasis, Outcome(land, oasis, home, true, held)))
       <==> Held(land.owners, home) < land.capacity[home] || land.owners[oasis] == Some(home)
  {
    var after := Settled(land, oasis, Outcome(land, oasis, home, true, held));
    forall v | 0 <= v < |land.capacity|
      ensures Held(after.owners, v) <= land.capacity[v]
         <==> v != home || Held(land.owners, home) < land.capacity[home] || land.owners[oasis] == Some(home)
    {
      HeldAfterChange(land.owners, oasis, Some(home), v);
    }
  }

  /** Two schedulers that both count before either applies give a village with one place left two oases. */
  lemma TwoSchedulersExceedCapacity(land: Land, here: nat, there: nat, home: nat)
    requires WithinCapacity(land) && here < |land.owners| && there < |land.owners| && here != there
    requires home < |land.capacity| && Held(land.owners, home) + 1 == land.capacity[home]
    requires land.owners[here] != Some(home) && land.owners[there] != Some(home)
    ensures var held := Held(land.owners, home);
            var one := Settled(land, here, Outcome(land, here, home, true, held));
            var two := Settled(one, there, Outcome(one, there, home, true, held));
            Held(two.owners, home) == two.capacity[home] + 1
  {
    HeldAfterChange(land.owners, here, Some(home), home);
    HeldAfterChange(land.owners[here := Some(home)], there, Some(home), home);
  }

  // ------------------------------------------------------------------ regrow

  /** An unoccupied oasis: its animals, and when they next grow. */
  datatype Wild = Wild(garrison: UnitCounts, regrowAt: Option<int>)

  /** The seeded strength, what one step adds, and the time between steps (ms, at least a second). */
  datatype Rules = Rules(seeded: UnitCounts, perStep: nat, periodMs: nat)

  /** How many of the first entry of that id there are. */
  function CountOfFirst(c: UnitCounts, unit: UnitId): nat {
    if c == [] then 0 else if c[0].0 == unit then c[0].1 else CountOfFirst(c[1..], unit)
  }

  /** `regrow_step`: the animals after a step, and whether they are at full strength. */
  function RegrowStep(current: UnitCounts, r: Rules): (UnitCounts, bool) {
    if r.seeded == [] then ([], true)
    else
      var (id, target) := r.seeded[0];
      var next := Min(CountOfFirst(current, id) + Max(r.perStep, 1), target);
      (if next == 0 then [] else [(id, next)], next >= target)
  }

  /** One scheduler tick: the step is claimed if due, and the next one is anchored to the instant it was
      due, not to when it was done. */
  function DoTick(w: Wild, now: int, r: Rules): Wild {
    if w.regrowAt.None? || w.regrowAt.value > now then w
    else
      var (garrison, full) := RegrowStep(w.garrison, r);
      Wild(garrison, if full then None else Some(w.regrowAt.value + r.periodMs))
  }

  /** The instant a tick applies a step for, if it does. */
  function Applied(w: Wild, now: int): seq<int> {
    if w.regrowAt.Some? && w.regrowAt.value <= now then [w.regrowAt.value] else []
  }

  function Ticks(w: Wild, nows: seq<int>, r: Rules): (Wild, seq<int>)
    decreases |nows|
  {
    if nows == [] then (w, [])
    else
      var (last, instants) := Ticks(DoTick(w, nows[0], r), nows[1..], r);
      (last, Applied(w, nows[0]) + instants)
  }

  /** The wild oasis after `n` steps from the battle that scheduled the first one at `first`. */
  function Grown(w: Wild, n: nat, first: int, r: Rules): Wild {
    if n == 0 then w
    else
      var (garrison, full) := RegrowStep(Grown(w, n - 1, first, r).garrison, r);
      Wild(garrison, if full then None else Some(first + n * r.periodMs))
  }

  /** The instants of steps `m + 1 .. n`. */
  function Instants(first: int, m: nat, n: nat, r: Rules): seq<int>
    requires m <= n
    decreases n - m
  {
    if m == n then [] else [first + m * r.periodMs] + Instants(first, m + 1, n, r)
  }

  /** Animals still missing. */
  function Deficit(w: Wild, r: Rules): nat {
    if r.seeded == [] then 0 else Max(0, r.seeded[0].1 - CountOfFirst(w.garrison, r.seeded[0].0))
  }

  /** Undisturbed, the steps happen for exactly the instants `battle + period`, `battle + 2 * period`, …,
      each once and in order, whenever the scheduler looks: after any ticks the oasis is where some
      number of steps brings it. */
  lemma {:induction false} RegrowKeepsItsBeat(w: Wild, m: nat, nows: seq<int>, first: int, r: Rules) returns (n: nat)
    requires w.regrowAt == Some(first)
    ensures m <= n
    ensures Ticks(Grown(w, m, first, r), nows, r) == (Grown(w, n, first, r), Instants(first, m, n, r))
    decreases |nows|
  {
    var here := Grown(w, m, first, r);
    BeatOf(w, m, first, r);
    if nows == [] {
      n := m;
    } else if here.regrowAt.Some? && here.regrowAt.value <= nows[0] {
      assert DoTick(here, nows[0], r) == Grown(w, m + 1, first, r) by {
        assert first + m * r.periodMs + r.periodMs == first + (m + 1) * r.periodMs;
      }
      n := RegrowKeepsItsBeat(w, m + 1, nows[1..], first, r);
    } else {
      n := RegrowKeepsItsBeat(w, m, nows[1..], first, r);
      assert [] + Instants(first, m, n, r) == Instants(first, m, n, r);
    }
  }

  lemma BeatOf(w: Wild, m: nat, first: int, r: Rules)
    requires w.regrowAt == Some(first)
    ensures var here := Grown(w, m, first, r);
            here.regrowAt.Some? ==> here.regrowAt.value == first + m * r.periodMs
  {
  }

  /** Each step makes the deficit strictly smaller until it is none; the schedule then stops. Before
      that it does not stop. */
  lemma EachStepShrinksTheDeficit(w: Wild, now: int, r: Rules)
    requires w.regrowAt.Some? && w.regrowAt.value <= now
    ensures var after := DoTick(w, now, r);
            && (Deficit(w, r) > 0 ==> Deficit(after, r) == Max(0, Deficit(w, r) - Max(r.perStep, 1)))
            && (Deficit(w, r) == 0 ==> Deficit(after, r) == 0)
            && (after.regrowAt.None? <==> Deficit(after, r) == 0)
  {
  }

  /** So after `deficit / step` steps, rounded up, the animals are back at their seeded strength. */
  lemma {:induction false} RegrowReachesFullStrength(w: Wild, n: nat, first: int, r: Rules)
    requires w.regrowAt == Some(first)
    ensures Deficit(Grown(w, n, first, r), r) == Max(0, Deficit(w, r) - n * Max(r.perStep, 1))
    ensures n > 0 ==> (Grown(w, n, first, r).regrowAt.None? <==> Deficit(w, r) <= n * Max(r.perStep, 1))
  {
    var step := Max(r.perStep, 1);
    if n > 0 {
      RegrowReachesFullStrength(w, n - 1, first, r);
      var before := Grown(w, n - 1, first, r);
      EachStepShrinksTheDeficit(before.(regrowAt := Some(0)), 0, r);
      assert n * step == (n - 1) * step + step;
      assert (n - 1) * step >= 0;
    }
  }

  /** The regrow worker over one oasis. */
  class Reserve {
    var owner: Option<nat>
    var garrison: UnitCounts
    var regrowAt: Option<int>
    const rules: Rules

    constructor (w: Wild, r: Rules)
      ensures owner == None && State() == w && rules == r
    {
      owner, garrison, regrowAt, rules := None, w.garrison, w.regrowAt, r;
    }

    function State(): Wild
      reads this
    {
      Wild(garrison, regrowAt)
    }

    /** `process_due_oasis_regrow` for this oasis. `occupiedBy` is whoever takes it between the claim and
        the apply: then the guard finds the oasis occupied and leaves it alone. Otherwise a due step
        brings the animals closer to their strength by one step's worth, or all the way, and the next is
        due one period after this one was, until there is none to do. */
    method ProcessDue(now: int, occupiedBy: Option<nat>)
      modifies this
      ensures owner == if occupiedBy.Some? then occupiedBy else old(owner)
      ensures State() == if old(owner).None? && occupiedBy.None? then DoTick(old(State()), now, rules) else old(State())
      ensures owner.Some? ==> State() == old(State())
      ensures owner.None? && old(regrowAt).Some? && old(regrowAt).value <= now ==>
                && Deficit(State(), rules) == Max(0, old(Deficit(State(), rules)) - Max(rules.perStep, 1))
                && regrowAt == if Deficit(State(), rules) == 0 then None else Some(old(regrowAt).value + rules.periodMs)
    {
      if regrowAt.Some? && regrowAt.value <= now { EachStepShrinksTheDeficit(State(), now, rules); }
      var due := owner.None? && regrowAt.Some? && regrowAt.value <= now;
      var (next, full) := RegrowStep(garrison, rules);
      var claimed := regrowAt;
      if occupiedBy.Some? {
        owner := occupiedBy;
      }
      if due && owner.None? && regrowAt == claimed {
        garrison := next;
        regrowAt := if full then None else Some(claimed.value + rules.periodMs);
      }
    }
  }
}
