/**
 Every soldier of the world: garrisons, groups stationed at other villages, oasis garrisons and
 armies on the road, under the steps of players and scheduler.

 A battle, an oasis fight, a cull and a regrow are computed from earlier reads and applied later;
 here every query (`LookGarrison`, `LookGuests`, `LookRow`, `LookOasis`) and every apply is a step of
 its own, so anything may happen in between. Villages that are not founded yet are villages with
 nobody in them.
 */
module Troops {
  import opened Armies
  import opened Options
  import opened Sums
  import Oases

  type Army = multiset<UnitId>

  /** `Attack` stands for raids too. */
  datatype Kind = Reinforce | Return | Attack | Scout | OasisAttack | OasisReinforce | Settle
  datatype Status = InTransit | Processing | Done

  /** `target` is a village, or an oasis for the oasis kinds; `loot` says that there is any aboard. */
  datatype Movement = Movement(kind: Kind, home: nat, target: nat, troops: Army, status: Status, loot: bool)

  /** `seeded` is the wild garrison the world seed gives it until its first fight materialises it. */
  datatype Oasis = Oasis(owner: Option<nat>, materialised: bool, seeded: Army, troops: Army)

  /** What a resolver has read: of a village, its garrison, the groups stationed there (by home village)
      and the stamp of its resource row, each by a query of its own; of an oasis, its defenders and its owner. */
  datatype Sight =
    | OfVillage(village: nat, garrison: Option<Army>, groups: Option<seq<Army>>, stamp: Option<nat>)
    | OfOasis(oasis: nat, troops: Army, owner: Option<nat>)

  /** The census books: who came into the world (`spawned`: wild animals and rewards), and who left it, as
      the game records it. */
  datatype Books = Books(opening: Army, trained: Army, spawned: Army, dead: Army, settled: Army, forfeited: Army)

  datatype World = World(garrisons: seq<Army>, stamps: seq<nat>, stationed: seq<seq<Army>>, oases: seq<Oasis>,
                         movements: seq<Movement>, claims: set<nat>, sights: map<nat, Sight>, books: Books)

  datatype Op =
    | Train(village: nat, unit: UnitId, n: nat)
    | Reward(village: nat, unit: UnitId, n: nat)
    | Send(village: nat, kind: Kind, target: nat, list: UnitCounts)
    | RecallGroup(host: nat, home: nat)
    | RecallOasis(oasis: nat, home: nat)
    | Claim(leg: nat)
    | Abandon(leg: nat)
    | Crash
    | Requeue
    | Select(sid: nat, village: nat)
    | LookGarrison(sid: nat)
    | LookGuests(sid: nat)
    | LookRow(sid: nat)
    | LookOasis(sid: nat, oasis: nat)
    | Arrive(leg: nat, seen: nat)
    | Fight(sid: nat, leg: nat, garrisonLoss: Army, groupLoss: seq<Army>, attackerLoss: Army, looted: bool,
            conquered: bool)
    | Spy(leg: nat, loss: Army)
    | FightOasis(sid: nat, leg: nat, defenderLoss: Army, attackerLoss: Army, won: bool, held: nat, capacity: nat)
    | ArriveAtOasis(leg: nat, stillOwned: bool)
    | Found(leg: nat, founded: bool)
    | Starve(sid: nat, survivors: Army)
    | Regrow(sid: nat, next: Army)

  // ------------------------------------------------------------------ the tables

  /** The soldiers of a composition list. */
  function Force(list: UnitCounts): Army {
    if list == [] then multiset{}
    else
      var rest := Force(list[1..]);
      rest[list[0].0 := rest[list[0].0] + list[0].1]
  }

  lemma {:induction false} ForceCounts(list: UnitCounts, u: UnitId)
    ensures Force(list)[u] == Count(list, u)
  {
    if list != [] {
      ForceCounts(list[1..], u);
    }
  }

  function NonZero(list: UnitCounts): UnitCounts {
    if list == [] then [] else Entry(list[0].0, list[0].1, NonZero(list[1..]))
  }

  /** A village's `village_units` rows. */
  class UnitTable {
    var units: Army

    constructor (garrison: Army)
      ensures units == garrison
    {
      units := garrison;
    }

    /** Decrement or delete each stack, all or nothing: it succeeds exactly if the garrison covers the
        whole composition, summed over repeated unit ids, and then takes exactly that. */
    method GuardedDebit(list: UnitCounts) returns (ok: bool)
      modifies this
      ensures ok <==> Force(list) <= old(units)
      ensures units == if ok then old(units) - Force(list) else old(units)
    {
      var left := units;
      var i := 0;
      while i < |list|
        invariant 0 <= i <= |list| && units == old(units)
        invariant Force(list) <= units <==> Force(list[i..]) <= left
        invariant Force(list) <= units ==> units - Force(list) == left - Force(list[i..])
      {
        var unit, n := list[i].0, list[i].1;
        DebitOne(left, list[i..]);
        if left[unit] < n {
          return false;
        }
        left := left[unit := left[unit] - n];
        assert list[i..][1..] == list[i + 1..];
        i := i + 1;
      }
      assert list[i..] == [] && left - multiset{} == left;
      units := left;
      ok := true;
    }

    /** Subtract casualties, a stack losing at most what it holds. */
    method SubtractUnits(losses: UnitCounts)
      modifies this
      ensures units == old(units) - Force(losses)
    {
      var i := 0;
      while i < |losses|
        invariant 0 <= i <= |losses|
        invariant units - Force(losses[i..]) == old(units) - Force(losses)
      {
        var unit, n := losses[i].0, losses[i].1;
        SubtractOne(units, losses[i..]);
        units := units[unit := if units[unit] > n then units[unit] - n else 0];
        assert losses[i..][1..] == losses[i + 1..];
        i := i + 1;
      }
    }
  }

  lemma DebitOne(left: Army, list: UnitCounts)
    requires list != []
    ensures var unit, n := list[0].0, list[0].1;
            && (Force(list) <= left <==> left[unit] >= n && Force(list[1..]) <= left[unit := left[unit] - n])
            && (Force(list) <= left ==> left - Force(list) == left[unit := left[unit] - n] - Force(list[1..]))
  {
    var unit, n := list[0].0, list[0].1;
    assert Force(list)[unit] == Force(list[1..])[unit] + n;
    if left[unit] >= n {
      var less := left[unit := left[unit] - n];
      if Force(list[1..]) <= less {
        forall u ensures Force(list)[u] <= left[u] {
          assert Force(list[1..])[u] <= less[u];
        }
      }
      if Force(list) <= left {
        forall u ensures Force(list[1..])[u] <= less[u] {
          assert Force(list)[u] <= left[u];
        }
      }
    }
  }

  lemma SubtractOne(units: Army, losses: UnitCounts)
    requires losses != []
    ensures units - Force(losses)
         == units[losses[0].0 := if units[losses[0].0] > losses[0].1 then units[losses[0].0] - losses[0].1 else 0]
          - Force(losses[1..])
  {
  }

  // ------------------------------------------------------------------ the steps

  predicate Shaped(w: World) {
    && |w.stamps| == |w.stationed| == |w.garrisons|
    && forall h :: 0 <= h < |w.stationed| ==> |w.stationed[h]| == |w.garrisons|
  }

  function WithGarrison(w: World, v: nat, troops: Army, settles: bool): World
    requires v < |w.garrisons| == |w.stamps|
  {
    w.(garrisons := w.garrisons[v := troops],
       stamps := if settles then w.stamps[v := w.stamps[v] + 1] else w.stamps)
  }

  function WithGroup(w: World, host: nat, home: nat, troops: Army): World
    requires host < |w.stationed| && home < |w.stationed[host]|
  {
    w.(stationed := w.stationed[host := w.stationed[host][home := troops]])
  }

  function WithOasis(w: World, o: nat, oasis: Oasis): World
    requires o < |w.oases|
  {
    w.(oases := w.oases[o := oasis])
  }

  function Launched(w: World, m: Movement): World {
    w.(movements := w.movements + [m])
  }

  /** The army travels home, unless nobody is left. */
  function Homeward(w: World, home: nat, troops: Army, loot: bool): World {
    if troops == multiset{} then w else Launched(w, Movement(Return, home, home, troops, InTransit, loot))
  }

  function Closed(w: World, leg: nat): World
    requires leg < |w.movements|
  {
    w.(movements := w.movements[leg := w.movements[leg].(status := Done)], claims := w.claims - {leg})
  }

  predicate Held(w: World, leg: nat, kind: Kind) {
    leg in w.claims && leg < |w.movements| && w.movements[leg].kind == kind
  }

  function Buried(w: World, dead: Army): World {
    w.(books := w.books.(dead := w.books.dead + dead))
  }

  predicate RowCovers(groups: seq<Army>, loss: seq<Army>) {
    |loss| == |groups| && forall h :: 0 <= h < |groups| ==> loss[h] <= groups[h]
  }

  function RowMinus(groups: seq<Army>, loss: seq<Army>): (r: seq<Army>)
    requires |loss| == |groups|
    ensures |r| == |groups|
  {
    if groups == [] then [] else [groups[0] - loss[0]] + RowMinus(groups[1..], loss[1..])
  }

  function Pool(groups: seq<Army>): Army {
    if groups == [] then multiset{} else groups[0] + Pool(groups[1..])
  }

  /** Each surviving group of a conquered village goes home; `home` is the village of the first one. */
  function Returns(groups: seq<Army>, home: nat): seq<Movement>
    decreases |groups|
  {
    if groups == [] then []
    else
      var rest := Returns(groups[1..], home + 1);
      if groups[0] == multiset{} then rest else [Movement(Return, home, home, groups[0], InTransit, false)] + rest
  }

  predicate Forfeits(m: Movement, v: nat) { m.home == v && m.status == InTransit }

  /** A conquered village's armies in transit are cancelled. */
  function Cancelled(ms: seq<Movement>, v: nat): (r: seq<Movement>)
    ensures |r| == |ms|
  {
    if ms == [] then []
    else [if Forfeits(ms[0], v) then ms[0].(status := Done) else ms[0]] + Cancelled(ms[1..], v)
  }

  function Forfeited(ms: seq<Movement>, v: nat): Army {
    if ms == [] then multiset{}
    else (if Forfeits(ms[0], v) then ms[0].troops else multiset{}) + Forfeited(ms[1..], v)
  }

  /** A return with loot aboard also credits its home, guarded on the resource row it settled from. */
  predicate MayLand(w: World, m: Movement, seen: nat) {
    m.kind == Return && m.loot ==> m.target < |w.stamps| && w.stamps[m.target] == seen
  }

  /** Arrivals at a village: a reinforcement is stationed, a return rejoins the garrison. If the guard
      of its loot refuses, nothing of it happens. */
  function DoArrive(w: World, leg: nat, seen: nat, settling: bool): World
    requires Shaped(w)
  {
    if !(leg in w.claims && leg < |w.movements|) then w
    else
      var m := w.movements[leg];
      if m.target >= |w.garrisons| || m.home >= |w.garrisons| || !MayLand(w, m, seen) then w
      else if m.kind == Reinforce then
        Closed(WithGroup(w, m.target, m.home, w.stationed[m.target][m.home] + m.troops), leg)
      else if m.kind == Return then
        Closed(WithGarrison(w, m.target, w.garrisons[m.target] + m.troops, m.loot || settling), leg)
      else w
  }

  /** The resolver has read the battlefield, and the losses are within what it read. */
  predicate FightReady(w: World, sid: nat, leg: nat, garrisonLoss: Army, groupLoss: seq<Army>, attackerLoss: Army) {
    && Held(w, leg, Attack)
    && sid in w.sights && w.sights[sid].OfVillage?
    && var s := w.sights[sid];
       && s.village == w.movements[leg].target && s.village < |w.garrisons| == |w.stamps|
       && s.garrison.Some? && s.groups.Some?
       && |groupLoss| == |w.garrisons|
       && garrisonLoss <= s.garrison.value && RowCovers(s.groups.value, groupLoss)
       && attackerLoss <= w.movements[leg].troops
  }

  /** The loot is debited from the resource row it was settled from. */
  predicate DebitPasses(w: World, sid: nat) {
    && sid in w.sights && w.sights[sid].OfVillage? && w.sights[sid].village < |w.stamps|
    && w.sights[sid].stamp == Some(w.stamps[w.sights[sid].village])
  }

  /** The battle applies: all in one transaction, so a refused debit takes everything else back. */
  predicate CanFight(w: World, sid: nat, leg: nat, garrisonLoss: Army, groupLoss: seq<Army>, attackerLoss: Army,
                     looted: bool) {
    FightReady(w, sid, leg, garrisonLoss, groupLoss, attackerLoss) && (looted ==> DebitPasses(w, sid))
  }

  /** The losses of a battle, taken from what stands there now. */
  function Struck(w: World, v: nat, garrisonLoss: Army, groupLoss: seq<Army>, settles: bool): World
    requires Shaped(w) && v < |w.garrisons| == |groupLoss|
  {
    var w' := WithGarrison(w, v, w.garrisons[v] - garrisonLoss, settles);
    w'.(stationed := w.stationed[v := RowMinus(w.stationed[v], groupLoss)])
  }

  /** The village changes hands: its garrison is emptied, the groups the battle spared (as the battle
      read them) go home, and what the village had in transit is forfeited. */
  function Conquered(w: World, v: nat, spared: seq<Army>): World
    requires Shaped(w) && v < |w.garrisons|
  {
    var ms := w.movements + Returns(spared, 0);
    w.(garrisons := w.garrisons[v := multiset{}],
       stationed := w.stationed[v := Nobody(|w.garrisons|)],
       movements := Cancelled(ms, v),
       books := w.books.(forfeited := w.books.forfeited + Forfeited(ms, v)))
  }

  function Nobody(n: nat): (r: seq<Army>)
    ensures |r| == n
  {
    if n == 0 then [] else [multiset{}] + Nobody(n - 1)
  }

  function DoFight(w: World, sid: nat, leg: nat, garrisonLoss: Army, groupLoss: seq<Army>, attackerLoss: Army,
                   looted: bool, conquered: bool, settling: bool): World
    requires Shaped(w)
  {
    if !CanFight(w, sid, leg, garrisonLoss, groupLoss, attackerLoss, looted) then w
    else
      var m := w.movements[leg];
      var w1 := Struck(Closed(w, leg), m.target, garrisonLoss, groupLoss, looted || settling);
      var w2 := Buried(Homeward(w1, m.home, m.troops - attackerLoss, looted), garrisonLoss + Pool(groupLoss) + attackerLoss);
      if conquered then Conquered(w2, m.target, RowMinus(w.sights[sid].groups.value, groupLoss)) else w2
  }

  function DoSpy(w: World, leg: nat, loss: Army): World {
    if !Held(w, leg, Kind.Scout) || !(loss <= w.movements[leg].troops) then w
    else
      var m := w.movements[leg];
      Buried(Homeward(Closed(w, leg), m.home, m.troops - loss, false), loss)
  }

  predicate CanFightOasis(w: World, sid: nat, leg: nat, defenderLoss: Army, attackerLoss: Army) {
    && Held(w, leg, OasisAttack)
    && sid in w.sights && w.sights[sid].OfOasis?
    && w.sights[sid].oasis == w.movements[leg].target < |w.oases|
    && defenderLoss <= w.sights[sid].troops
    && attackerLoss <= w.movements[leg].troops
  }

  /** Whose the oasis is after the battle: decided from the owner read and the number of oases the
      attacker's village was found to hold. */
  function OwnerAfterFight(w: World, sid: nat, leg: nat, won: bool, held: nat, capacity: nat): Option<nat>
    requires leg < |w.movements| && w.movements[leg].target < |w.oases| && sid in w.sights && w.sights[sid].OfOasis?
  {
    var m := w.movements[leg];
    Oases.OwnerAfter(Oases.Decide(w.sights[sid].owner, m.home, won, held, capacity), w.oases[m.target].owner)
  }

  /** The oasis garrison is replaced by what the battle left of the defenders it had read. */
  function DoFightOasis(w: World, sid: nat, leg: nat, defenderLoss: Army, attackerLoss: Army, won: bool, held: nat,
                        capacity: nat): World
  {
    if !CanFightOasis(w, sid, leg, defenderLoss, attackerLoss) then w
    else
      var m := w.movements[leg];
      var o := w.oases[m.target];
      var seen := w.sights[sid].troops;
      var owner := OwnerAfterFight(w, sid, leg, won, held, capacity);
      var w1 := WithOasis(Closed(w, leg), m.target, Oasis(owner, true, o.seeded, seen - defenderLoss));
      var w2 := if o.materialised then w1 else w1.(books := w1.books.(spawned := w1.books.spawned + seen));
      Buried(Homeward(w2, m.home, m.troops - attackerLoss, false), defenderLoss + attackerLoss)
  }

  function DoArriveAtOasis(w: World, leg: nat, stillOwned: bool): World {
    if !Held(w, leg, OasisReinforce) || w.movements[leg].target >= |w.oases| then w
    else
      var m := w.movements[leg];
      var o := w.oases[m.target];
      if !stillOwned then Launched(Closed(w, leg), Movement(Return, m.home, m.home, m.troops, InTransit, false))
      else if !o.materialised then w
      else WithOasis(Closed(w, leg), m.target, o.(troops := o.troops + m.troops))
  }

  /** The settlers become the new village, or go home. */
  function DoFound(w: World, leg: nat, founded: bool): World {
    if !Held(w, leg, Settle) then w
    else
      var m := w.movements[leg];
      if founded then Closed(w, leg).(books := w.books.(settled := w.books.settled + m.troops))
      else Launched(Closed(w, leg), Movement(Return, m.home, m.home, m.troops, InTransit, false))
  }

  predicate CanStarve(w: World, sid: nat, survivors: Army) {
    && sid in w.sights && w.sights[sid].OfVillage?
    && w.sights[sid].village < |w.garrisons| == |w.stamps|
    && w.sights[sid].garrison.Some? && survivors <= w.sights[sid].garrison.value
    && DebitPasses(w, sid)
  }

  /** The cull: guarded on the resource row, it replaces the whole garrison by the survivors. */
  function DoStarve(w: World, sid: nat, survivors: Army): World {
    if !CanStarve(w, sid, survivors) then w
    else
      var s := w.sights[sid];
      Buried(WithGarrison(w, s.village, survivors, true), s.garrison.value - survivors)
  }

  predicate CanRegrow(w: World, sid: nat) {
    && sid in w.sights && w.sights[sid].OfOasis?
    && var o := w.sights[sid].oasis;
       o < |w.oases| && w.oases[o].materialised && w.oases[o].owner.None?
  }

  /** A regrow tick replaces the wild garrison by its topped-up size. */
  function DoRegrow(w: World, sid: nat, next: Army): World {
    if !CanRegrow(w, sid) then w
    else
      var s := w.sights[sid];
      var w' := WithOasis(w, s.oasis, w.oases[s.oasis].(troops := next));
      w'.(books := w.books.(spawned := w.books.spawned + (next - s.troops)))
  }

  function DoSend(w: World, v: nat, kind: Kind, target: nat, list: UnitCounts, settling: bool): World {
    if !(v < |w.garrisons| == |w.stamps| && kind != Return) then w
    else if !(Force(list) <= w.garrisons[v]) then w
    else if !UniqueKeys(NonZero(list)) then w // a second row for the same unit violates the key: rolled back
    else Launched(WithGarrison(w, v, w.garrisons[v] - Force(list), settling),
                  Movement(kind, v, target, Force(list), InTransit, false))
  }

  function DoRecallGroup(w: World, host: nat, home: nat): World {
    if !(host < |w.stationed| && home < |w.stationed[host]|) then w
    else if w.stationed[host][home] == multiset{} then w
    else Launched(WithGroup(w, host, home, multiset{}),
                  Movement(Return, home, home, w.stationed[host][home], InTransit, false))
  }

  function DoRecallOasis(w: World, o: nat, home: nat): World {
    if !(o < |w.oases| && w.oases[o].materialised) || w.oases[o].troops == multiset{} then w
    else Launched(WithOasis(w, o, w.oases[o].(troops := multiset{})),
                  Movement(Return, home, home, w.oases[o].troops, InTransit, false))
  }

  function Requeued(ms: seq<Movement>): (r: seq<Movement>)
    ensures |r| == |ms|
    ensures forall i :: 0 <= i < |r| ==>
              r[i] == ms[i].(status := if ms[i].status == Processing then InTransit else ms[i].status)
  {
    seq(|ms|, i requires 0 <= i < |ms| =>
      ms[i].(status := if ms[i].status == Processing then InTransit else ms[i].status))
  }

  /** The session has a real village selected. */
  predicate Faces(w: World, sid: nat) {
    && sid in w.sights && w.sights[sid].OfVillage?
    && w.sights[sid].village < |w.garrisons| && w.sights[sid].village < |w.stationed| && w.sights[sid].village < |w.stamps|
  }

  /** Claims and reads: nobody moves. */
  function DoQuiet(w: World, op: Op): World {
    match op
    case Claim(leg) =>
      if leg < |w.movements| && w.movements[leg].status == InTransit then
        w.(movements := w.movements[leg := w.movements[leg].(status := Processing)], claims := w.claims + {leg})
      else w
    case Abandon(leg) => w.(claims := w.claims - {leg})
    case Crash => w.(claims := {})
    case Requeue => w.(movements := Requeued(w.movements))
    case Select(sid, v) => w.(sights := w.sights[sid := OfVillage(v, None, None, None)])
    case LookGarrison(sid) =>
      if Faces(w, sid) then
        var s := w.sights[sid];
        w.(sights := w.sights[sid := s.(garrison := Some(w.garrisons[s.village]))])
      else w
    case LookGuests(sid) =>
      if Faces(w, sid) then
        var s := w.sights[sid];
        w.(sights := w.sights[sid := s.(groups := Some(w.stationed[s.village]))])
      else w
    case LookRow(sid) =>
      if Faces(w, sid) then
        var s := w.sights[sid];
        w.(sights := w.sights[sid := s.(stamp := Some(w.stamps[s.village]))])
      else w
    case LookOasis(sid, o) =>
      if o < |w.oases| then
        var oasis := w.oases[o];
        w.(sights := w.sights[sid := OfOasis(o, if oasis.materialised then oasis.troops else oasis.seeded, oasis.owner)])
      else w
    case _ => w
  }

  function DoTrain(w: World, v: nat, unit: UnitId, n: nat): World {
    if !(v < |w.garrisons| == |w.stamps|) then w
    else
      var w' := WithGarrison(w, v, w.garrisons[v][unit := w.garrisons[v][unit] + n], true);
      w'.(books := w.books.(trained := w.books.trained[unit := w.books.trained[unit] + n]))
  }

  /** Troops given as the reward of a quest or an achievement; the row is not settled. */
  function DoReward(w: World, v: nat, unit: UnitId, n: nat, settling: bool): World {
    if !(v < |w.garrisons| == |w.stamps|) then w
    else
      var w' := WithGarrison(w, v, w.garrisons[v][unit := w.garrisons[v][unit] + n], settling);
      w'.(books := w.books.(spawned := w.books.spawned[unit := w.books.spawned[unit] + n]))
  }

  /** One step. With `settling`, every change of a garrison also settles the village's resource row, as
      the starvation guard assumes; without it, as stored, only those that write resources do. */
  function Step(w: World, op: Op, settling: bool): World
    requires Shaped(w)
  {
    match op
    case Train(v, unit, n) => DoTrain(w, v, unit, n)
    case Reward(v, unit, n) => DoReward(w, v, unit, n, settling)
    case Send(v, kind, target, list) => DoSend(w, v, kind, target, list, settling)
    case RecallGroup(host, home) => DoRecallGroup(w, host, home)
    case RecallOasis(o, home) => DoRecallOasis(w, o, home)
    case Arrive(leg, seen) => DoArrive(w, leg, seen, settling)
    case Fight(sid, leg, gl, rl, al, looted, conquered) => DoFight(w, sid, leg, gl, rl, al, looted, conquered, settling)
    case Spy(leg, loss) => DoSpy(w, leg, loss)
    case FightOasis(sid, leg, dl, al, won, held, capacity) => DoFightOasis(w, sid, leg, dl, al, won, held, capacity)
    case ArriveAtOasis(leg, stillOwned) => DoArriveAtOasis(w, leg, stillOwned)
    case Found(leg, founded) => DoFound(w, leg, founded)
    case Starve(sid, survivors) => DoStarve(w, sid, survivors)
    case Regrow(sid, next) => DoRegrow(w, sid, next)
    case _ => DoQuiet(w, op)
  }
}
