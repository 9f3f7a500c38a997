/** The census: nobody appears or vanishes unrecorded, and exactly when that fails. */
module TroopLaws {
  import opened Armies
  import opened Options
  import opened Sums
  import opened Troops

  // ------------------------------------------------------------------ the census

  function Num(a: Army, u: UnitId): int { a[u] }

  function Has(u: UnitId): Army -> int { (a: Army) => a[u] }

  function RowHas(u: UnitId): seq<Army> -> int { (row: seq<Army>) => Sum(row, Has(u)) }

  function OasisHas(u: UnitId): Oasis -> int { (o: Oasis) => o.troops[u] }

  function Aboard(u: UnitId): Movement -> int { (m: Movement) => if m.status == Done then 0 else m.troops[u] }

  /** How many of `u` are in garrisons, stationed at other villages, in oases and on the road. */
  function Holdings(w: World, u: UnitId): int {
    Sum(w.garrisons, Has(u)) + Sum(w.stationed, RowHas(u)) + Sum(w.oases, OasisHas(u)) + Sum(w.movements, Aboard(u))
  }

  /** Those alive, plus the recorded ways out, minus the recorded ways in. */
  function Balance(w: World, u: UnitId): int {
    Holdings(w, u) + w.books.dead[u] + w.books.settled[u] + w.books.forfeited[u]
    - w.books.opening[u] - w.books.trained[u] - w.books.spawned[u]
  }

  ghost predicate Census(w: World) {
    forall u: UnitId :: Balance(w, u) == 0
  }

  ghost predicate Sound(w: World) {
    && Shaped(w)
    && (forall leg :: leg in w.claims ==> leg < |w.movements| && w.movements[leg].status == Processing)
    && forall o :: 0 <= o < |w.oases| && !w.oases[o].materialised ==> w.oases[o].troops == multiset{}
  }

  /** The orphan requeue runs only at startup, when no worker holds a claim. */
  predicate MayHappen(w: World, op: Op) { op.Requeue? ==> w.claims == {} }

  // ------------------------------------------------------------------ what a step adds to the census

  /** How many of `u` a step conjures up (or, negative, lets vanish) beyond what it records. Only the
      steps computed from an earlier read can. */
  function Drift(w: World, op: Op, u: UnitId): int
    requires Shaped(w)
  {
    match op
    case Fight(sid, leg, garrisonLoss, groupLoss, attackerLoss, looted, conquered) =>
      if !CanFight(w, sid, leg, garrisonLoss, groupLoss, attackerLoss, looted) then 0
      else DriftOfFight(w, w.sights[sid], garrisonLoss, groupLoss, conquered, u)
    case FightOasis(sid, leg, defenderLoss, attackerLoss, _, _, _) =>
      if !CanFightOasis(w, sid, leg, defenderLoss, attackerLoss) || !w.oases[w.movements[leg].target].materialised then 0
      else Num(w.sights[sid].troops, u) - Num(w.oases[w.movements[leg].target].troops, u)
    case Starve(sid, survivors) =>
      if !CanStarve(w, sid, survivors) then 0
      else Num(w.sights[sid].garrison.value, u) - Num(w.garrisons[w.sights[sid].village], u)
    case Regrow(sid, next) =>
      if !CanRegrow(w, sid) then 0
      else Num(next * w.sights[sid].troops, u) - Num(w.oases[w.sights[sid].oasis].troops, u)
    case _ => 0
  }

  /** Deaths recorded beyond those who stood there; at a conquest, whoever was neither read nor dead. */
  function DriftOfFight(w: World, s: Sight, garrisonLoss: Army, groupLoss: seq<Army>, conquered: bool, u: UnitId): int
    requires Shaped(w) && s.OfVillage? && s.groups.Some? && s.village < |w.garrisons| == |groupLoss|
  {
    if conquered then
      Num(garrisonLoss, u) - Num(w.garrisons[s.village], u)
      + Num(Pool(s.groups.value), u) - Num(Pool(w.stationed[s.village]), u)
    else
      (garrisonLoss - w.garrisons[s.village])[u] + Pool(RowMinus(groupLoss, w.stationed[s.village]))[u]
  }

  /** What a step computed from an earlier read must find for the census to stay exact: the recorded
      dead still standing there; at a conquest, the recorded dead and spared making up the whole
      garrison and all guests; at an oasis or a cull, the troops still those read. */
  predicate Fresh(w: World, op: Op)
    requires Shaped(w)
  {
    match op
    case Fight(sid, leg, garrisonLoss, groupLoss, attackerLoss, looted, conquered) =>
      if !CanFight(w, sid, leg, garrisonLoss, groupLoss, attackerLoss, looted) then true
      else FreshFight(w, w.sights[sid], garrisonLoss, groupLoss, conquered)
    case FightOasis(sid, leg, defenderLoss, attackerLoss, _, _, _) =>
      if !CanFightOasis(w, sid, leg, defenderLoss, attackerLoss) then true
      else
        var o := w.oases[w.movements[leg].target];
        o.materialised ==> w.sights[sid].troops == o.troops
    case Starve(sid, survivors) =>
      if !CanStarve(w, sid, survivors) then true
      else w.sights[sid].garrison == Some(w.garrisons[w.sights[sid].village])
    case Regrow(sid, next) =>
      if !CanRegrow(w, sid) then true else next * w.sights[sid].troops == w.oases[w.sights[sid].oasis].troops
    case _ => true
  }

  predicate FreshFight(w: World, s: Sight, garrisonLoss: Army, groupLoss: seq<Army>, conquered: bool)
    requires Shaped(w) && s.OfVillage? && s.groups.Some? && s.village < |w.garrisons| == |groupLoss|
  {
    if conquered then
      garrisonLoss + Pool(s.groups.value) == w.garrisons[s.village] + Pool(w.stationed[s.village])
    else
      garrisonLoss <= w.garrisons[s.village] && RowCovers(w.stationed[s.village], groupLoss)
  }

  // ------------------------------------------------------------------ sums over the tables

  lemma {:induction false} SumConcat<T>(s: seq<T>, t: seq<T>, f: T -> int)
    ensures Sum(s + t, f) == Sum(s, f) + Sum(t, f)
  {
    if s == [] {
      assert [] + t == t;
    } else {
      assert (s + t)[1..] == s[1..] + t;
      SumConcat(s[1..], t, f);
    }
  }

  lemma {:induction false} PoolCounts(groups: seq<Army>, u: UnitId)
    ensures Pool(groups)[u] == Sum(groups, Has(u))
  {
    if groups != [] {
      PoolCounts(groups[1..], u);
    }
  }

  lemma {:induction false} RowMinusCounts(groups: seq<Army>, loss: seq<Army>, u: UnitId)
    requires |groups| == |loss|
    ensures Sum(RowMinus(groups, loss), Has(u)) - Sum(RowMinus(loss, groups), Has(u))
         == Sum(groups, Has(u)) - Sum(loss, Has(u))
  {
    if groups != [] {
      RowMinusCounts(groups[1..], loss[1..], u);
    }
  }

  lemma {:induction false} CoveredLeavesNothing(groups: seq<Army>, loss: seq<Army>)
    requires |groups| == |loss|
    ensures RowCovers(groups, loss) <==> Pool(RowMinus(loss, groups)) == multiset{}
  {
    if groups != [] {
      CoveredLeavesNothing(groups[1..], loss[1..]);
      var beyond := loss[0] - groups[0];
      assert Pool(RowMinus(loss, groups)) == beyond + Pool(RowMinus(loss[1..], groups[1..]));
      if RowCovers(groups, loss) {
        assert loss[0] <= groups[0];
        assert forall h :: 0 <= h < |loss| - 1 ==> loss[1..][h] == loss[h + 1] && groups[1..][h] == groups[h + 1];
        assert beyond == multiset{};
      }
      if Pool(RowMinus(loss, groups)) == multiset{} {
        NothingInEither(beyond, Pool(RowMinus(loss[1..], groups[1..])));
        CoversFirst(loss[0], groups[0]);
        assert forall h :: 1 <= h < |loss| ==> loss[h] == loss[1..][h - 1] && groups[h] == groups[1..][h - 1];
      }
    }
  }

  lemma NothingInEither(a: Army, b: Army)
    requires a + b == multiset{}
    ensures a == multiset{} && b == multiset{}
  {
    forall u ensures a[u] == 0 && b[u] == 0 {
      assert (a + b)[u] == 0;
    }
  }

  lemma CoversFirst(loss: Army, group: Army)
    requires loss - group == multiset{}
    ensures loss <= group
  {
    forall u ensures loss[u] <= group[u] {
      assert (loss - group)[u] == 0;
    }
  }

  lemma {:induction false} ReturnsCount(groups: seq<Army>, home: nat, u: UnitId)
    ensures Sum(Returns(groups, home), Aboard(u)) == Sum(groups, Has(u))
    decreases |groups|
  {
    if groups != [] {
      ReturnsCount(groups[1..], home + 1, u);
      var first := Movement(Return, home, home, groups[0], InTransit, false);
      var rest := Returns(groups[1..], home + 1);
      assert ([first] + rest)[1..] == rest;
    }
  }

  lemma {:induction false} CancelledCounts(ms: seq<Movement>, v: nat, u: UnitId)
    ensures Sum(Cancelled(ms, v), Aboard(u)) + Forfeited(ms, v)[u] == Sum(ms, Aboard(u))
  {
    if ms != [] {
      CancelledCounts(ms[1..], v, u);
    }
  }

  lemma {:induction false} CancelledAt(ms: seq<Movement>, v: nat, i: nat)
    requires i < |ms|
    ensures Cancelled(ms, v)[i] == if Forfeits(ms[i], v) then ms[i].(status := Done) else ms[i]
  {
    if i > 0 {
      CancelledAt(ms[1..], v, i - 1);
    }
  }

  lemma {:induction false} NobodyCounts(n: nat, u: UnitId)
    ensures Sum(Nobody(n), Has(u)) == 0
  {
    if n > 0 {
      NobodyCounts(n - 1, u);
      assert Nobody(n)[1..] == Nobody(n - 1);
    }
  }

  // ------------------------------------------------------------------ how the pieces of a step move the holdings

  lemma GarrisonMoves(w: World, v: nat, troops: Army, settles: bool, u: UnitId)
    requires v < |w.garrisons| == |w.stamps|
    ensures Holdings(WithGarrison(w, v, troops, settles), u) == Holdings(w, u) - w.garrisons[v][u] + troops[u]
  {
    SumUpdate(w.garrisons, v, troops, Has(u));
  }

  lemma GroupMoves(w: World, host: nat, home: nat, troops: Army, u: UnitId)
    requires host < |w.stationed| && home < |w.stationed[host]|
    ensures Holdings(WithGroup(w, host, home, troops), u) == Holdings(w, u) - w.stationed[host][home][u] + troops[u]
  {
    SumUpdate(w.stationed[host], home, troops, Has(u));
    SumUpdate(w.stationed, host, w.stationed[host][home := troops], RowHas(u));
  }

  lemma OasisMoves(w: World, o: nat, oasis: Oasis, u: UnitId)
    requires o < |w.oases|
    ensures Holdings(WithOasis(w, o, oasis), u) == Holdings(w, u) - w.oases[o].troops[u] + oasis.troops[u]
  {
    SumUpdate(w.oases, o, oasis, OasisHas(u));
  }

  lemma LaunchMoves(w: World, m: Movement, u: UnitId)
    requires m.status == InTransit
    ensures Holdings(Launched(w, m), u) == Holdings(w, u) + m.troops[u]
  {
    SumAppend(w.movements, m, Aboard(u));
  }

  lemma HomewardMoves(w: World, home: nat, troops: Army, loot: bool, u: UnitId)
    ensures Holdings(Homeward(w, home, troops, loot), u) == Holdings(w, u) + troops[u]
  {
    if troops != multiset{} {
      LaunchMoves(w, Movement(Return, home, home, troops, InTransit, loot), u);
    }
  }

  lemma ClosingMoves(w: World, leg: nat, u: UnitId)
    requires leg < |w.movements| && w.movements[leg].status == Processing
    ensures Holdings(Closed(w, leg), u) == Holdings(w, u) - w.movements[leg].troops[u]
  {
    SumUpdate(w.movements, leg, w.movements[leg].(status := Done), Aboard(u));
  }

  lemma StrikeMoves(w: World, v: nat, garrisonLoss: Army, groupLoss: seq<Army>, settles: bool, u: UnitId)
    requires Shaped(w) && v < |w.garrisons| == |groupLoss|
    ensures Holdings(Struck(w, v, garrisonLoss, groupLoss, settles), u)
         == Holdings(w, u) - garrisonLoss[u] - Pool(groupLoss)[u]
            + (garrisonLoss - w.garrisons[v])[u] + Pool(RowMinus(groupLoss, w.stationed[v]))[u]
  {
    GarrisonMoves(w, v, w.garrisons[v] - garrisonLoss, settles, u);
    var row := RowMinus(w.stationed[v], groupLoss);
    SumUpdate(w.stationed, v, row, RowHas(u));
    RowMinusCounts(w.stationed[v], groupLoss, u);
    PoolCounts(groupLoss, u);
    PoolCounts(RowMinus(groupLoss, w.stationed[v]), u);
  }

  lemma ConquestMoves(w: World, v: nat, spared: seq<Army>, u: UnitId)
    requires Shaped(w) && v < |w.garrisons|
    ensures Balance(Conquered(w, v, spared), u)
         == Balance(w, u) - w.garrisons[v][u] - Pool(w.stationed[v])[u] + Pool(spared)[u]
  {
    var nobody := Nobody(|w.garrisons|);
    SumUpdate(w.garrisons, v, multiset{}, Has(u));
    NobodyCounts(|w.garrisons|, u);
    SumUpdate(w.stationed, v, nobody, RowHas(u));
    PoolCounts(w.stationed[v], u);
    PoolCounts(spared, u);
    ReturnsCount(spared, 0, u);
    SumConcat(w.movements, Returns(spared, 0), Aboard(u));
    CancelledCounts(w.movements + Returns(spared, 0), v, u);
  }

  // ------------------------------------------------------------------ one step

  lemma FightMoves(w: World, sid: nat, leg: nat, garrisonLoss: Army, groupLoss: seq<Army>, attackerLoss: Army,
                   looted: bool, settling: bool, u: UnitId)
    requires Sound(w) && CanFight(w, sid, leg, garrisonLoss, groupLoss, attackerLoss, looted)
    ensures Balance(DoFight(w, sid, leg, garrisonLoss, groupLoss, attackerLoss, looted, false, settling), u)
         == Balance(w, u) + DriftOfFight(w, w.sights[sid], garrisonLoss, groupLoss, false, u)
  {
    var m := w.movements[leg];
    ClosingMoves(w, leg, u);
    StrikeMoves(Closed(w, leg), m.target, garrisonLoss, groupLoss, looted || settling, u);
    var struck := Struck(Closed(w, leg), m.target, garrisonLoss, groupLoss, looted || settling);
    HomewardMoves(struck, m.home, m.troops - attackerLoss, looted, u);
  }

  lemma ConquestOf(w: World, sid: nat, leg: nat, garrisonLoss: Army, groupLoss: seq<Army>, attackerLoss: Army,
                   looted: bool, settling: bool, u: UnitId)
    requires Sound(w) && CanFight(w, sid, leg, garrisonLoss, groupLoss, attackerLoss, looted)
    ensures Balance(DoFight(w, sid, leg, garrisonLoss, groupLoss, attackerLoss, looted, true, settling), u)
         == Balance(w, u) + DriftOfFight(w, w.sights[sid], garrisonLoss, groupLoss, true, u)
  {
    FightMoves(w, sid, leg, garrisonLoss, groupLoss, attackerLoss, looted, settling, u);
    var v, groups := w.movements[leg].target, w.sights[sid].groups.value;
    var fought := DoFight(w, sid, leg, garrisonLoss, groupLoss, attackerLoss, looted, false, settling);
    ConquestMoves(fought, v, RowMinus(groups, groupLoss), u);
    SparedCount(groups, groupLoss, u);
    PoolMinus(w.stationed[v], groupLoss, u);
  }

  lemma SparedCount(groups: seq<Army>, loss: seq<Army>, u: UnitId)
    requires RowCovers(groups, loss)
    ensures Pool(RowMinus(groups, loss))[u] == Num(Pool(groups), u) - Num(Pool(loss), u)
  {
    PoolMinus(groups, loss, u);
    CoveredLeavesNothing(groups, loss);
  }

  lemma PoolMinus(groups: seq<Army>, loss: seq<Army>, u: UnitId)
    requires |groups| == |loss|
    ensures Pool(RowMinus(groups, loss))[u]
         == Num(Pool(groups), u) - Num(Pool(loss), u) + Pool(RowMinus(loss, groups))[u]
  {
    RowMinusCounts(groups, loss, u);
    PoolCounts(groups, u);
    PoolCounts(loss, u);
    PoolCounts(RowMinus(groups, loss), u);
    PoolCounts(RowMinus(loss, groups), u);
  }

  lemma VillageArrivalMoves(w: World, leg: nat, seen: nat, settling: bool, u: UnitId)
    requires Sound(w)
    ensures Balance(DoArrive(w, leg, seen, settling), u) == Balance(w, u)
  {
    if leg in w.claims && w.movements[leg].target < |w.garrisons| && w.movements[leg].home < |w.garrisons| {
      var m := w.movements[leg];
      if m.kind == Reinforce {
        var joined := w.stationed[m.target][m.home] + m.troops;
        GroupMoves(w, m.target, m.home, joined, u);
        ClosingMoves(WithGroup(w, m.target, m.home, joined), leg, u);
      } else if m.kind == Return {
        var joined := w.garrisons[m.target] + m.troops;
        GarrisonMoves(w, m.target, joined, m.loot || settling, u);
        ClosingMoves(WithGarrison(w, m.target, joined, m.loot || settling), leg, u);
      }
    }
  }

  lemma OasisArrivalMoves(w: World, leg: nat, stillOwned: bool, u: UnitId)
    requires Sound(w)
    ensures Balance(DoArriveAtOasis(w, leg, stillOwned), u) == Balance(w, u)
  {
    if Held(w, leg, OasisReinforce) && w.movements[leg].target < |w.oases| {
      var m := w.movements[leg];
      ClosingMoves(w, leg, u);
      if stillOwned {
        var o := w.oases[m.target];
        OasisMoves(Closed(w, leg), m.target, o.(troops := o.troops + m.troops), u);
      } else {
        LaunchMoves(Closed(w, leg), Movement(Return, m.home, m.home, m.troops, InTransit, false), u);
      }
    }
  }

  lemma SettlersMove(w: World, leg: nat, founded: bool, u: UnitId)
    requires Sound(w)
    ensures Balance(DoFound(w, leg, founded), u) == Balance(w, u)
  {
    if Held(w, leg, Settle) {
      var m := w.movements[leg];
      ClosingMoves(w, leg, u);
      LaunchMoves(Closed(w, leg), Movement(Return, m.home, m.home, m.troops, InTransit, false), u);
    }
  }

  lemma ScoutsMove(w: World, leg: nat, loss: Army, u: UnitId)
    requires Sound(w)
    ensures Balance(DoSpy(w, leg, loss), u) == Balance(w, u)
  {
    if Held(w, leg, Kind.Scout) {
      ClosingMoves(w, leg, u);
      HomewardMoves(Closed(w, leg), w.movements[leg].home, w.movements[leg].troops - loss, false, u);
    }
  }

  lemma OrderMoves(w: World, op: Op, settling: bool, u: UnitId)
    requires Sound(w) && (op.Train? || op.Reward? || op.Send? || op.RecallGroup? || op.RecallOasis?)
    ensures Balance(Step(w, op, settling), u) == Balance(w, u)
  {
    match op
    case Train(v, unit, n) =>
      if v < |w.garrisons| {
        GarrisonMoves(w, v, w.garrisons[v][unit := w.garrisons[v][unit] + n], true, u);
      }
    case Reward(v, unit, n) =>
      if v < |w.garrisons| {
        GarrisonMoves(w, v, w.garrisons[v][unit := w.garrisons[v][unit] + n], settling, u);
      }
    case Send(v, kind, target, list) =>
      if v < |w.garrisons| {
        GarrisonMoves(w, v, w.garrisons[v] - Force(list), settling, u);
        LaunchMoves(WithGarrison(w, v, w.garrisons[v] - Force(list), settling),
                    Movement(kind, v, target, Force(list), InTransit, false), u);
      }
    case RecallGroup(host, home) =>
      if host < |w.stationed| && home < |w.stationed[host]| {
        GroupMoves(w, host, home, multiset{}, u);
        LaunchMoves(WithGroup(w, host, home, multiset{}),
                    Movement(Return, home, home, w.stationed[host][home], InTransit, false), u);
      }
    case RecallOasis(o, home) =>
      if o < |w.oases| {
        OasisMoves(w, o, w.oases[o].(troops := multiset{}), u);
        LaunchMoves(WithOasis(w, o, w.oases[o].(troops := multiset{})),
                    Movement(Return, home, home, w.oases[o].troops, InTransit, false), u);
      }
  }

  lemma OasisFightMoves(w: World, op: Op, settling: bool, u: UnitId)
    requires Sound(w) && op.FightOasis?
    ensures Balance(Step(w, op, settling), u) == Balance(w, u) + Drift(w, op, u)
  {
    if CanFightOasis(w, op.sid, op.leg, op.defenderLoss, op.attackerLoss) {
      var m := w.movements[op.leg];
      var seen := w.sights[op.sid].troops;
      var owner := OwnerAfterFight(w, op.sid, op.leg, op.won, op.held, op.capacity);
      var after := Oasis(owner, true, w.oases[m.target].seeded, seen - op.defenderLoss);
      ClosingMoves(w, op.leg, u);
      OasisMoves(Closed(w, op.leg), m.target, after, u);
      var w1 := WithOasis(Closed(w, op.leg), m.target, after);
      HomewardMoves(w1, m.home, m.troops - op.attackerLoss, false, u);
      var w2 := w1.(books := w1.books.(spawned := w1.books.spawned + seen));
      HomewardMoves(w2, m.home, m.troops - op.attackerLoss, false, u);
    }
  }

  lemma ReplacementMoves(w: World, op: Op, settling: bool, u: UnitId)
    requires Sound(w) && (op.Starve? || op.Regrow?)
    ensures Balance(Step(w, op, settling), u) == Balance(w, u) + Drift(w, op, u)
  {
    if op.Starve? && CanStarve(w, op.sid, op.survivors) {
      GarrisonMoves(w, w.sights[op.sid].village, op.survivors, true, u);
    }
    if op.Regrow? && CanRegrow(w, op.sid) {
      var o := w.sights[op.sid].oasis;
      OasisMoves(w, o, w.oases[o].(troops := op.next), u);
    }
  }

  lemma QuietMoves(w: World, op: Op, u: UnitId)
    ensures Balance(DoQuiet(w, op), u) == Balance(w, u)
  {
    match op
    case Claim(leg) =>
      if leg < |w.movements| {
        SumUpdate(w.movements, leg, w.movements[leg].(status := Processing), Aboard(u));
      }
    case Requeue => SumSame(w.movements, Requeued(w.movements), Aboard(u));
    case _ =>
  }

  lemma BattleMoves(w: World, op: Op, settling: bool, u: UnitId)
    requires Sound(w) && op.Fight?
    ensures Balance(Step(w, op, settling), u) == Balance(w, u) + Drift(w, op, u)
  {
    if CanFight(w, op.sid, op.leg, op.garrisonLoss, op.groupLoss, op.attackerLoss, op.looted) {
      if op.conquered {
        ConquestOf(w, op.sid, op.leg, op.garrisonLoss, op.groupLoss, op.attackerLoss, op.looted, settling, u);
      } else {
        FightMoves(w, op.sid, op.leg, op.garrisonLoss, op.groupLoss, op.attackerLoss, op.looted, settling, u);
      }
    }
  }

  /** Every step, whatever happened between its read and its apply, moves the census by its drift. */
  lemma StepMovesTheCensusByItsDrift(w: World, op: Op, settling: bool, u: UnitId)
    requires Sound(w)
    ensures Balance(Step(w, op, settling), u) == Balance(w, u) + Drift(w, op, u)
  {
    if op.Fight? {
      BattleMoves(w, op, settling, u);
    } else if op.FightOasis? {
      OasisFightMoves(w, op, settling, u);
    } else if op.Starve? || op.Regrow? {
      ReplacementMoves(w, op, settling, u);
    } else if op.Arrive? {
      VillageArrivalMoves(w, op.leg, op.seen, settling, u);
    } else if op.ArriveAtOasis? {
      OasisArrivalMoves(w, op.leg, op.stillOwned, u);
    } else if op.Found? {
      SettlersMove(w, op.leg, op.founded, u);
    } else if op.Spy? {
      ScoutsMove(w, op.leg, op.loss, u);
    } else if op.Train? || op.Reward? || op.Send? || op.RecallGroup? || op.RecallOasis? {
      OrderMoves(w, op, settling, u);
    } else {
      QuietMoves(w, op, u);
    }
  }

  lemma ReplacementIsExactIffFresh(w: World, op: Op)
    requires Sound(w) && (op.FightOasis? || op.Starve? || op.Regrow?)
    ensures (forall u: UnitId :: Drift(w, op, u) == 0) <==> Fresh(w, op)
  {
    match op
    case FightOasis(sid, leg, defenderLoss, attackerLoss, _, _, _) =>
      if CanFightOasis(w, sid, leg, defenderLoss, attackerLoss) && w.oases[w.movements[leg].target].materialised {
        var seen, now := w.sights[sid].troops, w.oases[w.movements[leg].target].troops;
        SameIffNoDifference(seen, now);
        assert forall u: UnitId :: Drift(w, op, u) == Num(seen, u) - Num(now, u);
      }
    case Starve(sid, survivors) =>
      if CanStarve(w, sid, survivors) {
        var seen, now := w.sights[sid].garrison.value, w.garrisons[w.sights[sid].village];
        SameIffNoDifference(seen, now);
        assert forall u: UnitId :: Drift(w, op, u) == Num(seen, u) - Num(now, u);
      }
    case Regrow(sid, next) =>
      if CanRegrow(w, sid) {
        var seen, now := next * w.sights[sid].troops, w.oases[w.sights[sid].oasis].troops;
        SameIffNoDifference(seen, now);
        assert forall u: UnitId :: Drift(w, op, u) == Num(seen, u) - Num(now, u);
      }
  }

  /** A step leaves the census exact for every unit exactly if what it read was fresh enough. */
  lemma NothingDriftsIffFresh(w: World, op: Op)
    requires Sound(w)
    ensures (forall u: UnitId :: Drift(w, op, u) == 0) <==> Fresh(w, op)
  {
    if op.Fight? {
      if CanFight(w, op.sid, op.leg, op.garrisonLoss, op.groupLoss, op.attackerLoss, op.looted) {
        var s := w.sights[op.sid];
        FightIsExactIffFresh(w, s, op.garrisonLoss, op.groupLoss, op.conquered);
        assert forall u: UnitId ::
            Drift(w, op, u) == DriftOfFight(w, s, op.garrisonLoss, op.groupLoss, op.conquered, u);
      }
    } else if op.FightOasis? || op.Starve? || op.Regrow? {
      ReplacementIsExactIffFresh(w, op);
    }
  }

  lemma SameIffNoDifference(a: Army, b: Army)
    ensures a == b <==> forall u: UnitId :: Num(a, u) - Num(b, u) == 0
  {
    if forall u: UnitId :: Num(a, u) - Num(b, u) == 0 {
      forall u: UnitId ensures a[u] == b[u] {
        assert Num(a, u) - Num(b, u) == 0;
      }
    }
  }

  lemma FightIsExactIffFresh(w: World, s: Sight, garrisonLoss: Army, groupLoss: seq<Army>, conquered: bool)
    requires Shaped(w) && s.OfVillage? && s.groups.Some? && s.village < |w.garrisons| == |groupLoss|
    ensures (forall u: UnitId :: DriftOfFight(w, s, garrisonLoss, groupLoss, conquered, u) == 0)
       <==> FreshFight(w, s, garrisonLoss, groupLoss, conquered)
  {
    var row := w.stationed[s.village];
    if conquered {
      var told, there := garrisonLoss + Pool(s.groups.value), w.garrisons[s.village] + Pool(row);
      SameIffNoDifference(told, there);
      assert forall u: UnitId ::
          DriftOfFight(w, s, garrisonLoss, groupLoss, true, u) == Num(told, u) - Num(there, u);
    } else {
      var beyond := garrisonLoss - w.garrisons[s.village];
      var guests := Pool(RowMinus(groupLoss, row));
      CoveredLeavesNothing(row, groupLoss);
      assert forall u: UnitId :: DriftOfFight(w, s, garrisonLoss, groupLoss, false, u) == (beyond + guests)[u];
      SameIffNoDifference(beyond + guests, multiset{});
      if beyond + guests == multiset{} {
        NothingInEither(beyond, guests);
        CoversFirst(garrisonLoss, w.garrisons[s.village]);
      }
      if garrisonLoss <= w.garrisons[s.village] {
        assert beyond == multiset{};
      }
      assert (forall u: UnitId :: (beyond + guests)[u] == 0) <==> beyond + guests == multiset{} by {
        assert forall u: UnitId :: Num(beyond + guests, u) - Num(multiset{}, u) == (beyond + guests)[u];
      }
    }
  }

  // ------------------------------------------------------------------ whole runs

  lemma StepIsSound(w: World, op: Op, settling: bool)
    requires Sound(w) && MayHappen(w, op)
    ensures Sound(Step(w, op, settling))
  {
    if op.Fight? {
      FightIsSound(w, op, settling);
      if CanFight(w, op.sid, op.leg, op.garrisonLoss, op.groupLoss, op.attackerLoss, op.looted) && op.conquered {
        ConquestIsSound(Step(w, op.(conquered := false), settling), w.movements[op.leg].target,
                        RowMinus(w.sights[op.sid].groups.value, op.groupLoss));
      }
    } else if op.Arrive? {
      ArrivalIsSound(w, op, settling);
    } else if op.ArriveAtOasis? || op.FightOasis? {
      OasisApplyIsSound(w, op, settling);
    } else if op.Found? || op.Spy? {
      FieldApplyIsSound(w, op, settling);
    } else if op.Train? || op.Reward? || op.Send? || op.RecallGroup? || op.RecallOasis? || op.Starve? || op.Regrow? {
      OrderIsSound(w, op, settling);
    } else {
      QuietIsSound(w, op);
    }
  }

  lemma ArrivalIsSound(w: World, op: Op, settling: bool)
    requires Sound(w) && op.Arrive?
    ensures Sound(Step(w, op, settling))
  {
  }

  lemma OasisApplyIsSound(w: World, op: Op, settling: bool)
    requires Sound(w) && (op.ArriveAtOasis? || op.FightOasis?)
    ensures Sound(Step(w, op, settling))
  {
  }

  lemma FieldApplyIsSound(w: World, op: Op, settling: bool)
    requires Sound(w) && (op.Found? || op.Spy?)
    ensures Sound(Step(w, op, settling))
  {
  }

  lemma OrderIsSound(w: World, op: Op, settling: bool)
    requires Sound(w)
    requires op.Train? || op.Reward? || op.Send? || op.RecallGroup? || op.RecallOasis? || op.Starve? || op.Regrow?
    ensures Sound(Step(w, op, settling))
  {
  }

  lemma QuietIsSound(w: World, op: Op)
    requires Sound(w) && MayHappen(w, op)
    ensures Sound(DoQuiet(w, op))
  {
  }

  lemma FightIsSound(w: World, op: Op, settling: bool)
    requires Sound(w) && op.Fight?
    ensures Sound(Step(w, op.(conquered := false), settling))
  {
  }

  lemma ConquestIsSound(w: World, v: nat, spared: seq<Army>)
    requires Sound(w) && v < |w.garrisons|
    ensures Sound(Conquered(w, v, spared))
  {
    var ms := w.movements + Returns(spared, 0);
    forall leg | leg in w.claims
      ensures leg < |ms| && Cancelled(ms, v)[leg].status == Processing
    {
      CancelledAt(ms, v, leg);
    }
  }

  ghost predicate Schedulable(w: World, ops: seq<Op>, settling: bool)
    requires Sound(w)
    decreases |ops|
  {
    ops != [] ==> MayHappen(w, ops[0]) && (StepIsSound(w, ops[0], settling); Schedulable(Step(w, ops[0], settling), ops[1..], settling))
  }

  /** The census is exact now and after every step of the run. */
  ghost predicate CensusThroughout(w: World, ops: seq<Op>, settling: bool)
    requires Sound(w) && Schedulable(w, ops, settling)
    decreases |ops|
  {
    Census(w) && (ops != [] ==> (StepIsSound(w, ops[0], settling); CensusThroughout(Step(w, ops[0], settling), ops[1..], settling)))
  }

  ghost predicate AllFresh(w: World, ops: seq<Op>, settling: bool)
    requires Sound(w) && Schedulable(w, ops, settling)
    decreases |ops|
  {
    ops != [] ==> Fresh(w, ops[0]) && (StepIsSound(w, ops[0], settling); AllFresh(Step(w, ops[0], settling), ops[1..], settling))
  }

  /** World troop conservation: from an exact census, over any interleaving of orders, claims, reads,
      arrivals, battles, conquests, culls, regrows, crashes and requeues, nobody ever appears or
      vanishes unrecorded exactly if every step that applies an earlier read found it fresh. */
  lemma {:induction false} NobodyAppearsOrVanishesIffReadsAreFresh(w: World, ops: seq<Op>, settling: bool)
    requires Sound(w) && Census(w) && Schedulable(w, ops, settling)
    ensures CensusThroughout(w, ops, settling) <==> AllFresh(w, ops, settling)
    decreases |ops|
  {
    if ops != [] {
      StepIsSound(w, ops[0], settling);
      CensusAfter(w, ops[0], settling);
      var w' := Step(w, ops[0], settling);
      if Fresh(w, ops[0]) {
        NobodyAppearsOrVanishesIffReadsAreFresh(w', ops[1..], settling);
      } else {
        assert !Census(w');
        assert !CensusThroughout(w', ops[1..], settling);
      }
    }
  }

  lemma CensusAfter(w: World, op: Op, settling: bool)
    requires Sound(w) && Census(w)
    ensures Census(Step(w, op, settling)) <==> Fresh(w, op)
  {
    NothingDriftsIffFresh(w, op);
    forall u: UnitId ensures Balance(Step(w, op, settling), u) == Drift(w, op, u) {
      StepMovesTheCensusByItsDrift(w, op, settling, u);
    }
    if forall u: UnitId :: Drift(w, op, u) == 0 {
      assert Census(Step(w, op, settling));
    } else {
      var u: UnitId :| Drift(w, op, u) != 0;
      assert Balance(Step(w, op, settling), u) != 0;
    }
  }

  // ------------------------------------------------------------------ when a read is fresh

  /** What the session has read is what is there now. */
  predicate Current(w: World, sid: nat)
    requires Shaped(w)
  {
    && sid in w.sights
    && match w.sights[sid]
       case OfVillage(v, garrison, groups, _) =>
         && v < |w.garrisons|
         && (garrison.Some? ==> garrison.value == w.garrisons[v]) && (groups.Some? ==> groups.value == w.stationed[v])
       case OfOasis(o, troops, owner) =>
         o < |w.oases| && owner == w.oases[o].owner && troops == if w.oases[o].materialised then w.oases[o].troops else w.oases[o].seeded
  }

  /** Reading and applying with nobody in between keeps the census, but for two cases, each exact: a
      conquest, just when the battle killed the whole garrison (as a won attack does and a won raid may
      not; what a raid spared is deleted with the rest); and a regrow, just when it takes no animal away
      of those it read. */
  lemma UndisturbedStepsAreFresh(w: World, op: Op)
    requires Sound(w)
    requires op.Fight? || op.FightOasis? || op.Starve? || op.Regrow? ==> Current(w, op.sid)
    ensures if op.Fight? && CanFight(w, op.sid, op.leg, op.garrisonLoss, op.groupLoss, op.attackerLoss, op.looted) && op.conquered
            then Fresh(w, op) <==> op.garrisonLoss == w.garrisons[w.sights[op.sid].village]
            else if op.Regrow? && CanRegrow(w, op.sid) then Fresh(w, op) <==> w.sights[op.sid].troops <= op.next
            else Fresh(w, op)
  {
    if op.Regrow? && CanRegrow(w, op.sid) {
      var seen := w.sights[op.sid].troops;
      if op.next * seen == seen {
        forall u ensures seen[u] <= op.next[u] { assert (op.next * seen)[u] == seen[u]; }
      }
    }
    if op.Fight? && op.conquered {
      var s := w.sights[op.sid];
      if s.OfVillage? && s.groups.Some?
         && op.garrisonLoss + Pool(s.groups.value) == w.garrisons[s.village] + Pool(s.groups.value) {
        forall u: UnitId ensures op.garrisonLoss[u] == w.garrisons[s.village][u] {
          assert (op.garrisonLoss + Pool(s.groups.value))[u] == (w.garrisons[s.village] + Pool(s.groups.value))[u];
        }
      }
    }
  }

  /** Casualties split a force in two, as the battle steps require of their losses. */
  lemma CasualtiesSplitTheForce(list: UnitCounts, frac: real)
    ensures Force(Survivors(list, frac)) + Force(Losses(list, frac)) == Force(list)
    ensures frac >= 1.0 ==> Force(Losses(list, frac)) == Force(list)
  {
    forall u: UnitId
      ensures (Force(Survivors(list, frac)) + Force(Losses(list, frac)))[u] == Force(list)[u]
    {
      LossesConserve(list, frac, u);
      ForceCounts(list, u);
      ForceCounts(Survivors(list, frac), u);
      ForceCounts(Losses(list, frac), u);
    }
    if frac >= 1.0 {
      LossExtremes(list, frac);
    }
  }

  // ------------------------------------------------------------------ culls

  function Run(w: World, ops: seq<Op>, settling: bool): World
    requires Shaped(w)
    decreases |ops|
  {
    if ops == [] then w
    else
      var w' := Step(w, ops[0], settling);
      if Shaped(w') then Run(w', ops[1..], settling) else w'
  }

  /** No stamp falls, and where one stands still the garrison is the same. */
  ghost predicate Tracks(w: World, w': World)
    requires Shaped(w) && Shaped(w')
  {
    && |w'.garrisons| == |w.garrisons|
    && forall v :: 0 <= v < |w.garrisons| ==>
         w.stamps[v] <= w'.stamps[v] && (w.stamps[v] == w'.stamps[v] ==> w.garrisons[v] == w'.garrisons[v])
  }

  lemma FightTracks(w: World, op: Op)
    requires Sound(w) && op.Fight?
    ensures Shaped(Step(w, op, true)) && Tracks(w, Step(w, op, true))
  {
  }

  lemma ApplyTracks(w: World, op: Op)
    requires Sound(w) && (op.Arrive? || op.ArriveAtOasis? || op.Found? || op.Spy? || op.FightOasis?)
    ensures Shaped(Step(w, op, true)) && Tracks(w, Step(w, op, true))
  {
  }

  lemma OrderTracks(w: World, op: Op)
    requires Sound(w)
    requires op.Train? || op.Reward? || op.Send? || op.RecallGroup? || op.RecallOasis? || op.Starve? || op.Regrow?
    ensures Shaped(Step(w, op, true)) && Tracks(w, Step(w, op, true))
  {
  }

  lemma StepTracks(w: World, op: Op)
    requires Sound(w)
    ensures Shaped(Step(w, op, true)) && Tracks(w, Step(w, op, true))
  {
    if op.Fight? {
      FightTracks(w, op);
    } else if op.Arrive? || op.ArriveAtOasis? || op.Found? || op.Spy? || op.FightOasis? {
      ApplyTracks(w, op);
    } else if op.Train? || op.Reward? || op.Send? || op.RecallGroup? || op.RecallOasis? || op.Starve? || op.Regrow? {
      OrderTracks(w, op);
    } else {
      assert Step(w, op, true) == DoQuiet(w, op);
    }
  }

  /** The step is not one of session `sid`'s queries. */
  predicate Elsewhere(op: Op, sid: nat) {
    match op
    case Select(s, _) => s != sid
    case LookGarrison(s) => s != sid
    case LookGuests(s) => s != sid
    case LookRow(s) => s != sid
    case LookOasis(s, _) => s != sid
    case _ => true
  }

  predicate AllElsewhere(ops: seq<Op>, sid: nat)
    decreases |ops|
  {
    ops != [] ==> Elsewhere(ops[0], sid) && AllElsewhere(ops[1..], sid)
  }

  lemma StepKeepsSight(w: World, op: Op, settling: bool, sid: nat)
    requires Shaped(w) && Elsewhere(op, sid) && sid in w.sights
    ensures sid in Step(w, op, settling).sights && Step(w, op, settling).sights[sid] == w.sights[sid]
  {
  }

  /** In a store where every garrison change settles the resource row, what others do in between moves
      no stamp back, leaves the garrison alone where the stamp stands still, and leaves a session's
      reads as they are. */
  lemma {:induction false} SettlingRunsTrackGarrisons(w: World, ops: seq<Op>, sid: nat)
    requires Sound(w) && Schedulable(w, ops, true) && AllElsewhere(ops, sid) && sid in w.sights
    ensures var w' := Run(w, ops, true);
            Sound(w') && Tracks(w, w') && sid in w'.sights && w'.sights[sid] == w.sights[sid]
    decreases |ops|
  {
    if ops != [] {
      StepIsSound(w, ops[0], true);
      StepTracks(w, ops[0]);
      StepKeepsSight(w, ops[0], true, sid);
      SettlingRunsTrackGarrisons(Step(w, ops[0], true), ops[1..], sid);
    }
  }

  /** What others do in a cull's two gaps: after its first query, and after its second. */
  ghost predicate Interleaved(w: World, sid: nat, first: Op, before: seq<Op>, second: Op, after: seq<Op>)
    requires Sound(w) && (first.LookGarrison? || first.LookRow?) && (second.LookGarrison? || second.LookRow?)
  {
    && AllElsewhere(before, sid) && AllElsewhere(after, sid) && Faces(w, sid)
    && (QuietIsSound(w, first); Schedulable(DoQuiet(w, first), before, true))
    && (QuietIsSound(w, first); SettlingRunIsSound(DoQuiet(w, first), before);
        var w1 := Run(DoQuiet(w, first), before, true);
        QuietIsSound(w1, second); Schedulable(DoQuiet(w1, second), after, true))
  }

  lemma {:induction false} SettlingRunIsSound(w: World, ops: seq<Op>)
    requires Sound(w) && Schedulable(w, ops, true)
    ensures Sound(Run(w, ops, true))
    decreases |ops|
  {
    if ops != [] {
      StepIsSound(w, ops[0], true);
      SettlingRunIsSound(Step(w, ops[0], true), ops[1..]);
    }
  }

  /** The world between a cull's two queries, and the one its write finds. */
  ghost function BetweenReads(w: World, first: Op, before: seq<Op>): World
    requires Shaped(w)
  {
    if Shaped(DoQuiet(w, first)) then Run(DoQuiet(w, first), before, true) else w
  }

  ghost function AtTheWrite(w: World, first: Op, before: seq<Op>, second: Op, after: seq<Op>): World
    requires Shaped(w)
  {
    var w1 := BetweenReads(w, first, before);
    if Shaped(w1) then BetweenReads(w1, second, after) else w1
  }

  /** What the session has of its two queries when it writes. */
  lemma ReadsAtTheWrite(w: World, sid: nat, first: Op, before: seq<Op>, second: Op, after: seq<Op>)
    requires Sound(w) && (first.LookGarrison? || first.LookRow?) && (second.LookGarrison? || second.LookRow?)
    requires first.sid == sid == second.sid && first != second
    requires Interleaved(w, sid, first, before, second, after)
    ensures var w1, w2 := BetweenReads(w, first, before), AtTheWrite(w, first, before, second, after);
            var v := w.sights[sid].village;
            var g, r := if first.LookGarrison? then w else w1, if first.LookRow? then w else w1;
            && Sound(w1) && Sound(w2) && Tracks(w, w1) && Tracks(w1, w2) && v < |w.garrisons|
            && sid in w2.sights && w2.sights[sid].OfVillage? && w2.sights[sid].village == v
            && w2.sights[sid].garrison == Some(g.garrisons[v]) && w2.sights[sid].stamp == Some(r.stamps[v])
  {
    var read := DoQuiet(w, first);
    QuietIsSound(w, first);
    SettlingRunsTrackGarrisons(read, before, sid);
    var w1 := Run(read, before, true);
    QuietIsSound(w1, second);
    SettlingRunsTrackGarrisons(DoQuiet(w1, second), after, sid);
  }

  /** Even if every garrison change settled the resource row, as the cull's comment assumes, a cull that
      reads the garrison first and the row second, as the code does, is exact when its guard passes if
      and only if the garrison did not change between its two reads. */
  lemma ACullIsExactIffNothingChangedBetweenItsReads(w: World, sid: nat, before: seq<Op>, after: seq<Op>, survivors: Army)
    requires Sound(w) && Interleaved(w, sid, LookGarrison(sid), before, LookRow(sid), after)
    ensures var w1 := BetweenReads(w, LookGarrison(sid), before);
            var w2 := AtTheWrite(w, LookGarrison(sid), before, LookRow(sid), after);
            var v := w.sights[sid].village;
            && Shaped(w2) && v < |w.garrisons| == |w1.garrisons|
            && (CanStarve(w2, sid, survivors) ==>
                  (Fresh(w2, Starve(sid, survivors)) <==> w1.garrisons[v] == w.garrisons[v]))
  {
    ReadsAtTheWrite(w, sid, LookGarrison(sid), before, LookRow(sid), after);
  }

  /** With the row read first, the same guard makes every cull exact. */
  lemma ARowReadFirstMakesEveryCullExact(w: World, sid: nat, before: seq<Op>, after: seq<Op>, survivors: Army)
    requires Sound(w) && Interleaved(w, sid, LookRow(sid), before, LookGarrison(sid), after)
    ensures var w2 := AtTheWrite(w, LookRow(sid), before, LookGarrison(sid), after);
            Shaped(w2) && (CanStarve(w2, sid, survivors) ==> Fresh(w2, Starve(sid, survivors)))
  {
    ReadsAtTheWrite(w, sid, LookRow(sid), before, LookGarrison(sid), after);
  }

  /** A delivery of `n` trained units between the two reads settles the row, and yet the cull's guard
      passes and the delivered units are gone. */
  lemma ACullAnnihilatesADeliveryBetweenItsReads(w: World, sid: nat, unit: UnitId, n: nat, survivors: Army, settling: bool)
    requires Sound(w) && Faces(w, sid) && survivors <= w.garrisons[w.sights[sid].village]
    ensures var looked := DoQuiet(w, LookGarrison(sid));
            && Shaped(looked)
            && var trained := Step(looked, Train(w.sights[sid].village, unit, n), settling);
               && Shaped(trained)
               && var rowRead := DoQuiet(trained, LookRow(sid));
                  && Shaped(rowRead) && CanStarve(rowRead, sid, survivors)
                  && Balance(Step(rowRead, Starve(sid, survivors), settling), unit) == Balance(w, unit) - n
  {
    var v := w.sights[sid].village;
    var looked := DoQuiet(w, LookGarrison(sid));
    QuietIsSound(w, LookGarrison(sid));
    OrderIsSound(looked, Train(v, unit, n), settling);
    var trained := Step(looked, Train(v, unit, n), settling);
    QuietIsSound(trained, LookRow(sid));
    StepMovesTheCensusByItsDrift(w, LookGarrison(sid), settling, unit);
    StepMovesTheCensusByItsDrift(looked, Train(v, unit, n), settling, unit);
    StepMovesTheCensusByItsDrift(trained, LookRow(sid), settling, unit);
    StepMovesTheCensusByItsDrift(DoQuiet(trained, LookRow(sid)), Starve(sid, survivors), settling, unit);
  }

  const LEGION: UnitId := "legionnaire"

  function Camp(garrison: Army): World {
    World([garrison, multiset{}], [0, 0], [[multiset{}, multiset{}], [multiset{}, multiset{}]], [], [], {}, map[],
          Books(garrison, multiset{}, multiset{}, multiset{}, multiset{}, multiset{}))
  }

  /** A cull's session reads village `v`, garrison and row, with nobody in between. */
  function Looked(w: World, sid: nat, v: nat): World {
    DoQuiet(DoQuiet(DoQuiet(w, Select(sid, v)), LookGarrison(sid)), LookRow(sid))
  }

  lemma LookingMovesNothing(w: World, sid: nat, v: nat)
    requires Sound(w) && v < |w.garrisons|
    ensures var looked := Looked(w, sid, v);
            && Sound(looked) && looked == w.(sights := looked.sights)
            && sid in looked.sights && looked.sights[sid] == OfVillage(v, Some(w.garrisons[v]), None, Some(w.stamps[v]))
  {
  }

  lemma AfterTheDispatch(w: World, sid: nat, v: nat, kind: Kind, target: nat, list: UnitCounts, survivors: Army)
    requires Sound(w) && v < |w.garrisons|
    requires kind != Return && Force(list) <= w.garrisons[v] && UniqueKeys(NonZero(list))
    requires survivors <= w.garrisons[v]
    ensures var looked := Looked(w, sid, v);
            && Sound(looked)
            && var sent := Step(looked, Send(v, kind, target, list), false);
               && Sound(sent) && CanStarve(sent, sid, survivors)
               && sent.sights[sid].village == v && sent.sights[sid].garrison == Some(w.garrisons[v])
               && sent.garrisons[v] == w.garrisons[v] - Force(list)
  {
    LookingMovesNothing(w, sid, v);
    OrderIsSound(Looked(w, sid, v), Send(v, kind, target, list), false);
  }

  /** As stored it is not so even for reads in one go: a dispatch between a cull's reads and its apply
      does not settle the row, so the cull brings everyone it sent away back, while they are also on
      the road. */
  lemma ACullRevivesTheSent(w: World, sid: nat, v: nat, kind: Kind, target: nat, list: UnitCounts, survivors: Army,
                            u: UnitId)
    requires Sound(w) && v < |w.garrisons|
    requires kind != Return && Force(list) <= w.garrisons[v] && UniqueKeys(NonZero(list))
    requires survivors <= w.garrisons[v]
    ensures var looked := Looked(w, sid, v);
            && Shaped(looked)
            && var sent := Step(looked, Send(v, kind, target, list), false);
               Shaped(sent) && Balance(Step(sent, Starve(sid, survivors), false), u) == Balance(w, u) + Count(list, u)
  {
    LookingMovesNothing(w, sid, v);
    AfterTheDispatch(w, sid, v, kind, target, list, survivors);
    var looked := Looked(w, sid, v);
    var sent := Step(looked, Send(v, kind, target, list), false);
    StepMovesTheCensusByItsDrift(looked, Send(v, kind, target, list), false, u);
    ForceCounts(list, u);
    assert Force(list)[u] <= w.garrisons[v][u];
    StaleCull(sent, sid, survivors, Count(list, u), u);
  }

  lemma StaleCull(w: World, sid: nat, survivors: Army, gone: nat, u: UnitId)
    requires Sound(w) && CanStarve(w, sid, survivors)
    requires w.garrisons[w.sights[sid].village][u] + gone == w.sights[sid].garrison.value[u]
    ensures Balance(Step(w, Starve(sid, survivors), false), u) == Balance(w, u) + gone
  {
    StepMovesTheCensusByItsDrift(w, Starve(sid, survivors), false, u);
  }

  /** One of the two legionnaires of a village marches off while a cull of the other is being computed:
      one is starved, one survives, and one is on the road. */
  lemma ThirdLegionnaire()
    ensures var camp := Camp(multiset{LEGION, LEGION});
            var looked := Looked(camp, 0, 0);
            && Census(camp) && Shaped(looked)
            && var sent := Step(looked, Send(0, Reinforce, 1, [(LEGION, 1)]), false);
               Shaped(sent) && Balance(Step(sent, Starve(0, multiset{LEGION}), false), LEGION) == 1
  {
    var camp := Camp(multiset{LEGION, LEGION});
    StartingCensus(multiset{LEGION, LEGION});
    ForceOfOne(LEGION);
    ACullRevivesTheSent(camp, 0, 0, Reinforce, 1, [(LEGION, 1)], multiset{LEGION}, LEGION);
  }

  lemma ForceOfOne(u: UnitId)
    ensures Force([(u, 1)]) == multiset{u} && Count([(u, 1)], u) == 1
    ensures UniqueKeys(NonZero([(u, 1)]))
  {
    assert [(u, 1)][1..] == [];
    assert NonZero([(u, 1)]) == [(u, 1)];
  }

  lemma StartingCensus(garrison: Army)
    ensures Sound(Camp(garrison)) && Census(Camp(garrison))
  {
    var camp := Camp(garrison);
    var nobody: seq<Army> := [multiset{}, multiset{}];
    forall u: UnitId ensures Balance(camp, u) == 0 {
      assert camp.garrisons[1..] == [multiset{}] && camp.garrisons[1..][1..] == [];
      assert nobody[1..] == [multiset{}] && nobody[1..][1..] == [];
      assert Sum(nobody, Has(u)) == 0;
      assert camp.stationed[1..] == [nobody] && camp.stationed[1..][1..] == [];
      assert RowHas(u)(nobody) == 0;
      assert Sum(camp.stationed, RowHas(u)) == RowHas(u)(nobody) + Sum(camp.stationed[1..], RowHas(u));
      assert Sum(camp.stationed[1..], RowHas(u)) == RowHas(u)(nobody) + Sum(camp.stationed[1..][1..], RowHas(u));
    }
  }
}
