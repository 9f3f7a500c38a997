/** Where the steps leave the troops they do not march, that undisturbed steps are carried out, and what moves
    a village's stamp. */
module PlaceLaws {
  import opened Armies
  import opened Options
  import opened Sums
  import opened Troops
  import opened TroopLaws

  // ------------------------------------------------------------------ undisturbed steps are carried out

  /** A resolver selects a village and reads what stands there, and its row. */
  function Surveyed(w: World, sid: nat, village: nat): World {
    DoQuiet(DoQuiet(DoQuiet(DoQuiet(w, Select(sid, village)), LookGarrison(sid)), LookGuests(sid)), LookRow(sid))
  }

  lemma SurveyingReadsTheVillage(w: World, sid: nat, village: nat)
    requires Shaped(w) && village < |w.garrisons|
    ensures var w' := Surveyed(w, sid, village);
            && w' == w.(sights := w'.sights) && sid in w'.sights
            && w'.sights[sid] == OfVillage(village, Some(w.garrisons[village]), Some(w.stationed[village]), Some(w.stamps[village]))
  {
    var selected := DoQuiet(w, Select(sid, village));
    var first := DoQuiet(selected, LookGarrison(sid));
    assert first.sights[sid] == OfVillage(village, Some(w.garrisons[village]), None, None);
    var second := DoQuiet(first, LookGuests(sid));
    assert second.sights[sid] == OfVillage(village, Some(w.garrisons[village]), Some(w.stationed[village]), None);
  }

  /** An attack picked up on arrival, and resolved on what stands there with nobody in between, takes place,
      with loot or without, whatever losses within the forces it finds; and its books are exact. */
  lemma AnUndisturbedBattleIsFought(w: World, sid: nat, leg: nat, garrisonLoss: Army, groupLoss: seq<Army>,
                                    attackerLoss: Army, looted: bool)
    requires Sound(w) && leg < |w.movements| && w.movements[leg].kind == Attack && w.movements[leg].status == InTransit
    requires var v := w.movements[leg].target;
             v < |w.garrisons| && garrisonLoss <= w.garrisons[v] && RowCovers(w.stationed[v], groupLoss)
    requires attackerLoss <= w.movements[leg].troops
    ensures var ready := Surveyed(DoQuiet(w, Claim(leg)), sid, w.movements[leg].target);
            && Shaped(ready) && CanFight(ready, sid, leg, garrisonLoss, groupLoss, attackerLoss, looted)
            && Fresh(ready, Fight(sid, leg, garrisonLoss, groupLoss, attackerLoss, looted, false))
  {
    var claimed := DoQuiet(w, Claim(leg));
    SurveyingReadsTheVillage(claimed, sid, w.movements[leg].target);
  }

  /** So is an undisturbed cull carried out, whoever it spares. */
  lemma AnUndisturbedCullIsCarriedOut(w: World, sid: nat, village: nat, survivors: Army, settling: bool)
    requires Shaped(w) && village < |w.garrisons| && survivors <= w.garrisons[village]
    ensures var ready := Surveyed(w, sid, village);
            && Shaped(ready) && Fresh(ready, Starve(sid, survivors))
            && Step(ready, Starve(sid, survivors), settling).garrisons == w.garrisons[village := survivors]
            && Step(ready, Starve(sid, survivors), settling).books.dead == w.books.dead + (w.garrisons[village] - survivors)
  {
    SurveyingReadsTheVillage(w, sid, village);
  }

  /** Who stands in an oasis: before its first fight, the animals it was seeded with. */
  function Defenders(o: Oasis): Army { if o.materialised then o.troops else o.seeded }

  /** And an oasis battle, likewise. */
  lemma AnUndisturbedOasisBattleIsFought(w: World, sid: nat, leg: nat, defenderLoss: Army, attackerLoss: Army)
    requires Sound(w) && leg < |w.movements| && w.movements[leg].kind == OasisAttack && w.movements[leg].status == InTransit
    requires var o := w.movements[leg].target; o < |w.oases| && defenderLoss <= Defenders(w.oases[o])
    requires attackerLoss <= w.movements[leg].troops
    ensures var o := w.movements[leg].target;
            var ready := DoQuiet(DoQuiet(w, Claim(leg)), LookOasis(sid, o));
            && ready.oases == w.oases && CanFightOasis(ready, sid, leg, defenderLoss, attackerLoss)
            && ready.sights[sid] == OfOasis(o, Defenders(w.oases[o]), w.oases[o].owner)
  {
    var claimed := DoQuiet(w, Claim(leg));
    var ready := DoQuiet(claimed, LookOasis(sid, w.movements[leg].target));
    assert ready.movements == claimed.movements && ready.claims == claimed.claims;
  }

  /** After a battle an oasis holds those read there less the dead, whoever won; a lost battle changes no
      owner; and no other oasis is touched. */
  lemma OasesAfterABattle(w: World, op: Op, settling: bool, o: nat)
    requires Shaped(w) && op.FightOasis? && CanFightOasis(w, op.sid, op.leg, op.defenderLoss, op.attackerLoss)
    requires o < |w.oases|
    ensures var fought := Step(w, op, settling).oases;
            && |fought| == |w.oases|
            && (o != w.movements[op.leg].target ==> fought[o] == w.oases[o])
            && (o == w.movements[op.leg].target ==>
                  && fought[o].troops == w.sights[op.sid].troops - op.defenderLoss && fought[o].materialised
                  && (!op.won ==> fought[o].owner == w.oases[o].owner))
  {
  }

  // ------------------------------------------------------------------ where troops are left

  /** New troops join the garrison of their own village, and no other. */
  lemma NewTroopsJoinTheirGarrison(w: World, op: Op, settling: bool, v: nat, u: UnitId)
    requires Shaped(w) && (op.Train? || op.Reward?) && op.village < |w.garrisons| && v < |w.garrisons|
    ensures var w' := Step(w, op, settling);
            && |w'.garrisons| == |w.garrisons|
            && w'.garrisons[v][u] == w.garrisons[v][u] + (if v == op.village && u == op.unit then op.n else 0)
            && w'.stationed == w.stationed && w'.movements == w.movements && w'.oases == w.oases
  {
  }

  /** A regrow leaves the oasis with its new size, and every other as it was; a reinforcement that is let in
      stands in its oasis. */
  lemma OasesKeepTheirOwnTroops(w: World, op: Op, settling: bool, o: nat)
    requires Shaped(w) && (op.Regrow? || op.ArriveAtOasis?) && o < |w.oases|
    ensures var w' := Step(w, op, settling);
            && |w'.oases| == |w.oases|
            && (op.Regrow? && CanRegrow(w, op.sid) && w.sights[op.sid].oasis == o ==> w'.oases[o].troops == op.next)
            && (op.Regrow? && !(CanRegrow(w, op.sid) && w.sights[op.sid].oasis == o) ==> w'.oases[o] == w.oases[o])
            && (op.ArriveAtOasis? ==>
                  var lands := Held(w, op.leg, OasisReinforce) && w.movements[op.leg].target == o && op.stillOwned
                               && w.oases[o].materialised;
                  w'.oases[o].troops == w.oases[o].troops + if lands then w.movements[op.leg].troops else multiset{})
  {
  }

  // ------------------------------------------------------------------ the stamps

  /** Whether the step, as stored, writes the resource row of the village: a delivery of trained troops, a
      looted battle there, a return landing there with loot, or a cull. */
  predicate WritesTheRow(w: World, op: Op, v: nat)
    requires Shaped(w) && v < |w.stamps|
  {
    match op
    case Train(village, _, _) => village == v
    case Fight(sid, leg, gl, rl, al, looted, _) =>
      looted && CanFight(w, sid, leg, gl, rl, al, looted) && w.movements[leg].target == v
    case Arrive(leg, seen) =>
      && Held(w, leg, Return) && w.movements[leg].loot && w.movements[leg].target == v && w.stamps[v] == seen
      && w.movements[leg].home < |w.garrisons|
    case Starve(sid, survivors) => CanStarve(w, sid, survivors) && w.sights[sid].village == v
    case _ => false
  }

  lemma ABattleMovesTheStampOfItsLoot(w: World, op: Op, v: nat)
    requires Shaped(w) && v < |w.stamps| && op.Fight?
    ensures var w' := Step(w, op, false);
            |w'.stamps| == |w.stamps| && w'.stamps[v] == w.stamps[v] + if WritesTheRow(w, op, v) then 1 else 0
  {
  }

  /** As stored, a village's stamp moves exactly when its resource row is written: a garrison may change and
      the stamp not show it. */
  lemma StampsMoveOnlyWithTheRow(w: World, op: Op, v: nat)
    requires Shaped(w) && v < |w.stamps|
    ensures var w' := Step(w, op, false);
            |w'.stamps| == |w.stamps| && w'.stamps[v] == w.stamps[v] + if WritesTheRow(w, op, v) then 1 else 0
  {
    if op.Fight? { ABattleMovesTheStampOfItsLoot(w, op, v); }
  }

  // ------------------------------------------------------------------ movements

  /** The step applies the movement: its kind's own apply, by whoever has picked it up; or it is an order
      that a conquest of its village cancels. */
  predicate MayEnd(w: World, op: Op, i: nat)
    requires Shaped(w) && i < |w.movements|
  {
    var m := w.movements[i];
    match op
    case Arrive(leg, seen) => leg == i && i in w.claims && (m.kind == Reinforce || m.kind == Return) && MayLand(w, m, seen)
    case Fight(sid, leg, gl, rl, al, looted, conquered) =>
      && CanFight(w, sid, leg, gl, rl, al, looted)
      && ((leg == i && i in w.claims && m.kind == Attack)
          || (conquered && m.home == w.movements[leg].target && m.status == InTransit))
    case Spy(leg, _) => leg == i && i in w.claims && m.kind == Kind.Scout
    case FightOasis(_, leg, _, _, _, _, _) => leg == i && i in w.claims && m.kind == OasisAttack
    case ArriveAtOasis(leg, _) => leg == i && i in w.claims && m.kind == OasisReinforce
    case Found(leg, _) => leg == i && i in w.claims && m.kind == Settle
    case _ => false
  }

  /** What may become of a movement in one step: picked up, put back, or ended. */
  predicate MayTurn(w: World, op: Op, i: nat, m': Movement)
    requires Shaped(w) && i < |w.movements|
  {
    var m := w.movements[i];
    || (op == Claim(i) && m.status == InTransit && m' == m.(status := Processing))
    || (op.Requeue? && m.status == Processing && m' == m.(status := InTransit))
    || (MayEnd(w, op, i) && m' == m.(status := Done))
  }

  lemma FightsTurnMovements(w: World, op: Op, settling: bool, i: nat)
    requires Sound(w) && i < |w.movements| && op.Fight?
    ensures var w' := Step(w, op, settling);
            && i < |w'.movements|
            && (w'.movements[i] != w.movements[i] ==> MayTurn(w, op, i, w'.movements[i]))
  {
    if CanFight(w, op.sid, op.leg, op.garrisonLoss, op.groupLoss, op.attackerLoss, op.looted) && op.conquered {
      var m := w.movements[op.leg];
      var fought := Step(w, op.(conquered := false), settling);
      var ms := fought.movements + Returns(RowMinus(w.sights[op.sid].groups.value, op.groupLoss), 0);
      FightIsSound(w, op, settling);
      assert ms[i] == fought.movements[i];
      CancelledAt(ms, m.target, i);
    }
  }

  lemma VillageAppliesTurnMovements(w: World, op: Op, settling: bool, i: nat)
    requires Sound(w) && i < |w.movements| && (op.Arrive? || op.Spy? || op.Found?)
    ensures var w' := Step(w, op, settling);
            && i < |w'.movements|
            && (w'.movements[i] != w.movements[i] ==> MayTurn(w, op, i, w'.movements[i]))
  {
  }

  lemma OasisAppliesTurnMovements(w: World, op: Op, settling: bool, i: nat)
    requires Sound(w) && i < |w.movements| && (op.FightOasis? || op.ArriveAtOasis?)
    ensures var w' := Step(w, op, settling);
            && i < |w'.movements|
            && (w'.movements[i] != w.movements[i] ==> MayTurn(w, op, i, w'.movements[i]))
  {
  }

  /** Nothing happens to a movement but that. */
  lemma MovementsTurnOnlyByTheirSteps(w: World, op: Op, settling: bool, i: nat)
    requires Sound(w) && i < |w.movements|
    ensures var w' := Step(w, op, settling);
            && i < |w'.movements|
            && (w'.movements[i] != w.movements[i] ==> MayTurn(w, op, i, w'.movements[i]))
  {
    if op.Fight? {
      FightsTurnMovements(w, op, settling, i);
    } else if op.Arrive? || op.Spy? || op.Found? {
      VillageAppliesTurnMovements(w, op, settling, i);
    } else if op.FightOasis? || op.ArriveAtOasis? {
      OasisAppliesTurnMovements(w, op, settling, i);
    }
  }
}
