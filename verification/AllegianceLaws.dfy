/** Whose troops they are, through every step: battles take each side's own dead from it, and everybody who
    is sent home goes to their own. */
module AllegianceLaws {
  import opened Armies
  import opened Options
  import opened Sums
  import opened Troops
  import opened TroopLaws
  import opened TroopJourneys

  // ------------------------------------------------------------------ the pieces of a step

  function If(b: bool, n: int): int { if b then n else 0 }

  lemma ClosingOne(w: World, leg: nat, home: nat, u: UnitId)
    requires leg < |w.movements| && w.movements[leg].status == Processing && home < |w.garrisons|
    ensures Belonging(Closed(w, leg), home, u)
         == Belonging(w, home, u) - If(w.movements[leg].home == home, w.movements[leg].troops[u])
  {
    SumUpdate(w.movements, leg, w.movements[leg].(status := Done), MarchingFor(home, u));
  }

  lemma LaunchingOne(w: World, m: Movement, home: nat, u: UnitId)
    requires m.status == InTransit && home < |w.garrisons|
    ensures Belonging(Launched(w, m), home, u) == Belonging(w, home, u) + If(m.home == home, m.troops[u])
  {
    SumAppend(w.movements, m, MarchingFor(home, u));
  }

  lemma SendingHome(w: World, home: nat, troops: Army, loot: bool, h: nat, u: UnitId)
    requires h < |w.garrisons|
    ensures Belonging(Homeward(w, home, troops, loot), h, u) == Belonging(w, h, u) + If(home == h, troops[u])
  {
    if troops != multiset{} {
      LaunchingOne(w, Movement(Return, home, home, troops, InTransit, loot), h, u);
    }
  }

  lemma {:induction false} RowMinusAt(groups: seq<Army>, loss: seq<Army>, h: nat)
    requires |groups| == |loss| && h < |groups|
    ensures RowMinus(groups, loss)[h] == groups[h] - loss[h]
  {
    if h > 0 {
      RowMinusAt(groups[1..], loss[1..], h - 1);
    }
  }

  /** The dead come off the garrison, and off each group of guests its own. */
  lemma StrikingEach(w: World, v: nat, garrisonLoss: Army, groupLoss: seq<Army>, settles: bool, home: nat, u: UnitId)
    requires Shaped(w) && v < |w.garrisons| == |groupLoss| && home < |w.garrisons|
    requires garrisonLoss <= w.garrisons[v] && RowCovers(w.stationed[v], groupLoss)
    ensures Belonging(Struck(w, v, garrisonLoss, groupLoss, settles), home, u)
         == Belonging(w, home, u) - If(home == v, garrisonLoss[u]) - groupLoss[home][u]
  {
    var row := RowMinus(w.stationed[v], groupLoss);
    SumUpdate(w.stationed, v, row, AbroadOf(home, u));
    RowMinusAt(w.stationed[v], groupLoss, home);
    assert groupLoss[home] <= w.stationed[v][home];
    assert (w.garrisons[v] - garrisonLoss)[u] == w.garrisons[v][u] - garrisonLoss[u];
  }

  // ------------------------------------------------------------------ battles

  /** A battle that finds its dead still standing there, and does not conquer: the attacker's village loses
      exactly the attackers' dead, the village attacked its garrison's, each guest village those of its own
      group, and nobody else anything. */
  lemma ABattleTakesEachSidesOwnDead(w: World, op: Op, settling: bool, home: nat, u: UnitId)
    requires Sound(w) && op.Fight? && !op.conquered && home < |w.garrisons| && Fresh(w, op)
    requires CanFight(w, op.sid, op.leg, op.garrisonLoss, op.groupLoss, op.attackerLoss, op.looted)
    ensures var m := w.movements[op.leg];
            Belonging(Step(w, op, settling), home, u)
              == Belonging(w, home, u) - If(m.home == home, op.attackerLoss[u]) - If(m.target == home, op.garrisonLoss[u])
                 - op.groupLoss[home][u]
  {
    var m := w.movements[op.leg];
    var w1 := Closed(w, op.leg);
    ClosingOne(w, op.leg, home, u);
    StrikingEach(w1, m.target, op.garrisonLoss, op.groupLoss, op.looted || settling, home, u);
    SendingHome(Struck(w1, m.target, op.garrisonLoss, op.groupLoss, op.looted || settling), m.home,
                m.troops - op.attackerLoss, op.looted, home, u);
    assert op.attackerLoss[u] <= m.troops[u];
  }

  lemma {:induction false} ReturnsBelong(groups: seq<Army>, first: nat, home: nat, u: UnitId)
    ensures Sum(Returns(groups, first), MarchingFor(home, u))
         == If(first <= home < first + |groups|, if first <= home < first + |groups| then groups[home - first][u] else 0)
    decreases |groups|
  {
    if groups != [] {
      ReturnsBelong(groups[1..], first + 1, home, u);
      var m := Movement(Return, first, first, groups[0], InTransit, false);
      var rest := Returns(groups[1..], first + 1);
      assert ([m] + rest)[1..] == rest;
    }
  }

  lemma {:induction false} CancelledBelong(ms: seq<Movement>, v: nat, home: nat, u: UnitId)
    ensures Sum(Cancelled(ms, v), MarchingFor(home, u)) == Sum(ms, MarchingFor(home, u)) - If(home == v, Forfeited(ms, v)[u])
  {
    if ms != [] {
      CancelledBelong(ms[1..], v, home, u);
    }
  }

  lemma {:induction false} NobodyAt(n: nat, h: nat)
    requires h < n
    ensures Nobody(n)[h] == multiset{}
  {
    if h > 0 {
      NobodyAt(n - 1, h - 1);
    }
  }

  lemma HandOverStations(w: World, v: nat, spared: seq<Army>, home: nat, u: UnitId)
    requires Shaped(w) && v < |w.garrisons| && home < |w.garrisons|
    ensures Sum(Conquered(w, v, spared).stationed, AbroadOf(home, u))
         == Sum(w.stationed, AbroadOf(home, u)) - w.stationed[v][home][u]
  {
    var nobody := Nobody(|w.garrisons|);
    SumUpdate(w.stationed, v, nobody, AbroadOf(home, u));
    NobodyAt(|w.garrisons|, home);
  }

  lemma HandOverMarches(w: World, v: nat, spared: seq<Army>, home: nat, u: UnitId)
    requires Shaped(w) && v < |w.garrisons| == |spared| && home < |w.garrisons|
    ensures Sum(Conquered(w, v, spared).movements, MarchingFor(home, u))
         == Sum(w.movements, MarchingFor(home, u)) + spared[home][u]
            - If(home == v, Forfeited(w.movements + Returns(spared, 0), v)[u])
  {
    SumConcat(w.movements, Returns(spared, 0), MarchingFor(home, u));
    ReturnsBelong(spared, 0, home, u);
    CancelledBelong(w.movements + Returns(spared, 0), v, home, u);
  }

  /** A hand-over takes the garrison and what it has in transit from the village lost, and gives each guest
      village back exactly what was spared of its group, instead of the group. */
  lemma AHandOverGivesTheSparedBack(w: World, v: nat, spared: seq<Army>, home: nat, u: UnitId)
    requires Shaped(w) && v < |w.garrisons| == |spared| && home < |w.garrisons|
    ensures Belonging(Conquered(w, v, spared), home, u)
         == Belonging(w, home, u) - w.stationed[v][home][u] + spared[home][u]
            - If(home == v, w.garrisons[v][u]) - If(home == v, Forfeited(w.movements + Returns(spared, 0), v)[u])
  {
    HandOverStations(w, v, spared, home, u);
    HandOverMarches(w, v, spared, home, u);
    var w' := Conquered(w, v, spared);
    assert w'.garrisons == w.garrisons[v := multiset{}];
    assert w'.garrisons[home][u] == w.garrisons[home][u] - If(home == v, w.garrisons[v][u]);
  }

  /** A conquest by a battle that found the guests as it had read them: every village but the one lost
      loses exactly its own dead, as in any battle; the spared of each group are its own again. */
  lemma AConquestTakesEachSidesOwnDead(w: World, op: Op, settling: bool, home: nat, u: UnitId)
    requires Sound(w) && op.Fight? && op.conquered && home < |w.garrisons|
    requires CanFight(w, op.sid, op.leg, op.garrisonLoss, op.groupLoss, op.attackerLoss, op.looted)
    requires Fresh(w, op.(conquered := false))
    requires home != w.movements[op.leg].target
    requires w.sights[op.sid].groups == Some(w.stationed[w.movements[op.leg].target])
    ensures var m := w.movements[op.leg];
            Belonging(Step(w, op, settling), home, u)
              == Belonging(w, home, u) - If(m.home == home, op.attackerLoss[u]) - op.groupLoss[home][u]
  {
    var m := w.movements[op.leg];
    var fought := Step(w, op.(conquered := false), settling);
    var spared := RowMinus(w.sights[op.sid].groups.value, op.groupLoss);
    ABattleTakesEachSidesOwnDead(w, op.(conquered := false), settling, home, u);
    AfterTheBattle(w, op, settling);
    AHandOverGivesTheSparedBack(fought, m.target, spared, home, u);
  }

  lemma AfterTheBattle(w: World, op: Op, settling: bool)
    requires Sound(w) && op.Fight? && op.conquered
    requires CanFight(w, op.sid, op.leg, op.garrisonLoss, op.groupLoss, op.attackerLoss, op.looted)
    requires w.sights[op.sid].groups == Some(w.stationed[w.movements[op.leg].target])
    ensures var v, spared := w.movements[op.leg].target, RowMinus(w.sights[op.sid].groups.value, op.groupLoss);
            var fought := Step(w, op.(conquered := false), settling);
            && Shaped(fought) && |fought.garrisons| == |w.garrisons| == |spared|
            && Step(w, op, settling) == Conquered(fought, v, spared)
            && fought.stationed[v] == spared
  {
    FightIsSound(w, op, settling);
  }

  // ------------------------------------------------------------------ the other applies

  /** Scouts lost are their own village's, and nobody else's. */
  lemma ScoutsAreTheirVillages(w: World, op: Op, settling: bool, home: nat, u: UnitId)
    requires Sound(w) && op.Spy? && home < |w.garrisons|
    requires Held(w, op.leg, Kind.Scout) && op.loss <= w.movements[op.leg].troops
    ensures Belonging(Step(w, op, settling), home, u)
         == Belonging(w, home, u) - If(w.movements[op.leg].home == home, op.loss[u])
  {
    var m := w.movements[op.leg];
    ClosingOne(w, op.leg, home, u);
    SendingHome(Closed(w, op.leg), m.home, m.troops - op.loss, false, home, u);
  }

  /** So are the attackers lost at an oasis. */
  lemma OasisAttackersAreTheirVillages(w: World, op: Op, settling: bool, home: nat, u: UnitId)
    requires Sound(w) && op.FightOasis? && home < |w.garrisons|
    requires CanFightOasis(w, op.sid, op.leg, op.defenderLoss, op.attackerLoss)
    ensures Belonging(Step(w, op, settling), home, u)
         == Belonging(w, home, u) - If(w.movements[op.leg].home == home, op.attackerLoss[u])
  {
    var m := w.movements[op.leg];
    var w' := Step(w, op, settling);
    ClosingOne(w, op.leg, home, u);
    SendingHome(Closed(w, op.leg), m.home, m.troops - op.attackerLoss, false, home, u);
    var short := Homeward(Closed(w, op.leg), m.home, m.troops - op.attackerLoss, false);
    assert w'.garrisons == short.garrisons && w'.stationed == short.stationed && w'.movements == short.movements;
  }

  /** A reinforcement that finds the oasis no longer its village's, and settlers refused, turn home whole;
      one that is stationed there, and settlers who found a village, leave their village's own. */
  lemma ArrivalsAfieldAreTheirVillages(w: World, op: Op, settling: bool, home: nat, u: UnitId)
    requires Sound(w) && home < |w.garrisons| && (op.ArriveAtOasis? || op.Found?)
    requires Held(w, op.leg, if op.Found? then Settle else OasisReinforce)
    ensures var m := w.movements[op.leg];
            var stays := if op.Found? then op.founded else op.stillOwned && m.target < |w.oases| && w.oases[m.target].materialised;
            Belonging(Step(w, op, settling), home, u) == Belonging(w, home, u) - If(stays && m.home == home, m.troops[u])
  {
    var m := w.movements[op.leg];
    ClosingOne(w, op.leg, home, u);
    LaunchingOne(Closed(w, op.leg), Movement(Return, m.home, m.home, m.troops, InTransit, false), home, u);
  }

  // ------------------------------------------------------------------ the way home

  /** Whoever this step sends home. */
  function SentHome(w: World, op: Op): Army
    requires Shaped(w)
  {
    match op
    case Fight(sid, leg, gl, rl, al, looted, _) =>
      if CanFight(w, sid, leg, gl, rl, al, looted) then w.movements[leg].troops - al else multiset{}
    case Spy(leg, loss) =>
      if Held(w, leg, Kind.Scout) && loss <= w.movements[leg].troops then w.movements[leg].troops - loss else multiset{}
    case FightOasis(sid, leg, dl, al, _, _, _) =>
      if CanFightOasis(w, sid, leg, dl, al) then w.movements[leg].troops - al else multiset{}
    case ArriveAtOasis(leg, stillOwned) =>
      if Held(w, leg, OasisReinforce) && w.movements[leg].target < |w.oases| && !stillOwned then w.movements[leg].troops
      else multiset{}
    case Found(leg, founded) => if Held(w, leg, Settle) && !founded then w.movements[leg].troops else multiset{}
    case _ => multiset{}
  }

  /** Survivors of a battle, of espionage or of an oasis attack, and whoever is turned away at an oasis or a
      settlement, set out for the village they came from. */
  lemma TheySetOutForHome(w: World, op: Op, settling: bool)
    requires Sound(w) && SentHome(w, op) != multiset{} && !(op.Fight? && op.conquered)
    ensures var w' := Step(w, op, settling);
            && |w'.movements| == |w.movements| + 1 && op.leg < |w.movements|
            && var m, back := w.movements[op.leg], w'.movements[|w.movements|];
               && back == Movement(Return, m.home, m.home, SentHome(w, op), InTransit, op.Fight? && op.looted)
               && w'.movements[op.leg] == m.(status := Done)
  {
  }

  lemma {:induction false} EachGroupReturns(groups: seq<Army>, first: nat, h: nat)
    requires h < |groups| && groups[h] != multiset{}
    ensures Movement(Return, first + h, first + h, groups[h], InTransit, false) in Returns(groups, first)
    decreases |groups|
  {
    if h > 0 {
      EachGroupReturns(groups[1..], first + 1, h - 1);
      assert groups[1..][h - 1] == groups[h];
    }
  }

  /** At a hand-over the spared group of each other village sets out for that village. */
  lemma SparedGuestsSetOutForHome(w: World, v: nat, spared: seq<Army>, h: nat)
    requires Shaped(w) && v < |w.garrisons| && h < |spared| && h != v && spared[h] != multiset{}
    ensures Movement(Return, h, h, spared[h], InTransit, false) in Conquered(w, v, spared).movements
  {
    EachGroupReturns(spared, 0, h);
    var m := Movement(Return, h, h, spared[h], InTransit, false);
    var ms := w.movements + Returns(spared, 0);
    var i :| 0 <= i < |Returns(spared, 0)| && Returns(spared, 0)[i] == m;
    assert ms[|w.movements| + i] == m;
    CancelledAt(ms, v, |w.movements| + i);
  }

  /** Whoever is on the way home rejoins the garrison of their own village when they are picked up and land
      (with loot, if the village is as its credit had read it), and no other garrison changes. */
  lemma AReturnLands(w: World, leg: nat, seen: nat, settling: bool)
    requires Sound(w) && leg < |w.movements| && w.movements[leg].kind == Return && w.movements[leg].status == InTransit
    requires w.movements[leg].home == w.movements[leg].target < |w.garrisons|
    requires w.movements[leg].loot ==> w.stamps[w.movements[leg].target] == seen
    ensures var m, claimed := w.movements[leg], DoQuiet(w, Claim(leg));
            && Shaped(claimed)
            && var landed := DoArrive(claimed, leg, seen, settling);
               && landed.garrisons == w.garrisons[m.home := w.garrisons[m.home] + m.troops]
               && landed.stationed == w.stationed && landed.movements == w.movements[leg := m.(status := Done)]
  {
  }

  /** So the survivors of a battle end in the garrison they came from. */
  lemma SurvivorsRejoinTheirOwnGarrison(w: World, op: Op, settling: bool, seen: nat)
    requires Sound(w) && SentHome(w, op) != multiset{} && !(op.Fight? && op.conquered)
    requires op.leg < |w.movements| && w.movements[op.leg].home < |w.garrisons|
    requires op.Fight? && op.looted ==> Shaped(Step(w, op, settling)) && Step(w, op, settling).stamps[w.movements[op.leg].home] == seen
    ensures var w1, home := Step(w, op, settling), w.movements[op.leg].home;
            var claimed := DoQuiet(w1, Claim(|w.movements|));
            && Shaped(claimed) && |w1.garrisons| == |w.garrisons|
            && DoArrive(claimed, |w.movements|, seen, settling).garrisons == w1.garrisons[home := w1.garrisons[home] + SentHome(w, op)]
  {
    TheySetOutForHome(w, op, settling);
    StepIsSound(w, op, settling);
    GarrisonsStay(w, op, settling);
    AReturnLands(Step(w, op, settling), |w.movements|, seen, settling);
  }

  lemma GarrisonsStay(w: World, op: Op, settling: bool)
    requires Sound(w)
    ensures |Step(w, op, settling).garrisons| == |w.garrisons|
  {
  }

  // ------------------------------------------------------------------ every run

  lemma {:induction false} ReturnsAreBoundHome(groups: seq<Army>, first: nat)
    ensures forall i :: 0 <= i < |Returns(groups, first)| ==> Returns(groups, first)[i].target == Returns(groups, first)[i].home
    decreases |groups|
  {
    if groups != [] {
      ReturnsAreBoundHome(groups[1..], first + 1);
    }
  }

  lemma HandingOverKeepsReturns(w: World, v: nat, spared: seq<Army>)
    requires Shaped(w) && ReturnsGoHome(w) && v < |w.garrisons|
    ensures ReturnsGoHome(Conquered(w, v, spared))
  {
    var ms := w.movements + Returns(spared, 0);
    ReturnsAreBoundHome(spared, 0);
    forall i | 0 <= i < |ms| && Cancelled(ms, v)[i].kind == Return
      ensures Cancelled(ms, v)[i].target == Cancelled(ms, v)[i].home
    {
      CancelledAt(ms, v, i);
      if i >= |w.movements| {
        assert ms[i] == Returns(spared, 0)[i - |w.movements|];
      }
    }
  }

  lemma FightKeepsReturns(w: World, op: Op, settling: bool)
    requires Sound(w) && ReturnsGoHome(w) && op.Fight? && !op.conquered
    ensures ReturnsGoHome(Step(w, op, settling))
  {
  }

  lemma AppliesKeepReturns(w: World, op: Op, settling: bool)
    requires Sound(w) && ReturnsGoHome(w) && (op.Spy? || op.FightOasis? || op.ArriveAtOasis? || op.Found? || op.RecallOasis?)
    ensures ReturnsGoHome(Step(w, op, settling))
  {
  }

  lemma StepKeepsReturns(w: World, op: Op, settling: bool)
    requires Sound(w) && ReturnsGoHome(w)
    ensures ReturnsGoHome(Step(w, op, settling))
  {
    if op.Fight? {
      FightKeepsReturns(w, op.(conquered := false), settling);
      if op.conquered && CanFight(w, op.sid, op.leg, op.garrisonLoss, op.groupLoss, op.attackerLoss, op.looted) {
        StepIsSound(w, op.(conquered := false), settling);
        HandingOverKeepsReturns(Step(w, op.(conquered := false), settling), w.movements[op.leg].target,
                                RowMinus(w.sights[op.sid].groups.value, op.groupLoss));
      }
    } else if op.Spy? || op.FightOasis? || op.ArriveAtOasis? || op.Found? || op.RecallOasis? {
      AppliesKeepReturns(w, op, settling);
    } else if op.Send? || op.RecallGroup? || op.Arrive? {
      MarchesKeepReturns(w, op, settling);
    } else {
      assert |Step(w, op, settling).movements| == |w.movements|;
      assert forall i :: 0 <= i < |w.movements| ==> Step(w, op, settling).movements[i] == w.movements[i].(status := Step(w, op, settling).movements[i].status);
    }
  }

  /** In every run whoever returns, returns to their own village. */
  lemma {:induction false} EveryReturnGoesHome(w: World, ops: seq<Op>, settling: bool)
    requires Sound(w) && ReturnsGoHome(w) && Schedulable(w, ops, settling)
    ensures ReturnsGoHome(Run(w, ops, settling))
    decreases |ops|
  {
    if ops != [] {
      StepIsSound(w, ops[0], settling);
      StepKeepsReturns(w, ops[0], settling);
      EveryReturnGoesHome(Step(w, ops[0], settling), ops[1..], settling);
    }
  }

  // ------------------------------------------------------------------ whose oasis it is

  function Owners(oases: seq<Oasis>): (r: seq<Option<nat>>)
    ensures |r| == |oases| && forall i :: 0 <= i < |r| ==> r[i] == oases[i].owner
  {
    seq(|oases|, i requires 0 <= i < |oases| => oases[i].owner)
  }

  /** An oasis battle applied as it was read (the oasis's owner, and how many oases the attacker's village
      holds) hands the oases over just as the rules of occupation say; other steps leave every owner. */
  lemma OasisBattlesFollowTheRules(w: World, op: Op, settling: bool, capacity: seq<nat>)
    requires Sound(w)
    requires op.FightOasis? && CanFightOasis(w, op.sid, op.leg, op.defenderLoss, op.attackerLoss) ==>
               && Current(w, op.sid) && w.movements[op.leg].home < |capacity|
               && op.capacity == capacity[w.movements[op.leg].home]
               && op.held == Oases.Held(Owners(w.oases), w.movements[op.leg].home)
    ensures Owners(Step(w, op, settling).oases)
         == if op.FightOasis? && CanFightOasis(w, op.sid, op.leg, op.defenderLoss, op.attackerLoss)
            then Oases.After(Oases.Land(Owners(w.oases), capacity),
                             Oases.Resolve(w.movements[op.leg].target, w.movements[op.leg].home, op.won)).owners
            else Owners(w.oases)
  {
    if op.FightOasis? {
    } else {
      OtherStepsKeepOwners(w, op, settling);
    }
  }

  lemma OtherStepsKeepOwners(w: World, op: Op, settling: bool)
    requires Shaped(w) && !op.FightOasis?
    ensures Owners(Step(w, op, settling).oases) == Owners(w.oases)
  {
  }
}
