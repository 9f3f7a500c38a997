/** Where troops go: whose they stay on the march, and that a reinforcement called home undoes itself. */
module TroopJourneys {
  import opened Armies
  import opened Sums
  import opened Troops
  import opened TroopLaws

  // ------------------------------------------------------------------ allegiance

  function AbroadOf(home: nat, u: UnitId): seq<Army> -> int {
    (row: seq<Army>) => if home < |row| then row[home][u] else 0
  }

  function MarchingFor(home: nat, u: UnitId): Movement -> int {
    (m: Movement) => if m.status == Done || m.home != home then 0 else m.troops[u]
  }

  /** The units of village `home`: in its garrison, stationed anywhere, and on the road. */
  function Belonging(w: World, home: nat, u: UnitId): int
    requires home < |w.garrisons|
  {
    w.garrisons[home][u] + Sum(w.stationed, AbroadOf(home, u)) + Sum(w.movements, MarchingFor(home, u))
  }

  /** Returns go home. */
  ghost predicate ReturnsGoHome(w: World) {
    forall i :: 0 <= i < |w.movements| && w.movements[i].kind == Return ==> w.movements[i].target == w.movements[i].home
  }

  /** The steps of a march: nobody dies, is trained, settles, or enters an oasis. */
  predicate IsMarch(op: Op) {
    || op.Send? || op.RecallGroup? || op.Arrive? || op.Claim? || op.Abandon? || op.Crash? || op.Requeue?
    || op.Select? || op.LookGarrison? || op.LookGuests? || op.LookRow? || op.LookOasis?
  }

  lemma RowUpdate(row: seq<Army>, i: nat, a: Army, home: nat, u: UnitId)
    requires i < |row| && home < |row|
    ensures AbroadOf(home, u)(row[i := a]) == if i == home then a[u] else AbroadOf(home, u)(row)
  {
  }

  lemma SendKeepsAllegiance(w: World, op: Op, settling: bool, home: nat, u: UnitId)
    requires Sound(w) && home < |w.garrisons| && op.Send?
    ensures Belonging(Step(w, op, settling), home, u) == Belonging(w, home, u)
  {
    if op.village < |w.garrisons| && op.kind != Return && Force(op.list) <= w.garrisons[op.village] {
      SumAppend(w.movements, Movement(op.kind, op.village, op.target, Force(op.list), InTransit, false), MarchingFor(home, u));
      assert Force(op.list)[u] <= w.garrisons[op.village][u];
    }
  }

  lemma RecallKeepsAllegiance(w: World, op: Op, settling: bool, home: nat, u: UnitId)
    requires Sound(w) && home < |w.garrisons| && op.RecallGroup?
    ensures Belonging(Step(w, op, settling), home, u) == Belonging(w, home, u)
  {
    if op.host < |w.stationed| && op.home < |w.stationed[op.host]| {
      var row := w.stationed[op.host];
      SumUpdate(w.stationed, op.host, row[op.home := multiset{}], AbroadOf(home, u));
      RowUpdate(row, op.home, multiset{}, home, u);
      SumAppend(w.movements, Movement(Return, op.home, op.home, row[op.home], InTransit, false), MarchingFor(home, u));
    }
  }

  lemma ArrivalKeepsAllegiance(w: World, op: Op, settling: bool, home: nat, u: UnitId)
    requires Sound(w) && ReturnsGoHome(w) && home < |w.garrisons| && op.Arrive?
    ensures Belonging(Step(w, op, settling), home, u) == Belonging(w, home, u)
  {
    if op.leg in w.claims && w.movements[op.leg].target < |w.garrisons| && w.movements[op.leg].home < |w.garrisons| {
      var m := w.movements[op.leg];
      SumUpdate(w.movements, op.leg, m.(status := Done), MarchingFor(home, u));
      if m.kind == Reinforce {
        var row := w.stationed[m.target];
        SumUpdate(w.stationed, m.target, row[m.home := row[m.home] + m.troops], AbroadOf(home, u));
        RowUpdate(row, m.home, row[m.home] + m.troops, home, u);
      }
    }
  }

  lemma QuietKeepsAllegiance(w: World, op: Op, home: nat, u: UnitId)
    requires Shaped(w) && ReturnsGoHome(w) && home < |w.garrisons|
    ensures |DoQuiet(w, op).garrisons| == |w.garrisons| && ReturnsGoHome(DoQuiet(w, op))
    ensures Belonging(DoQuiet(w, op), home, u) == Belonging(w, home, u)
  {
    match op
    case Claim(leg) =>
      if leg < |w.movements| {
        SumUpdate(w.movements, leg, w.movements[leg].(status := Processing), MarchingFor(home, u));
      }
    case Requeue => SumSame(w.movements, Requeued(w.movements), MarchingFor(home, u));
    case _ =>
  }

  lemma MarchesKeepReturns(w: World, op: Op, settling: bool)
    requires Sound(w) && ReturnsGoHome(w) && (op.Send? || op.RecallGroup? || op.Arrive?)
    ensures |Step(w, op, settling).garrisons| == |w.garrisons| && ReturnsGoHome(Step(w, op, settling))
  {
  }

  /** On the march troops never change hands: for every village, its garrison, its groups at other
      villages and its armies on the road together hold the same units before and after. */
  lemma MarchingKeepsAllegiance(w: World, op: Op, settling: bool, home: nat, u: UnitId)
    requires Sound(w) && ReturnsGoHome(w) && home < |w.garrisons| && IsMarch(op)
    ensures |Step(w, op, settling).garrisons| == |w.garrisons|
    ensures Belonging(Step(w, op, settling), home, u) == Belonging(w, home, u)
    ensures ReturnsGoHome(Step(w, op, settling))
  {
    if op.Send? || op.RecallGroup? || op.Arrive? {
      MarchesKeepReturns(w, op, settling);
      if op.Send? {
        SendKeepsAllegiance(w, op, settling, home, u);
      } else if op.RecallGroup? {
        RecallKeepsAllegiance(w, op, settling, home, u);
      } else {
        ArrivalKeepsAllegiance(w, op, settling, home, u);
      }
    } else {
      QuietKeepsAllegiance(w, op, home, u);
    }
  }

  // ------------------------------------------------------------------ there and back

  /** The world once the dispatch, its claim and its arrival are done. */
  function Arrived(w: World, v: nat, target: nat, list: UnitCounts): World
    requires Shaped(w)
  {
    var sent := DoSend(w, v, Reinforce, target, list, false);
    var claimed := DoQuiet(sent, Claim(|w.movements|));
    if Shaped(claimed) then DoArrive(claimed, |w.movements|, 0, false) else claimed
  }

  lemma AReinforcementIsStationed(w: World, v: nat, target: nat, list: UnitCounts)
    requires Shaped(w) && v < |w.garrisons| && target < |w.garrisons|
    requires Force(list) <= w.garrisons[v] && UniqueKeys(NonZero(list))
    ensures var there := Arrived(w, v, target, list);
            && Shaped(there)
            && there.garrisons == w.garrisons[v := w.garrisons[v] - Force(list)]
            && there.stationed == w.stationed[target := w.stationed[target][v := w.stationed[target][v] + Force(list)]]
            && |there.movements| == |w.movements| + 1
            && there.books == w.books
  {
  }

  lemma ARecallComesHome(w: World, host: nat, home: nat)
    requires Shaped(w) && host < |w.garrisons| && home < |w.garrisons| && w.stationed[host][home] != multiset{}
    ensures var called := DoRecallGroup(w, host, home);
            var claimed := DoQuiet(called, Claim(|w.movements|));
            && Shaped(claimed)
            && var back := DoArrive(claimed, |w.movements|, 0, false);
               && back.garrisons == w.garrisons[home := w.garrisons[home] + w.stationed[host][home]]
               && back.stationed == w.stationed[host := w.stationed[host][home := multiset{}]]
  {
  }

  /** Troops called back from an oasis rejoin the garrison of the village they are sent to, and leave
      the oasis empty. */
  lemma AnOasisRecallComesHome(w: World, o: nat, home: nat)
    requires Shaped(w) && o < |w.oases| && w.oases[o].materialised && w.oases[o].troops != multiset{}
    requires home < |w.garrisons|
    ensures var called := DoRecallOasis(w, o, home);
            var claimed := DoQuiet(called, Claim(|w.movements|));
            && Shaped(claimed)
            && var back := DoArrive(claimed, |w.movements|, 0, false);
               && back.garrisons == w.garrisons[home := w.garrisons[home] + w.oases[o].troops]
               && back.oases == w.oases[o := w.oases[o].(troops := multiset{})]
               && back.stationed == w.stationed && back.books == w.books
  {
  }

  /** A reinforcement that arrives and is called back leaves every garrison and every group as they
      were, if none of the village's troops stood there before. */
  lemma ThereAndBackChangesNothing(w: World, v: nat, target: nat, list: UnitCounts)
    requires Shaped(w) && v < |w.garrisons| && target < |w.garrisons|
    requires Force(list) <= w.garrisons[v] && UniqueKeys(NonZero(list)) && Force(list) != multiset{}
    requires w.stationed[target][v] == multiset{}
    ensures var there := Arrived(w, v, target, list);
            var claimed := DoQuiet(DoRecallGroup(there, target, v), Claim(|there.movements|));
            && Shaped(claimed)
            && var back := DoArrive(claimed, |there.movements|, 0, false);
               back.garrisons == w.garrisons && back.stationed == w.stationed
  {
    AReinforcementIsStationed(w, v, target, list);
    var there := Arrived(w, v, target, list);
    ComingAndGoing(w.garrisons, w.stationed, there.garrisons, there.stationed, v, target, Force(list));
    ARecallComesHome(there, target, v);
  }

  lemma ComingAndGoing(garrisons: seq<Army>, stationed: seq<seq<Army>>, garrisons': seq<Army>, stationed': seq<seq<Army>>,
                       v: nat, target: nat, force: Army)
    requires v < |garrisons| && target < |stationed| && v < |stationed[target]|
    requires force <= garrisons[v] && stationed[target][v] == multiset{}
    requires garrisons' == garrisons[v := garrisons[v] - force]
    requires stationed' == stationed[target := stationed[target][v := stationed[target][v] + force]]
    ensures stationed'[target][v] == force
    ensures garrisons'[v := garrisons'[v] + force] == garrisons
    ensures stationed'[target := stationed'[target][v := multiset{}]] == stationed
  {
    assert garrisons[v] - force + force == garrisons[v];
    assert stationed'[target][v := multiset{}] == stationed[target];
  }
}
