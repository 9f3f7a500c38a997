/** The troop steps as they run: stored tables updated in place, one transaction a step. */
module TroopEngine {
  import opened Armies
  import opened Options
  import opened Sums
  import Oases
  import opened Troops
  import opened TroopLaws
  import opened TroopJourneys

  class Engine {
    var garrisons: seq<Army>
    var stamps: seq<nat>
    var stationed: seq<seq<Army>>
    var oases: seq<Oasis>
    var movements: seq<Movement>
    var claims: set<nat>
    var sights: map<nat, Sight>
    var books: Books

    function State(): World
      reads this
    {
      World(garrisons, stamps, stationed, oases, movements, claims, sights, books)
    }

    /** `start_reinforcement`, `start_attack` and the other dispatches: the guarded debit stack by stack,
        then the movement and one row per unit; a repeated unit violates the key and rolls all back. */
    method Dispatch(v: nat, kind: Kind, target: nat, list: UnitCounts) returns (sent: bool)
      requires Shaped(State()) && v < |garrisons| && kind != Return
      modifies this
      ensures State() == DoSend(old(State()), v, kind, target, list, false)
      ensures sent <==> Force(list) <= old(garrisons[v]) && UniqueKeys(NonZero(list))
      ensures sent ==>
                && movements == old(movements) + [Movement(kind, v, target, Force(list), InTransit, false)]
                && garrisons[..v] == old(garrisons)[..v] && garrisons[v + 1..] == old(garrisons)[v + 1..]
                && garrisons[v] + Force(list) == old(garrisons)[v]
    {
      var table := new UnitTable(garrisons[v]);
      sent := table.GuardedDebit(list);
      if sent {
        sent := HasUniqueKeys(NonZero(list));
      }
      if sent {
        garrisons := garrisons[v := table.units];
        movements := movements + [Movement(kind, v, target, Force(list), InTransit, false)];
      }
    }

    /** `apply_movement` on a claimed arrival: its loot's home must still be as the credit's settle read
        it. Refused, nothing of it happens. */
    method ApplyMovement(leg: nat, seen: nat) returns (applied: bool)
      requires Shaped(State()) && leg in claims && leg < |movements| && IsArrival(movements[leg])
      requires movements[leg].target < |garrisons| && movements[leg].home < |garrisons|
      modifies this
      ensures State() == DoArrive(old(State()), leg, seen, false)
      ensures applied <==> MayLand(old(State()), old(movements)[leg], seen)
    {
      var m := movements[leg];
      applied := !(m.kind == Return && m.loot) || stamps[m.target] == seen;
      if !applied {
        return;
      }
      if m.kind == Reinforce {
        var row := stationed[m.target];
        stationed := stationed[m.target := row[m.home := row[m.home] + m.troops]];
      } else {
        garrisons := garrisons[m.target := garrisons[m.target] + m.troops];
        if m.loot {
          stamps := stamps[m.target := stamps[m.target] + 1];
        }
      }
      movements := movements[leg := m.(status := Done)];
      claims := claims - {leg};
    }

    /** One claimed arrival: nobody is added or lost. It is closed, unless the credit of its loot is
        refused; then it stays in `processing` and in nobody's hands. */
    method HandleArrival(leg: nat, seen: nat) returns (applied: bool)
      requires Sound(State()) && Census(State()) && leg in claims && IsArrival(movements[leg])
      requires movements[leg].target < |garrisons| && movements[leg].home < |garrisons|
      modifies this
      ensures Sound(State()) && Census(State()) && State() == Handled(old(State()), leg, seen)
      ensures |garrisons| == |old(garrisons)| && claims == old(claims) - {leg}
      ensures applied <==> MayLand(old(State()), old(movements)[leg], seen)
      ensures movements == if applied then old(movements)[leg := old(movements)[leg].(status := Done)] else old(movements)
    {
      ghost var before := State();
      HandlingIsExact(before, leg, seen);
      applied := ApplyMovement(leg, seen);
      assert applied ==> claims == claims - {leg};
      claims := claims - {leg};
    }

    /** `process_due_movements`: apply every claimed arrival, each with the stamp its credit had read,
        and collect the homes of the returns that landed. The census is exact afterwards if it was
        before; no other movement is touched; and every arrival of the batch is closed but the returns
        whose loot found its home settled in the meantime. */
    method ProcessDueMovements(due: seq<nat>, seen: seq<nat>) returns (returnedHomes: seq<nat>)
      requires Sound(State()) && Census(State()) && |seen| == |due|
      requires forall i, j :: 0 <= i < j < |due| ==> due[i] != due[j]
      requires forall i :: 0 <= i < |due| ==> due[i] in claims && IsLocalArrival(movements, due[i], |garrisons|)
      modifies this
      ensures Sound(State()) && Census(State())
      ensures State() == HandledAll(old(State()), due, seen)
      ensures returnedHomes == HomesOf(old(State()), due, seen)
    {
      returnedHomes := [];
      ghost var start, now := State(), State();
      var i := 0;
      while i < |due|
        invariant 0 <= i <= |due|
        invariant now == State() && Sound(now) && Census(now) && |garrisons| == |start.garrisons|
        invariant forall j :: i <= j < |due| ==> due[j] in claims && IsLocalArrival(movements, due[j], |garrisons|)
        invariant now == HandledAll(start, due[..i], seen[..i])
        invariant returnedHomes == HomesOf(start, due[..i], seen[..i])
      {
        NextIsHandled(start, due, seen, i);
        var leg := due[i];
        var m := movements[leg];
        assert forall j :: i < j < |due| ==> due[j] != leg;
        var landed := HandleArrival(leg, seen[i]);
        now := State();
        if landed && m.kind == Return {
          returnedHomes := returnedHomes + [m.target];
        }
        i := i + 1;
      }
      assert due[..i] == due && seen[..i] == seen;
    }

    /** `apply_starvation`: guarded on the resource row only. Applied, it keeps exactly the survivors,
        books the rest of the garrison it had read as dead, and settles the row; the census stays exact
        if and only if that garrison is still the one there. */
    method ApplyStarvation(sid: nat, survivors: Army) returns (applied: bool)
      requires Sound(State()) && Faces(State(), sid) && sights[sid].garrison.Some?
      requires survivors <= sights[sid].garrison.value
      modifies this
      ensures Sound(State())
      ensures applied <==> old(sights)[sid].stamp == Some(old(stamps)[old(sights)[sid].village])
      ensures !applied ==> State() == old(State())
      ensures applied ==>
                var s, v := old(sights)[sid], old(sights)[sid].village;
                && State() == old(State()).(garrisons := old(garrisons)[v := survivors],
                                            stamps := old(stamps)[v := old(stamps)[v] + 1],
                                            books := old(books).(dead := old(books).dead + (s.garrison.value - survivors)))
                && (old(Census(State())) ==> (Census(State()) <==> s.garrison.value == old(garrisons)[v]))
    {
      ghost var before := State();
      OrderIsSound(before, Starve(sid, survivors), false);
      var s := sights[sid];
      applied := s.stamp == Some(stamps[s.village]);
      if applied {
        stamps := stamps[s.village := stamps[s.village] + 1];
        garrisons := garrisons[s.village := survivors];
        books := books.(dead := books.dead + (s.garrison.value - survivors));
        assert State() == Step(before, Starve(sid, survivors), false);
        if Census(before) { CensusAfter(before, Starve(sid, survivors), false); }
      }
    }

    /** `start_return` of a stationed group: all of it leaves for its home, and nobody changes hands. */
    method StartReturn(host: nat, home: nat) returns (ok: bool)
      requires Sound(State()) && host < |garrisons| && home < |garrisons|
      modifies this
      ensures Sound(State()) && (ok <==> old(stationed)[host][home] != multiset{})
      ensures |garrisons| == |old(garrisons)| && stationed[host][home] == multiset{}
      ensures forall v, u :: 0 <= v < |garrisons| ==> Belonging(State(), v, u) == old(Belonging(State(), v, u))
      ensures ok ==> movements == old(movements) + [Movement(Return, home, home, old(stationed)[host][home], InTransit, false)]
      ensures !ok ==> State() == old(State())
    {
      ghost var before := State();
      OrderIsSound(before, RecallGroup(host, home), false);
      forall v: nat, u | v < |garrisons|
        ensures Belonging(Step(before, RecallGroup(host, home), false), v, u) == Belonging(before, v, u)
      {
        RecallKeepsAllegiance(before, RecallGroup(host, home), false, v, u);
      }
      var troops := stationed[host][home];
      ok := troops != multiset{};
      if ok {
        stationed := stationed[host := stationed[host][home := multiset{}]];
        movements := movements + [Movement(Return, home, home, troops, InTransit, false)];
      }
      assert State() == Step(before, RecallGroup(host, home), false);
    }

    /** `start_oasis_recall`: everybody in the oasis leaves for the village, and nobody is lost. */
    method StartOasisRecall(o: nat, home: nat) returns (ok: bool)
      requires Sound(State()) && Census(State()) && o < |oases| && oases[o].materialised
      modifies this
      ensures Sound(State()) && Census(State()) && (ok <==> old(oases)[o].troops != multiset{})
      ensures oases == old(oases)[o := old(oases)[o].(troops := multiset{})]
      ensures movements == old(movements)
                + if ok then [Movement(Return, home, home, old(oases)[o].troops, InTransit, false)] else []
      ensures garrisons == old(garrisons) && stationed == old(stationed) && books == old(books)
    {
      ghost var before := State();
      OrderIsSound(before, RecallOasis(o, home), false);
      CensusAfter(before, RecallOasis(o, home), false);
      var troops := oases[o].troops;
      ok := troops != multiset{};
      if ok {
        oases := oases[o := oases[o].(troops := multiset{})];
        movements := movements + [Movement(Return, home, home, troops, InTransit, false)];
      }
      assert State() == Step(before, RecallOasis(o, home), false);
    }

    /** `apply_battle`: the casualties come off whatever stands there now, the survivors go home, and a
        conquest hands the village over. The loot is debited from the row the battle had read; if that
        has been settled since, the whole battle is taken back. */
    method ApplyBattle(sid: nat, leg: nat, garrisonLoss: Army, groupLoss: seq<Army>, attackerLoss: Army, looted: bool,
                       conquered: bool) returns (applied: bool)
      requires Shaped(State()) && FightReady(State(), sid, leg, garrisonLoss, groupLoss, attackerLoss)
      modifies this
      ensures State() == DoFight(old(State()), sid, leg, garrisonLoss, groupLoss, attackerLoss, looted, conquered, false)
      ensures applied <==> (looted ==> old(sights)[sid].stamp == Some(old(stamps)[old(movements)[leg].target]))
      ensures !applied ==> State() == old(State())
    {
      var m := movements[leg];
      var s := sights[sid];
      applied := !looted || s.stamp == Some(stamps[s.village]);
      if !applied {
        return;
      }
      ghost var w1 := Closed(State(), leg);
      CloseMovement(leg);
      assert State() == w1;
      ghost var w2 := Struck(w1, m.target, garrisonLoss, groupLoss, looted);
      var dead := Strike(m.target, garrisonLoss, groupLoss, looted);
      assert State() == w2;
      ghost var w3 := Homeward(w2, m.home, m.troops - attackerLoss, looted);
      SendHome(m.home, m.troops - attackerLoss, looted);
      assert State() == w3;
      books := books.(dead := books.dead + (garrisonLoss + dead + attackerLoss));
      assert State() == Buried(w3, garrisonLoss + Pool(groupLoss) + attackerLoss);
      if conquered {
        HandOver(m.target, RowMinus(s.groups.value, groupLoss));
      }
    }

    method CloseMovement(leg: nat)
      requires leg < |movements|
      modifies this`movements, this`claims
      ensures State() == Closed(old(State()), leg)
    {
      movements := movements[leg := movements[leg].(status := Done)];
      claims := claims - {leg};
    }

    method SendHome(home: nat, troops: Army, loot: bool)
      modifies this`movements
      ensures State() == Homeward(old(State()), home, troops, loot)
    {
      if troops != multiset{} {
        movements := movements + [Movement(Return, home, home, troops, InTransit, loot)];
      }
    }

    method Strike(v: nat, garrisonLoss: Army, groupLoss: seq<Army>, looted: bool) returns (dead: Army)
      requires Shaped(State()) && v < |garrisons| == |groupLoss|
      modifies this`garrisons, this`stamps, this`stationed
      ensures State() == Struck(old(State()), v, garrisonLoss, groupLoss, looted)
      ensures dead == Pool(groupLoss)
    {
      garrisons := garrisons[v := garrisons[v] - garrisonLoss];
      if looted {
        stamps := stamps[v := stamps[v] + 1];
      }
      var row;
      row, dead := SubtractGroups(stationed[v], groupLoss);
      stationed := stationed[v := row];
    }

    method HandOver(v: nat, spared: seq<Army>)
      requires Shaped(State()) && v < |garrisons|
      modifies this
      ensures State() == Conquered(old(State()), v, spared)
    {
      garrisons := garrisons[v := multiset{}];
      stationed := stationed[v := Nobody(|garrisons|)];
      var all := movements + Returns(spared, 0);
      var forfeited;
      movements, forfeited := CancelOutgoing(all, v);
      books := books.(forfeited := books.forfeited + forfeited);
    }

    /** `apply_oasis_battle`: the garrison becomes what the battle left of the defenders it had read, the
        survivors go home, and the losses of both sides are booked. From then on the oasis is
        materialised; the census stays exact if it was not yet, or if nobody came or went since the read. */
    method ApplyOasisBattle(sid: nat, leg: nat, defenderLoss: Army, attackerLoss: Army, won: bool,
            held: nat, capacity: nat)
      requires Sound(State()) && CanFightOasis(State(), sid, leg, defenderLoss, attackerLoss)
      modifies this
      ensures Sound(State())
      ensures var m := old(movements)[leg];
              && oases == old(oases)[m.target := Oasis(OwnerAfterFight(old(State()), sid, leg, won, held, capacity), true,
                                                        old(oases)[m.target].seeded, old(sights)[sid].troops - defenderLoss)]
              && movements == old(movements)[leg := m.(status := Done)] + SurvivorsOf(m, attackerLoss)
              && (old(Census(State())) ==>
                    (Census(State()) <==> !old(oases)[m.target].materialised || old(sights)[sid].troops == old(oases)[m.target].troops))
      ensures garrisons == old(garrisons) && stationed == old(stationed) && claims == old(claims) - {leg}
    {
      ghost var before := State();
      OasisFightEffect(before, sid, leg, defenderLoss, attackerLoss, won, held, capacity);
      OasisFightMovements(before, sid, leg, defenderLoss, attackerLoss, won, held, capacity);
      if Census(before) { OasisFightCensus(before, sid, leg, defenderLoss, attackerLoss, won, held, capacity); }
      var m := movements[leg];
      var o := oases[m.target];
      var seen := sights[sid].troops;
      var outcome := Oases.Decide(sights[sid].owner, m.home, won, held, capacity);
      if !o.materialised {
        books := books.(spawned := books.spawned + seen);
      }
      oases := oases[m.target := Oasis(Oases.OwnerAfter(outcome, o.owner), true, o.seeded, seen - defenderLoss)];
      movements := movements[leg := m.(status := Done)];
      claims := claims - {leg};
      SendHome(m.home, m.troops - attackerLoss, false);
      books := books.(dead := books.dead + (defenderLoss + attackerLoss));
      assert State() == DoFightOasis(before, sid, leg, defenderLoss, attackerLoss, won, held, capacity);
    }
  }

  /** Whoever is left of an army, on the way home. */
  function SurvivorsOf(m: Movement, loss: Army): seq<Movement> {
    if m.troops - loss == multiset{} then [] else [Movement(Return, m.home, m.home, m.troops - loss, InTransit, false)]
  }

  lemma OasisFightMovements(w: World, sid: nat, leg: nat, defenderLoss: Army, attackerLoss: Army, won: bool,
            held: nat, capacity: nat)
    requires CanFightOasis(w, sid, leg, defenderLoss, attackerLoss)
    ensures var m, w' := w.movements[leg], DoFightOasis(w, sid, leg, defenderLoss, attackerLoss, won, held, capacity);
            w'.movements == w.movements[leg := m.(status := Done)] + SurvivorsOf(m, attackerLoss)
  {
    var done := w.movements[leg := w.movements[leg].(status := Done)];
    assert done + [] == done;
  }

  lemma OasisFightEffect(w: World, sid: nat, leg: nat, defenderLoss: Army, attackerLoss: Army, won: bool,
            held: nat, capacity: nat)
    requires Sound(w) && CanFightOasis(w, sid, leg, defenderLoss, attackerLoss)
    ensures var m, w' := w.movements[leg], DoFightOasis(w, sid, leg, defenderLoss, attackerLoss, won, held, capacity);
            && Sound(w')
            && w'.oases == w.oases[m.target := Oasis(OwnerAfterFight(w, sid, leg, won, held, capacity), true,
                                                      w.oases[m.target].seeded, w.sights[sid].troops - defenderLoss)]
            && w'.garrisons == w.garrisons && w'.stationed == w.stationed && w'.claims == w.claims - {leg}
  {
    OasisApplyIsSound(w, FightOasis(sid, leg, defenderLoss, attackerLoss, won, held, capacity), false);
  }

  lemma OasisFightCensus(w: World, sid: nat, leg: nat, defenderLoss: Army, attackerLoss: Army, won: bool,
            held: nat, capacity: nat)
    requires Sound(w) && CanFightOasis(w, sid, leg, defenderLoss, attackerLoss) && Census(w)
    ensures var o, w' := w.oases[w.movements[leg].target], DoFightOasis(w, sid, leg, defenderLoss, attackerLoss, won, held, capacity);
            Census(w') <==> !o.materialised || w.sights[sid].troops == o.troops
  {
    CensusAfter(w, FightOasis(sid, leg, defenderLoss, attackerLoss, won, held, capacity), false);
  }

  predicate IsArrival(m: Movement) { m.kind == Reinforce || m.kind == Return }

  /** Casualties of every stationed group, each losing at most what is left of it. */
  method SubtractGroups(row: seq<Army>, loss: seq<Army>) returns (left: seq<Army>, dead: Army)
    requires |loss| == |row|
    ensures left == RowMinus(row, loss) && dead == Pool(loss)
  {
    left, dead := [], multiset{};
    var i := 0;
    while i < |row|
      invariant 0 <= i <= |row|
      invariant left + RowMinus(row[i..], loss[i..]) == RowMinus(row, loss)
      invariant dead + Pool(loss[i..]) == Pool(loss)
    {
      assert row[i..][1..] == row[i + 1..] && loss[i..][1..] == loss[i + 1..];
      left := left + [row[i] - loss[i]];
      dead := dead + loss[i];
      i := i + 1;
    }
  }

  /** Cancel what a village has in transit. */
  method CancelOutgoing(ms: seq<Movement>, v: nat) returns (left: seq<Movement>, forfeited: Army)
    ensures left == Cancelled(ms, v) && forfeited == Forfeited(ms, v)
  {
    left, forfeited := [], multiset{};
    var i := 0;
    while i < |ms|
      invariant 0 <= i <= |ms|
      invariant left + Cancelled(ms[i..], v) == Cancelled(ms, v)
      invariant forfeited + Forfeited(ms[i..], v) == Forfeited(ms, v)
    {
      assert ms[i..][1..] == ms[i + 1..];
      if ms[i].home == v && ms[i].status == InTransit {
        left := left + [ms[i].(status := Done)];
        forfeited := forfeited + ms[i].troops;
      } else {
        left := left + [ms[i]];
      }
      i := i + 1;
    }
  }

  predicate IsLocalArrival(movements: seq<Movement>, leg: nat, villages: nat) {
    && leg < |movements| && IsArrival(movements[leg])
    && movements[leg].target < villages && movements[leg].home < villages
  }

  /** One claimed arrival handled: applied, or refused and let go. */
  function Handled(w: World, leg: nat, seen: nat): (r: World)
    requires Shaped(w)
    ensures Shaped(r)
  {
    DoQuiet(DoArrive(w, leg, seen, false), Abandon(leg))
  }

  lemma HandlingIsExact(w: World, leg: nat, seen: nat)
    requires Sound(w) && Census(w)
    ensures Sound(Handled(w, leg, seen)) && Census(Handled(w, leg, seen))
  {
    var arrived := Step(w, Op.Arrive(leg, seen), false);
    ArrivalIsSound(w, Op.Arrive(leg, seen), false);
    CensusAfter(w, Op.Arrive(leg, seen), false);
    QuietIsSound(arrived, Abandon(leg));
    CensusAfter(arrived, Abandon(leg), false);
  }

  function HandledAll(w: World, due: seq<nat>, seen: seq<nat>): (r: World)
    requires Shaped(w) && |seen| == |due|
    ensures Shaped(r)
    decreases |due|
  {
    if due == [] then w else HandledAll(Handled(w, due[0], seen[0]), due[1..], seen[1..])
  }

  /** Where the arrival lands, if it is a return that does. */
  function Landing(w: World, leg: nat, seen: nat): seq<nat> {
    if leg < |w.movements| && w.movements[leg].kind == Return && MayLand(w, w.movements[leg], seen)
    then [w.movements[leg].target] else []
  }

  /** Where the returns that land arrive, in order. */
  function HomesOf(w: World, due: seq<nat>, seen: seq<nat>): seq<nat>
    requires Shaped(w) && |seen| == |due|
    decreases |due|
  {
    if due == [] then []
    else Landing(w, due[0], seen[0]) + HomesOf(Handled(w, due[0], seen[0]), due[1..], seen[1..])
  }

  lemma {:induction false} LastIsHandled(w: World, due: seq<nat>, seen: seq<nat>)
    requires Shaped(w) && |seen| == |due| > 0
    ensures var k := |due| - 1;
            var before := HandledAll(w, due[..k], seen[..k]);
            && Shaped(before) && HandledAll(w, due, seen) == Handled(before, due[k], seen[k])
            && HomesOf(w, due, seen) == HomesOf(w, due[..k], seen[..k]) + Landing(before, due[k], seen[k])
    decreases |due|
  {
    var k := |due| - 1;
    if k == 0 {
      assert due[1..] == [] && seen[1..] == [];
    } else {
      assert due[..k][1..] == due[1..][..k - 1] && seen[..k][1..] == seen[1..][..k - 1];
      LastIsHandled(Handled(w, due[0], seen[0]), due[1..], seen[1..]);
    }
  }

  lemma NextIsHandled(w: World, due: seq<nat>, seen: seq<nat>, i: nat)
    requires Shaped(w) && i < |due| == |seen|
    ensures var before := HandledAll(w, due[..i], seen[..i]);
            && HandledAll(w, due[..i + 1], seen[..i + 1]) == Handled(before, due[i], seen[i])
            && HomesOf(w, due[..i + 1], seen[..i + 1]) == HomesOf(w, due[..i], seen[..i]) + Landing(before, due[i], seen[i])
  {
    assert due[..i + 1][..i] == due[..i] && seen[..i + 1][..i] == seen[..i];
    LastIsHandled(w, due[..i + 1], seen[..i + 1]);
  }

  lemma {:induction false} OthersAreLeftAlone(w: World, due: seq<nat>, seen: seq<nat>, leg: nat)
    requires Shaped(w) && |seen| == |due| && leg < |w.movements| && leg !in due
    ensures var w' := HandledAll(w, due, seen);
            |w'.movements| == |w.movements| && w'.movements[leg] == w.movements[leg] && (leg in w'.claims <==> leg in w.claims)
    decreases |due|
  {
    if due != [] {
      OthersAreLeftAlone(Handled(w, due[0], seen[0]), due[1..], seen[1..], leg);
    }
  }

  /** Which arrivals of a batch close: each one, but a return whose loot finds its home's row settled
      since it was read, be it by an earlier return of the same batch. That one stays in `processing`,
      and no worker holds it. */
  lemma {:induction false} AnArrivalClosesIffItsLootMayLand(w: World, due: seq<nat>, seen: seq<nat>, k: nat)
    requires Shaped(w) && |seen| == |due| && k < |due|
    requires forall i, j :: 0 <= i < j < |due| ==> due[i] != due[j]
    requires forall i :: 0 <= i < |due| ==>
               due[i] < |w.movements| && due[i] in w.claims && IsLocalArrival(w.movements, due[i], |w.garrisons|)
    ensures var m, w' := w.movements[due[k]], HandledAll(w, due, seen);
            && due[k] < |w'.movements| && due[k] !in w'.claims
            && w'.movements[due[k]] == if MayLand(HandledAll(w, due[..k], seen[..k]), m, seen[k]) then m.(status := Done) else m
    decreases |due|
  {
    var next := Handled(w, due[0], seen[0]);
    if k == 0 {
      assert due[0] !in due[1..];
      OthersAreLeftAlone(next, due[1..], seen[1..], due[0]);
      assert HandledAll(w, due[..0], seen[..0]) == w;
    } else {
      assert due[..k][0] == due[0] && seen[..k][0] == seen[0];
      assert due[..k][1..] == due[1..][..k - 1] && seen[..k][1..] == seen[1..][..k - 1];
      forall i | 0 <= i < |due| - 1
        ensures due[1..][i] in next.claims && IsLocalArrival(next.movements, due[1..][i], |next.garrisons|)
      {
        assert due[1..][i] == due[i + 1] && due[i + 1] != due[0];
      }
      AnArrivalClosesIffItsLootMayLand(next, due[1..], seen[1..], k - 1);
      assert next.movements[due[k]] == w.movements[due[k]];
    }
  }

  /** The primary key of `movement_troops`: each row against those before it. */
  method HasUniqueKeys(list: UnitCounts) returns (unique: bool)
    ensures unique <==> UniqueKeys(list)
  {
    unique := true;
    var i := |list|;
    while i > 0
      invariant 0 <= i <= |list|
      invariant unique <==> UniqueKeys(list[i..])
    {
      i := i - 1;
      assert list[i..] == [list[i]] + list[i + 1..];
      var found := Contains(list[i + 1..], list[i].0);
      unique := unique && !found;
    }
    assert list[0..] == list;
  }

  method Contains(list: UnitCounts, unit: UnitId) returns (found: bool)
    ensures found <==> Mentions(list, unit)
  {
    var i := 0;
    while i < |list| && list[i].0 != unit
      invariant 0 <= i <= |list|
      invariant Mentions(list, unit) <==> Mentions(list[i..], unit)
    {
      assert list[i..][1..] == list[i + 1..];
      i := i + 1;
    }
    found := i < |list|;
  }
}
