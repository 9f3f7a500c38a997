/** What every run of the settle / claim / apply engine keeps. */
module LedgerLaws {
  import opened Economy
  import opened Options
  import opened Sums
  import opened Ledger
  import Training

  // ------------------------------------------------------------------ invariants

  ghost predicate Shaped(w: World) {
    && |w.merchants| == |w.rows| == |w.meters|
    && forall sid :: sid in w.sessions ==> w.sessions[sid].village < |w.rows|
  }

  function Version(w: World, sid: nat): nat
    requires HasSnapshot(w, sid)
  {
    w.sessions[sid].snap.value.version
  }

  function CurrentVersion(w: World, sid: nat): nat
    requires HasSnapshot(w, sid)
  {
    w.meters[w.sessions[sid].village].writes
  }

  /** The row a session has read, as it is now. */
  function RowNow(w: World, sid: nat): Row
    requires HasSnapshot(w, sid)
  {
    w.rows[w.sessions[sid].village]
  }

  /** A snapshot whose version is current is a copy of the row. */
  ghost predicate Exact(w: World) {
    forall sid :: sid in w.sessions && HasSnapshot(w, sid) ==>
      && Version(w, sid) <= CurrentVersion(w, sid)
      && (Version(w, sid) == CurrentVersion(w, sid) ==> Seen(w, sid) == RowNow(w, sid))
  }

  ghost predicate ClaimsAreProcessing(w: World) {
    forall c :: c in w.claims ==> c.1 < |w.cargo| && w.cargo[c.1].status == Processing
  }

  /** No two workers hold one leg. */
  ghost predicate ClaimsAreExclusive(w: World) {
    forall c, d :: c in w.claims && d in w.claims && c.1 == d.1 ==> c == d
  }

  ghost predicate CargoSound(c: Cargo) {
    && c.credits == (if c.kind != Return && c.status == Done then 1 else 0)
    && (c.kind == Return ==> c.bundle == NOTHING)
  }

  /** A bundle was credited exactly when its cargo is done, and then exactly once; a forfeited one
      never was. */
  ghost predicate CreditedOnce(w: World) {
    forall i :: 0 <= i < |w.cargo| ==> CargoSound(w.cargo[i])
  }

  /** What holds whichever guard the writes go through. */
  ghost predicate Sound(w: World) {
    Shaped(w) && Exact(w) && ClaimsAreProcessing(w) && ClaimsAreExclusive(w) && CreditedOnce(w)
  }

  ghost predicate Safe(w: World) { Sound(w) && Balanced(w) }

  /** The orphan requeue runs only when no worker holds a claim (at startup, after a crash). */
  ghost predicate NoWorkerAtRequeue(w: World, op: Op) {
    op.Requeue? ==> w.claims == {}
  }

  ghost predicate RequeuesAtStartup(w: World, ops: seq<Op>, guard: Guard)
    decreases |ops|
  {
    |ops| > 0 ==> NoWorkerAtRequeue(w, ops[0]) && RequeuesAtStartup(Step(w, ops[0], guard), ops[1..], guard)
  }

  // ------------------------------------------------------------------ soundness, under any guard

  lemma CommitIsSound(w: World, sid: nat, plan: Plan)
    requires Sound(w) && HasSnapshot(w, sid)
    requires |plan.cargo| >= |w.cargo|
    requires forall i :: 0 <= i < |plan.cargo| ==> CargoSound(plan.cargo[i])
    requires plan.claims <= w.claims
    requires forall c :: c in plan.claims ==> plan.cargo[c.1] == w.cargo[c.1]
    ensures Sound(Commit(w, sid, plan))
  {
    var w' := Commit(w, sid, plan);
    forall s | s in w'.sessions && HasSnapshot(w', s) ensures HasSnapshot(w, s) {}
  }

  lemma WriteIsSound(w: World, op: Op, guard: Guard)
    requires Sound(w) && Writes(op)
    ensures Sound(DoWrite(w, op, guard))
  {
    if Applies(w, op, guard) {
      var plan := Planned(w, op).value;
      assert |plan.cargo| >= |w.cargo|;
      CommitIsSound(w, op.sid, plan);
    }
  }

  lemma StatusIsSound(w: World, leg: nat, status: Status, claims: set<(nat, nat)>)
    requires Sound(w) && leg < |w.cargo| && OnTheRoad(w.cargo[leg])
    requires OnTheRoad(w.cargo[leg].(status := status)) || w.cargo[leg].kind == Return
    requires forall c :: c in claims ==> (c in w.claims && c.1 != leg) || (status == Processing && c.1 == leg)
    requires forall c, d :: c in claims && d in claims && c.1 == d.1 == leg ==> c == d
    ensures Sound(WithStatus(w, leg, status).(claims := claims))
  {
    var w' := WithStatus(w, leg, status).(claims := claims);
    forall s | s in w'.sessions && HasSnapshot(w', s) ensures HasSnapshot(w, s) {}
  }

  /** Steps that leave the stores, the cargo and the books alone. */
  lemma BystanderIsSound(w: World, w': World)
    requires Sound(w)
    requires w'.rows == w.rows && w'.cargo == w.cargo && w'.meters == w.meters
    requires |w'.merchants| == |w.merchants| && w'.claims <= w.claims
    requires forall sid :: sid in w'.sessions ==>
               || (sid in w.sessions && w'.sessions[sid].village == w.sessions[sid].village
                   && w'.sessions[sid].snap == w.sessions[sid].snap)
               || (w'.sessions[sid].village < |w.rows| && w'.sessions[sid].snap == None)
               || (w'.sessions[sid].village < |w.rows|
                   && w'.sessions[sid].snap == Some(FreshSnapshot(w, w'.sessions[sid].village)))
    ensures Sound(w')
  {
    forall s | s in w'.sessions && HasSnapshot(w', s) && w'.sessions[s].snap != Some(FreshSnapshot(w, w'.sessions[s].village))
      ensures HasSnapshot(w, s)
    {
    }
  }

  function FreshSnapshot(w: World, village: nat): Snapshot
    requires village < |w.rows| == |w.meters|
  {
    Snapshot(w.rows[village], w.meters[village].writes)
  }

  lemma QuietIsSound(w: World, op: Op)
    requires Sound(w) && !Writes(op) && NoWorkerAtRequeue(w, op)
    ensures Sound(DoQuiet(w, op))
  {
    match op
    case Claim(sid, leg, now) =>
      if leg < |w.cargo| && w.cargo[leg].status == InTransit && w.cargo[leg].arrive <= now {
        StatusIsSound(w, leg, Processing, w.claims + {(sid, leg)});
      }
    case Release(sid, leg) =>
      if (sid, leg) in w.claims { StatusIsSound(w, leg, InTransit, w.claims - {(sid, leg)}); }
    case Complete(sid, leg) =>
      if (sid, leg) in w.claims && w.cargo[leg].kind == Return {
        StatusIsSound(w, leg, Done, w.claims - {(sid, leg)});
      }
    case Forfeit(v) => CargoIsSound(w, Forfeits(w.cargo, v));
    case Requeue => CargoIsSound(w, Requeued(w.cargo));
    case _ => BystanderIsSound(w, DoQuiet(w, op));
  }

  /** Other statuses for some cargo nobody holds. */
  lemma CargoIsSound(w: World, cargo: seq<Cargo>)
    requires Sound(w) && |cargo| == |w.cargo|
    requires forall i :: 0 <= i < |cargo| ==> CargoSound(cargo[i])
    requires forall c :: c in w.claims ==> cargo[c.1] == w.cargo[c.1]
    ensures forall b :: Sound(w.(cargo := cargo, books := b))
    ensures Sound(w.(cargo := cargo))
  {
    forall b ensures Sound(w.(cargo := cargo, books := b)) {
      var w' := w.(cargo := cargo, books := b);
      forall s | s in w'.sessions && HasSnapshot(w', s) ensures HasSnapshot(w, s) {}
    }
    assert w.(cargo := cargo) == w.(cargo := cargo, books := w.books);
  }

  lemma RewardIsSound(w: World, op: Op)
    requires Sound(w) && op.Reward?
    ensures Sound(DoReward(w, op.village, op.gain, op.caps))
  {
    var w' := DoReward(w, op.village, op.gain, op.caps);
    forall s | s in w'.sessions && HasSnapshot(w', s) ensures HasSnapshot(w, s) {}
  }

  lemma StepIsSound(w: World, op: Op, guard: Guard)
    requires Sound(w) && NoWorkerAtRequeue(w, op)
    ensures Sound(Step(w, op, guard))
  {
    if Writes(op) {
      WriteIsSound(w, op, guard);
    } else if op.Reward? {
      RewardIsSound(w, op);
    } else {
      QuietIsSound(w, op);
    }
  }

  // ------------------------------------------------------------------ what a step does to the books

  function Aboard(cargo: seq<Cargo>, kind: Kind): int { Sum(cargo, AboardOf(kind)) }

  /** A plan moves goods between the store, the road, the payments and the overflow, and loses none. */
  ghost predicate Fair(w: World, plan: Plan, kind: Kind) {
    plan.after.Of(kind) + Aboard(plan.cargo, kind) + plan.spent.Of(kind) + plan.overflow.Of(kind)
      == plan.settled.Of(kind) + Aboard(w.cargo, kind)
  }

  lemma CreditIsFair(w: World, sid: nat, leg: nat, instant: int, p: Production, more: seq<Cargo>, kind: Kind)
    requires HasSnapshot(w, sid) && leg < |w.cargo| && OnTheRoad(w.cargo[leg])
    requires |more| <= 1 && forall c :: c in more ==> c.bundle == NOTHING
    ensures Fair(w, Credit(w, sid, leg, instant, p, more), kind)
  {
    var c := w.cargo[leg];
    var credited := w.cargo[leg := c.(status := Done, credits := c.credits + 1)];
    SumUpdate(w.cargo, leg, credited[leg], AboardOf(kind));
    if more == [] {
      assert credited + more == credited;
    } else {
      assert more == [more[0]] && more[0] in more;
      SumAppend(credited, more[0], AboardOf(kind));
    }
  }

  /** Every step that writes a row moves goods fairly, whatever it read. */
  lemma PlansAreFair(w: World, op: Op, kind: Kind)
    requires ClaimsAreProcessing(w) && Writes(op) && Planned(w, op).Some?
    ensures Fair(w, Planned(w, op).value, kind)
  {
    var plan := Planned(w, op).value;
    match op
    case StartTrade(_, _, _, _, _, _, _) => SumAppend(w.cargo, plan.cargo[|w.cargo|], AboardOf(kind));
    case TakeLoot(_, _, _, _, _, _) => SumAppend(w.cargo, plan.cargo[|w.cargo|], AboardOf(kind));
    case DeliverLeg(sid, leg, p, returnArrive) =>
      CreditIsFair(w, sid, leg, w.cargo[leg].arrive, p, [ReturnLegOf(w.cargo[leg], returnArrive)], kind);
    case CreditHaul(sid, leg, now, p) => CreditIsFair(w, sid, leg, now, p, [], kind);
    case _ =>
  }

  /** What a write puts in place of what is there: the amounts it read minus the amounts in the row. */
  function Drift(w: World, op: Op, guard: Guard, kind: Kind): int {
    if Applies(w, op, guard) then Seen(w, op.sid).stored.Of(kind) - RowNow(w, op.sid).stored.Of(kind) else 0
  }

  lemma WriteMovesTheSurplus(w: World, op: Op, guard: Guard, kind: Kind)
    requires ClaimsAreProcessing(w) && Writes(op)
    ensures Surplus(DoWrite(w, op, guard), kind) == Surplus(w, kind) + Drift(w, op, guard, kind)
  {
    if Applies(w, op, guard) {
      var plan, v := Planned(w, op).value, w.sessions[op.sid].village;
      PlansAreFair(w, op, kind);
      SumUpdate(w.rows, v, Row(plan.after, plan.clock), StoredOf(kind));
    }
  }

  lemma {:induction false} ForfeitsAreBooked(cargo: seq<Cargo>, village: nat, kind: Kind)
    ensures Aboard(Forfeits(cargo, village), kind) + LostWith(cargo, village).Of(kind) == Aboard(cargo, kind)
  {
    if cargo != [] {
      assert Forfeits(cargo, village)[1..] == Forfeits(cargo[1..], village);
      ForfeitsAreBooked(cargo[1..], village, kind);
    }
  }

  lemma StatusKeepsTheSurplus(w: World, leg: nat, status: Status, claims: set<(nat, nat)>, kind: Kind)
    requires leg < |w.cargo| && OnTheRoad(w.cargo[leg])
    requires OnTheRoad(w.cargo[leg].(status := status)) || w.cargo[leg].bundle == NOTHING
    ensures Surplus(WithStatus(w, leg, status).(claims := claims), kind) == Surplus(w, kind)
  {
    SumUpdate(w.cargo, leg, w.cargo[leg].(status := status), AboardOf(kind));
  }

  lemma QuietKeepsTheSurplus(w: World, op: Op, kind: Kind)
    requires Sound(w) && !Writes(op)
    ensures Surplus(DoQuiet(w, op), kind) == Surplus(w, kind)
  {
    match op
    case Claim(sid, leg, now) =>
      if leg < |w.cargo| && w.cargo[leg].status == InTransit {
        StatusKeepsTheSurplus(w, leg, Processing, w.claims + {(sid, leg)}, kind);
      }
    case Release(sid, leg) =>
      if (sid, leg) in w.claims { StatusKeepsTheSurplus(w, leg, InTransit, w.claims - {(sid, leg)}, kind); }
    case Complete(sid, leg) =>
      if (sid, leg) in w.claims && w.cargo[leg].kind == Return {
        StatusKeepsTheSurplus(w, leg, Done, w.claims - {(sid, leg)}, kind);
      }
    case Forfeit(v) => ForfeitsAreBooked(w.cargo, v, kind);
    case Requeue => SumSame(w.cargo, Requeued(w.cargo), AboardOf(kind));
    case _ =>
  }

  lemma RewardKeepsTheSurplus(w: World, op: Op, kind: Kind)
    requires op.Reward?
    ensures Surplus(DoReward(w, op.village, op.gain, op.caps), kind) == Surplus(w, kind)
  {
    if op.village < |w.rows| == |w.meters| {
      var row := w.rows[op.village];
      SumUpdate(w.rows, op.village, Row(DepositCapped(row.stored, op.gain, op.caps), row.at), StoredOf(kind));
    }
  }

  /** The books move by the drift of the write and by nothing else, under either guard. */
  lemma StepMovesTheSurplus(w: World, op: Op, guard: Guard, kind: Kind)
    requires Sound(w)
    ensures Surplus(Step(w, op, guard), kind) == Surplus(w, kind) + Drift(w, op, guard, kind)
  {
    if Writes(op) {
      WriteMovesTheSurplus(w, op, guard, kind);
    } else if op.Reward? {
      RewardKeepsTheSurplus(w, op, kind);
    } else {
      QuietKeepsTheSurplus(w, op, kind);
    }
  }

  // ------------------------------------------------------------------ when the books balance

  /** The step writes nothing, or the row still holds the amounts its session read. */
  predicate Fresh(w: World, op: Op, guard: Guard) {
    Applies(w, op, guard) ==> Seen(w, op.sid).stored == RowNow(w, op.sid).stored
  }

  predicate AllFresh(w: World, ops: seq<Op>, guard: Guard)
    decreases |ops|
  {
    |ops| > 0 ==> Fresh(w, ops[0], guard) && AllFresh(Step(w, ops[0], guard), ops[1..], guard)
  }

  ghost predicate BalancedThroughout(w: World, ops: seq<Op>, guard: Guard)
    decreases |ops|
  {
    Balanced(w) && (|ops| > 0 ==> BalancedThroughout(Step(w, ops[0], guard), ops[1..], guard))
  }

  lemma SameOfEachKind(a: Amounts, b: Amounts)
    ensures (forall kind: Kind :: a.Of(kind) == b.Of(kind)) <==> a == b
  {
    if forall kind: Kind :: a.Of(kind) == b.Of(kind) {
      assert a.Of(Wood) == b.Of(Wood) && a.Of(Clay) == b.Of(Clay) && a.Of(Iron) == b.Of(Iron) && a.Of(Crop) == b.Of(Crop);
    }
  }

  lemma StepBalancesIffFresh(w: World, op: Op, guard: Guard)
    requires Sound(w) && Balanced(w)
    ensures Balanced(Step(w, op, guard)) <==> Fresh(w, op, guard)
  {
    var w' := Step(w, op, guard);
    forall kind: Kind ensures Surplus(w', kind) == Drift(w, op, guard, kind) {
      StepMovesTheSurplus(w, op, guard, kind);
      assert Surplus(w, kind) == 0;
    }
    NothingDriftsIffFresh(w, op, guard);
    if Balanced(w') {
      forall kind: Kind ensures Drift(w, op, guard, kind) == 0 { assert Surplus(w', kind) == 0; }
    }
  }

  lemma NothingDriftsIffFresh(w: World, op: Op, guard: Guard)
    ensures (forall kind: Kind :: Drift(w, op, guard, kind) == 0) <==> Fresh(w, op, guard)
  {
    if Applies(w, op, guard) {
      var seen, there := Seen(w, op.sid).stored, RowNow(w, op.sid).stored;
      SameOfEachKind(seen, there);
      if forall kind: Kind :: Drift(w, op, guard, kind) == 0 {
        forall kind: Kind ensures seen.Of(kind) == there.Of(kind) { assert Drift(w, op, guard, kind) == 0; }
      }
    }
  }

  /** Whatever lets writes through, the books balance all along a run exactly if every write that
      went through found the amounts its session had read. */
  lemma {:induction false} BooksBalanceIffWritesAreFresh(w: World, ops: seq<Op>, guard: Guard)
    requires Sound(w) && Balanced(w) && RequeuesAtStartup(w, ops, guard)
    ensures BalancedThroughout(w, ops, guard) <==> AllFresh(w, ops, guard)
    ensures Sound(Run(w, ops, guard))
    decreases |ops|
  {
    if |ops| > 0 {
      var next := Step(w, ops[0], guard);
      StepIsSound(w, ops[0], guard);
      StepBalancesIffFresh(w, ops[0], guard);
      if Balanced(next) {
        BooksBalanceIffWritesAreFresh(next, ops[1..], guard);
      } else {
        RunIsSound(next, ops[1..], guard);
      }
    }
  }

  lemma {:induction false} RunIsSound(w: World, ops: seq<Op>, guard: Guard)
    requires Sound(w) && RequeuesAtStartup(w, ops, guard)
    ensures Sound(Run(w, ops, guard))
    decreases |ops|
  {
    if |ops| > 0 {
      StepIsSound(w, ops[0], guard);
      RunIsSound(Step(w, ops[0], guard), ops[1..], guard);
    }
  }

  lemma StepIsSafe(w: World, op: Op)
    requires Safe(w) && NoWorkerAtRequeue(w, op)
    ensures Safe(Step(w, op, ByVersion))
  {
    StepIsSound(w, op, ByVersion);
    StepBalancesIffFresh(w, op, ByVersion);
  }

  /** The guard the port promises makes the books balance in every reachable state: for each resource,
      stores + goods on the road = opening + accrued + granted - spent - overflow - forfeited. And each bundle
      was credited exactly once if its cargo is done, and never if it is on the road or forfeited. */
  lemma {:induction false} EveryRunKeepsTheBooks(w: World, ops: seq<Op>)
    requires Safe(w) && RequeuesAtStartup(w, ops, ByVersion)
    ensures Safe(Run(w, ops, ByVersion))
    ensures var w', b := Run(w, ops, ByVersion), Run(w, ops, ByVersion).books;
            && (forall kind: Kind :: Sum(w'.rows, StoredOf(kind)) + Sum(w'.cargo, AboardOf(kind))
                  == b.opening.Of(kind) + b.accrued.Of(kind) + b.granted.Of(kind)
                     - b.spent.Of(kind) - b.overflow.Of(kind) - b.forfeited.Of(kind))
            && forall i :: 0 <= i < |w'.cargo| && w'.cargo[i].kind != Return ==>
                 w'.cargo[i].credits == if w'.cargo[i].status == Done then 1 else 0
    decreases |ops|
  {
    if |ops| > 0 {
      StepIsSafe(w, ops[0]);
      EveryRunKeepsTheBooks(Step(w, ops[0], ByVersion), ops[1..]);
    } else {
      forall kind: Kind
        ensures Sum(w.rows, StoredOf(kind)) + Sum(w.cargo, AboardOf(kind)) == Expected(w.books, kind)
      {
        assert Surplus(w, kind) == 0;
      }
      forall i | 0 <= i < |w.cargo| && w.cargo[i].kind != Return
        ensures w.cargo[i].credits == if w.cargo[i].status == Done then 1 else 0
      {
        assert CargoSound(w.cargo[i]);
      }
    }
  }

  /** A conquest takes the lost village's loot on its way home out of the world: it is never credited
      to any store, then or later. */
  lemma ForfeitedLootIsNeverCredited(w: World, village: nat, leg: nat, ops: seq<Op>, guard: Guard)
    requires Sound(w) && leg < |w.cargo| && IsForfeit(w.cargo[leg], village)
    requires RequeuesAtStartup(w, [Forfeit(village)] + ops, guard)
    ensures var w' := Run(w, [Forfeit(village)] + ops, guard);
            && leg < |w'.cargo| && w'.cargo[leg] == w.cargo[leg].(status := Forfeited) && w'.cargo[leg].credits == 0
  {
    var all := [Forfeit(village)] + ops;
    assert all[1..] == ops;
    StepIsSound(w, all[0], guard);
    ClosedStaysClosed(Step(w, all[0], guard), leg, ops, guard);
  }

  lemma WritesLeaveClosedCargo(w: World, op: Op, guard: Guard, leg: nat)
    requires ClaimsAreProcessing(w) && leg < |w.cargo| && !OnTheRoad(w.cargo[leg]) && Writes(op)
    ensures leg < |DoWrite(w, op, guard).cargo| && DoWrite(w, op, guard).cargo[leg] == w.cargo[leg]
  {
  }

  lemma QuietStepsLeaveClosedCargo(w: World, op: Op, leg: nat)
    requires ClaimsAreProcessing(w) && leg < |w.cargo| && !OnTheRoad(w.cargo[leg])
    ensures leg < |DoQuiet(w, op).cargo| && DoQuiet(w, op).cargo[leg] == w.cargo[leg]
  {
  }

  lemma {:induction false} ClosedStaysClosed(w: World, leg: nat, ops: seq<Op>, guard: Guard)
    requires Sound(w) && leg < |w.cargo| && !OnTheRoad(w.cargo[leg]) && RequeuesAtStartup(w, ops, guard)
    ensures var w' := Run(w, ops, guard);
            leg < |w'.cargo| && w'.cargo[leg] == w.cargo[leg]
    decreases |ops|
  {
    if |ops| > 0 {
      StepIsSound(w, ops[0], guard);
      if Writes(ops[0]) {
        WritesLeaveClosedCargo(w, ops[0], guard, leg);
      } else {
        QuietStepsLeaveClosedCargo(w, ops[0], leg);
      }
      ClosedStaysClosed(Step(w, ops[0], guard), leg, ops[1..], guard);
    }
  }

  // ------------------------------------------------------------------ where the goods go

  /** A write that applies bumps the version of exactly the village it writes, and leaves the sessions
      and the merchant totals alone. */
  lemma WriteBumpsVersion(w: World, op: Op, guard: Guard)
    requires Shaped(w) && Writes(op)
    ensures var w' := Step(w, op, guard);
            if Applies(w, op, guard) then
              && w'.sessions == w.sessions && w'.merchants == w.merchants
              && var v := w.sessions[op.sid].village;
                 && w'.rows == w.rows[v := w'.rows[v]]
                 && w'.meters == w.meters[v := w'.meters[v]] && w'.meters[v].writes == w.meters[v].writes + 1
            else w' == w
  {
  }

  /** A delivery that applies reaches its target and nobody else: the target's store, settled to the
      arrival (or to the last settle, if later), each resource at its own rate, gains the bundle, each
      resource up to its own storage; and the merchants set out for the village the shipment came from. */
  lemma DeliveryReachesItsTarget(w: World, sid: nat, leg: nat, p: Production, returnArrive: int)
    requires Safe(w) && Applies(w, DeliverLeg(sid, leg, p, returnArrive), ByVersion)
    ensures var w' := Step(w, DeliverLeg(sid, leg, p, returnArrive), ByVersion);
            && leg < |w.cargo| && w.cargo[leg].target < |w.rows| == |w'.rows| && |w'.cargo| == |w.cargo| + 1
            && var c, row := w.cargo[leg], w.rows[w.cargo[leg].target];
               var clock := Max(c.arrive, row.at);
               var settled := Settle(row.stored, ElapsedSecs(row.at, clock), p);
               && (Ordinary(row.stored, p.caps) ==> SettledAs(row.stored, ElapsedSecs(row.at, clock), p, settled))
               && DepositedAs(settled, c.bundle, p.caps, w'.rows[c.target].stored)
               && w'.rows == w.rows[c.target := Row(DepositCapped(settled, c.bundle, p.caps), clock)]
               && w'.cargo[leg] == c.(status := Done, credits := 1)
               && w'.cargo[|w.cargo|].kind == Return && w'.cargo[|w.cargo|].home == c.home
               && w'.cargo[|w.cargo|].merchants == c.merchants && w'.cargo[|w.cargo|].bundle == NOTHING
  {
    var c, row := w.cargo[leg], w.rows[w.cargo[leg].target];
    CreditSettlesAndDeposits(row, Max(c.arrive, row.at), c.bundle, p);
  }

  /** What a credit makes of a row. */
  lemma CreditSettlesAndDeposits(row: Row, clock: int, bundle: Amounts, p: Production)
    ensures var settled := Settle(row.stored, ElapsedSecs(row.at, clock), p);
            && (Ordinary(row.stored, p.caps) ==> SettledAs(row.stored, ElapsedSecs(row.at, clock), p, settled))
            && DepositedAs(settled, bundle, p.caps, DepositCapped(settled, bundle, p.caps))
  {
    var secs := ElapsedSecs(row.at, clock);
    if Ordinary(row.stored, p.caps) { SettleAccruesEachAtItsRate(row.stored, secs, p); }
    DepositFillsEachToItsCap(Settle(row.stored, secs, p), bundle, p.caps);
  }

  /** A returning army's loot goes to its own home and nobody else. */
  lemma LootGoesHome(w: World, sid: nat, leg: nat, now: int, p: Production)
    requires Safe(w) && Applies(w, CreditHaul(sid, leg, now, p), ByVersion)
    ensures var w' := Step(w, CreditHaul(sid, leg, now, p), ByVersion);
            && leg < |w.cargo| && w.cargo[leg].home < |w.rows| == |w'.rows|
            && var c, row := w.cargo[leg], w.rows[w.cargo[leg].home];
               var clock := Max(now, row.at);
               var settled := Settle(row.stored, ElapsedSecs(row.at, clock), p);
               && (Ordinary(row.stored, p.caps) ==> SettledAs(row.stored, ElapsedSecs(row.at, clock), p, settled))
               && DepositedAs(settled, c.bundle, p.caps, w'.rows[c.home].stored)
               && w'.rows == w.rows[c.home := Row(DepositCapped(settled, c.bundle, p.caps), clock)]
               && w'.cargo == w.cargo[leg := c.(status := Done, credits := 1)]
  {
    var c, row := w.cargo[leg], w.rows[w.cargo[leg].home];
    CreditSettlesAndDeposits(row, Max(now, row.at), c.bundle, p);
  }
}
