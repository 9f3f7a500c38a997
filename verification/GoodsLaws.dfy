/** What each step does to the store it writes, where goods end up, and what production can come to. */
module GoodsLaws {
  import opened Economy
  import opened Options
  import opened Sums
  import opened Ledger
  import opened LedgerLaws
  import Training

  // ------------------------------------------------------------------ one step

  /** The amounts in a store once it is settled to `clock`: each resource at its own rate since the last
      settle, as far as its own storage. */
  ghost predicate SettledTo(row: Row, clock: int, p: Production, settled: Amounts) {
    Ordinary(row.stored, p.caps) ==> SettledAs(row.stored, ElapsedSecs(row.at, clock), p, settled)
  }

  lemma SettlesTheRow(w: World, op: Op, clock: int, p: Production)
    requires Sound(w) && Applies(w, op, ByVersion)
    ensures Seen(w, op.sid) == RowNow(w, op.sid)
    ensures SettledTo(RowNow(w, op.sid), clock, p, Settled(w, op.sid, clock, p))
  {
    var row := RowNow(w, op.sid);
    if Ordinary(row.stored, p.caps) { SettleAccruesEachAtItsRate(row.stored, ElapsedSecs(row.at, clock), p); }
  }

  /** An order takes its price, resource by resource, from the village's own store settled to now, which
      can afford it; nothing else changes hands. */
  lemma AnOrderPaysItsPrice(w: World, op: Op) returns (settled: Amounts)
    requires Sound(w) && op.Spend? && Applies(w, op, ByVersion)
    ensures var v, w' := w.sessions[op.sid].village, Step(w, op, ByVersion);
            && SettledTo(w.rows[v], op.now, op.p, settled) && settled.Covers(op.cost)
            && w'.rows == w.rows[v := Row(settled.Minus(op.cost), op.now)]
            && w'.cargo == w.cargo && w'.claims == w.claims
            && w'.books.spent == w.books.spent.Plus(op.cost) && w'.books.overflow == w.books.overflow
  {
    SettlesTheRow(w, op, op.now, op.p);
    settled := Settled(w, op.sid, op.now, op.p);
  }

  /** What a bundle weighs: a resource is a resource. */
  function AllOf(bundle: Amounts): int { bundle.Of(Wood) + bundle.Of(Clay) + bundle.Of(Iron) + bundle.Of(Crop) }

  /** An order of a shipment takes exactly the goods from the village's store settled to now, and sends
      them to the village named, with the merchants they need and the arrival given. */
  lemma AShipmentSetsOut(w: World, op: Op) returns (settled: Amounts)
    requires Sound(w) && op.StartTrade? && Applies(w, op, ByVersion)
    ensures var v, w' := w.sessions[op.sid].village, Step(w, op, ByVersion);
            && SettledTo(w.rows[v], op.now, op.p, settled) && settled.Covers(op.bundle) && op.bundle.Covers(NOTHING)
            && w'.rows == w.rows[v := Row(settled.Minus(op.bundle), op.now)]
            && |w'.cargo| == |w.cargo| + 1 && w'.cargo[..|w.cargo|] == w.cargo
            && var c := w'.cargo[|w.cargo|];
               && c.kind == Deliver && c.home == v && c.target == op.target && op.target < |w.rows| && op.target != v
               && c.bundle == op.bundle && c.arrive == op.arrive && c.status == InTransit && c.credits == 0
               && c.merchants == MerchantsRequired(AllOf(op.bundle), op.perMerchant) && c.merchants > 0
               && w'.books.spent == w.books.spent
  {
    SettlesTheRow(w, op, op.now, op.p);
    settled := Settled(w, op.sid, op.now, op.p);
    SomeAreRequired(op.bundle.Total(), op.perMerchant);
  }

  lemma SomeAreRequired(total: int, perMerchant: nat)
    requires total > 0
    ensures MerchantsRequired(total, perMerchant) > 0
  {
    var capacity := Max(perMerchant, 1);
    assert (total + capacity - 1) / capacity >= 1;
  }

  /** The loot of a battle leaves the village attacked, settled to the battle (or to the last settle, if
      later), which holds that much; and it travels to the attacker's home. */
  lemma LootLeavesTheStore(w: World, op: Op) returns (settled: Amounts)
    requires Sound(w) && op.TakeLoot? && Applies(w, op, ByVersion)
    ensures var v, w' := w.sessions[op.sid].village, Step(w, op, ByVersion);
            var clock := Max(op.battleAt, w.rows[v].at);
            && SettledTo(w.rows[v], clock, op.p, settled) && settled.Covers(op.loot) && op.loot.Covers(NOTHING)
            && w'.rows == w.rows[v := Row(settled.Minus(op.loot), clock)]
            && |w'.cargo| == |w.cargo| + 1 && w'.cargo[..|w.cargo|] == w.cargo
            && var c := w'.cargo[|w.cargo|];
               && c.kind == Haul && c.home == op.home && op.home < |w.rows| && c.bundle == op.loot && c.arrive == op.arrive
               && c.merchants == 0 && c.status == InTransit && c.credits == 0 && w'.books.spent == w.books.spent
  {
    var clock := Max(op.battleAt, RowNow(w, op.sid).at);
    SettlesTheRow(w, op, clock, op.p);
    settled := Settled(w, op.sid, clock, op.p);
  }

  // ------------------------------------------------------------------ when a step is carried out

  /** A session opens a village, reads its row, and counts its merchants on the road. */
  function LookedUp(w: World, sid: nat, village: nat): World {
    DoQuiet(DoQuiet(DoQuiet(w, Select(sid, village)), ReadRow(sid)), ReadCommitted(sid))
  }

  lemma LookingUpChangesNothing(w: World, sid: nat, village: nat, guard: Guard)
    requires Shaped(w) && village < |w.rows|
    ensures var w' := LookedUp(w, sid, village);
            && w' == w.(sessions := w'.sessions) && HasSnapshot(w', sid) && Seen(w', sid) == w.rows[village]
            && w'.sessions[sid].village == village && w'.sessions[sid].total == w.merchants[village]
            && w'.sessions[sid].committed == Some(Min(Max(0, Committed(w.cargo, village)), U32_MAX))
            && GuardPasses(w', sid, guard)
  {
    var selected := DoQuiet(w, Select(sid, village));
    var read := DoQuiet(selected, ReadRow(sid));
    assert read.sessions[sid].snap == Some(Snapshot(w.rows[village], w.meters[village].writes));
    var counted := DoQuiet(read, ReadCommitted(sid));
    assert counted.sessions[sid].snap == read.sessions[sid].snap;
  }

  /** An order nobody comes between is carried out exactly if the store, settled to now, can pay for it. */
  lemma AnOrderIsCarriedOutIffAfforded(w: World, sid: nat, village: nat, now: int, p: Production, cost: Amounts, guard: Guard)
    requires Shaped(w) && village < |w.rows|
    ensures var row := w.rows[village];
            Applies(LookedUp(w, sid, village), Spend(sid, now, p, cost), guard)
            <==> Settle(row.stored, ElapsedSecs(row.at, now), p).Covers(cost)
  {
    LookingUpChangesNothing(w, sid, village, guard);
  }

  /** A shipment nobody comes between sets out exactly if it carries something and nothing negative, to
      another village that exists; the store, settled to now, holds it; and the merchants at home, those
      on the road not counted, are as many as it needs. */
  lemma AShipmentSetsOutIff(w: World, sid: nat, village: nat, target: nat, now: int, p: Production, bundle: Amounts,
                            perMerchant: nat, arrive: int, guard: Guard)
    requires Shaped(w) && village < |w.rows| && 0 <= Committed(w.cargo, village) <= U32_MAX
    ensures var row := w.rows[village];
            Applies(LookedUp(w, sid, village), StartTrade(sid, target, now, p, bundle, perMerchant, arrive), guard)
            <==> && bundle.Covers(NOTHING) && AllOf(bundle) > 0 && target < |w.rows| && target != village
                 && Settle(row.stored, ElapsedSecs(row.at, now), p).Covers(bundle)
                 && MerchantsRequired(AllOf(bundle), perMerchant) <= w.merchants[village] - Committed(w.cargo, village)
  {
    LookingUpChangesNothing(w, sid, village, guard);
    if bundle.Total() > 0 { SomeAreRequired(bundle.Total(), perMerchant); }
  }

  /** Nothing is picked up before it is there, and nothing that somebody else has. */
  lemma OnlyWhatHasArrivedIsPickedUp(w: World, sid: nat, leg: nat, now: int)
    ensures var w' := DoQuiet(w, Claim(sid, leg, now));
            if leg < |w.cargo| && w.cargo[leg].status == InTransit && w.cargo[leg].arrive <= now
            then (sid, leg) in w'.claims && w'.cargo[leg].status == Processing
            else w' == w
  {
  }

  /** The step changes the leg's status, or credits it, as it may: picked up when it has arrived; put back by
      the worker that has it or by the startup requeue; a return completed by the worker that has it;
      forfeited, if it is loot in transit to the village lost; and credited, once more, by the worker that
      has it. */
  predicate MayTurn(w: World, op: Op, i: nat, c: Cargo, c': Cargo) {
    match op
    case Claim(_, leg, now) => leg == i && c.arrive <= now && c.status == InTransit && c' == c.(status := Processing)
    case Release(sid, leg) =>
      leg == i && (sid, i) in w.claims && c.status == Processing && c' == c.(status := InTransit)
    case Requeue => c.status == Processing && c' == c.(status := InTransit)
    case Complete(sid, leg) => leg == i && (sid, i) in w.claims && c.kind == Return && c' == c.(status := Done)
    case Forfeit(v) => c.kind == Haul && c.home == v && c.status == InTransit && c' == c.(status := Forfeited)
    case DeliverLeg(sid, leg, _, _) =>
      leg == i && (sid, i) in w.claims && c.kind == Deliver && c' == c.(status := Done, credits := c.credits + 1)
    case CreditHaul(sid, leg, _, _) =>
      leg == i && (sid, i) in w.claims && c.kind == Haul && c' == c.(status := Done, credits := c.credits + 1)
    case _ => false
  }

  /** Nothing happens to a leg but that, under either guard. */
  lemma LegsTurnOnlyByTheirSteps(w: World, op: Op, guard: Guard, i: nat)
    requires i < |w.cargo|
    ensures var w' := Step(w, op, guard);
            && i < |w'.cargo|
            && (w'.cargo[i] != w.cargo[i] ==> MayTurn(w, op, i, w.cargo[i], w'.cargo[i]))
  {
    if Writes(op) {
      WritesTurnLegs(w, op, guard, i);
    }
  }

  lemma WritesTurnLegs(w: World, op: Op, guard: Guard, i: nat)
    requires i < |w.cargo| && Writes(op)
    ensures var w' := Step(w, op, guard);
            && i < |w'.cargo|
            && (w'.cargo[i] != w.cargo[i] ==> MayTurn(w, op, i, w.cargo[i], w'.cargo[i]))
  {
  }

  /** A leg is a worker's only once it picked it up, and until it crashes, gives it back or is done with it. */
  lemma LegsAreHeldByWhoPickedThemUp(w: World, op: Op, guard: Guard, worker: nat, i: nat)
    requires i < |w.cargo|
    ensures var w' := Step(w, op, guard);
            && ((worker, i) in w'.claims && (worker, i) !in w.claims ==>
                  op.Claim? && op.sid == worker && op.leg == i && w'.cargo[i].status == Processing)
            && ((worker, i) in w.claims && op.Crash? ==> ((worker, i) in w'.claims <==> op.sid != worker))
            && ((worker, i) in w.claims && (op.Release? || op.Abandon? || (op.Complete? && w.cargo[i].kind == Return)) ==>
                  ((worker, i) in w'.claims <==> !(op.sid == worker && op.leg == i)))
  {
  }

  /** A reward fills the store as it stands, as far as its storage, and leaves the settle instant. */
  lemma ARewardFillsTheStore(w: World, v: nat, gain: Amounts, caps: Capacities)
    requires Shaped(w) && v < |w.rows| && gain.Covers(NOTHING)
    ensures var w' := DoReward(w, v, gain, caps);
            && |w'.rows| == |w.rows| && w'.rows[v].at == w.rows[v].at
            && DepositedAs(w.rows[v].stored, gain, caps, w'.rows[v].stored)
            && forall u :: 0 <= u < |w.rows| && u != v ==> w'.rows[u] == w.rows[u]
  {
    DepositFillsEachToItsCap(w.rows[v].stored, gain, caps);
  }

  // ------------------------------------------------------------------ from door to door

  /** A worker picks up a due cargo and reads the village it is for. */
  function PickedUp(w: World, worker: nat, leg: nat, village: nat): World
    requires leg < |w.cargo|
  {
    DoQuiet(DoQuiet(DoQuiet(w, Claim(worker, leg, w.cargo[leg].arrive)), Select(worker, village)), ReadRow(worker))
  }

  lemma PickingUpChangesNoStore(w: World, worker: nat, leg: nat, village: nat)
    requires Safe(w) && leg < |w.cargo| && w.cargo[leg].status == InTransit && village < |w.rows|
    ensures var w' := PickedUp(w, worker, leg, village);
            && Safe(w') && w'.rows == w.rows && w'.cargo == w.cargo[leg := w.cargo[leg].(status := Processing)]
            && (worker, leg) in w'.claims && GuardPasses(w', worker, ByVersion)
            && w'.sessions[worker].village == village
  {
    var claimed := DoQuiet(w, Claim(worker, leg, w.cargo[leg].arrive));
    StepIsSafe(w, Claim(worker, leg, w.cargo[leg].arrive));
    StepIsSafe(claimed, Select(worker, village));
    StepIsSafe(DoQuiet(claimed, Select(worker, village)), ReadRow(worker));
  }

  /** A shipment ordered, picked up when due and delivered reaches the village it was ordered for: that
      store, settled to the arrival, gains the goods ordered, as far as its storage; the sender's keeps
      what the order left; and the merchants that carried them are on their way back to the sender. */
  lemma AShipmentArrives(w: World, order: Op, worker: nat, p: Production, returnArrive: int)
    returns (settled: Amounts)
    requires Safe(w) && order.StartTrade? && Applies(w, order, ByVersion)
    ensures var sent := Step(w, order, ByVersion);
            var leg, home := |w.cargo|, w.sessions[order.sid].village;
            && leg < |sent.cargo|
            && var there := Step(PickedUp(sent, worker, leg, order.target), DeliverLeg(worker, leg, p, returnArrive), ByVersion);
               && Safe(there) && |there.rows| == |w.rows| && order.target < |w.rows| && home != order.target
               && SettledTo(w.rows[order.target], Max(order.arrive, w.rows[order.target].at), p, settled)
               && DepositedAs(settled, order.bundle, p.caps, there.rows[order.target].stored)
               && there.rows[home] == sent.rows[home]
               && |there.cargo| == leg + 2 && there.cargo[leg].status == Done && there.cargo[leg].credits == 1
               && there.cargo[leg + 1].kind == Return && there.cargo[leg + 1].home == home
               && there.cargo[leg + 1].merchants == MerchantsRequired(AllOf(order.bundle), order.perMerchant)
  {
    var sent, leg := Step(w, order, ByVersion), |w.cargo|;
    var before := AShipmentSetsOut(w, order);
    StepIsSafe(w, order);
    PickingUpChangesNoStore(sent, worker, leg, order.target);
    var ready := PickedUp(sent, worker, leg, order.target);
    var delivery := DeliverLeg(worker, leg, p, returnArrive);
    assert Applies(ready, delivery, ByVersion);
    StepIsSafe(ready, delivery);
    DeliveryReachesItsTarget(ready, worker, leg, p, returnArrive);
    var row := w.rows[order.target];
    settled := Settle(row.stored, ElapsedSecs(row.at, Max(order.arrive, row.at)), p);
  }

  /** Loot taken, carried home and credited there reaches the attacker's home. */
  lemma LootArrives(w: World, raid: Op, worker: nat, now: int, p: Production) returns (settled: Amounts)
    requires Safe(w) && raid.TakeLoot? && Applies(w, raid, ByVersion) && raid.home != w.sessions[raid.sid].village
    ensures var taken := Step(w, raid, ByVersion);
            var leg := |w.cargo|;
            && leg < |taken.cargo| && raid.home < |w.rows|
            && var there := Step(PickedUp(taken, worker, leg, raid.home), CreditHaul(worker, leg, now, p), ByVersion);
               && Safe(there) && |there.rows| == |w.rows|
               && SettledTo(w.rows[raid.home], Max(now, w.rows[raid.home].at), p, settled)
               && DepositedAs(settled, raid.loot, p.caps, there.rows[raid.home].stored)
               && |there.cargo| == leg + 1 && there.cargo[leg].status == Done && there.cargo[leg].credits == 1
  {
    var taken, leg := Step(w, raid, ByVersion), |w.cargo|;
    var before := LootLeavesTheStore(w, raid);
    StepIsSafe(w, raid);
    PickingUpChangesNoStore(taken, worker, leg, raid.home);
    var ready := PickedUp(taken, worker, leg, raid.home);
    var credit := CreditHaul(worker, leg, now, p);
    assert Applies(ready, credit, ByVersion);
    StepIsSafe(ready, credit);
    LootGoesHome(ready, worker, leg, now, p);
    var row := w.rows[raid.home];
    settled := Settle(row.stored, ElapsedSecs(row.at, Max(now, row.at)), p);
  }

  // ------------------------------------------------------------------ what production can come to

  function SecsOf(): Meter -> int { (m: Meter) => m.secs }

  /** All whole seconds of production ever credited. */
  function CreditedSecs(w: World): int { Sum(w.meters, SecsOf()) }

  /** The settle never takes below zero nor adds more than `rate` an hour. */
  ghost predicate PacedSettle(settle: (Amounts, nat, nat) -> Amounts, kind: Kind, rate: nat) {
    forall a: Amounts, secs: nat, upkeep: nat :: a.Of(kind) >= 0 ==>
      settle(a, secs, upkeep).Of(kind) >= 0 && 3600 * (settle(a, secs, upkeep).Of(kind) - a.Of(kind)) <= rate * secs
  }

  /** The step produces the kind at no more than `rate` an hour. */
  ghost predicate Paced(op: Op, kind: Kind, rate: nat) {
    match op
    case Spend(_, _, p, _) => RateOf(p.rates, kind) <= rate
    case StartTrade(_, _, _, p, _, _, _) => RateOf(p.rates, kind) <= rate
    case DeliverLeg(_, _, p, _) => RateOf(p.rates, kind) <= rate
    case TakeLoot(_, _, p, _, _, _) => RateOf(p.rates, kind) <= rate
    case CreditHaul(_, _, _, p) => RateOf(p.rates, kind) <= rate
    case TrainSettle(_, _, _, _, rules) => PacedSettle(rules.settle, kind, rate)
    case _ => true
  }

  ghost predicate AllPaced(ops: seq<Op>, kind: Kind, rate: nat)
    decreases |ops|
  {
    |ops| > 0 ==> Paced(ops[0], kind, rate) && AllPaced(ops[1..], kind, rate)
  }

  /** No store holds, and no session has read, less than nothing. */
  ghost predicate Stocked(w: World, kind: Kind) {
    && (forall v :: 0 <= v < |w.rows| ==> w.rows[v].stored.Of(kind) >= 0)
    && (forall sid :: sid in w.sessions && w.sessions[sid].snap.Some? ==>
          w.sessions[sid].snap.value.row.stored.Of(kind) >= 0)
  }

  lemma SettleIsPaced(a: Amounts, secs: nat, p: Production, kind: Kind, rate: nat)
    requires a.Of(kind) >= 0 && RateOf(p.rates, kind) <= rate
    ensures Settle(a, secs, p).Of(kind) >= 0 && 3600 * (Settle(a, secs, p).Of(kind) - a.Of(kind)) <= rate * secs
  {
    var own := RateOf(p.rates, kind);
    EachKindAccrues(a, secs, p, kind);
    AccrueAtMostTheRate(a.Of(kind), own, secs, CapOf(p.caps, kind));
    SlowerIsLess(Max(0, own), rate, secs);
  }

  lemma EachKindAccrues(a: Amounts, secs: nat, p: Production, kind: Kind)
    ensures Settle(a, secs, p).Of(kind) == Accrue(a.Of(kind), RateOf(p.rates, kind), secs, CapOf(p.caps, kind))
  {
  }

  lemma SlowerIsLess(slow: int, fast: int, secs: nat)
    requires slow <= fast
    ensures slow * secs <= fast * secs
  {
    assert (fast - slow) * secs >= 0;
  }

  /** So a settle at each upkeep's own production is paced by the highest rate among them. */
  lemma ServersSettleIsPaced(at: nat -> Production, kind: Kind, rate: nat)
    requires forall upkeep :: RateOf(at(upkeep).rates, kind) <= rate
    ensures PacedSettle((a: Amounts, secs: nat, upkeep: nat) => Settle(a, secs, at(upkeep)), kind, rate)
  {
    var settle := (a: Amounts, secs: nat, upkeep: nat) => Settle(a, secs, at(upkeep));
    forall a: Amounts, secs: nat, upkeep: nat | a.Of(kind) >= 0
      ensures settle(a, secs, upkeep).Of(kind) >= 0
      ensures 3600 * (settle(a, secs, upkeep).Of(kind) - a.Of(kind)) <= rate * secs
    {
      SettleIsPaced(a, secs, at(upkeep), kind, rate);
    }
  }

  lemma PacesAdd(rate: nat, secs: nat, more: nat, start: int, middle: int, end: int)
    requires 3600 * (middle - start) <= rate * secs && 3600 * (end - middle) <= rate * more
    ensures 3600 * (end - start) <= rate * (secs + more)
  {
  }

  lemma {:induction false} TrainingIsPaced(b: Training.Batch, done: nat, n: nat, t: Training.Tally, r: Training.Rules,
                                           kind: Kind, rate: nat)
    requires PacedSettle(r.settle, kind, rate) && t.amounts.Of(kind) >= 0
    ensures var after := Training.Through(b, done, n, t, r).amounts.Of(kind);
            after >= 0 && 3600 * (after - t.amounts.Of(kind)) <= rate * Training.SecsThrough(b, done, n, t.from)
    decreases n
  {
    if n > 0 {
      var instant := Training.CompletionOf(b, done + 1);
      var next := Training.AfterOne(b, done, t, r);
      TrainingIsPaced(b, done + 1, n - 1, next, r, kind, rate);
      PacesAdd(rate, ElapsedSecs(t.from, instant), Training.SecsThrough(b, done + 1, n - 1, next.from),
               t.amounts.Of(kind), next.amounts.Of(kind), Training.Through(b, done, n, t, r).amounts.Of(kind));
    }
  }

  /** What a write would credit and leave is paced, whatever the session has read. */
  lemma PlansArePaced(w: World, op: Op, kind: Kind, rate: nat)
    requires Writes(op) && Planned(w, op).Some? && Paced(op, kind, rate) && Stocked(w, kind)
    ensures var plan := Planned(w, op).value;
            && plan.after.Of(kind) >= 0
            && 3600 * (plan.settled.Of(kind) - Seen(w, op.sid).stored.Of(kind)) <= rate * plan.secs
  {
    var plan, row := Planned(w, op).value, Seen(w, op.sid);
    assert row.stored.Of(kind) >= 0;
    if op.TrainSettle? {
      TrainingIsPaced(op.batch, op.batch.done, op.completed, Training.Tally(row.stored, row.at, op.upkeep), op.rules, kind, rate);
    } else {
      SettleIsPaced(row.stored, plan.secs, op.p, kind, rate);
    }
  }

  lemma CommitIsPaced(w: World, sid: nat, plan: Plan, kind: Kind, rate: nat)
    requires HasSnapshot(w, sid) && Stocked(w, kind) && plan.after.Of(kind) >= 0
    requires 3600 * (plan.settled.Of(kind) - Seen(w, sid).stored.Of(kind)) <= rate * plan.secs
    ensures var w' := Commit(w, sid, plan);
            && Stocked(w', kind)
            && 3600 * (w'.books.accrued.Of(kind) - w.books.accrued.Of(kind)) <= rate * (CreditedSecs(w') - CreditedSecs(w))
  {
    var w', v := Commit(w, sid, plan), w.sessions[sid].village;
    SumUpdate(w.meters, v, w'.meters[v], SecsOf());
    assert CreditedSecs(w') == CreditedSecs(w) + plan.secs;
  }

  lemma QuietIsPaced(w: World, op: Op, kind: Kind)
    requires Shaped(w) && Stocked(w, kind)
    ensures Stocked(DoQuiet(w, op), kind) && CreditedSecs(DoQuiet(w, op)) == CreditedSecs(w)
    ensures DoQuiet(w, op).books.accrued == w.books.accrued
  {
    assert DoQuiet(w, op).meters == w.meters && DoQuiet(w, op).rows == w.rows;
  }

  lemma RewardIsPaced(w: World, op: Op, kind: Kind)
    requires op.Reward? && Stocked(w, kind)
    ensures var w' := DoReward(w, op.village, op.gain, op.caps);
            Stocked(w', kind) && CreditedSecs(w') == CreditedSecs(w) && w'.books.accrued == w.books.accrued
  {
    var w' := DoReward(w, op.village, op.gain, op.caps);
    if op.village < |w.rows| == |w.meters| { SumUpdate(w.meters, op.village, w'.meters[op.village], SecsOf()); }
  }

  lemma WritesArePaced(w: World, op: Op, guard: Guard, kind: Kind, rate: nat)
    requires Writes(op) && Stocked(w, kind) && Paced(op, kind, rate)
    ensures var w' := DoWrite(w, op, guard);
            && Stocked(w', kind)
            && 3600 * (w'.books.accrued.Of(kind) - w.books.accrued.Of(kind)) <= rate * (CreditedSecs(w') - CreditedSecs(w))
  {
    if Applies(w, op, guard) {
      PlansArePaced(w, op, kind, rate);
      CommitIsPaced(w, op.sid, Planned(w, op).value, kind, rate);
    }
  }

  lemma StepIsPaced(w: World, op: Op, guard: Guard, kind: Kind, rate: nat)
    requires Sound(w) && Stocked(w, kind) && Paced(op, kind, rate)
    ensures var w' := Step(w, op, guard);
            && Stocked(w', kind)
            && 3600 * (w'.books.accrued.Of(kind) - w.books.accrued.Of(kind)) <= rate * (CreditedSecs(w') - CreditedSecs(w))
  {
    if Writes(op) {
      WritesArePaced(w, op, guard, kind, rate);
    } else if op.Reward? {
      RewardIsPaced(w, op, kind);
    } else {
      QuietIsPaced(w, op, kind);
    }
  }

  /** Over every run, under either guard: what the books say was ever produced of a resource is at most
      its own hourly rate (the highest any step had) times the seconds of production credited. */
  lemma {:induction false} ProductionIsWithinItsRate(w: World, ops: seq<Op>, guard: Guard, kind: Kind, rate: nat)
    requires Sound(w) && Stocked(w, kind) && AllPaced(ops, kind, rate) && RequeuesAtStartup(w, ops, guard)
    ensures var w' := Run(w, ops, guard);
            3600 * (w'.books.accrued.Of(kind) - w.books.accrued.Of(kind)) <= rate * (CreditedSecs(w') - CreditedSecs(w))
    decreases |ops|
  {
    if |ops| > 0 {
      var next := Step(w, ops[0], guard);
      StepIsSound(w, ops[0], guard);
      StepIsPaced(w, ops[0], guard, kind, rate);
      ProductionIsWithinItsRate(next, ops[1..], guard, kind, rate);
      var w' := Run(next, ops[1..], guard);
      assert rate * (CreditedSecs(w') - CreditedSecs(w))
          == rate * (CreditedSecs(next) - CreditedSecs(w)) + rate * (CreditedSecs(w') - CreditedSecs(next));
    }
  }
}
