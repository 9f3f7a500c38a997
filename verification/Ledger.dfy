/**
 The settle / claim / apply engine seen from the resource rows.

 Players and the scheduler read a village's `(stored, updated_at)`, compute, and issue a write that
 applies only if the row is still what they read. Reads and guarded writes are separate steps here,
 so every interleaving of sessions, retries, releases, crashes and requeues is a run.
 */
module Ledger {
  import opened Economy
  import opened Options
  import opened Sums
  import Training

  const U32_MAX: nat := 0xffff_ffff

  /** A `village_resources` row: the amounts, and the instant they were last settled to (ms). */
  datatype Row = Row(stored: Amounts, at: int)

  /** Book-keeping beside a row: how many writes it took, how many whole seconds of production were
      ever credited to it, and when it was opened. */
  datatype Meter = Meter(writes: nat, secs: nat, since: int)

  datatype CargoKind = Deliver | Return | Haul

  /** The storage has one word for the last two: a cargo that is `Forfeited` was closed uncredited. */
  datatype Status = InTransit | Processing | Done | Forfeited

  /** A trade leg, or (`Haul`) a returning army's loot. `credits` counts how often its bundle was
      added to a store. */
  datatype Cargo = Cargo(kind: CargoKind, home: nat, target: nat, bundle: Amounts, merchants: nat,
                         capacity: nat, arrive: int, status: Status, credits: nat)

  datatype Snapshot = Snapshot(row: Row, version: nat)

  /** A read in progress: the village, its merchant total when it was loaded, the row once read,
      and the committed-merchant count once read. */
  datatype Session = Session(village: nat, total: nat, snap: Option<Snapshot>, committed: Option<nat>)

  /** Everything that ever entered or left the stores and the cargo. */
  datatype Books = Books(opening: Amounts, accrued: Amounts, granted: Amounts, spent: Amounts, overflow: Amounts,
                         forfeited: Amounts)

  /** `claims` are the legs that workers hold in memory, with the worker. */
  datatype World = World(rows: seq<Row>, merchants: seq<nat>, meters: seq<Meter>, cargo: seq<Cargo>,
                         claims: set<(nat, nat)>, sessions: map<nat, Session>, books: Books)

  /** The port promises "still at that snapshot" (`ByVersion`); the storage compares the settle
      instant (`ByStamp`). */
  datatype Guard = ByVersion | ByStamp

  /** `sid` is the player's session or the worker that takes the step. */
  datatype Op =
    | Select(sid: nat, village: nat)
    | ReadRow(sid: nat)
    | ReadCommitted(sid: nat)
    | Spend(sid: nat, now: int, p: Production, cost: Amounts)
    | StartTrade(sid: nat, target: nat, now: int, p: Production, bundle: Amounts, perMerchant: nat, arrive: int)
    | DeliverLeg(sid: nat, leg: nat, p: Production, returnArrive: int)
    | TakeLoot(sid: nat, battleAt: int, p: Production, loot: Amounts, home: nat, arrive: int)
    | CreditHaul(sid: nat, leg: nat, now: int, p: Production)
    | TrainSettle(sid: nat, batch: Training.Batch, completed: nat, upkeep: nat, rules: Training.Rules)
    | Claim(sid: nat, leg: nat, now: int)
    | Release(sid: nat, leg: nat)
    | Abandon(sid: nat, leg: nat)
    | Complete(sid: nat, leg: nat)
    | Forfeit(village: nat)
    | Crash(sid: nat)
    | Requeue
    | RaiseMerchants(village: nat, total: nat)
    | Reward(village: nat, gain: Amounts, caps: Capacities)

  // ------------------------------------------------------------------ merchants

  /** Merchants needed for `total` resources: ceiling division, saturated to 32 bits. */
  function MerchantsRequired(total: int, perMerchant: nat): nat {
    if total <= 0 then 0
    else
      var capacity := Max(perMerchant, 1);
      Min((total + capacity - 1) / capacity, U32_MAX)
  }

  predicate OnTheRoad(c: Cargo) { c.status == InTransit || c.status == Processing }

  function CommittedTo(village: nat): Cargo -> int {
    (c: Cargo) => if c.home == village && c.kind != Haul && OnTheRoad(c) then c.merchants else 0
  }

  /** Merchants of `village` on legs that are in transit or being processed. */
  function Committed(cargo: seq<Cargo>, village: nat): int {
    Sum(cargo, CommittedTo(village))
  }

  // ------------------------------------------------------------------ holdings

  function StoredOf(kind: Kind): Row -> int { (r: Row) => r.stored.Of(kind) }

  function AboardOf(kind: Kind): Cargo -> int { (c: Cargo) => if OnTheRoad(c) then c.bundle.Of(kind) else 0 }

  /** All of one resource in the world: in the stores, on the road, and in loot on its way home. */
  function Holdings(w: World, kind: Kind): int {
    Sum(w.rows, StoredOf(kind)) + Sum(w.cargo, AboardOf(kind))
  }

  function Expected(b: Books, kind: Kind): int {
    b.opening.Of(kind) + b.accrued.Of(kind) + b.granted.Of(kind) - b.spent.Of(kind) - b.overflow.Of(kind) - b.forfeited.Of(kind)
  }

  /** What there is beyond what the books expect; negative if something is missing. */
  function Surplus(w: World, kind: Kind): int { Holdings(w, kind) - Expected(w.books, kind) }

  ghost predicate Balanced(w: World) {
    forall kind: Kind :: Surplus(w, kind) == 0
  }

  // ------------------------------------------------------------------ guarded writes

  /** Session `sid` has read the row of a real village. */
  predicate HasSnapshot(w: World, sid: nat) {
    && sid in w.sessions
    && w.sessions[sid].snap.Some?
    && w.sessions[sid].village < |w.rows|
    && |w.meters| == |w.rows|
  }

  function Seen(w: World, sid: nat): Row
    requires HasSnapshot(w, sid)
  {
    w.sessions[sid].snap.value.row
  }

  predicate GuardPasses(w: World, sid: nat, guard: Guard) {
    && HasSnapshot(w, sid)
    && var s := w.sessions[sid];
       match guard
       case ByVersion => w.meters[s.village].writes == s.snap.value.version
       case ByStamp => w.rows[s.village].at == s.snap.value.row.at
  }

  /** What the session computes: its snapshot settled forward to `clock`. */
  function Settled(w: World, sid: nat, clock: int, p: Production): Amounts
    requires HasSnapshot(w, sid)
  {
    var row := Seen(w, sid);
    Settle(row.stored, ElapsedSecs(row.at, clock), p)
  }

  /** The settle clock of a credit never runs behind the snapshot. */
  function CreditClock(w: World, sid: nat, instant: int): int
    requires HasSnapshot(w, sid)
  {
    Max(instant, Seen(w, sid).at)
  }

  /** What a session is about to write: the new clock, the seconds of production it credits, the
      amounts settled to that clock and after its change, what the change pays or loses, and the cargo
      and claims it leaves. */
  datatype Plan = Plan(clock: int, secs: nat, settled: Amounts, after: Amounts, spent: Amounts, overflow: Amounts,
                       cargo: seq<Cargo>, claims: set<(nat, nat)>)

  /** The absolute write of a plan over whatever the row holds by now. */
  function Commit(w: World, sid: nat, plan: Plan): World
    requires HasSnapshot(w, sid)
  {
    var v := w.sessions[sid].village;
    var m := w.meters[v];
    var b := w.books;
    w.(rows := w.rows[v := Row(plan.after, plan.clock)],
       meters := w.meters[v := Meter(m.writes + 1, m.secs + plan.secs, m.since)],
       cargo := plan.cargo,
       claims := plan.claims,
       books := b.(accrued := b.accrued.Plus(plan.settled.Minus(Seen(w, sid).stored)),
                   spent := b.spent.Plus(plan.spent),
                   overflow := b.overflow.Plus(plan.overflow)))
  }

  /** The plan of settling to `clock` and paying `cost`, of which `cost` minus what is spent goes aboard. */
  function Payment(w: World, sid: nat, clock: int, p: Production, cost: Amounts, spent: Amounts, cargo: seq<Cargo>): Plan
    requires HasSnapshot(w, sid)
  {
    var settled := Settled(w, sid, clock, p);
    Plan(clock, ElapsedSecs(Seen(w, sid).at, clock), settled, settled.Minus(cost), spent, NOTHING, cargo, w.claims)
  }

  /** An order that pays `cost` (build, train, research; nothing for a demolition or a starvation settle). */
  function PlanSpend(w: World, sid: nat, now: int, p: Production, cost: Amounts): Option<Plan>
    requires HasSnapshot(w, sid)
  {
    if Settled(w, sid, now, p).Covers(cost) then Some(Payment(w, sid, now, p, cost, cost, w.cargo)) else None
  }

  /** The checks of `order_trade` on what its session read. */
  predicate MayTrade(w: World, sid: nat, target: nat, now: int, p: Production, bundle: Amounts, perMerchant: nat) {
    && HasSnapshot(w, sid)
    && var s := w.sessions[sid];
    && s.committed.Some?
    && bundle.Covers(NOTHING) && bundle.Total() > 0
    && Settled(w, sid, now, p).Covers(bundle)
    && MerchantsRequired(bundle.Total(), perMerchant) <= Max(0, s.total - s.committed.value)
    && target < |w.rows| && target != s.village
  }

  function PlanTrade(w: World, sid: nat, target: nat, now: int, p: Production, bundle: Amounts, perMerchant: nat,
                     arrive: int): Option<Plan>
    requires HasSnapshot(w, sid)
  {
    if !MayTrade(w, sid, target, now, p, bundle, perMerchant) then None
    else
      var leg := Cargo(Deliver, w.sessions[sid].village, target, bundle,
                       MerchantsRequired(bundle.Total(), perMerchant), Max(perMerchant, 1), arrive, InTransit, 0);
      Some(Payment(w, sid, now, p, bundle, NOTHING, w.cargo + [leg]))
  }

  /** The loot of a battle leaves the target's store and travels home with the survivors. */
  function PlanLoot(w: World, sid: nat, battleAt: int, p: Production, loot: Amounts, home: nat, arrive: int): Option<Plan>
    requires HasSnapshot(w, sid)
  {
    var clock := CreditClock(w, sid, battleAt);
    if !Settled(w, sid, clock, p).Covers(loot) || !loot.Covers(NOTHING) || loot == NOTHING || home >= |w.rows| then None
    else Some(Payment(w, sid, clock, p, loot, NOTHING, w.cargo + [Cargo(Haul, home, home, loot, 0, 1, arrive, InTransit, 0)]))
  }

  predicate MayCredit(w: World, sid: nat, leg: nat, kind: CargoKind) {
    && HasSnapshot(w, sid)
    && (sid, leg) in w.claims && leg < |w.cargo|
    && w.cargo[leg].kind == kind
    && w.sessions[sid].village == (if kind == Haul then w.cargo[leg].home else w.cargo[leg].target)
  }

  /** Credit a claimed cargo to the village the worker read, capped to its storage. */
  function Credit(w: World, sid: nat, leg: nat, instant: int, p: Production, more: seq<Cargo>): Plan
    requires HasSnapshot(w, sid) && leg < |w.cargo|
  {
    var clock := CreditClock(w, sid, instant);
    var settled := Settled(w, sid, clock, p);
    var c := w.cargo[leg];
    var after := DepositCapped(settled, c.bundle, p.caps);
    Plan(clock, ElapsedSecs(Seen(w, sid).at, clock), settled, after, NOTHING, settled.Plus(c.bundle).Minus(after),
         w.cargo[leg := c.(status := Done, credits := c.credits + 1)] + more, w.claims - {(sid, leg)})
  }

  /** The empty leg that carries a delivered shipment's merchants home. */
  function ReturnLegOf(c: Cargo, returnArrive: int): Cargo {
    Cargo(Return, c.home, c.target, NOTHING, c.merchants, c.capacity, returnArrive, InTransit, 0)
  }

  /** `deliver_and_schedule_return`: the credit, the leg done, and the empty return leg. */
  function PlanDelivery(w: World, sid: nat, leg: nat, p: Production, returnArrive: int): Option<Plan>
    requires HasSnapshot(w, sid)
  {
    if !MayCredit(w, sid, leg, Deliver) then None
    else Some(Credit(w, sid, leg, w.cargo[leg].arrive, p, [ReturnLegOf(w.cargo[leg], returnArrive)]))
  }

  /** The loot of a return is credited when the army is back. */
  function PlanHaul(w: World, sid: nat, leg: nat, now: int, p: Production): Option<Plan>
    requires HasSnapshot(w, sid)
  {
    if MayCredit(w, sid, leg, Haul) then Some(Credit(w, sid, leg, now, p, [])) else None
  }

  /** `apply_training`: the store settled piecewise through the delivered units' completions. */
  function PlanTraining(w: World, sid: nat, batch: Training.Batch, completed: nat, upkeep: nat, rules: Training.Rules): Plan
    requires HasSnapshot(w, sid)
  {
    var row := Seen(w, sid);
    var t := Training.Through(batch, batch.done, completed, Training.Tally(row.stored, row.at, upkeep), rules);
    Plan(t.from, Training.SecsThrough(batch, batch.done, completed, row.at), t.amounts, t.amounts, NOTHING, NOTHING,
         w.cargo, w.claims)
  }

  predicate Writes(op: Op) {
    op.Spend? || op.StartTrade? || op.DeliverLeg? || op.TakeLoot? || op.CreditHaul? || op.TrainSettle?
  }

  /** What a writing step would write, from what its session read. */
  function Planned(w: World, op: Op): Option<Plan>
    requires Writes(op)
  {
    if !HasSnapshot(w, op.sid) then None
    else
      match op
      case Spend(sid, now, p, cost) => PlanSpend(w, sid, now, p, cost)
      case StartTrade(sid, target, now, p, bundle, per, arrive) => PlanTrade(w, sid, target, now, p, bundle, per, arrive)
      case DeliverLeg(sid, leg, p, returnArrive) => PlanDelivery(w, sid, leg, p, returnArrive)
      case TakeLoot(sid, battleAt, p, loot, home, arrive) => PlanLoot(w, sid, battleAt, p, loot, home, arrive)
      case CreditHaul(sid, leg, now, p) => PlanHaul(w, sid, leg, now, p)
      case TrainSettle(sid, batch, completed, upkeep, rules) => Some(PlanTraining(w, sid, batch, completed, upkeep, rules))
  }

  /** The write applies: there is something to write and the guard lets it through. */
  predicate Applies(w: World, op: Op, guard: Guard) {
    Writes(op) && Planned(w, op).Some? && GuardPasses(w, op.sid, guard)
  }

  function DoWrite(w: World, op: Op, guard: Guard): World
    requires Writes(op)
  {
    if Applies(w, op, guard) then Commit(w, op.sid, Planned(w, op).value) else w
  }

  // ------------------------------------------------------------------ claims

  function WithStatus(w: World, leg: nat, status: Status): World
    requires leg < |w.cargo|
  {
    w.(cargo := w.cargo[leg := w.cargo[leg].(status := status)])
  }

  function Requeued(cargo: seq<Cargo>): (r: seq<Cargo>)
    ensures |r| == |cargo|
    ensures forall i :: 0 <= i < |r| ==>
              r[i] == cargo[i].(status := if cargo[i].status == Processing then InTransit else cargo[i].status)
  {
    seq(|cargo|, i requires 0 <= i < |cargo| =>
      cargo[i].(status := if cargo[i].status == Processing then InTransit else cargo[i].status))
  }

  /** Loot in transit to a village that is lost. */
  predicate IsForfeit(c: Cargo, village: nat) { c.kind == Haul && c.home == village && c.status == InTransit }

  /** A conquest closes the lost village's movements in transit, and with them the loot aboard. */
  function Forfeits(cargo: seq<Cargo>, village: nat): (r: seq<Cargo>)
    ensures |r| == |cargo|
    ensures forall i :: 0 <= i < |r| ==>
              r[i] == if IsForfeit(cargo[i], village) then cargo[i].(status := Forfeited) else cargo[i]
  {
    seq(|cargo|, i requires 0 <= i < |cargo| =>
      if IsForfeit(cargo[i], village) then cargo[i].(status := Forfeited) else cargo[i])
  }

  function LostWith(cargo: seq<Cargo>, village: nat): Amounts {
    if cargo == [] then NOTHING
    else (if IsForfeit(cargo[0], village) then cargo[0].bundle else NOTHING).Plus(LostWith(cargo[1..], village))
  }

  /** The steps that write no row. */
  function DoQuiet(w: World, op: Op): World {
    match op
    case Select(sid, v) =>
      if v < |w.merchants| then w.(sessions := w.sessions[sid := Session(v, w.merchants[v], None, None)]) else w
    case ReadRow(sid) =>
      if sid in w.sessions && w.sessions[sid].village < |w.rows| && |w.meters| == |w.rows| then
        var s := w.sessions[sid];
        var snap := Snapshot(w.rows[s.village], w.meters[s.village].writes);
        w.(sessions := w.sessions[sid := s.(snap := Some(snap), committed := None)])
      else w
    case ReadCommitted(sid) =>
      if sid in w.sessions && w.sessions[sid].snap.Some? then
        var s := w.sessions[sid];
        var count := Min(Max(0, Committed(w.cargo, s.village)), U32_MAX);
        w.(sessions := w.sessions[sid := s.(committed := Some(count))])
      else w
    case Claim(sid, leg, now) =>
      if leg < |w.cargo| && w.cargo[leg].status == InTransit && w.cargo[leg].arrive <= now
      then WithStatus(w, leg, Processing).(claims := w.claims + {(sid, leg)})
      else w
    case Release(sid, leg) =>
      if (sid, leg) in w.claims && leg < |w.cargo| then
        var w' := w.(claims := w.claims - {(sid, leg)});
        if w.cargo[leg].status == Processing then WithStatus(w', leg, InTransit) else w'
      else w
    case Abandon(sid, leg) => w.(claims := w.claims - {(sid, leg)})
    case Complete(sid, leg) =>
      if (sid, leg) in w.claims && leg < |w.cargo| && w.cargo[leg].kind == Return
      then WithStatus(w, leg, Done).(claims := w.claims - {(sid, leg)})
      else w
    case Forfeit(v) =>
      var b := w.books;
      w.(cargo := Forfeits(w.cargo, v), books := b.(forfeited := b.forfeited.Plus(LostWith(w.cargo, v))))
    case Crash(sid) => w.(claims := set c | c in w.claims && c.0 != sid)
    case Requeue => w.(cargo := Requeued(w.cargo))
    case RaiseMerchants(v, total) =>
      if v < |w.merchants| && w.merchants[v] <= total < U32_MAX then w.(merchants := w.merchants[v := total]) else w
    case _ => w
  }

  /** The reward of a quest or an achievement is added to the row as it is, up to its storage. The write
      has no guard, and leaves the settle instant where it was. */
  function DoReward(w: World, v: nat, gain: Amounts, caps: Capacities): World {
    if !(v < |w.rows| == |w.meters|) then w
    else
      var row, m, b := w.rows[v], w.meters[v], w.books;
      var after := DepositCapped(row.stored, gain, caps);
      w.(rows := w.rows[v := Row(after, row.at)],
         meters := w.meters[v := Meter(m.writes + 1, m.secs, m.since)],
         books := b.(granted := b.granted.Plus(gain), overflow := b.overflow.Plus(row.stored.Plus(gain).Minus(after))))
  }

  function Step(w: World, op: Op, guard: Guard): World {
    if Writes(op) then DoWrite(w, op, guard)
    else if op.Reward? then DoReward(w, op.village, op.gain, op.caps)
    else DoQuiet(w, op)
  }

  function Run(w: World, ops: seq<Op>, guard: Guard): World
    decreases |ops|
  {
    if |ops| == 0 then w else Run(Step(w, ops[0], guard), ops[1..], guard)
  }
}
