/** The delivery worker: the five-try guarded credit and the loop over claimed legs. */
module TradeEngine {
  import opened Economy
  import opened Options
  import opened Sums
  import opened Ledger
  import opened LedgerLaws

  const ATTEMPTS: nat := 5

  /** The session the worker reads through. */
  const WORKER: nat := 0

  /** A step of somebody else: not the worker's, no requeue beside it, and no claim of the legs it was
      given (there is one scheduler). */
  predicate Elsewhere(op: Op, batch: set<nat>) {
    match op
    case Forfeit(_) => true
    case RaiseMerchants(_, _) => true
    case Reward(_, _, _) => true
    case Requeue => false
    case Select(sid, _) => sid != WORKER
    case ReadRow(sid) => sid != WORKER
    case ReadCommitted(sid) => sid != WORKER
    case Claim(sid, leg, _) => sid != WORKER && leg !in batch
    case Release(sid, _) => sid != WORKER
    case Abandon(sid, _) => sid != WORKER
    case Complete(sid, _) => sid != WORKER
    case Crash(sid) => sid != WORKER
    case _ => op.sid != WORKER
  }

  predicate AllElsewhere(ops: seq<Op>, batch: set<nat>)
    decreases |ops|
  {
    |ops| > 0 ==> Elsewhere(ops[0], batch) && AllElsewhere(ops[1..], batch)
  }

  /** The legs of `batch` are trade legs that nobody but the worker holds. */
  ghost predicate OnlyMine(w: World, batch: set<nat>) {
    && (forall leg :: leg in batch ==> leg < |w.cargo| && w.cargo[leg].kind != Haul)
    && forall c :: c in w.claims && c.1 in batch ==> c.0 == WORKER
  }

  /** The legs of `batch` are the cargo they were in `w`, and held by the worker if they were. */
  ghost predicate Kept(w: World, w': World, batch: set<nat>) {
    && |w.cargo| <= |w'.cargo| && |w'.rows| == |w.rows|
    && forall leg :: leg in batch && leg < |w.cargo| ==>
         w'.cargo[leg] == w.cargo[leg] && ((WORKER, leg) in w'.claims <==> (WORKER, leg) in w.claims)
  }

  /** What the worker can rely on across other people's steps. */
  ghost predicate Undisturbed(w: World, w': World, batch: set<nat>) {
    && |w'.meters| == |w.meters|
    && OnlyMine(w', batch) && Kept(w, w', batch)
    && (WORKER in w'.sessions <==> WORKER in w.sessions)
    && (WORKER in w.sessions ==> w'.sessions[WORKER] == w.sessions[WORKER])
    && forall v :: 0 <= v < |w.meters| ==> w.meters[v].writes <= w'.meters[v].writes
  }

  lemma WriteElsewhere(w: World, op: Op, batch: set<nat>)
    requires Sound(w) && OnlyMine(w, batch) && Elsewhere(op, batch) && Writes(op)
    ensures Undisturbed(w, Step(w, op, ByVersion), batch)
  {
    WriteBumpsVersion(w, op, ByVersion);
  }

  lemma StepElsewhere(w: World, op: Op, batch: set<nat>)
    requires Sound(w) && OnlyMine(w, batch) && Elsewhere(op, batch)
    ensures Undisturbed(w, Step(w, op, ByVersion), batch)
  {
    if Writes(op) { WriteElsewhere(w, op, batch); }
  }

  /** However long the others run, a worker's legs, claims and snapshot wait for it. */
  lemma {:induction false} RunElsewhere(w: World, ops: seq<Op>, batch: set<nat>)
    requires Safe(w) && OnlyMine(w, batch) && AllElsewhere(ops, batch)
    ensures Undisturbed(w, Run(w, ops, ByVersion), batch)
    ensures Safe(Run(w, ops, ByVersion))
    decreases |ops|
  {
    if |ops| > 0 {
      StepElsewhere(w, ops[0], batch);
      StepIsSafe(w, ops[0]);
      RunElsewhere(Step(w, ops[0], ByVersion), ops[1..], batch);
    }
  }

  /** One attempt: what others do between the worker's read and its write, the production its read of
      the target yields, and whether a storage call fails with anything but a conflict. */
  datatype Attempt = Attempt(rivals: seq<Op>, p: Production, broken: bool)

  /** The handling of one leg: its attempts, when its return would be back, and whether the call that
      releases or completes it fails. */
  datatype Visit = Visit(attempts: seq<Attempt>, returnArrive: int, broken: bool)

  datatype Outcome = Credited | Refused | Failed

  /** The world once the worker has read the row of `village`. */
  function Reading(w: World, village: nat): World {
    DoQuiet(DoQuiet(w, Select(WORKER, village)), ReadRow(WORKER))
  }

  /** The world in which the worker tries its write. */
  function Raced(w: World, village: nat, rivals: seq<Op>): World {
    Run(Reading(w, village), rivals, ByVersion)
  }

  ghost predicate CanDeliver(w: World, leg: nat, batch: set<nat>) {
    && Safe(w) && OnlyMine(w, batch) && leg in batch && (WORKER, leg) in w.claims
    && w.cargo[leg].kind == Deliver && w.cargo[leg].target < |w.rows|
  }

  /** The worker's read, and what others do after it, leave the held legs alone and the worker with
      a usable snapshot of the row as it was. */
  lemma RaceFacts(w: World, leg: nat, rivals: seq<Op>, batch: set<nat>)
    requires CanDeliver(w, leg, batch) && AllElsewhere(rivals, batch)
    ensures var v := w.cargo[leg].target;
            var raced := Raced(w, v, rivals);
            && CanDeliver(raced, leg, batch) && Kept(w, raced, batch)
            && MayCredit(raced, WORKER, leg, Deliver)
            && raced.sessions[WORKER].village == v
            && Version(raced, WORKER) == w.meters[v].writes <= raced.meters[v].writes
  {
    var v := w.cargo[leg].target;
    var selected := DoQuiet(w, Select(WORKER, v));
    StepIsSafe(w, Select(WORKER, v));
    StepIsSafe(selected, ReadRow(WORKER));
    RunElsewhere(Reading(w, v), rivals, batch);
    assert Undisturbed(Reading(w, v), Raced(w, v, rivals), batch);
  }

  /** A delivery the guard lets through settles the row as it is now, caps the bundle to its storage,
      and hands the merchants over to the return leg. */
  lemma DeliveryEffect(w: World, leg: nat, p: Production, returnArrive: int)
    requires Safe(w) && MayCredit(w, WORKER, leg, Deliver)
    ensures var w' := Step(w, DeliverLeg(WORKER, leg, p, returnArrive), ByVersion);
            && Safe(w') && w.cargo[leg].target < |w.rows| == |w.meters|
            && w' == if Version(w, WORKER) != CurrentVersion(w, WORKER) then w
                     else
                       var c, row, m := w.cargo[leg], w.rows[w.cargo[leg].target], w.meters[w.cargo[leg].target];
                       var clock := Max(c.arrive, row.at);
                       var secs := ElapsedSecs(row.at, clock);
                       var settled := Settle(row.stored, secs, p);
                       var after := DepositCapped(settled, c.bundle, p.caps);
                       w.(rows := w.rows[c.target := Row(after, clock)],
                          meters := w.meters[c.target := Meter(m.writes + 1, m.secs + secs, m.since)],
                          cargo := w.cargo[leg := c.(status := Done, credits := 1)] + [ReturnLegOf(c, returnArrive)],
                          claims := w.claims - {(WORKER, leg)},
                          books := w.books.(accrued := w.books.accrued.Plus(settled.Minus(row.stored)),
                                            overflow := w.books.overflow.Plus(settled.Plus(c.bundle).Minus(after))))
  {
    StepIsSafe(w, DeliverLeg(WORKER, leg, p, returnArrive));
    assert CargoSound(w.cargo[leg]);
  }

  function Legs(due: seq<nat>): set<nat> {
    set leg | leg in due
  }

  class Engine {
    var rows: seq<Row>
    var merchants: seq<nat>
    var meters: seq<Meter>
    var cargo: seq<Cargo>
    var claims: set<(nat, nat)>
    var sessions: map<nat, Session>
    var books: Books

    function State(): World
      reads this
    {
      World(rows, merchants, meters, cargo, claims, sessions, books)
    }

    method Load(w: World)
      modifies this
      ensures State() == w
    {
      rows, merchants, meters, cargo := w.rows, w.merchants, w.meters, w.cargo;
      claims, sessions, books := w.claims, w.sessions, w.books;
    }

    /** `committed_merchants`: the sum over the village's legs in transit or processing. */
    method CommittedMerchants(home: nat) returns (total: int)
      ensures total == Committed(cargo, home)
    {
      total := 0;
      var i := |cargo|;
      while i > 0
        invariant 0 <= i <= |cargo|
        invariant total == Sum(cargo[i..], CommittedTo(home))
      {
        i := i - 1;
        var c := cargo[i];
        assert cargo[i..] == [c] + cargo[i + 1..];
        if c.home == home && c.kind != Haul && (c.status == InTransit || c.status == Processing) {
          total := total + c.merchants;
        }
      }
      assert cargo[0..] == cargo;
    }

    /** `deliver_and_schedule_return`: it goes through exactly if nobody wrote the target's row since the
        worker read it. Then the row as it is now is settled to the arrival and takes the bundle up to
        its storage, the leg is done and its merchants set out for home; the books still balance. */
    method DeliverAndScheduleReturn(leg: nat, p: Production, returnArrive: int) returns (applied: bool)
      requires Safe(State()) && MayCredit(State(), WORKER, leg, Deliver)
      modifies this
      ensures Safe(State()) && sessions == old(sessions)
      ensures applied <==> Version(old(State()), WORKER) == old(meters)[old(cargo)[leg].target].writes
      ensures !applied ==> State() == old(State())
      ensures applied ==>
                var c := old(cargo)[leg];
                var row, clock := old(rows)[c.target], Max(c.arrive, old(rows)[c.target].at);
                && rows == old(rows)[c.target := Row(DepositCapped(Settle(row.stored, ElapsedSecs(row.at, clock), p),
                                                                   c.bundle, p.caps), clock)]
                && cargo == old(cargo)[leg := c.(status := Done, credits := 1)] + [ReturnLegOf(c, returnArrive)]
                && claims == old(claims) - {(WORKER, leg)}
                && |meters| == |old(meters)|
                && meters[c.target].writes == old(meters)[c.target].writes + 1
    {
      DeliveryEffect(State(), leg, p, returnArrive);
      var s := sessions[WORKER];
      var row, m, c := s.snap.value.row, meters[s.village], cargo[leg];
      applied := m.writes == s.snap.value.version;
      if applied {
        var clock := Max(c.arrive, row.at);
        var secs := ElapsedSecs(row.at, clock);
        var settled := Settle(row.stored, secs, p);
        var after := DepositCapped(settled, c.bundle, p.caps);
        Load(World(rows[s.village := Row(after, clock)], merchants,
                   meters[s.village := Meter(m.writes + 1, m.secs + secs, m.since)],
                   cargo[leg := c.(status := Done, credits := c.credits + 1)] + [ReturnLegOf(c, returnArrive)],
                   claims - {(WORKER, leg)}, sessions,
                   books.(accrued := books.accrued.Plus(settled.Minus(row.stored)),
                          overflow := books.overflow.Plus(settled.Plus(c.bundle).Minus(after)))));
      }
    }

    method ReadTarget(village: nat)
      requires village < |rows| == |meters| == |merchants|
      modifies this`sessions
      ensures State() == Reading(old(State()), village)
    {
      var snap := Snapshot(rows[village], meters[village].writes);
      sessions := sessions[WORKER := Session(village, merchants[village], Some(snap), None)];
    }

    /** One attempt of `deliver`: read the target, let others run, then credit under the guard. It is
        credited exactly if no storage call failed and nobody wrote the target's row in between. */
    method TryDeliver(leg: nat, attempt: Attempt, returnArrive: int, ghost batch: set<nat>) returns (outcome: Outcome)
      requires CanDeliver(State(), leg, batch) && AllElsewhere(attempt.rivals, batch)
      modifies this
      ensures Safe(State()) && |cargo| >= |old(cargo)|
      ensures Kept(old(State()), State(), batch - {leg}) && OnlyMine(State(), batch)
      ensures outcome == Failed <==> attempt.broken
      ensures outcome == Credited <==>
                !attempt.broken
                && var v := old(cargo)[leg].target;
                   var raced := Raced(old(State()), v, attempt.rivals);
                   v < |raced.meters| && raced.meters[v].writes == old(meters)[v].writes
      ensures outcome == Credited ==>
                && (WORKER, leg) !in claims && cargo[leg] == old(cargo)[leg].(status := Done, credits := 1)
                && ReturnLegOf(old(cargo)[leg], returnArrive) in cargo
      ensures outcome != Credited ==> CanDeliver(State(), leg, batch) && Kept(old(State()), State(), batch)
      ensures meters[old(cargo)[leg].target].writes >= old(meters)[old(cargo)[leg].target].writes + (if outcome == Failed then 0 else 1)
    {
      var v := cargo[leg].target;
      ghost var before, raced := State(), Raced(State(), v, attempt.rivals);
      RaceFacts(before, leg, attempt.rivals, batch);
      ReadTarget(v);
      Load(Run(State(), attempt.rivals, ByVersion));
      assert State() == raced;
      if attempt.broken {
        return Failed;
      }
      var applied := DeliverAndScheduleReturn(leg, attempt.p, returnArrive);
      outcome := if applied then Credited else Refused;
      if applied {
        assert cargo[|raced.cargo|] == ReturnLegOf(old(cargo)[leg], returnArrive);
      }
    }

    /** `deliver`: up to five optimistic credits; then the leg goes back to `in_transit`. A refused
        attempt means the target's row was written in between, so giving up means it was written at
        least five times. A storage failure leaves the leg in `processing`, and in nobody's hands. */
    method DeliverShipment(leg: nat, visit: Visit, ghost batch: set<nat>) returns (outcome: Outcome)
      requires CanDeliver(State(), leg, batch) && |visit.attempts| == ATTEMPTS
      requires forall i :: 0 <= i < ATTEMPTS ==> AllElsewhere(visit.attempts[i].rivals, batch)
      modifies this
      ensures Safe(State()) && |cargo| >= |old(cargo)| && (WORKER, leg) !in claims
      ensures Kept(old(State()), State(), batch - {leg}) && OnlyMine(State(), batch)
      ensures cargo[leg] == old(cargo)[leg].(
                status := (match outcome case Credited => Done case Refused => InTransit case Failed => Processing),
                credits := if outcome == Credited then 1 else 0)
      ensures outcome == Credited ==> ReturnLegOf(old(cargo)[leg], visit.returnArrive) in cargo
      ensures outcome == Refused ==>
                && !Troubled(visit)
                && meters[old(cargo)[leg].target].writes >= old(meters)[old(cargo)[leg].target].writes + ATTEMPTS
      ensures outcome == Failed ==> Troubled(visit)
    {
      assert CargoSound(cargo[leg]);
      var tries := 0;
      while tries < ATTEMPTS
        invariant 0 <= tries <= ATTEMPTS
        invariant CanDeliver(State(), leg, batch) && Kept(old(State()), State(), batch)
        invariant forall i :: 0 <= i < tries ==> !visit.attempts[i].broken
        invariant meters[old(cargo)[leg].target].writes >= old(meters)[old(cargo)[leg].target].writes + tries
      {
        outcome := TryDeliver(leg, visit.attempts[tries], visit.returnArrive, batch);
        if outcome == Credited {
          return;
        }
        if outcome == Failed {
          LetGo(leg, batch);
          return;
        }
        tries := tries + 1;
      }
      if visit.broken {
        LetGo(leg, batch);
        return Failed;
      }
      GiveBack(leg, batch);
      outcome := Refused;
    }

    /** `release_trade`: back to `in_transit`. */
    method GiveBack(leg: nat, ghost batch: set<nat>)
      requires Safe(State()) && OnlyMine(State(), batch) && (WORKER, leg) in claims
      modifies this
      ensures Safe(State()) && OnlyMine(State(), batch) && meters == old(meters) && rows == old(rows)
      ensures claims == old(claims) - {(WORKER, leg)}
      ensures cargo == old(cargo)[leg := old(cargo)[leg].(status := InTransit)]
    {
      StepIsSafe(State(), Release(WORKER, leg));
      claims := claims - {(WORKER, leg)};
      cargo := cargo[leg := cargo[leg].(status := InTransit)];
      assert State() == Step(old(State()), Release(WORKER, leg), ByVersion);
    }

    /** A failure is logged and the worker moves on: the leg stays as it is until the next startup. */
    method LetGo(leg: nat, ghost batch: set<nat>)
      requires Safe(State()) && OnlyMine(State(), batch)
      modifies this
      ensures Safe(State()) && cargo == old(cargo) && meters == old(meters) && rows == old(rows)
      ensures claims == old(claims) - {(WORKER, leg)} && OnlyMine(State(), batch)
    {
      StepIsSafe(State(), Abandon(WORKER, leg));
      claims := claims - {(WORKER, leg)};
    }

    /** `complete_trade`: a return that is back frees its merchants, unless the storage call fails. */
    method CompleteReturn(leg: nat, visit: Visit, ghost batch: set<nat>)
      requires Safe(State()) && OnlyMine(State(), batch) && leg in batch && (WORKER, leg) in claims
      requires cargo[leg].kind == Return
      modifies this
      ensures Safe(State()) && |cargo| >= |old(cargo)| && (WORKER, leg) !in claims
      ensures Kept(old(State()), State(), batch - {leg}) && OnlyMine(State(), batch)
      ensures cargo[leg] == old(cargo)[leg].(status := if visit.broken then Processing else Done)
      ensures !visit.broken ==>
                forall v :: Committed(cargo, v) == Committed(old(cargo), v)
                              - if old(cargo)[leg].home == v then old(cargo)[leg].merchants else 0
    {
      if visit.broken {
        LetGo(leg, batch);
      } else {
        StepIsSafe(State(), Complete(WORKER, leg));
        claims := claims - {(WORKER, leg)};
        cargo := cargo[leg := cargo[leg].(status := Done)];
        forall v
          ensures Committed(cargo, v) == Committed(old(cargo), v)
                    - if old(cargo)[leg].home == v then old(cargo)[leg].merchants else 0
        {
          SumUpdate(old(cargo), leg, cargo[leg], CommittedTo(v));
        }
      }
    }

    /** One leg of the tick, by its kind. */
    method HandleLeg(leg: nat, visit: Visit, ghost batch: set<nat>) returns (credited: bool)
      requires Safe(State()) && OnlyMine(State(), batch) && leg in batch && (WORKER, leg) in claims
      requires cargo[leg].kind == Return || (cargo[leg].kind == Deliver && cargo[leg].target < |rows|)
      requires |visit.attempts| == ATTEMPTS
      requires forall k :: 0 <= k < ATTEMPTS ==> AllElsewhere(visit.attempts[k].rivals, batch)
      modifies this
      ensures Safe(State()) && OnlyMine(State(), batch) && (WORKER, leg) !in claims
      ensures Kept(old(State()), State(), batch - {leg})
      ensures Handled(old(cargo)[leg], cargo[leg], visit)
      ensures credited <==> cargo[leg].kind == Deliver && cargo[leg].status == Done
    {
      if cargo[leg].kind == Return {
        CompleteReturn(leg, visit, batch);
        credited := false;
      } else {
        var outcome := DeliverShipment(leg, visit, batch);
        credited := outcome == Credited;
      }
    }

    /** `process_due_trades`: deliver each claimed shipment, complete each claimed return, and collect
        the credited targets. Every return is completed unless its storage call fails; a shipment ends
        done, or back in transit after five conflicts, or, only if a storage call failed on it, left in
        `processing`. A village is reported exactly if a shipment of the batch was credited to it. */
    method ProcessDueTrades(due: seq<nat>, visits: seq<Visit>) returns (creditedTo: seq<nat>)
      requires Safe(State()) && OnlyMine(State(), Legs(due)) && |visits| == |due|
      requires forall i, j :: 0 <= i < j < |due| ==> due[i] != due[j]
      requires forall i :: 0 <= i < |due| ==>
                 (WORKER, due[i]) in claims && (cargo[due[i]].kind == Return || (cargo[due[i]].kind == Deliver && cargo[due[i]].target < |rows|))
      requires forall i :: 0 <= i < |visits| ==> |visits[i].attempts| == ATTEMPTS
      requires forall i, k :: 0 <= i < |visits| && 0 <= k < ATTEMPTS ==> AllElsewhere(visits[i].attempts[k].rivals, Legs(due))
      modifies this
      ensures Safe(State()) && |cargo| >= |old(cargo)|
      ensures forall i :: 0 <= i < |due| ==> (WORKER, due[i]) !in claims && Handled(old(cargo)[due[i]], cargo[due[i]], visits[i])
      ensures forall v :: v in creditedTo <==> CreditedAmong(cargo, due, v)
    {
      creditedTo := [];
      ghost var batch := Legs(due);
      var i := 0;
      while i < |due|
        invariant 0 <= i <= |due|
        invariant Safe(State()) && |rows| == |old(rows)| && |cargo| >= |old(cargo)| && OnlyMine(State(), batch)
        invariant forall j :: i <= j < |due| ==> cargo[due[j]] == old(cargo)[due[j]] && (WORKER, due[j]) in claims
        invariant forall j :: 0 <= j < i ==> (WORKER, due[j]) !in claims && Handled(old(cargo)[due[j]], cargo[due[j]], visits[j])
        invariant forall v :: v in creditedTo <==> CreditedAmong(cargo, due[..i], v)
      {
        var leg := due[i];
        ghost var before := State();
        var target := cargo[leg].target;
        var credited := HandleLeg(leg, visits[i], batch);
        if credited {
          creditedTo := creditedTo + [target];
        }
        forall j | 0 <= j < |due| && j != i
          ensures cargo[due[j]] == before.cargo[due[j]] && ((WORKER, due[j]) in claims <==> (WORKER, due[j]) in before.claims)
        {
          assert due[j] in batch - {leg};
        }
        CreditedAmongNext(before.cargo, cargo, due[..i], leg);
        assert due[..i + 1] == due[..i] + [leg];
        i := i + 1;
      }
      assert due[..|due|] == due;
    }
  }

  /** Some storage call failed on the leg, with anything but a conflict. */
  predicate Troubled(visit: Visit) {
    visit.broken || exists i :: 0 <= i < |visit.attempts| && visit.attempts[i].broken
  }

  /** How a visit may leave a leg. */
  predicate Handled(before: Cargo, after: Cargo, visit: Visit) {
    if before.kind == Return then after == before.(status := if visit.broken then Processing else Done)
    else
      || after == before.(status := Done, credits := 1)
      || (after == before.(status := InTransit, credits := 0) && !Troubled(visit))
      || (after == before.(status := Processing, credits := 0) && Troubled(visit))
  }

  /** Some shipment of `due` was delivered to `village`. */
  ghost predicate CreditedAmong(cargo: seq<Cargo>, due: seq<nat>, village: nat) {
    exists i :: 0 <= i < |due| && due[i] < |cargo| && cargo[due[i]].kind == Deliver && cargo[due[i]].status == Done
                && cargo[due[i]].target == village
  }

  lemma CreditedAmongNext(before: seq<Cargo>, after: seq<Cargo>, due: seq<nat>, leg: nat)
    requires |before| <= |after| && leg < |before|
    requires forall j :: 0 <= j < |due| ==> due[j] < |before| && after[due[j]] == before[due[j]]
    ensures forall v :: CreditedAmong(after, due + [leg], v)
                   <==> CreditedAmong(before, due, v)
                        || (after[leg].kind == Deliver && after[leg].status == Done && after[leg].target == v)
  {
    forall v
      ensures CreditedAmong(after, due + [leg], v)
         <==> CreditedAmong(before, due, v)
              || (after[leg].kind == Deliver && after[leg].status == Done && after[leg].target == v)
    {
      var all := due + [leg];
      if CreditedAmong(before, due, v) {
        var i :| 0 <= i < |due| && before[due[i]].kind == Deliver && before[due[i]].status == Done
                 && before[due[i]].target == v;
        assert all[i] == due[i];
      }
      if after[leg].kind == Deliver && after[leg].status == Done && after[leg].target == v {
        assert all[|due|] == leg;
      }
    }
  }
}
