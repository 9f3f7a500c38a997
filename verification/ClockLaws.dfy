/**
 The settle clock: production is never credited twice for the same time, and comparing settle
 instants is a sound guard exactly as long as every write moves the instant forward.
 */
module ClockLaws {
  import opened Economy
  import opened Options
  import opened Sums
  import opened Ledger
  import opened LedgerLaws
  import Training

  // ------------------------------------------------------------------ accrued time

  /** Per village: the whole seconds of production ever credited fit into the true time elapsed, and
      fall short of it by less than one second per write. */
  ghost predicate Accounted(w: World) {
    forall v :: 0 <= v < |w.rows| == |w.meters| ==>
      0 <= w.rows[v].at - w.meters[v].since - 1000 * w.meters[v].secs <= 999 * w.meters[v].writes
  }

  /** The order's clock is not behind the row it read. Every other write clamps its clock. */
  ghost predicate NotBackdated(w: World, op: Op, guard: Guard) {
    (op.Spend? || op.StartTrade?) && Applies(w, op, guard) ==> op.now >= Seen(w, op.sid).at
  }

  lemma ElapsedSecsIsFloor(from: int, to: int)
    requires from <= to
    ensures 0 <= to - from - 1000 * ElapsedSecs(from, to) <= 999
  {
  }

  /** A write that is not backdated credits the whole seconds since its snapshot, but for less than one. */
  lemma PlansCreditTheElapsedTime(w: World, op: Op, guard: Guard)
    requires Applies(w, op, guard) && NotBackdated(w, op, guard)
    ensures var plan, from := Planned(w, op).value, Seen(w, op.sid).at;
            from <= plan.clock && 0 <= plan.clock - from - 1000 * plan.secs <= 999
  {
    var plan, row := Planned(w, op).value, Seen(w, op.sid);
    if op.TrainSettle? {
      Training.CompletionsLoseUnderASecond(op.batch, op.batch.done, op.completed,
                                           Training.Tally(row.stored, row.at, op.upkeep), op.rules);
    } else {
      ElapsedSecsIsFloor(row.at, plan.clock);
    }
  }

  /** The row a write goes through to has the settle instant its session read, under either guard. */
  lemma GuardedInstantIsCurrent(w: World, op: Op, guard: Guard)
    requires Exact(w) && Applies(w, op, guard)
    ensures Seen(w, op.sid).at == RowNow(w, op.sid).at
  {
  }

  ghost predicate ClocksAdvance(w: World, w': World) {
    |w'.rows| == |w.rows| && forall v :: 0 <= v < |w.rows| ==> w.rows[v].at <= w'.rows[v].at
  }

  lemma StepCreditsNoTimeTwice(w: World, op: Op, guard: Guard)
    requires Sound(w)
    ensures ClocksAdvance(w, Step(w, op, guard)) <==> NotBackdated(w, op, guard)
    ensures Accounted(w) && NotBackdated(w, op, guard) ==> Accounted(Step(w, op, guard))
  {
    var w' := Step(w, op, guard);
    if Applies(w, op, guard) {
      var v := w.sessions[op.sid].village;
      GuardedInstantIsCurrent(w, op, guard);
      assert w'.rows[v].at == Planned(w, op).value.clock;
      if NotBackdated(w, op, guard) {
        PlansCreditTheElapsedTime(w, op, guard);
        if Accounted(w) { WriteStaysAccounted(w, op); }
      }
    } else if op.Reward? {
      if Accounted(w) { RewardStaysAccounted(w, op); }
    } else {
      assert w'.rows == w.rows && w'.meters == w.meters;
    }
  }

  lemma WriteStaysAccounted(w: World, op: Op)
    requires Sound(w) && Accounted(w) && Writes(op) && HasSnapshot(w, op.sid) && Planned(w, op).Some?
    requires Seen(w, op.sid).at == RowNow(w, op.sid).at
    requires var plan, from := Planned(w, op).value, Seen(w, op.sid).at;
             from <= plan.clock && 0 <= plan.clock - from - 1000 * plan.secs <= 999
    ensures Accounted(Commit(w, op.sid, Planned(w, op).value))
  {
    var v := w.sessions[op.sid].village;
    assert 0 <= w.rows[v].at - w.meters[v].since - 1000 * w.meters[v].secs <= 999 * w.meters[v].writes;
  }

  lemma RewardStaysAccounted(w: World, op: Op)
    requires Accounted(w) && op.Reward?
    ensures Accounted(DoReward(w, op.village, op.gain, op.caps))
  {
  }

  ghost predicate NeverBackdated(w: World, ops: seq<Op>, guard: Guard)
    decreases |ops|
  {
    |ops| > 0 ==> NotBackdated(w, ops[0], guard) && NeverBackdated(Step(w, ops[0], guard), ops[1..], guard)
  }

  /** No step of the run sets a village's settle clock back. */
  ghost predicate ClocksNeverStepBack(w: World, ops: seq<Op>, guard: Guard)
    decreases |ops|
  {
    |ops| > 0 ==>
      ClocksAdvance(w, Step(w, ops[0], guard)) && ClocksNeverStepBack(Step(w, ops[0], guard), ops[1..], guard)
  }

  /** Under either guard, over every run of orders, credits, loot and training settles: no settle clock
      ever steps back exactly if no order that went through was backdated; and then no instant is
      accrued twice: the seconds credited to a village never exceed the time that passed, and fall
      short of it by less than one second per write, however many completions a write settled through. */
  lemma {:induction false} NoInstantIsAccruedTwice(w: World, ops: seq<Op>, guard: Guard)
    requires Sound(w) && RequeuesAtStartup(w, ops, guard)
    ensures ClocksNeverStepBack(w, ops, guard) <==> NeverBackdated(w, ops, guard)
    ensures Accounted(w) && NeverBackdated(w, ops, guard) ==> Accounted(Run(w, ops, guard))
    decreases |ops|
  {
    if |ops| > 0 {
      StepIsSound(w, ops[0], guard);
      StepCreditsNoTimeTwice(w, ops[0], guard);
      NoInstantIsAccruedTwice(Step(w, ops[0], guard), ops[1..], guard);
    }
  }

  predicate IsOrder(op: Op) { op.Spend? || op.StartTrade? }

  /** Orders stamp the caller's clock unclamped. A village's clock steps back exactly when an order
      from a backdated clock goes through; and then an order that settles back to where the clock stood
      credits the stretch in between a second time. */
  lemma BackdatedOrderCreditsTimeTwice(w: World, first: Op, second: Op, guard: Guard)
    requires Sound(w) && IsOrder(first) && IsOrder(second) && first.sid == second.sid
    requires Applies(w, first, guard)
    requires second.now == RowNow(w, first.sid).at
    ensures var v := w.sessions[first.sid].village;
            var w1 := Step(w, first, guard);
            var reread := Step(w1, ReadRow(first.sid), guard);
            var w2 := Step(reread, second, guard);
            && (w1.rows[v].at < w.rows[v].at <==> first.now < w.rows[v].at)
            && (first.now < w.rows[v].at && Applies(reread, second, guard) ==>
                  && w2.rows[v].at == w.rows[v].at
                  && w2.meters[v].secs == w.meters[v].secs + ElapsedSecs(first.now, w.rows[v].at))
  {
    GuardedInstantIsCurrent(w, first, guard);
    OrderStamps(w, first, guard);
    var v := w.sessions[first.sid].village;
    var reread := Step(Step(w, first, guard), ReadRow(first.sid), guard);
    if first.now < w.rows[v].at && Applies(reread, second, guard) {
      assert ElapsedSecs(w.rows[v].at, first.now) == 0;
      OrderStamps(reread, second, guard);
    }
  }

  /** An order stamps the caller's clock and credits the time since its snapshot. */
  lemma OrderStamps(w: World, op: Op, guard: Guard)
    requires IsOrder(op) && Applies(w, op, guard)
    ensures var v, w' := w.sessions[op.sid].village, Step(w, op, guard);
            && |w'.rows| == |w.rows| == |w'.meters| == |w.meters| && w'.sessions == w.sessions
            && w'.rows[v].at == op.now
            && w'.meters[v].secs == w.meters[v].secs + ElapsedSecs(Seen(w, op.sid).at, op.now)
  {
  }

  // ------------------------------------------------------------------ comparing instants

  /** The settle instant identifies the version: no snapshot is from the future, and one whose
      instant is still current is of the current version. */
  ghost predicate StampIdentifies(w: World) {
    forall sid :: sid in w.sessions && HasSnapshot(w, sid) ==>
      && Seen(w, sid).at <= RowNow(w, sid).at
      && (Seen(w, sid).at == RowNow(w, sid).at ==> Version(w, sid) == CurrentVersion(w, sid))
  }

  /** The step would move the settle instant strictly forward: for a credit, the clamp is not taken; a
      reward never does. */
  ghost predicate Advances(w: World, op: Op) {
    && !op.Reward?
    && (Writes(op) && HasSnapshot(w, op.sid) && Planned(w, op).Some? ==> Planned(w, op).value.clock > Seen(w, op.sid).at)
  }

  lemma GuardsAgree(w: World, sid: nat)
    requires Exact(w) && StampIdentifies(w)
    ensures GuardPasses(w, sid, ByStamp) <==> GuardPasses(w, sid, ByVersion)
  {
  }

  lemma AdvancingWriteNeedsNoVersion(w: World, op: Op)
    requires Shaped(w) && Exact(w) && StampIdentifies(w) && Advances(w, op) && Writes(op)
    ensures StampIdentifies(Step(w, op, ByVersion))
  {
    var w' := Step(w, op, ByVersion);
    WriteBumpsVersion(w, op, ByVersion);
    if Applies(w, op, ByVersion) {
      assert RowNow(w', op.sid).at == Planned(w, op).value.clock;
      forall sid | sid in w'.sessions && HasSnapshot(w', sid) ensures HasSnapshot(w, sid) {}
    }
  }

  lemma ReadKeepsStamps(w: World, op: Op)
    requires Shaped(w) && StampIdentifies(w) && (op.Select? || op.ReadRow? || op.ReadCommitted?)
    ensures StampIdentifies(DoQuiet(w, op))
  {
    var w' := DoQuiet(w, op);
    forall sid | sid in w'.sessions && HasSnapshot(w', sid) && w'.sessions[sid].snap != Some(FreshSnapshot(w, w'.sessions[sid].village))
      ensures HasSnapshot(w, sid) && w'.sessions[sid].snap == w.sessions[sid].snap && w'.sessions[sid].village == w.sessions[sid].village
    {}
  }

  lemma QuietStepKeepsStamps(w: World, op: Op)
    requires Shaped(w) && StampIdentifies(w) && !Writes(op)
    ensures StampIdentifies(DoQuiet(w, op))
  {
    if op.Select? || op.ReadRow? || op.ReadCommitted? {
      ReadKeepsStamps(w, op);
    } else {
      var w' := DoQuiet(w, op);
      assert w'.sessions == w.sessions && w'.rows == w.rows && w'.meters == w.meters;
      forall sid | sid in w'.sessions && HasSnapshot(w', sid) ensures HasSnapshot(w, sid) {}
    }
  }

  lemma AdvancingStepNeedsNoVersion(w: World, op: Op)
    requires Shaped(w) && Exact(w) && StampIdentifies(w) && Advances(w, op)
    ensures Step(w, op, ByStamp) == Step(w, op, ByVersion)
    ensures StampIdentifies(Step(w, op, ByStamp))
  {
    if Writes(op) {
      GuardsAgree(w, op.sid);
      AdvancingWriteNeedsNoVersion(w, op);
    } else {
      QuietStepKeepsStamps(w, op);
    }
  }

  ghost predicate AlwaysAdvances(w: World, ops: seq<Op>)
    decreases |ops|
  {
    |ops| > 0 ==> Advances(w, ops[0]) && AlwaysAdvances(Step(w, ops[0], ByVersion), ops[1..])
  }

  /** Comparing settle instants implements the port's "still at that snapshot" on every run whose
      writes all move the instant forward; so every law of such runs carries over to the storage. */
  lemma {:induction false} StampGuardRefinesTheContract(w: World, ops: seq<Op>)
    requires Safe(w) && StampIdentifies(w) && AlwaysAdvances(w, ops) && RequeuesAtStartup(w, ops, ByVersion)
    ensures Run(w, ops, ByStamp) == Run(w, ops, ByVersion)
    ensures Safe(Run(w, ops, ByStamp))
    decreases |ops|
  {
    if |ops| > 0 {
      AdvancingStepNeedsNoVersion(w, ops[0]);
      StepIsSafe(w, ops[0]);
      StampGuardRefinesTheContract(Step(w, ops[0], ByVersion), ops[1..]);
    }
  }

  /** Two sessions that hold the current row of one village, each about to write it. */
  predicate BothReady(w: World, first: Op, second: Op) {
    && Writes(first) && Writes(second) && first.sid != second.sid
    && Applies(w, first, ByVersion) && GuardPasses(w, second.sid, ByVersion)
    && w.sessions[first.sid].village == w.sessions[second.sid].village
  }

  lemma SecondWriteAppliesIffNoTimePassed(w: World, first: Op, second: Op)
    requires Sound(w) && BothReady(w, first, second)
    ensures Applies(w, first, ByStamp)
    ensures var w1 := Step(w, first, ByStamp);
            var noTime := Planned(w, first).value.clock == RowNow(w, first.sid).at;
            Applies(w1, second, ByStamp) <==> Planned(w1, second).Some? && noTime
  {
    WriteBumpsVersion(w, first, ByStamp);
  }

  /** Two sessions hold the current row of one village, and both write it through the storage's guard.
      The second gets through exactly if the first stamped the very instant both had read (an order in
      that instant, or a credit, loot or training settle clamped to it). Then it puts back what the
      first changed: the books are off by exactly that change, whatever the two writes are. */
  lemma SecondWriteUndoesTheFirstIffNoTimePassed(w: World, first: Op, second: Op, kind: Kind)
    requires Sound(w) && BothReady(w, first, second)
    ensures var w1 := Step(w, first, ByStamp);
            var through := Planned(w1, second).Some? && Planned(w, first).value.clock == RowNow(w, first.sid).at;
            && HasSnapshot(w1, first.sid) && Applies(w1, second, ByStamp) == through
            && Surplus(Step(w1, second, ByStamp), kind) == Surplus(w, kind)
                 - if through then RowNow(w1, first.sid).stored.Of(kind) - RowNow(w, first.sid).stored.Of(kind) else 0
  {
    var w1 := Step(w, first, ByStamp);
    SecondWriteAppliesIffNoTimePassed(w, first, second);
    WriteBumpsVersion(w, first, ByStamp);
    StepMovesTheSurplus(w, first, ByStamp, kind);
    StepIsSound(w, first, ByStamp);
    StepMovesTheSurplus(w1, second, ByStamp, kind);
  }

  /** A reward given while a session holds the row does not keep its write out, since it does not move
      the instant; and when the session writes, the reward is gone. */
  lemma ARewardIsLostToTheNextWrite(w: World, reward: Op, second: Op, kind: Kind)
    requires Sound(w) && reward.Reward? && Writes(second) && GuardPasses(w, second.sid, ByVersion)
    requires reward.village == w.sessions[second.sid].village && Planned(w, second).Some?
    ensures var w1 := Step(w, reward, ByStamp);
            && Applies(w1, second, ByStamp)
            && Surplus(Step(w1, second, ByStamp), kind)
                 == Surplus(w, kind) - (RowNow(w1, second.sid).stored.Of(kind) - RowNow(w, second.sid).stored.Of(kind))
  {
    var w1 := Step(w, reward, ByStamp);
    StepIsSound(w, reward, ByStamp);
    StepMovesTheSurplus(w, reward, ByStamp, kind);
    assert w1.sessions == w.sessions && w1.cargo == w.cargo && w1.claims == w.claims && |w1.rows| == |w.rows|;
    PlansSurviveRewards(w, reward, second);
    StepMovesTheSurplus(w1, second, ByStamp, kind);
  }

  /** What a session plans comes from what it has read. */
  lemma PlansSurviveRewards(w: World, reward: Op, op: Op)
    requires Shaped(w) && reward.Reward? && Writes(op)
    ensures Planned(DoReward(w, reward.village, reward.gain, reward.caps), op).Some? <==> Planned(w, op).Some?
  {
  }

  /** What an order of the row's own instant leaves in the store. */
  lemma OrderInTheRowsInstant(w: World, op: Op)
    requires Sound(w) && op.Spend? && Applies(w, op, ByVersion) && op.now == RowNow(w, op.sid).at
    requires Within(RowNow(w, op.sid).stored, op.p.caps)
    ensures Planned(w, op).value.clock == op.now
    ensures Planned(w, op).value.after == RowNow(w, op.sid).stored.Minus(op.cost)
  {
    assert Seen(w, op.sid) == RowNow(w, op.sid);
    NoTimeSettlesNothing(Seen(w, op.sid).stored, op.p);
  }

  /** So two orders of the row's own instant pay once: the second brings the first one's price back. */
  lemma TwoOrdersInOneInstantPayOnce(w: World, first: Op, second: Op, kind: Kind)
    requires Sound(w) && BothReady(w, first, second) && first.Spend? && second.Spend?
    requires first.now == RowNow(w, first.sid).at && Within(RowNow(w, first.sid).stored, first.p.caps)
    requires Settled(w, second.sid, second.now, second.p).Covers(second.cost)
    ensures Surplus(Step(Step(w, first, ByStamp), second, ByStamp), kind) == Surplus(w, kind) + first.cost.Of(kind)
  {
    var w1 := Step(w, first, ByStamp);
    OrderInTheRowsInstant(w, first);
    SecondWriteAppliesIffNoTimePassed(w, first, second);
    SecondWriteUndoesTheFirstIffNoTimePassed(w, first, second, kind);
    assert Planned(w1, second) == Some(Payment(w, second.sid, second.now, second.p, second.cost, second.cost, w.cargo))
      by { assert w1.sessions == w.sessions && w1.cargo == w.cargo; }
    assert RowNow(w1, first.sid).stored == Planned(w, first).value.after;
  }

  /** A second shipment ordered from the same reads passes the storage's guard exactly when the first
      one was stamped with the very instant both had read; then both commit merchants although each
      was checked against the same free count. */
  lemma OrdersInOneInstantBothCommitMerchants(w: World, first: Op, second: Op)
    requires Sound(w) && first.StartTrade? && second.StartTrade? && first.sid != second.sid
    requires Applies(w, first, ByVersion) && Applies(w, second, ByVersion)
    requires w.sessions[first.sid].village == w.sessions[second.sid].village
    ensures var v := w.sessions[first.sid].village;
            var w2 := Step(Step(w, first, ByStamp), second, ByStamp);
            Committed(w2.cargo, v) == Committed(w.cargo, v)
              + MerchantsRequired(first.bundle.Total(), first.perMerchant)
              + if first.now == w.rows[v].at then MerchantsRequired(second.bundle.Total(), second.perMerchant) else 0
  {
    var v := w.sessions[first.sid].village;
    var w1 := Step(w, first, ByStamp);
    var w2 := Step(w1, second, ByStamp);
    assert Applies(w, first, ByStamp);
    SumAppend(w.cargo, w1.cargo[|w.cargo|], CommittedTo(v));
    assert MayTrade(w1, second.sid, second.target, second.now, second.p, second.bundle, second.perMerchant);
    if first.now == w.rows[v].at {
      assert Applies(w1, second, ByStamp);
      SumAppend(w1.cargo, w2.cargo[|w1.cargo|], CommittedTo(v));
    }
  }

  // ------------------------------------------------------------------ exactly once

  lemma RunUnrolls(w: World, op: Op, ops: seq<Op>, guard: Guard)
    ensures Run(w, [op] + ops, guard) == Run(Step(w, op, guard), ops, guard)
  {
    assert ([op] + ops)[1..] == ops;
  }

  /** A requeue while worker `one` still holds a leg, and worker `two` picks it up and delivers it. */
  function SecondDelivery(w: World, two: nat, leg: nat, p: Production, returnArrive: int): seq<Op>
    requires leg < |w.cargo|
  {
    var c := w.cargo[leg];
    [Requeue] + ([Claim(two, leg, c.arrive)] + ([Select(two, c.target)] + ([ReadRow(two)] + [DeliverLeg(two, leg, p, returnArrive)])))
  }

  /** The world in which the second worker is about to deliver. */
  function PickedUpAgain(w: World, two: nat, leg: nat): World
    requires leg < |w.cargo|
  {
    var c := w.cargo[leg];
    DoQuiet(DoQuiet(DoQuiet(DoQuiet(w, Requeue), Claim(two, leg, c.arrive)), Select(two, c.target)), ReadRow(two))
  }

  lemma PickingUpAgain(w: World, one: nat, two: nat, leg: nat)
    requires Shaped(w) && one != two && (one, leg) in w.claims && leg < |w.cargo| && w.cargo[leg].status == Processing
    requires w.cargo[leg].target < |w.rows| && one in w.sessions
    ensures var w' := PickedUpAgain(w, two, leg);
            && Shaped(w') && |w'.rows| == |w.rows| && leg < |w'.cargo| && w'.cargo[leg] == w.cargo[leg]
            && (one, leg) in w'.claims && (two, leg) in w'.claims
            && GuardPasses(w', two, ByVersion) && w'.sessions[two].village == w.cargo[leg].target
            && one in w'.sessions && w'.sessions[one] == w.sessions[one]
  {
  }

  lemma SecondDeliveryUnrolls(w: World, two: nat, leg: nat, p: Production, returnArrive: int)
    requires leg < |w.cargo|
    ensures Run(w, SecondDelivery(w, two, leg, p, returnArrive), ByVersion)
         == Step(PickedUpAgain(w, two, leg), DeliverLeg(two, leg, p, returnArrive), ByVersion)
  {
    var c, deliver := w.cargo[leg], DeliverLeg(two, leg, p, returnArrive);
    var w1 := Step(w, Requeue, ByVersion);
    var w2 := Step(w1, Claim(two, leg, c.arrive), ByVersion);
    var w3 := Step(w2, Select(two, c.target), ByVersion);
    var w4 := Step(w3, ReadRow(two), ByVersion);
    RunUnrolls(w, Requeue, [Claim(two, leg, c.arrive)] + ([Select(two, c.target)] + ([ReadRow(two)] + [deliver])), ByVersion);
    RunUnrolls(w1, Claim(two, leg, c.arrive), [Select(two, c.target)] + ([ReadRow(two)] + [deliver]), ByVersion);
    RunUnrolls(w2, Select(two, c.target), [ReadRow(two)] + [deliver], ByVersion);
    RunUnrolls(w3, ReadRow(two), [deliver], ByVersion);
    assert [deliver] == [deliver] + [];
    RunUnrolls(w4, deliver, [], ByVersion);
  }

  lemma SecondDeliveryCredits(w: World, one: nat, two: nat, leg: nat, p: Production, returnArrive: int)
    requires Sound(w) && one != two && (one, leg) in w.claims && w.cargo[leg].kind == Deliver
    requires w.cargo[leg].target < |w.rows|
    requires one in w.sessions && w.sessions[one].village == w.cargo[leg].target
    ensures var w' := Run(w, SecondDelivery(w, two, leg, p, returnArrive), ByVersion);
            && Shaped(w') && leg < |w'.cargo| && w'.cargo[leg].credits == 1 && (one, leg) in w'.claims
            && w'.cargo[leg].kind == Deliver && w'.cargo[leg].target == w.cargo[leg].target < |w'.rows|
            && one in w'.sessions && w'.sessions[one].village == w.cargo[leg].target
  {
    assert CargoSound(w.cargo[leg]);
    SecondDeliveryUnrolls(w, two, leg, p, returnArrive);
    PickingUpAgain(w, one, two, leg);
    assert Applies(PickedUpAgain(w, two, leg), DeliverLeg(two, leg, p, returnArrive), ByVersion);
  }

  /** Why the requeue belongs to startup: if it runs beside a worker that still holds a claim, a
      second worker claims and delivers the leg, and when the first one re-reads the target and
      delivers too, the bundle has been credited twice. */
  lemma RequeueBesideALiveWorkerCreditsTwice(w: World, one: nat, two: nat, leg: nat, p: Production, returnArrive: int)
    requires Sound(w) && one != two && (one, leg) in w.claims && w.cargo[leg].kind == Deliver
    requires w.cargo[leg].target < |w.rows|
    requires one in w.sessions && w.sessions[one].village == w.cargo[leg].target
    ensures var w' := Run(w, SecondDelivery(w, two, leg, p, returnArrive), ByVersion);
            var twice := Run(w', [ReadRow(one)] + [DeliverLeg(one, leg, p, returnArrive)], ByVersion);
            leg < |twice.cargo| && twice.cargo[leg].credits == 2
  {
    SecondDeliveryCredits(w, one, two, leg, p, returnArrive);
    var deliver := DeliverLeg(one, leg, p, returnArrive);
    var w' := Run(w, SecondDelivery(w, two, leg, p, returnArrive), ByVersion);
    var w1 := Step(w', ReadRow(one), ByVersion);
    RunUnrolls(w', ReadRow(one), [deliver], ByVersion);
    assert [deliver] == [deliver] + [];
    RunUnrolls(w1, deliver, [], ByVersion);
    assert Applies(w1, deliver, ByVersion);
  }
}
