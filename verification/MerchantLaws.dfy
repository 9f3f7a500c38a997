/** Merchants are never overcommitted, although the committed count is read outside the guarded write. */
module MerchantLaws {
  import opened Economy
  import opened Options
  import opened Sums
  import opened Ledger
  import opened LedgerLaws

  ghost predicate Covered(w: World) {
    && |w.merchants| == |w.rows|
    && forall v :: 0 <= v < |w.merchants| ==> Committed(w.cargo, v) <= w.merchants[v] < U32_MAX
  }

  /** What a session read is still safe to act on: its total has not fallen, and as long as its
      snapshot is current no more merchants are committed than it counted. */
  ghost predicate CountsHold(w: World) {
    forall sid :: sid in w.sessions && w.sessions[sid].village < |w.merchants| ==>
      && w.sessions[sid].total <= w.merchants[w.sessions[sid].village]
      && (HasSnapshot(w, sid) && w.sessions[sid].committed.Some? && Version(w, sid) == CurrentVersion(w, sid) ==>
            Committed(w.cargo, w.sessions[sid].village) <= w.sessions[sid].committed.value)
  }

  ghost predicate LoadsFit(w: World) {
    forall i :: 0 <= i < |w.cargo| && w.cargo[i].kind == Deliver ==>
      w.cargo[i].bundle.Total() <= w.cargo[i].merchants * w.cargo[i].capacity
  }

  ghost predicate Staffed(w: World) {
    Sound(w) && Covered(w) && CountsHold(w) && LoadsFit(w)
  }

  /** The merchants a bundle needs carry it, if and only if the count did not saturate at 32 bits:
      the rounded-up quotient is what is asked for, and one merchant fewer would not do. */
  lemma RequiredMerchantsCarryTheLoad(total: int, perMerchant: nat)
    requires total > 0
    ensures var capacity := Max(perMerchant, 1);
            var n := MerchantsRequired(total, perMerchant);
            && (n < U32_MAX ==> total <= n * capacity && (n - 1) * capacity < total)
            && (total <= n * capacity <==> (total + capacity - 1) / capacity <= U32_MAX)
  {
    var capacity := Max(perMerchant, 1);
    var q := (total + capacity - 1) / capacity;
    QuotientBounds(total + capacity - 1, capacity);
    assert (q - 1) * capacity == q * capacity - capacity;
    if q > U32_MAX {
      assert U32_MAX * capacity <= (q - 1) * capacity by { TimesMonotone(U32_MAX, q - 1, capacity); }
    }
  }

  lemma QuotientBounds(a: int, b: int)
    requires b > 0
    ensures (a / b) * b <= a < (a / b) * b + b
  {
    assert a == b * (a / b) + a % b;
  }

  lemma TimesMonotone(a: int, b: int, c: nat)
    requires a <= b
    ensures a * c <= b * c
  {
    assert (b - a) * c >= 0;
  }

  // ------------------------------------------------------------------ how steps move the count

  /** Delivering a shipment hands its merchants over to the empty return leg: the committed count of
      every village stays what it was. */
  lemma DeliveryKeepsMerchantsCommitted(w: World, op: Op, guard: Guard, v: nat)
    requires ClaimsAreProcessing(w) && op.DeliverLeg?
    ensures Committed(Step(w, op, guard).cargo, v) == Committed(w.cargo, v)
  {
    if Applies(w, op, guard) {
      var c := w.cargo[op.leg];
      var done := w.cargo[op.leg := c.(status := Done, credits := c.credits + 1)];
      SumUpdate(w.cargo, op.leg, done[op.leg], CommittedTo(v));
      SumAppend(done, ReturnLegOf(c, op.returnArrive), CommittedTo(v));
    }
  }

  /** The merchants a step newly commits. */
  function Hired(w: World, op: Op, guard: Guard, v: nat): nat {
    if op.StartTrade? && Applies(w, op, guard) && w.sessions[op.sid].village == v
    then MerchantsRequired(op.bundle.Total(), op.perMerchant) else 0
  }

  /** The merchants a step brings home. */
  function Freed(w: World, op: Op, v: nat): nat {
    if op.Complete? && (op.sid, op.leg) in w.claims && op.leg < |w.cargo| && w.cargo[op.leg].kind == Return
       && w.cargo[op.leg].home == v
    then w.cargo[op.leg].merchants else 0
  }

  lemma WriteMovesCommitted(w: World, op: Op, guard: Guard, v: nat)
    requires ClaimsAreProcessing(w) && Writes(op)
    ensures Committed(Step(w, op, guard).cargo, v) == Committed(w.cargo, v) + Hired(w, op, guard, v)
  {
    if Applies(w, op, guard) {
      var w' := Step(w, op, guard);
      match op
      case StartTrade(_, _, _, _, _, _, _) => SumAppend(w.cargo, w'.cargo[|w.cargo|], CommittedTo(v));
      case TakeLoot(_, _, _, _, _, _) => SumAppend(w.cargo, w'.cargo[|w.cargo|], CommittedTo(v));
      case DeliverLeg(_, _, _, _) => DeliveryKeepsMerchantsCommitted(w, op, guard, v);
      case CreditHaul(_, leg, _, _) =>
        var c := w.cargo[leg];
        var done := w.cargo[leg := c.(status := Done, credits := c.credits + 1)];
        SumUpdate(w.cargo, leg, done[leg], CommittedTo(v));
        assert done + [] == done;
      case _ =>
    }
  }

  lemma QuietMovesCommitted(w: World, op: Op, v: nat)
    requires ClaimsAreProcessing(w) && !Writes(op)
    ensures Committed(DoQuiet(w, op).cargo, v) == Committed(w.cargo, v) - Freed(w, op, v)
  {
    var w' := DoQuiet(w, op);
    match op
    case Claim(_, leg, _) => if w' != w { SumUpdate(w.cargo, leg, w'.cargo[leg], CommittedTo(v)); }
    case Release(_, leg) => if w' != w { SumUpdate(w.cargo, leg, w'.cargo[leg], CommittedTo(v)); }
    case Complete(_, leg) => if w' != w { SumUpdate(w.cargo, leg, w'.cargo[leg], CommittedTo(v)); }
    case Forfeit(_) => SumSame(w.cargo, w'.cargo, CommittedTo(v));
    case Requeue => SumSame(w.cargo, w'.cargo, CommittedTo(v));
    case _ =>
  }

  /** Only an order commits merchants, and only a completed return frees them. */
  lemma StepMovesCommitted(w: World, op: Op, guard: Guard, v: nat)
    requires ClaimsAreProcessing(w)
    ensures Committed(Step(w, op, guard).cargo, v) == Committed(w.cargo, v) + Hired(w, op, guard, v) - Freed(w, op, v)
  {
    if Writes(op) {
      WriteMovesCommitted(w, op, guard, v);
    } else if !op.Reward? {
      QuietMovesCommitted(w, op, v);
    }
  }

  // ------------------------------------------------------------------ when merchants are overcommitted

  /** Merchants committed since the session counted them. */
  function TakenSince(w: World, sid: nat): int
    requires HasSnapshot(w, sid) && w.sessions[sid].committed.Some?
  {
    Committed(w.cargo, w.sessions[sid].village) - w.sessions[sid].committed.value
  }

  /** The merchants an order leaves idle, by the count it read and the total of today. */
  function LeftIdle(w: World, op: Op): int
    requires op.StartTrade? && HasSnapshot(w, op.sid) && w.sessions[op.sid].committed.Some?
    requires w.sessions[op.sid].village < |w.merchants|
  {
    w.merchants[w.sessions[op.sid].village] - w.sessions[op.sid].committed.value
      - MerchantsRequired(op.bundle.Total(), op.perMerchant)
  }

  /** An order that goes through finds no more merchants taken since its count than it leaves idle. */
  predicate LeavesEnough(w: World, op: Op, guard: Guard)
    requires |w.merchants| == |w.rows|
  {
    op.StartTrade? && Applies(w, op, guard) ==> TakenSince(w, op.sid) <= LeftIdle(w, op)
  }

  ghost predicate AllLeaveEnough(w: World, ops: seq<Op>, guard: Guard)
    decreases |ops|
  {
    |ops| > 0 ==>
      |w.merchants| == |w.rows| && LeavesEnough(w, ops[0], guard) && AllLeaveEnough(Step(w, ops[0], guard), ops[1..], guard)
  }

  ghost predicate CoveredThroughout(w: World, ops: seq<Op>, guard: Guard)
    decreases |ops|
  {
    Covered(w) && (|ops| > 0 ==> CoveredThroughout(Step(w, ops[0], guard), ops[1..], guard))
  }

  /** Marketplace totals only rise, and writes leave them alone. */
  lemma StepMovesTotals(w: World, op: Op, guard: Guard)
    requires Shaped(w)
    ensures var w' := Step(w, op, guard);
            && |w'.merchants| == |w.merchants| == |w'.rows| && (Writes(op) ==> w'.merchants == w.merchants)
            && forall v :: 0 <= v < |w.merchants| ==>
                 w.merchants[v] <= w'.merchants[v] && (w.merchants[v] < U32_MAX ==> w'.merchants[v] < U32_MAX)
  {
    if Writes(op) { WriteBumpsVersion(w, op, guard); }
  }

  lemma StepCoversIffEnoughIsLeft(w: World, op: Op, guard: Guard)
    requires Sound(w) && Covered(w)
    ensures Covered(Step(w, op, guard)) <==> LeavesEnough(w, op, guard)
  {
    var w' := Step(w, op, guard);
    StepMovesTotals(w, op, guard);
    forall v ensures Committed(w'.cargo, v) == Committed(w.cargo, v) + Hired(w, op, guard, v) - Freed(w, op, v) {
      StepMovesCommitted(w, op, guard, v);
    }
    CoversIffEnoughIsLeft(w, w', op, guard);
  }

  lemma CoversIffEnoughIsLeft(w: World, w': World, op: Op, guard: Guard)
    requires Shaped(w) && Covered(w)
    requires |w'.merchants| == |w.merchants| == |w'.rows| && (Writes(op) ==> w'.merchants == w.merchants)
    requires forall v :: 0 <= v < |w.merchants| ==>
               w.merchants[v] <= w'.merchants[v] && (w.merchants[v] < U32_MAX ==> w'.merchants[v] < U32_MAX)
    requires forall v :: Committed(w'.cargo, v) == Committed(w.cargo, v) + Hired(w, op, guard, v) - Freed(w, op, v)
    ensures Covered(w') <==> LeavesEnough(w, op, guard)
  {
    if op.StartTrade? && Applies(w, op, guard) {
      var v := w.sessions[op.sid].village;
      assert Committed(w'.cargo, v) == Committed(w.cargo, v) + MerchantsRequired(op.bundle.Total(), op.perMerchant);
    }
    if LeavesEnough(w, op, guard) {
      forall v | 0 <= v < |w'.merchants| ensures Committed(w'.cargo, v) <= w'.merchants[v] < U32_MAX {
        assert Committed(w.cargo, v) <= w.merchants[v] < U32_MAX;
      }
    }
  }

  /** Whatever lets orders through, the merchants on the road stay within every village's total all
      along a run exactly if each order that went through found no more of them taken since its count
      than it leaves idle. */
  lemma {:induction false} MerchantsSufficeIffOrdersLeaveEnough(w: World, ops: seq<Op>, guard: Guard)
    requires Sound(w) && Covered(w) && RequeuesAtStartup(w, ops, guard)
    ensures CoveredThroughout(w, ops, guard) <==> AllLeaveEnough(w, ops, guard)
    decreases |ops|
  {
    if |ops| > 0 {
      StepIsSound(w, ops[0], guard);
      StepCoversIffEnoughIsLeft(w, ops[0], guard);
      if LeavesEnough(w, ops[0], guard) {
        MerchantsSufficeIffOrdersLeaveEnough(Step(w, ops[0], guard), ops[1..], guard);
      }
    }
  }

  // ------------------------------------------------------------------ counts stay good while snapshots do

  lemma WriteKeepsCounts(w: World, op: Op, guard: Guard)
    requires Sound(w) && CountsHold(w) && Writes(op)
    ensures CountsHold(Step(w, op, guard))
  {
    var w' := Step(w, op, guard);
    WriteBumpsVersion(w, op, guard);
    if Applies(w, op, guard) {
      forall sid | sid in w'.sessions && w'.sessions[sid].village < |w'.merchants|
        && HasSnapshot(w', sid) && w'.sessions[sid].committed.Some? && Version(w', sid) == CurrentVersion(w', sid)
        ensures Committed(w'.cargo, w'.sessions[sid].village) <= w'.sessions[sid].committed.value
      {
        assert HasSnapshot(w, sid);
        StepMovesCommitted(w, op, guard, w.sessions[sid].village);
      }
    }
  }

  /** Reads: nothing moves but one session. */
  lemma ReadKeepsCounts(w: World, op: Op)
    requires Sound(w) && Covered(w) && CountsHold(w) && (op.Select? || op.ReadRow? || op.ReadCommitted?)
    ensures CountsHold(DoQuiet(w, op))
  {
    var w' := DoQuiet(w, op);
    if w' != w {
      var v := w'.sessions[op.sid].village;
      assert Committed(w.cargo, v) <= w.merchants[v] < U32_MAX;
      forall sid | sid in w'.sessions && sid != op.sid && HasSnapshot(w', sid) ensures HasSnapshot(w, sid) {}
    }
  }

  /** Claims, releases, completions, forfeits, crashes, requeues and new Marketplace levels: no session
      moves. */
  lemma QuietKeepsCounts(w: World, op: Op)
    requires Sound(w) && CountsHold(w) && !Writes(op) && !(op.Select? || op.ReadRow? || op.ReadCommitted?)
    ensures CountsHold(DoQuiet(w, op))
  {
    var w' := DoQuiet(w, op);
    assert w'.sessions == w.sessions && w'.meters == w.meters && w'.rows == w.rows;
    forall sid | sid in w'.sessions && w'.sessions[sid].village < |w'.merchants|
      && HasSnapshot(w', sid) && w'.sessions[sid].committed.Some? && Version(w', sid) == CurrentVersion(w', sid)
      ensures Committed(w'.cargo, w'.sessions[sid].village) <= w'.sessions[sid].committed.value
    {
      assert HasSnapshot(w, sid);
      QuietMovesCommitted(w, op, w.sessions[sid].village);
    }
  }

  lemma RewardKeepsCounts(w: World, op: Op)
    requires Sound(w) && CountsHold(w) && op.Reward?
    ensures CountsHold(DoReward(w, op.village, op.gain, op.caps))
  {
    var w' := DoReward(w, op.village, op.gain, op.caps);
    forall sid | sid in w'.sessions && HasSnapshot(w', sid) ensures HasSnapshot(w, sid) {}
  }

  lemma StepKeepsCounts(w: World, op: Op, guard: Guard)
    requires Sound(w) && Covered(w) && CountsHold(w)
    ensures CountsHold(Step(w, op, guard))
  {
    if Writes(op) {
      WriteKeepsCounts(w, op, guard);
    } else if op.Reward? {
      RewardKeepsCounts(w, op);
    } else if op.Select? || op.ReadRow? || op.ReadCommitted? {
      ReadKeepsCounts(w, op);
    } else {
      QuietKeepsCounts(w, op);
    }
  }

  predicate SameLoad(c: Cargo, d: Cargo) {
    c.kind == d.kind && c.bundle == d.bundle && c.merchants == d.merchants && c.capacity == d.capacity
  }

  lemma WriteKeepsLoads(w: World, op: Op, guard: Guard)
    requires ClaimsAreProcessing(w) && Writes(op)
    ensures var cargo := Step(w, op, guard).cargo;
            && |w.cargo| <= |cargo| <= |w.cargo| + 1
            && (forall i :: 0 <= i < |w.cargo| ==> SameLoad(w.cargo[i], cargo[i]))
            && (|w.cargo| < |cargo| && cargo[|w.cargo|].kind == Deliver ==> op.StartTrade? && Applies(w, op, guard))
  {
  }

  lemma QuietKeepsLoads(w: World, op: Op)
    requires !Writes(op)
    ensures var cargo := DoQuiet(w, op).cargo;
            |w.cargo| == |cargo| && forall i :: 0 <= i < |w.cargo| ==> SameLoad(w.cargo[i], cargo[i])
  {
  }

  lemma NewLoadFits(w: World, op: Op, guard: Guard)
    requires Covered(w) && CountsHold(w) && Shaped(w) && op.StartTrade? && Applies(w, op, guard)
    ensures var cargo := Step(w, op, guard).cargo;
            |cargo| == |w.cargo| + 1 && var c := cargo[|w.cargo|]; c.bundle.Total() <= c.merchants * c.capacity
  {
    RequiredMerchantsCarryTheLoad(op.bundle.Total(), op.perMerchant);
    assert w.sessions[op.sid].total <= w.merchants[w.sessions[op.sid].village] < U32_MAX;
  }

  lemma StepKeepsLoadsFit(w: World, op: Op, guard: Guard)
    requires Staffed(w)
    ensures LoadsFit(Step(w, op, guard))
  {
    var cargo := Step(w, op, guard).cargo;
    if Writes(op) { WriteKeepsLoads(w, op, guard); } else if !op.Reward? { QuietKeepsLoads(w, op); }
    forall i | 0 <= i < |cargo| && cargo[i].kind == Deliver
      ensures cargo[i].bundle.Total() <= cargo[i].merchants * cargo[i].capacity
    {
      if i == |w.cargo| {
        NewLoadFits(w, op, guard);
      } else {
        assert SameLoad(w.cargo[i], cargo[i]);
      }
    }
  }

  /** An order whose snapshot is of the current version leaves enough: the count it read after the row
      still stands. */
  lemma CurrentOrdersLeaveEnough(w: World, op: Op, guard: Guard)
    requires Staffed(w) && (op.StartTrade? && HasSnapshot(w, op.sid) ==> Version(w, op.sid) == CurrentVersion(w, op.sid))
    ensures LeavesEnough(w, op, guard)
  {
  }

  /** Under the guard the port promises, in every reachable state the merchants a village has on the
      road are at most its total, and every shipment fits its merchants, provided Marketplace totals
      never fall. */
  lemma {:induction false} MerchantsAreNeverOvercommitted(w: World, ops: seq<Op>)
    requires Staffed(w) && RequeuesAtStartup(w, ops, ByVersion)
    ensures Staffed(Run(w, ops, ByVersion))
    decreases |ops|
  {
    if |ops| > 0 {
      var next := Step(w, ops[0], ByVersion);
      StepIsSound(w, ops[0], ByVersion);
      if Applies(w, ops[0], ByVersion) { CurrentOrdersLeaveEnough(w, ops[0], ByVersion); }
      StepCoversIffEnoughIsLeft(w, ops[0], ByVersion);
      StepKeepsCounts(w, ops[0], ByVersion);
      StepKeepsLoadsFit(w, ops[0], ByVersion);
      MerchantsAreNeverOvercommitted(next, ops[1..]);
    }
  }
}
