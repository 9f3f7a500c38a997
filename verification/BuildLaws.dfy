/** What a village's buildings keep, over every run of orders, completions, razings and conquests. */
module BuildLaws {
  import Economy
  import opened Options
  import opened Builds

  // ------------------------------------------------------------------ invariants

  predicate IsActive(o: Order) { o.status != Done }

  function BuildingCap(r: Rules, kind: Kind): nat { if kind in r.maxLevel then r.maxLevel[kind] else 0 }

  function FieldCap(r: Rules): nat { Economy.Max(r.fieldMax, r.capitalFieldMax) }

  /** Each building fits its slot and its cap, and a unique kind stands once. */
  ghost predicate CentreSound(centre: map<nat, Building>, r: Rules) {
    && (forall slot :: slot in centre ==>
          FitsSlot(slot, centre[slot].kind) && centre[slot].level <= BuildingCap(r, centre[slot].kind))
    && (forall a, b :: a in centre && b in centre && a != b && centre[a].kind == centre[b].kind ==>
          !Unique(centre[a].kind))
    && !(Works(centre, Residence) && Works(centre, Palace))
  }

  /** The order, when it completes, will not overwrite another kind, duplicate a unique one, exceed the
      cap, or join a Residence to a Palace. */
  ghost predicate OrderSound(centre: map<nat, Building>, o: Order, r: Rules) {
    match o.target
    case Field(_) => o.level <= FieldCap(r)
    case Centre(slot, kind) =>
      && FitsSlot(slot, kind) && o.level <= BuildingCap(r, kind)
      && (slot in centre ==> centre[slot].kind == kind)
      && (o.level > 0 ==>
            && (Unique(kind) ==> forall t :: t in centre && t != slot ==> centre[t].kind != kind)
            && (Rival(kind).Some? ==> !Works(centre, Rival(kind).value)))
  }

  /** Two orders may both complete: they do not put two kinds in one slot, a unique kind in two slots,
      or a Residence beside a Palace. Fields never conflict. */
  predicate Compatible(o: Order, p: Order) {
    o.target.Centre? && p.target.Centre? ==>
      && (o.target.slot == p.target.slot ==> o.target.kind == p.target.kind)
      && (o.level > 0 && p.level > 0 ==>
            && (o.target.kind == p.target.kind && Unique(o.target.kind) ==> o.target.slot == p.target.slot)
            && Rival(o.target.kind) != Some(p.target.kind))
  }

  ghost predicate QueueSound(s: Site, r: Rules) {
    && (forall i :: 0 <= i < |s.orders| && IsActive(s.orders[i]) ==>
          s.orders[i].lane == LaneOf(s.roman, s.orders[i].target) && OrderSound(s.centre, s.orders[i], r))
    && (forall i, j :: 0 <= i < j < |s.orders| && IsActive(s.orders[i]) && IsActive(s.orders[j]) ==>
          Compatible(s.orders[i], s.orders[j]))
  }

  ghost predicate Safe(s: Site, r: Rules) {
    && CentreSound(s.centre, r) && QueueSound(s, r)
    && forall i :: 0 <= i < |s.fields| ==> s.fields[i] <= FieldCap(r)
  }

  /** No order being processed conflicts with the one that is accepted. */
  predicate FitsTheProcessed(s: Site, o: Order) {
    forall i :: 0 <= i < |s.orders| && s.orders[i].status == Processing ==> Compatible(s.orders[i], o)
  }

  /** The order a player's command adds, if it is accepted. */
  function Accepted(s: Site, r: Rules, op: Op): Option<Order> {
    var t := Step(s, r, op);
    if (op.Place? || op.Demolish?) && |t.orders| == |s.orders| + 1 then Some(t.orders[|s.orders|]) else None
  }

  /** An order is accepted only beside orders in processing that it does not conflict with. */
  predicate Calm(s: Site, r: Rules, op: Op) {
    Accepted(s, r, op).Some? ==> FitsTheProcessed(s, Accepted(s, r, op).value)
  }

  // ------------------------------------------------------------------ the steps

  lemma PlacedOrderIsSound(s: Site, r: Rules, target: Target, met: bool)
    requires Safe(s, r) && DoPlace(s, r, target, met).Ok?
    ensures OrderSound(s.centre, Order(target, CurrentLevel(s, target).value + 1, LaneOf(s.roman, target), Pending), r)
  {
  }

  lemma DemolitionOrderIsSound(s: Site, r: Rules, slot: nat)
    requires Safe(s, r) && DoDemolish(s, slot).Ok?
    ensures var b := s.centre[slot];
            OrderSound(s.centre, Order(Centre(slot, b.kind), if b.level == 0 then 0 else b.level - 1,
                                       LaneOf(s.roman, Centre(slot, b.kind)), Pending), r)
  {
    var b := s.centre[slot];
    if b.level > 0 && Rival(b.kind).Some? {
      assert Works(s.centre, b.kind);
    }
  }

  /** A lane that has room for one more pending order conflicts with no pending one: an order of another
      lane is on the other side of the fields. */
  lemma PendingOrdersFit(s: Site, r: Rules, o: Order, i: nat)
    requires Safe(s, r) && o.lane == LaneOf(s.roman, o.target) && !LaneTaken(s.orders, o.lane)
    requires i < |s.orders| && s.orders[i].status == Pending
    ensures Compatible(s.orders[i], o)
  {
    assert s.orders[i].lane != o.lane;
  }

  lemma EnqueueIsSafe(s: Site, r: Rules, target: Target, level: nat)
    requires Safe(s, r) && Enqueue(s, target, level).Ok?
    requires OrderSound(s.centre, Order(target, level, LaneOf(s.roman, target), Pending), r)
    ensures Safe(Enqueue(s, target, level).site, r)
       <==> FitsTheProcessed(s, Order(target, level, LaneOf(s.roman, target), Pending))
  {
    var t := Enqueue(s, target, level).site;
    var n, o := |s.orders|, Order(target, level, LaneOf(s.roman, target), Pending);
    if FitsTheProcessed(s, o) {
      forall i | 0 <= i < n && IsActive(s.orders[i]) ensures Compatible(t.orders[i], t.orders[n]) {
        if s.orders[i].status == Pending { PendingOrdersFit(s, r, o, i); }
      }
    }
    if Safe(t, r) {
      forall i | 0 <= i < n && s.orders[i].status == Processing ensures Compatible(s.orders[i], o) {
        assert Compatible(t.orders[i], t.orders[n]);
      }
    }
  }

  lemma PlaceIsSafe(s: Site, r: Rules, target: Target, met: bool)
    requires Safe(s, r)
    ensures Safe(Step(s, r, Place(target, met)), r) <==> Calm(s, r, Place(target, met))
  {
    if DoPlace(s, r, target, met).Ok? {
      PlacedOrderIsSound(s, r, target, met);
      EnqueueIsSafe(s, r, target, CurrentLevel(s, target).value + 1);
    }
  }

  /** A demolition conflicts with nothing: whatever is being processed in its slot is of the kind that
      stands there, and nothing in processing duplicates or rivals what stands. */
  lemma DemolitionsNeverConflict(s: Site, r: Rules, slot: nat)
    requires Safe(s, r)
    ensures Calm(s, r, Demolish(slot)) && Safe(Step(s, r, Demolish(slot)), r)
  {
    if DoDemolish(s, slot).Ok? {
      DemolitionOrderIsSound(s, r, slot);
      var b := s.centre[slot];
      var level := if b.level == 0 then 0 else b.level - 1;
      var o := Order(Centre(slot, b.kind), level, LaneOf(s.roman, Centre(slot, b.kind)), Pending);
      forall i | 0 <= i < |s.orders| && s.orders[i].status == Processing ensures Compatible(s.orders[i], o) {
        var p := s.orders[i];
        assert OrderSound(s.centre, p, r);
        if p.target.Centre? && p.level > 0 && o.level > 0 {
          assert Works(s.centre, b.kind);
        }
      }
      EnqueueIsSafe(s, r, Centre(slot, b.kind), level);
    }
  }

  lemma RaisedCentreIsSound(centre: map<nat, Building>, o: Order, r: Rules)
    requires CentreSound(centre, r) && OrderSound(centre, o, r) && o.target.Centre? && o.level > 0
    ensures CentreSound(centre[o.target.slot := Building(o.target.kind, o.level)], r)
  {
    var slot, kind := o.target.slot, o.target.kind;
    var after := centre[slot := Building(kind, o.level)];
    forall k: Kind | k != kind && Works(after, k) ensures Works(centre, k) {
      var t :| t in after && after[t].kind == k && after[t].level > 0;
      assert t != slot && centre[t].kind == k;
    }
  }

  lemma SmallerCentreIsSound(centre: map<nat, Building>, after: map<nat, Building>, r: Rules)
    requires CentreSound(centre, r) && after.Keys <= centre.Keys
    requires forall t :: t in after ==> after[t] == centre[t]
    ensures CentreSound(after, r)
    ensures forall k: Kind :: Works(after, k) ==> Works(centre, k)
  {
    forall k: Kind | Works(after, k) ensures Works(centre, k) {
      var t :| t in after && after[t].kind == k && after[t].level > 0;
      assert centre[t] == after[t];
    }
  }

  /** An order stays sound when a compatible one completes. */
  lemma CompletionKeepsOrders(s: Site, r: Rules, i: nat, o: Order)
    requires CentreSound(s.centre, r) && i < |s.orders| && OrderSound(s.centre, s.orders[i], r)
    requires OrderSound(s.centre, o, r) && Compatible(s.orders[i], o)
    ensures OrderSound(DoComplete(s, i).centre, o, r)
  {
    var p := s.orders[i];
    var after := DoComplete(s, i).centre;
    if p.target.Centre? && o.target.Centre? {
      if p.level > 0 {
        forall k: Kind | k != p.target.kind && Works(after, k) ensures Works(s.centre, k) {
          var t :| t in after && after[t].kind == k && after[t].level > 0;
          assert t != p.target.slot && s.centre[t].kind == k;
        }
      } else {
        SmallerCentreIsSound(s.centre, after, r);
      }
    }
  }

  lemma CompletedCentreIsSound(s: Site, r: Rules, i: nat)
    requires CentreSound(s.centre, r) && i < |s.orders| && OrderSound(s.centre, s.orders[i], r)
    ensures CentreSound(DoComplete(s, i).centre, r)
  {
    var o := s.orders[i];
    if o.target.Centre? {
      if o.level > 0 {
        RaisedCentreIsSound(s.centre, o, r);
      } else {
        SmallerCentreIsSound(s.centre, DoComplete(s, i).centre, r);
      }
    }
  }

  lemma CompleteIsSafe(s: Site, r: Rules, i: nat)
    requires Safe(s, r) && i < |s.orders| && s.orders[i].status == Processing
    ensures Safe(DoComplete(s, i), r)
  {
    var t := DoComplete(s, i);
    CompletedCentreIsSound(s, r, i);
    forall j | 0 <= j < |t.orders| && IsActive(t.orders[j])
      ensures t.orders[j].lane == LaneOf(t.roman, t.orders[j].target) && OrderSound(t.centre, t.orders[j], r)
    {
      assert j != i && t.orders[j] == s.orders[j];
      CompatibilityIsMutual(s.orders[i], s.orders[j]);
      assert if i < j then Compatible(s.orders[i], s.orders[j]) else Compatible(s.orders[j], s.orders[i]);
      CompletionKeepsOrders(s, r, i, s.orders[j]);
    }
  }

  lemma CompatibilityIsMutual(o: Order, p: Order)
    ensures Compatible(o, p) <==> Compatible(p, o)
  {
  }

  lemma StatusIsSafe(s: Site, r: Rules, i: nat)
    requires Safe(s, r) && i < |s.orders| && s.orders[i].status == Pending
    ensures Safe(WithStatus(s, i, Processing), r)
  {
  }

  lemma RequeueIsSafe(s: Site, r: Rules)
    requires Safe(s, r)
    ensures Safe(Step(s, r, Requeue), r)
  {
    var t := Step(s, r, Requeue);
    forall j | 0 <= j < |t.orders| && IsActive(t.orders[j])
      ensures t.orders[j].lane == LaneOf(t.roman, t.orders[j].target) && OrderSound(t.centre, t.orders[j], r)
    {
      assert t.orders[j].target == s.orders[j].target && t.orders[j].level == s.orders[j].level;
      assert IsActive(s.orders[j]) && OrderSound(s.centre, s.orders[j], r);
    }
  }

  lemma RazedCentreIsSound(centre: map<nat, Building>, kind: Kind, after: nat, r: Rules)
    requires CentreSound(centre, r)
    requires exists slot :: slot in centre && centre[slot].kind == kind && after < centre[slot].level
    ensures CentreSound(Razed(centre, kind, after), r)
    ensures forall k: Kind :: Works(Razed(centre, kind, after), k) ==> Works(centre, k)
  {
    var razed := Razed(centre, kind, after);
    forall k: Kind | Works(razed, k) ensures Works(centre, k) {
      var t :| t in razed && razed[t].kind == k && razed[t].level > 0;
      assert centre[t].kind == k;
    }
  }

  /** Orders stay sound when buildings only vanish or lose levels. */
  lemma OrdersOutliveLosses(centre: map<nat, Building>, after: map<nat, Building>, o: Order, r: Rules)
    requires OrderSound(centre, o, r) && after.Keys <= centre.Keys
    requires forall t :: t in after ==> after[t].kind == centre[t].kind
    requires forall k: Kind :: Works(after, k) ==> Works(centre, k)
    ensures OrderSound(after, o, r)
  {
  }

  lemma LossIsSafe(s: Site, r: Rules, after: map<nat, Building>, capital: bool)
    requires Safe(s, r) && after.Keys <= s.centre.Keys && CentreSound(after, r)
    requires forall t :: t in after ==> after[t].kind == s.centre[t].kind
    requires forall k: Kind :: Works(after, k) ==> Works(s.centre, k)
    ensures Safe(s.(centre := after, capital := capital), r)
  {
    forall j | 0 <= j < |s.orders| && IsActive(s.orders[j]) ensures OrderSound(after, s.orders[j], r) {
      OrdersOutliveLosses(s.centre, after, s.orders[j], r);
    }
  }

  lemma RazingIsSafe(s: Site, r: Rules, kind: Kind, after: nat)
    requires Safe(s, r)
    ensures Safe(Step(s, r, Raze(kind, after)), r)
  {
    if exists slot :: slot in s.centre && s.centre[slot].kind == kind && after < s.centre[slot].level {
      RazedCentreIsSound(s.centre, kind, after, r);
      LossIsSafe(s, r, Razed(s.centre, kind, after), s.capital);
    }
  }

  lemma StepIsSafe(s: Site, r: Rules, op: Op)
    requires Safe(s, r) && Calm(s, r, op)
    ensures Safe(Step(s, r, op), r)
  {
    match op
    case Place(target, met) => PlaceIsSafe(s, r, target, met);
    case Demolish(slot) => DemolitionsNeverConflict(s, r, slot);
    case Claim(i) => if i < |s.orders| && s.orders[i].status == Pending { StatusIsSafe(s, r, i); }
    case Complete(i) => if i < |s.orders| && s.orders[i].status == Processing { CompleteIsSafe(s, r, i); }
    case Requeue => RequeueIsSafe(s, r);
    case Raze(kind, after) => RazingIsSafe(s, r, kind, after);
    case PalaceElsewhere =>
      SmallerCentreIsSound(s.centre, WithoutKind(s.centre, Palace), r);
      LossIsSafe(s, r, WithoutKind(s.centre, Palace), false);
    case Conquered =>
  }

  ghost predicate CalmThroughout(s: Site, r: Rules, ops: seq<Op>)
    decreases |ops|
  {
    ops != [] ==> Calm(s, r, ops[0]) && CalmThroughout(Step(s, r, ops[0]), r, ops[1..])
  }

  /** Build-queue safety: if no order is accepted beside one in processing that it conflicts with, then
      over every run no village holds both a working Residence and a working Palace, a unique kind
      twice, a kind in a slot reserved for another, or a level above its cap, and no orders in the
      queue will make it so, in whatever order they complete. */
  lemma {:induction false} EveryRunIsSafe(s: Site, r: Rules, ops: seq<Op>)
    requires Safe(s, r) && CalmThroughout(s, r, ops)
    ensures Safe(Run(s, r, ops), r)
    decreases |ops|
  {
    if ops != [] {
      StepIsSafe(s, r, ops[0]);
      EveryRunIsSafe(Step(s, r, ops[0]), r, ops[1..]);
    }
  }

  // ------------------------------------------------------------------ what an order is for

  /** What stands here now; nothing counts as level zero. */
  function LevelAt(s: Site, target: Target): nat {
    match target
    case Field(i) => if i < |s.fields| then s.fields[i] else 0
    case Centre(slot, _) => if slot in s.centre then s.centre[slot].level else 0
  }

  /** The Main Building, the Rally Point and the Wall have slots of their own, which take nothing else. */
  predicate HasItsPlace(slot: nat, kind: Kind) {
    && slot < 22
    && (slot == 0 <==> kind == MainBuilding) && (slot == 1 <==> kind == RallyPoint) && (slot == 11 <==> kind == Wall)
  }

  /** There is room for the kind: it stands here already; or the slot is free, the kind may stand in it,
      and it stands nowhere else, stores and Crannies excepted. And a Residence has no Palace at work in
      the village, nor a Palace a Residence. */
  predicate HasRoom(centre: map<nat, Building>, slot: nat, kind: Kind) {
    && (slot in centre ==> centre[slot].kind == kind)
    && (slot !in centre ==> HasItsPlace(slot, kind) && (kind in {Warehouse, Granary, Cranny} || !Stands(centre, kind)))
    && (kind == Residence ==> !Works(centre, Palace))
    && (kind == Palace ==> !Works(centre, Residence))
  }

  function HighestAllowed(s: Site, r: Rules, target: Target): nat {
    if target.Centre? then BuildingCap(r, target.kind) else if s.capital then r.capitalFieldMax else r.fieldMax
  }

  /** When an order is to be accepted. */
  predicate MayBuild(s: Site, r: Rules, target: Target, met: bool) {
    && met && !LaneTaken(s.orders, LaneOf(s.roman, target))
    && (if target.Field? then target.index < |s.fields| else HasRoom(s.centre, target.slot, target.kind))
    && LevelAt(s, target) < HighestAllowed(s, r, target)
  }

  predicate MayDemolish(s: Site, slot: nat) {
    && slot in s.centre && s.centre[slot].kind !in {MainBuilding, Palace}
    && (exists main :: main in s.centre && s.centre[main].kind == MainBuilding && s.centre[main].level >= 10)
    && !LaneTaken(s.orders, LaneOf(s.roman, Centre(slot, s.centre[slot].kind)))
  }

  /** What a refusal of an order says is so. */
  predicate Explains(s: Site, r: Rules, target: Target, met: bool, e: Error) {
    match e
    case NotFound => target.Field? && target.index >= |s.fields|
    case Placement => target.Centre? && !HasRoom(s.centre, target.slot, target.kind)
    case MaxLevel => LevelAt(s, target) >= HighestAllowed(s, r, target)
    case PrereqUnmet => !met
    case Exclusive => target.Centre? && Rival(target.kind).Some? && Works(s.centre, Rival(target.kind).value)
    case AlreadyBuilding => LaneTaken(s.orders, LaneOf(s.roman, target))
    case _ => false
  }

  lemma RefusalsSayWhatIsSo(s: Site, r: Rules, target: Target, met: bool)
    requires DoPlace(s, r, target, met).Err?
    ensures Explains(s, r, target, met, DoPlace(s, r, target, met).error)
  {
  }

  lemma AcceptedIffAllowed(s: Site, r: Rules, target: Target, met: bool, slot: nat)
    ensures DoPlace(s, r, target, met).Ok? <==> MayBuild(s, r, target, met)
    ensures DoDemolish(s, slot).Ok? <==> MayDemolish(s, slot)
  {
  }

  lemma ThreeSteps(s: Site, r: Rules, ops: seq<Op>)
    requires |ops| == 3
    ensures Run(s, r, ops) == Step(Step(Step(s, r, ops[0]), r, ops[1]), r, ops[2])
  {
    assert ops[1..][0] == ops[1] && ops[1..][1..][0] == ops[2] && ops[1..][1..][1..] == [];
    var s1 := Step(s, r, ops[0]);
    var s2 := Step(s1, r, ops[1]);
    assert Run(s, r, ops) == Run(s1, r, ops[1..]);
    assert Run(s1, r, ops[1..]) == Run(s2, r, ops[1..][1..]);
    assert Run(s2, r, ops[1..][1..]) == Run(Step(s2, r, ops[2]), r, []);
  }

  /** A build that is accepted, and then completed, raises its target by one level and changes nothing
      else of the village but that a Palace makes it the capital. */
  lemma ABuildRaisesItsTargetByOne(s: Site, r: Rules, target: Target, met: bool)
    requires MayBuild(s, r, target, met)
    ensures var n := |s.orders|;
            var t := Run(s, r, [Place(target, met), Claim(n), Complete(n)]);
            && LevelAt(t, target) == LevelAt(s, target) + 1
            && (target.Centre? ==> t.fields == s.fields && t.centre - {target.slot} == s.centre - {target.slot}
                                   && target.slot in t.centre && t.centre[target.slot].kind == target.kind)
            && (target.Field? ==> t.centre == s.centre && t.fields == s.fields[target.index := t.fields[target.index]])
            && (t.capital <==> s.capital || (target.Centre? && target.kind == Palace))
            && |t.orders| == n + 1 && t.orders[..n] == s.orders && t.orders[n].status == Done
  {
    var n := |s.orders|;
    var ops := [Place(target, met), Claim(n), Complete(n)];
    AcceptedIffAllowed(s, r, target, met, 0);
    var placed := Step(s, r, ops[0]);
    assert placed.orders == s.orders + [Order(target, LevelAt(s, target) + 1, LaneOf(s.roman, target), Pending)];
    var claimed := Step(placed, r, ops[1]);
    assert claimed.orders[n] == placed.orders[n].(status := Processing);
    ThreeSteps(s, r, ops);
  }

  /** A demolition takes one level away, and what is left without a level is gone. */
  lemma ADemolitionTakesOneLevel(s: Site, r: Rules, slot: nat)
    requires MayDemolish(s, slot)
    ensures var n, was := |s.orders|, s.centre[slot];
            var t := Run(s, r, [Demolish(slot), Claim(n), Complete(n)]);
            && t.fields == s.fields && t.centre - {slot} == s.centre - {slot}
            && (was.level <= 1 <==> slot !in t.centre)
            && (was.level > 1 ==> t.centre[slot] == Building(was.kind, was.level - 1))
  {
    var n, was := |s.orders|, s.centre[slot];
    var ops := [Demolish(slot), Claim(n), Complete(n)];
    AcceptedIffAllowed(s, r, Centre(slot, was.kind), true, slot);
    var ordered := Step(s, r, ops[0]);
    var target := Centre(slot, was.kind);
    assert ordered.orders
        == s.orders + [Order(target, if was.level == 0 then 0 else was.level - 1, LaneOf(s.roman, target), Pending)];
    var claimed := Step(ordered, r, ops[1]);
    assert claimed.orders[n] == ordered.orders[n].(status := Processing);
    ThreeSteps(s, r, ops);
  }

  /** The step completes an order for the slot, and the slot is as that order asked. */
  predicate AsOrdered(s: Site, t: Site, op: Op, slot: nat) {
    && op.Complete? && op.order < |s.orders| && s.orders[op.order].status == Processing
    && var o := s.orders[op.order];
       && o.target.Centre? && o.target.slot == slot
       && (o.level == 0 <==> slot !in t.centre)
       && (slot in t.centre ==> t.centre[slot] == Building(o.target.kind, o.level))
  }

  predicate Catapulted(s: Site, t: Site, op: Op, slot: nat) {
    && op.Raze? && slot in s.centre && s.centre[slot].kind == op.kind
    && slot in t.centre && t.centre[slot] == Building(op.kind, op.after)
  }

  predicate Replaced(s: Site, t: Site, op: Op, slot: nat) {
    op.PalaceElsewhere? && slot in s.centre && s.centre[slot].kind == Palace && slot !in t.centre
  }

  predicate SameAt(s: Site, t: Site, slot: nat) {
    (slot in s.centre <==> slot in t.centre) && (slot in s.centre && slot in t.centre ==> s.centre[slot] == t.centre[slot])
  }

  /** What stands in a slot changes only when an order for it completes, as it was ordered; by catapults,
      to the level they leave; or with the Palace that a new one elsewhere replaces. */
  lemma BuildingsChangeOnlyByTheirOrders(s: Site, r: Rules, op: Op, slot: nat)
    ensures var t := Step(s, r, op);
            !SameAt(s, t, slot) ==> AsOrdered(s, t, op, slot) || Catapulted(s, t, op, slot) || Replaced(s, t, op, slot)
  {
  }

  lemma FieldsChangeOnlyByTheirOrders(s: Site, r: Rules, op: Op, i: nat)
    requires i < |s.fields|
    ensures var t := Step(s, r, op);
            && |t.fields| == |s.fields|
            && (t.fields[i] != s.fields[i] ==>
                  && op.Complete? && op.order < |s.orders| && s.orders[op.order].status == Processing
                  && s.orders[op.order].target == Field(i) && t.fields[i] == s.orders[op.order].level)
  {
  }

  // ------------------------------------------------------------------ how long the queue may be

  /** No two pending orders share a lane. */
  ghost predicate OnePerLane(s: Site) {
    && (forall i :: 0 <= i < |s.orders| && IsActive(s.orders[i]) ==>
          s.orders[i].lane == LaneOf(s.roman, s.orders[i].target))
    && (forall i, j :: 0 <= i < j < |s.orders| && s.orders[i].status == Pending && s.orders[j].status == Pending ==>
          s.orders[i].lane != s.orders[j].lane)
  }

  lemma EnqueueKeepsOnePerLane(s: Site, target: Target, level: nat)
    requires OnePerLane(s) && Enqueue(s, target, level).Ok?
    ensures OnePerLane(Enqueue(s, target, level).site)
  {
  }

  lemma StatusKeepsOnePerLane(s: Site, i: nat, status: Status)
    requires OnePerLane(s) && i < |s.orders| && IsActive(s.orders[i]) && status != Pending
    ensures OnePerLane(WithStatus(s, i, status))
  {
  }

  lemma StepKeepsOnePerLane(s: Site, r: Rules, op: Op)
    requires OnePerLane(s)
    ensures OnePerLane(Step(s, r, op))
  {
    var t := Step(s, r, op);
    if op.Place? && DoPlace(s, r, op.target, op.met).Ok? {
      EnqueueKeepsOnePerLane(s, op.target, CurrentLevel(s, op.target).value + 1);
    } else if op.Demolish? && DoDemolish(s, op.slot).Ok? {
      var b := s.centre[op.slot];
      EnqueueKeepsOnePerLane(s, Centre(op.slot, b.kind), if b.level == 0 then 0 else b.level - 1);
    } else if op.Claim? && op.order < |s.orders| && s.orders[op.order].status == Pending {
      StatusKeepsOnePerLane(s, op.order, Processing);
    } else if op.Complete? && op.order < |s.orders| && s.orders[op.order].status == Processing {
      StatusKeepsOnePerLane(s, op.order, Done);
      assert t.orders == WithStatus(s, op.order, Done).orders;
    } else if op.Requeue? && Requeueable(s.orders) {
      forall i, j | 0 <= i < j < |t.orders| && t.orders[i].status == Pending && t.orders[j].status == Pending
        ensures t.orders[i].lane != t.orders[j].lane
      {
        assert s.orders[i].status != Done && s.orders[j].status != Done;
      }
    }
  }

  /** Over every run at most one order is pending, or for Romans one for the fields and one for the
      buildings. */
  lemma {:induction false} OnlyRomansBuildTwoAtOnce(s: Site, r: Rules, ops: seq<Op>, i: nat, j: nat)
    requires OnePerLane(s)
    ensures var t := Run(s, r, ops);
            i < j < |t.orders| && t.orders[i].status == Pending && t.orders[j].status == Pending ==>
              s.roman && t.orders[i].target.Field? != t.orders[j].target.Field?
    decreases |ops|
  {
    if ops != [] {
      StepKeepsOnePerLane(s, r, ops[0]);
      OnlyRomansBuildTwoAtOnce(Step(s, r, ops[0]), r, ops[1..], i, j);
    }
  }

  // ------------------------------------------------------------------ where it fails

  /** Completing the order would replace or remove a building of another kind. */
  predicate Overwrites(s: Site, i: nat)
    requires i < |s.orders|
  {
    var target := s.orders[i].target;
    target.Centre? && target.slot in s.centre && s.centre[target.slot].kind != target.kind
  }

  /** Completing order `i` and then order `j` breaks a rule of the centre: one of them takes another
      kind's slot, or a unique kind then stands twice, a Residence beside a Palace, a kind where it does
      not fit. */
  ghost predicate Breaks(s: Site, r: Rules, i: nat, j: nat)
    requires i < |s.orders| && j < |s.orders|
  {
    || Overwrites(s, i) || Overwrites(DoComplete(s, i), j)
    || !CentreSound(DoComplete(DoComplete(s, i), j).centre, r)
  }

  lemma CompatibleOrdersBreakNothing(s: Site, r: Rules, i: nat, j: nat)
    requires CentreSound(s.centre, r) && i < |s.orders| && j < |s.orders| && i != j
    requires OrderSound(s.centre, s.orders[i], r) && OrderSound(s.centre, s.orders[j], r)
    requires Compatible(s.orders[i], s.orders[j])
    ensures !Breaks(s, r, i, j)
  {
    CompletedCentreIsSound(s, r, i);
    CompletionKeepsOrders(s, r, i, s.orders[j]);
    assert DoComplete(s, i).orders[j] == s.orders[j];
    CompletedCentreIsSound(DoComplete(s, i), r, j);
  }

  lemma ConflictingOrdersBreakARule(s: Site, r: Rules, i: nat, j: nat)
    requires i < |s.orders| && j < |s.orders| && i != j
    requires s.orders[j].level > 0 && !Compatible(s.orders[i], s.orders[j])
    ensures Breaks(s, r, i, j) || Breaks(s, r, j, i)
  {
    var o, p := s.orders[i], s.orders[j];
    if o.target.slot == p.target.slot {
      assert DoComplete(s, j).centre[p.target.slot].kind == p.target.kind;
      assert DoComplete(s, j).orders[i] == o;
      assert Overwrites(DoComplete(s, j), i);
    } else {
      var both := DoComplete(DoComplete(s, i), j).centre;
      assert both == s.centre[o.target.slot := Building(o.target.kind, o.level)][p.target.slot := Building(p.target.kind, p.level)];
      assert both[o.target.slot].kind == o.target.kind && both[p.target.slot].kind == p.target.kind;
      if o.target.kind != p.target.kind {
        assert Works(both, o.target.kind) && Works(both, p.target.kind);
      }
    }
  }

  /** An order accepted beside one in processing: completing both, in one order or the other, breaks a
      rule of the centre if and only if the two targets conflict. */
  lemma AcceptedOrderBreaksARuleIffItConflicts(s: Site, r: Rules, i: nat, target: Target, met: bool)
    requires Safe(s, r) && i < |s.orders| && s.orders[i].status == Processing && DoPlace(s, r, target, met).Ok?
    ensures var n, t := |s.orders|, Step(s, r, Place(target, met));
            && |t.orders| == n + 1 && t.orders[i] == s.orders[i] && t.orders[n].target == target
            && ((Breaks(t, r, i, n) || Breaks(t, r, n, i)) <==> !Compatible(t.orders[i], t.orders[n]))
  {
    var n, t := |s.orders|, Step(s, r, Place(target, met));
    PlacedOrderIsSound(s, r, target, met);
    CompatibilityIsMutual(t.orders[i], t.orders[n]);
    if Compatible(t.orders[i], t.orders[n]) {
      CompatibleOrdersBreakNothing(t, r, i, n);
      CompatibleOrdersBreakNothing(t, r, n, i);
    } else {
      ConflictingOrdersBreakARule(t, r, i, n);
    }
  }

  /** The index that keeps a lane to one order does not see an order being processed. So while a
      Residence is being completed on an empty slot, a Palace may be ordered on another, and the village
      ends up with both. */
  lemma ResidenceAndPalace(s: Site, r: Rules, i: nat, here: nat, there: nat, residence: nat)
    requires i < |s.orders| && s.orders[i] == Order(Centre(here, Residence), residence, LaneOf(s.roman, Centre(here, Residence)), Processing)
    requires residence > 0 && here != there
    requires CanPlace(s.centre, there, Palace) && !Works(s.centre, Residence)
    requires !LaneTaken(s.orders, LaneOf(s.roman, Centre(there, Palace)))
    requires Palace in r.maxLevel && r.maxLevel[Palace] > 0
    ensures var n := |s.orders|;
            var t := Run(s, r, [Place(Centre(there, Palace), true), Complete(i), Claim(n), Complete(n)]);
            Works(t.centre, Residence) && Works(t.centre, Palace)
  {
    var n := |s.orders|;
    var ops := [Place(Centre(there, Palace), true), Complete(i), Claim(n), Complete(n)];
    var s1 := Step(s, r, ops[0]);
    assert s1.orders == s.orders + [Order(Centre(there, Palace), 1, LaneOf(s.roman, Centre(there, Palace)), Pending)];
    var s2 := Step(s1, r, ops[1]);
    assert s2.centre == s.centre[here := Building(Residence, residence)] && s2.orders[n] == s1.orders[n];
    var s3 := Step(s2, r, ops[2]);
    var s4 := Step(s3, r, ops[3]);
    assert s4.centre == s.centre[here := Building(Residence, residence)][there := Building(Palace, 1)];
    assert s4.centre[here].kind == Residence && s4.centre[there].kind == Palace;
    FourSteps(s, r, ops);
  }

  lemma FourSteps(s: Site, r: Rules, ops: seq<Op>)
    requires |ops| == 4
    ensures Run(s, r, ops) == Step(Step(Step(Step(s, r, ops[0]), r, ops[1]), r, ops[2]), r, ops[3])
  {
    assert ops[1..][0] == ops[1] && ops[1..][1..][0] == ops[2] && ops[1..][1..][1..][0] == ops[3];
    assert ops[1..][1..][1..][1..] == [];
    var s1 := Step(s, r, ops[0]);
    var s2 := Step(s1, r, ops[1]);
    var s3 := Step(s2, r, ops[2]);
    assert Run(s, r, ops) == Run(s1, r, ops[1..]);
    assert Run(s1, r, ops[1..]) == Run(s2, r, ops[1..][1..]);
    assert Run(s2, r, ops[1..][1..]) == Run(s3, r, ops[1..][1..][1..]);
    assert Run(s3, r, ops[1..][1..][1..]) == Run(Step(s3, r, ops[3]), r, []);
  }

  /** And if the first order's worker dies, its order would be recovered at startup; but an order placed
      beside it meanwhile makes the requeue of all orders fail, and it stays stranded. */
  lemma AnOrderBesideAnOrphanStrandsIt(s: Site, r: Rules, i: nat, target: Target, met: bool)
    requires i < |s.orders| && s.orders[i].status == Processing && Requeueable(s.orders)
    requires s.orders[i].lane == LaneOf(s.roman, target) && DoPlace(s, r, target, met).Ok?
    ensures Step(s, r, Requeue).orders[i].status == Pending
    ensures Step(Step(s, r, Place(target, met)), r, Requeue).orders[i].status == Processing
  {
    var t := Step(s, r, Place(target, met));
    assert t.orders[i] == s.orders[i] && t.orders[|s.orders|].lane == s.orders[i].lane;
    assert !Requeueable(t.orders);
  }

  /** Catapults aimed at one building set every building of its kind to the same level: none of them is
      raised exactly if all stood at least that high. */
  lemma RazingRaisesNoneIffAllStoodHigher(centre: map<nat, Building>, kind: Kind, after: nat)
    ensures (forall slot :: slot in centre ==> Razed(centre, kind, after)[slot].level <= centre[slot].level)
       <==> (forall slot :: slot in centre && centre[slot].kind == kind ==> after <= centre[slot].level)
  {
    var razed := Razed(centre, kind, after);
    forall slot | slot in centre && centre[slot].kind == kind ensures razed[slot].level == after {
    }
  }
}
