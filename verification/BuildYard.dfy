/** The build use-cases as they run on one village's rows. */
module BuildYard {
  import opened Options
  import opened Builds
  import opened BuildLaws

  /** One pending order was added that takes one level off what stands in the slot; the queue is safe. */
  ghost predicate Ordered(s: Site, t: Site, r: Rules, slot: nat) {
    && t == s.(orders := t.orders) && |t.orders| == |s.orders| + 1 && t.orders[..|s.orders|] == s.orders
    && Safe(t, r) && slot in s.centre
    && var o := t.orders[|s.orders|];
       && o.target == Centre(slot, s.centre[slot].kind) && o.status == Pending
       && (if s.centre[slot].level == 0 then o.level == 0 else o.level + 1 == s.centre[slot].level)
  }

  lemma AcceptedDemolitionsAreOrdered(s: Site, r: Rules, slot: nat)
    requires Safe(s, r) && DoDemolish(s, slot).Ok?
    ensures Ordered(s, DoDemolish(s, slot).site, r, slot)
  {
    DemolitionsNeverConflict(s, r, slot);
  }

  /** One pending order of one level more was added. It would complete without breaking a rule of the
      centre or a cap if it completed now, and the queue stays safe exactly if it conflicts with no order
      in processing. */
  ghost predicate Placed(s: Site, t: Site, r: Rules, target: Target) {
    && t == s.(orders := t.orders) && |t.orders| == |s.orders| + 1 && t.orders[..|s.orders|] == s.orders
    && var o := t.orders[|s.orders|];
       && o.target == target && o.status == Pending && CurrentLevel(s, target) == Some(o.level - 1)
       && o.lane == LaneOf(s.roman, target) && !LaneTaken(s.orders, o.lane)
       && OrderSound(s.centre, o, r)
       && (Safe(t, r) <==> FitsTheProcessed(s, o))
  }

  lemma AcceptedOrdersArePlaced(s: Site, r: Rules, target: Target, met: bool)
    requires Safe(s, r) && DoPlace(s, r, target, met).Ok?
    ensures Placed(s, DoPlace(s, r, target, met).site, r, target)
  {
    PlacedOrderIsSound(s, r, target, met);
    EnqueueIsSafe(s, r, target, CurrentLevel(s, target).value + 1);
  }

  class Yard {
    const roman: bool
    const rules: Rules
    var fields: seq<nat>
    var centre: map<nat, Building>
    var capital: bool
    var orders: seq<Order>

    constructor (s: Site, r: Rules)
      ensures State() == s && rules == r
    {
      roman, rules, fields, centre, capital, orders := s.roman, r, s.fields, s.centre, s.capital, s.orders;
    }

    function State(): Site
      reads this
    {
      Site(roman, fields, centre, capital, orders)
    }

    method EnqueueOrder(target: Target, level: nat) returns (error: Option<Error>)
      modifies this`orders
      ensures match Enqueue(old(State()), target, level)
              case Ok(t) => error == None && State() == t
              case Err(e) => error == Some(e) && State() == old(State())
    {
      var lane := if !roman then AllTargets else if target.Field? then FieldLane else BuildingLane;
      for i := 0 to |orders|
        invariant orders == old(orders)
        invariant forall k :: 0 <= k < i ==> !(orders[k].status == Pending && orders[k].lane == lane)
      {
        if orders[i].status == Pending && orders[i].lane == lane {
          return Some(AlreadyBuilding);
        }
      }
      orders := orders + [Order(target, level, lane, Pending)];
      error := None;
    }

    /** `place_build_order`: accepted exactly if it may be; refused, nothing changes and what the error says
        is so. */
    method PlaceOrder(target: Target, met: bool) returns (error: Option<Error>)
      requires Safe(State(), rules)
      modifies this`orders
      ensures error == None <==> MayBuild(old(State()), rules, target, met)
      ensures error == None ==> Placed(old(State()), State(), rules, target)
      ensures error.Some? ==> orders == old(orders) && Explains(old(State()), rules, target, met, error.value)
    {
      ghost var before := State();
      AcceptedIffAllowed(before, rules, target, met, 0);
      if DoPlace(before, rules, target, met).Err? {
        RefusalsSayWhatIsSo(before, rules, target, met);
      } else {
        AcceptedOrdersArePlaced(before, rules, target, met);
      }
      var current := CurrentLevel(State(), target);
      if current.None? { return Some(NotFound); }
      if target.Centre? {
        if target.slot in centre {
          if centre[target.slot].kind != target.kind { return Some(Placement); }
        } else if !CanPlace(centre, target.slot, target.kind) {
          return Some(Placement);
        }
      }
      if current.value >= Cap(State(), rules, target) { return Some(MaxLevel); }
      if !met { return Some(PrereqUnmet); }
      if target.Centre? {
        var rival := Rival(target.kind);
        if rival.Some? && Works(centre, rival.value) { return Some(Exclusive); }
      }
      error := EnqueueOrder(target, current.value + 1);
    }

    /** `order_demolish`: accepted exactly if it may be, and then safe whatever is being processed; refused,
        nothing changes. */
    method DemolishOrder(slot: nat) returns (error: Option<Error>)
      requires Safe(State(), rules)
      modifies this`orders
      ensures error == None <==> MayDemolish(old(State()), slot)
      ensures error == None ==> Ordered(old(State()), State(), rules, slot)
      ensures error.Some? ==> orders == old(orders) && DoDemolish(old(State()), slot) == Err(error.value)
    {
      ghost var before := State();
      AcceptedIffAllowed(before, rules, Field(0), false, slot);
      if DoDemolish(before, slot).Ok? { AcceptedDemolitionsAreOrdered(before, rules, slot); }
      if slot !in centre || !Demolishable(centre[slot].kind) { return Some(NotDemolishable); }
      if !CanDemolishFrom(centre) { return Some(MainBuildingTooLow); }
      var b := centre[slot];
      error := EnqueueOrder(Centre(slot, b.kind), if b.level == 0 then 0 else b.level - 1);
    }

    /** `apply_build` on a claimed order: the site stays safe, the target stands at the ordered level (or
        is gone at level zero), the order is done, and nothing else of the village changes. */
    method ApplyBuild(i: nat)
      requires Safe(State(), rules) && i < |orders| && orders[i].status == Processing
      modifies this
      ensures Safe(State(), rules)
      ensures orders == old(orders)[i := old(orders)[i].(status := Done)]
      ensures var o := old(orders)[i];
              match o.target
              case Field(f) =>
                && centre == old(centre) && capital == old(capital)
                && (if f < |old(fields)| then fields == old(fields)[f := o.level] else fields == old(fields))
              case Centre(slot, kind) =>
                && fields == old(fields) && centre - {slot} == old(centre) - {slot}
                && (if o.level == 0 then slot !in centre else slot in centre && centre[slot] == Building(kind, o.level))
                && (capital <==> old(capital) || (kind == Palace && o.level > 0))
    {
      ghost var before := State();
      CompleteIsSafe(before, rules, i);
      var o := orders[i];
      match o.target {
        case Field(f) =>
          if f < |fields| {
            fields := fields[f := o.level];
          }
        case Centre(slot, kind) =>
          if o.level == 0 {
            centre := centre - {slot};
          } else {
            centre := centre[slot := Building(kind, o.level)];
            if kind == Palace {
              capital := true;
            }
          }
      }
      orders := orders[i := o.(status := Done)];
      assert State() == DoComplete(before, i);
    }
  }
}
