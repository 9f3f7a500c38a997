/** The build queue of one village: orders, lanes, placement, completion, and what else changes its buildings. */
module Builds {
  import opened Options

  datatype Kind =
    | MainBuilding | RallyPoint | Warehouse | Granary | Marketplace | Embassy | Barracks | Academy | Smithy | Stable
    | Workshop | Residence | Wall | Cranny | Outpost | TownHall | Palace | Treasury | Wonder

  datatype Building = Building(kind: Kind, level: nat)
  datatype Target = Field(index: nat) | Centre(slot: nat, kind: Kind)
  datatype Lane = AllTargets | FieldLane | BuildingLane
  datatype Status = Pending | Processing | Done
  datatype Order = Order(target: Target, level: nat, lane: Lane, status: Status)

  /** One village; its tribe never changes. The centre is keyed by slot. */
  datatype Site = Site(roman: bool, fields: seq<nat>, centre: map<nat, Building>, capital: bool, orders: seq<Order>)

  datatype Rules = Rules(maxLevel: map<Kind, nat>, fieldMax: nat, capitalFieldMax: nat)

  const SLOTS: nat := 22
  const DEMOLISH_MIN_MAIN_BUILDING: nat := 10

  datatype Error =
    | NotFound | Placement | MaxLevel | PrereqUnmet | Exclusive | AlreadyBuilding | NotDemolishable | MainBuildingTooLow

  // ------------------------------------------------------------------ the rules of placement

  function ReservedKind(slot: nat): Option<Kind> {
    if slot == 0 then Some(MainBuilding)
    else if slot == 1 then Some(RallyPoint)
    else if slot == 11 then Some(Wall)
    else None
  }

  function ReservedSlot(kind: Kind): Option<nat> {
    match kind
    case MainBuilding => Some(0)
    case RallyPoint => Some(1)
    case Wall => Some(11)
    case _ => None
  }

  predicate Unique(kind: Kind) { kind != Warehouse && kind != Granary && kind != Cranny }

  predicate Demolishable(kind: Kind) { kind != MainBuilding && kind != Palace }

  /** A building of the kind stands here, at whatever level. */
  predicate Stands(centre: map<nat, Building>, kind: Kind) {
    exists slot :: slot in centre && centre[slot].kind == kind
  }

  /** One stands at a level above zero; a razed building may stand at level zero. */
  predicate Works(centre: map<nat, Building>, kind: Kind) {
    exists slot :: slot in centre && centre[slot].kind == kind && centre[slot].level > 0
  }

  /** A Main Building high enough to demolish from. */
  predicate CanDemolishFrom(centre: map<nat, Building>) {
    exists slot :: slot in centre && centre[slot].kind == MainBuilding && centre[slot].level >= DEMOLISH_MIN_MAIN_BUILDING
  }

  predicate FitsSlot(slot: nat, kind: Kind) {
    && slot < SLOTS
    && (ReservedKind(slot).Some? ==> ReservedKind(slot).value == kind)
    && (ReservedSlot(kind).Some? ==> ReservedSlot(kind).value == slot)
  }

  predicate CanPlace(centre: map<nat, Building>, slot: nat, kind: Kind) {
    slot !in centre && FitsSlot(slot, kind) && (Unique(kind) ==> !Stands(centre, kind))
  }

  function Rival(kind: Kind): Option<Kind> {
    match kind
    case Residence => Some(Palace)
    case Palace => Some(Residence)
    case _ => None
  }

  /** The highest level the rules allow this target at this site. */
  function Cap(s: Site, r: Rules, target: Target): nat {
    match target
    case Field(_) => if s.capital then r.capitalFieldMax else r.fieldMax
    case Centre(_, kind) => if kind in r.maxLevel then r.maxLevel[kind] else 0
  }

  function LaneOf(roman: bool, target: Target): Lane {
    if !roman then AllTargets else if target.Field? then FieldLane else BuildingLane
  }

  function CurrentLevel(s: Site, target: Target): Option<nat> {
    match target
    case Field(i) => if i < |s.fields| then Some(s.fields[i]) else None
    case Centre(slot, _) => Some(if slot in s.centre then s.centre[slot].level else 0)
  }

  /** An order of this lane is pending: the storage's index allows no second one. It does not count an
      order that is being processed. */
  predicate LaneTaken(orders: seq<Order>, lane: Lane) {
    exists i :: 0 <= i < |orders| && orders[i].status == Pending && orders[i].lane == lane
  }

  // ------------------------------------------------------------------ the steps

  datatype Result = Ok(site: Site) | Err(error: Error)

  function Enqueue(s: Site, target: Target, level: nat): Result {
    var lane := LaneOf(s.roman, target);
    if LaneTaken(s.orders, lane) then Err(AlreadyBuilding)
    else Ok(s.(orders := s.orders + [Order(target, level, lane, Pending)]))
  }

  /** `place_build_order`; `met` says the prerequisites, the cost and the guarded debit were met. */
  function DoPlace(s: Site, r: Rules, target: Target, met: bool): Result {
    match CurrentLevel(s, target)
    case None => Err(NotFound)
    case Some(current) =>
      if target.Centre? && target.slot in s.centre && s.centre[target.slot].kind != target.kind then Err(Placement)
      else if target.Centre? && target.slot !in s.centre && !CanPlace(s.centre, target.slot, target.kind)
      then Err(Placement)
      else if current >= Cap(s, r, target) then Err(MaxLevel)
      else if !met then Err(PrereqUnmet)
      else if target.Centre? && Rival(target.kind).Some? && Works(s.centre, Rival(target.kind).value) then Err(Exclusive)
      else Enqueue(s, target, current + 1)
  }

  /** `order_demolish`: one level down. */
  function DoDemolish(s: Site, slot: nat): Result {
    if slot !in s.centre || !Demolishable(s.centre[slot].kind) then Err(NotDemolishable)
    else if !CanDemolishFrom(s.centre) then Err(MainBuildingTooLow)
    else
      var b := s.centre[slot];
      Enqueue(s, Centre(slot, b.kind), if b.level == 0 then 0 else b.level - 1)
  }

  function WithStatus(s: Site, i: nat, status: Status): Site
    requires i < |s.orders|
  {
    s.(orders := s.orders[i := s.orders[i].(status := status)])
  }

  /** `apply_build`: the ordered level is written, whatever stands there by now. */
  function DoComplete(s: Site, i: nat): Site
    requires i < |s.orders|
  {
    var o := s.orders[i];
    var done := WithStatus(s, i, Done);
    match o.target
    case Field(f) => if f < |s.fields| then done.(fields := s.fields[f := o.level]) else done
    case Centre(slot, kind) =>
      if o.level == 0 then done.(centre := s.centre - {slot})
      else done.(centre := s.centre[slot := Building(kind, o.level)], capital := s.capital || kind == Palace)
  }

  /** Catapults set the level of every building of the kind. */
  function Razed(centre: map<nat, Building>, kind: Kind, after: nat): map<nat, Building> {
    map slot | slot in centre :: if centre[slot].kind == kind then Building(kind, after) else centre[slot]
  }

  /** A new Palace elsewhere removes the one here. */
  function WithoutKind(centre: map<nat, Building>, kind: Kind): map<nat, Building> {
    map slot | slot in centre && centre[slot].kind != kind :: centre[slot]
  }

  datatype Op =
    | Place(target: Target, met: bool)
    | Demolish(slot: nat)
    | Claim(order: nat)
    | Complete(order: nat)
    | Requeue
    | Raze(kind: Kind, after: nat)
    | PalaceElsewhere
    | Conquered

  predicate Requeueable(orders: seq<Order>) {
    forall i, j :: 0 <= i < j < |orders| && orders[i].status != Done && orders[j].status != Done ==>
                     orders[i].lane != orders[j].lane
  }

  function Step(s: Site, r: Rules, op: Op): Site {
    match op
    case Place(target, met) => (match DoPlace(s, r, target, met) case Ok(t) => t case Err(_) => s)
    case Demolish(slot) => (match DoDemolish(s, slot) case Ok(t) => t case Err(_) => s)
    case Claim(i) => if i < |s.orders| && s.orders[i].status == Pending then WithStatus(s, i, Processing) else s
    case Complete(i) => if i < |s.orders| && s.orders[i].status == Processing then DoComplete(s, i) else s
    case Requeue =>
      // One statement for all: a lane that would hold two pending orders makes the whole requeue fail.
      if Requeueable(s.orders) then s.(orders := Requeued(s.orders)) else s
    case Raze(kind, after) =>
      if exists slot :: slot in s.centre && s.centre[slot].kind == kind && after < s.centre[slot].level
      then s.(centre := Razed(s.centre, kind, after))
      else s
    case PalaceElsewhere => s.(centre := WithoutKind(s.centre, Palace), capital := false)
    case Conquered => s.(orders := [], capital := false)
  }

  function Requeued(orders: seq<Order>): (r: seq<Order>)
    ensures |r| == |orders|
    ensures forall i :: 0 <= i < |r| ==>
              r[i] == orders[i].(status := if orders[i].status == Processing then Pending else orders[i].status)
  {
    seq(|orders|, i requires 0 <= i < |orders| =>
      orders[i].(status := if orders[i].status == Processing then Pending else orders[i].status))
  }

  function Run(s: Site, r: Rules, ops: seq<Op>): Site
    decreases |ops|
  {
    if ops == [] then s else Run(Step(s, r, ops[0]), r, ops[1..])
  }
}
