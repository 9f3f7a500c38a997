/**
 Lazy production: stored amounts plus elapsed time, settled on read. Integer arithmetic as the
 server does it: 64-bit saturation, and division that truncates toward zero.
 */
module Economy {

  datatype Kind = Wood | Clay | Iron | Crop

  datatype Amounts = Amounts(wood: int, clay: int, iron: int, crop: int) {
    function Of(kind: Kind): int {
      match kind
      case Wood => wood
      case Clay => clay
      case Iron => iron
      case Crop => crop
    }

    function Total(): int { wood + clay + iron + crop }

    predicate Covers(other: Amounts) {
      wood >= other.wood && clay >= other.clay && iron >= other.iron && crop >= other.crop
    }

    function Plus(other: Amounts): Amounts {
      Amounts(wood + other.wood, clay + other.clay, iron + other.iron, crop + other.crop)
    }

    function Minus(other: Amounts): Amounts {
      Amounts(wood - other.wood, clay - other.clay, iron - other.iron, crop - other.crop)
    }
  }

  const NOTHING := Amounts(0, 0, 0, 0)

  /** Hourly rates; `cropNet` is net of population and troop upkeep and may be negative. */
  datatype Rates = Rates(wood: int, clay: int, iron: int, cropNet: int)

  datatype Capacities = Capacities(warehouse: nat, granary: nat)

  /** What a read of a village's fields, buildings, garrison and artifacts yields. */
  datatype Production = Production(rates: Rates, caps: Capacities)

  const I64_MAX: int := 0x7fff_ffff_ffff_ffff
  const I64_MIN: int := -0x8000_0000_0000_0000

  function Max(a: int, b: int): int { if a >= b then a else b }

  function Min(a: int, b: int): int { if a <= b then a else b }

  function Saturate(n: int): int { Max(I64_MIN, Min(n, I64_MAX)) }

  /** Division by a positive number, truncated toward zero. */
  function TruncDiv(a: int, b: int): int
    requires b > 0
  {
    if a >= 0 then a / b else -(-a / b)
  }

  /** Whole seconds from `from` to `to` (both in ms), as a settle counts them: never negative. */
  function ElapsedSecs(from: int, to: int): nat {
    Max(0, TruncDiv(to - from, 1000))
  }

  /** Accrue one resource, clamped to `[0, capacity]`. */
  function Accrue(stored: int, rate: int, secs: nat, capacity: nat): (r: int)
    ensures 0 <= r <= capacity
  {
    Max(0, Min(Saturate(stored + TruncDiv(Saturate(rate * secs), 3600)), capacity))
  }

  function Settle(stored: Amounts, secs: nat, p: Production): Amounts {
    Amounts(Accrue(stored.wood, p.rates.wood, secs, p.caps.warehouse),
            Accrue(stored.clay, p.rates.clay, secs, p.caps.warehouse),
            Accrue(stored.iron, p.rates.iron, secs, p.caps.warehouse),
            Accrue(stored.crop, p.rates.cropNet, secs, p.caps.granary))
  }

  // ------------------------------------------------------------------ what a settle is worth

  /** The hourly rate of each kind. */
  function RateOf(r: Rates, kind: Kind): int {
    match kind
    case Wood => r.wood
    case Clay => r.clay
    case Iron => r.iron
    case Crop => r.cropNet
  }

  /** The granary holds the crop, the warehouse everything else. */
  function CapOf(caps: Capacities, kind: Kind): nat { if kind == Crop then caps.granary else caps.warehouse }

  /** What hourly production comes to over some seconds: the store moves by `rate * secs / 3600`, short of it
      by less than one unit and never beyond it, unless that would leave the range from empty to full; then
      it is empty, or full. */
  predicate Accrues(before: int, rate: int, secs: nat, cap: nat, after: int) {
    var due := rate * secs;
    && 0 <= after <= cap
    && (0 < after < cap ==> -3600 < 3600 * (after - before) - due < 3600)
    && (0 < after < cap && due >= 0 ==> before <= after && 3600 * (after - before) <= due)
    && (0 < after < cap && due <= 0 ==> after <= before && due <= 3600 * (after - before))
    && (after == 0 && cap > 0 ==> 3600 * before + due < 3600)
    && (after == cap && cap > 0 ==> 3600 * before + due > 3600 * cap - 3600)
  }

  /** Amounts far enough from the ends of 64-bit arithmetic for a settle to be exact. */
  predicate Ordinary(stored: Amounts, caps: Capacities) {
    forall kind: Kind :: 0 <= stored.Of(kind) && 3600 * (stored.Of(kind) + 1) <= I64_MAX && 3600 * (CapOf(caps, kind) + 1) <= I64_MAX
  }

  /** It never adds more than its rate, however the arithmetic saturates. */
  lemma AccrueAtMostTheRate(stored: int, rate: int, secs: nat, cap: nat)
    requires 0 <= stored
    ensures 3600 * (Accrue(stored, rate, secs, cap) - stored) <= Max(0, rate) * secs
  {
    var due := rate * secs;
    TruncBounds(Saturate(due));
    if rate <= 0 {
      assert due <= 0 by { assert -rate * secs >= 0; }
    } else {
      assert due >= 0;
    }
  }

  lemma TruncBounds(due: int)
    ensures due >= 0 ==> 0 <= 3600 * TruncDiv(due, 3600) <= due < 3600 * TruncDiv(due, 3600) + 3600
    ensures due <= 0 ==> 3600 * TruncDiv(due, 3600) - 3600 < due <= 3600 * TruncDiv(due, 3600) <= 0
  {
  }

  lemma AccrueAccrues(stored: int, rate: int, secs: nat, cap: nat)
    requires 0 <= stored && 3600 * (stored + 1) <= I64_MAX && 3600 * (cap + 1) <= I64_MAX
    ensures Accrues(stored, rate, secs, cap, Accrue(stored, rate, secs, cap))
  {
    var due := rate * secs;
    TruncBounds(due);
    TruncBounds(Saturate(due));
  }

  /** Each resource accrues at its own rate up to its own storage, whatever the rates, the time and the
      other resources. */
  predicate SettledAs(before: Amounts, secs: nat, p: Production, after: Amounts) {
    forall kind: Kind :: Accrues(before.Of(kind), RateOf(p.rates, kind), secs, CapOf(p.caps, kind), after.Of(kind))
  }

  lemma SettleAccruesEachAtItsRate(stored: Amounts, secs: nat, p: Production)
    requires Ordinary(stored, p.caps)
    ensures SettledAs(stored, secs, p, Settle(stored, secs, p))
  {
    forall kind: Kind
      ensures Accrues(stored.Of(kind), RateOf(p.rates, kind), secs, CapOf(p.caps, kind), Settle(stored, secs, p).Of(kind))
    {
      assert 0 <= stored.Of(kind);
      AccrueAccrues(stored.Of(kind), RateOf(p.rates, kind), secs, CapOf(p.caps, kind));
    }
  }

  predicate Within(stored: Amounts, caps: Capacities) {
    && 0 <= stored.wood <= caps.warehouse && 0 <= stored.clay <= caps.warehouse
    && 0 <= stored.iron <= caps.warehouse && 0 <= stored.crop <= caps.granary
    && caps.warehouse <= I64_MAX && caps.granary <= I64_MAX
  }

  /** Settling over no time changes nothing in a store within its capacity. */
  lemma NoTimeSettlesNothing(stored: Amounts, p: Production)
    requires Within(stored, p.caps)
    ensures Settle(stored, 0, p) == stored
  {
  }

  function DepositOne(current: int, add: int, limit: nat): int {
    Max(current, Min(current + Max(0, add), limit))
  }

  /** Add a bundle, clamping each resource to its cap: the overflow is lost, and a stack already
      over its cap keeps its amount. */
  function DepositCapped(current: Amounts, add: Amounts, caps: Capacities): Amounts {
    Amounts(DepositOne(current.wood, add.wood, caps.warehouse),
            DepositOne(current.clay, add.clay, caps.warehouse),
            DepositOne(current.iron, add.iron, caps.warehouse),
            DepositOne(current.crop, add.crop, caps.granary))
  }

  /** What a deposit into a store of limited size comes to: nothing is taken and nothing invented; what
      does not arrive is lost only to a full store; and a deposit fills the store no further than that. */
  predicate Deposits(before: int, add: int, cap: nat, after: int) {
    && before <= after <= before + Max(0, add)
    && (after < before + add ==> after >= cap)
    && (before < after ==> after <= cap)
  }

  predicate DepositedAs(before: Amounts, add: Amounts, caps: Capacities, after: Amounts) {
    forall kind: Kind :: Deposits(before.Of(kind), add.Of(kind), CapOf(caps, kind), after.Of(kind))
  }

  /** Each resource of a bundle goes to its own stack, up to its own storage. */
  lemma DepositFillsEachToItsCap(before: Amounts, add: Amounts, caps: Capacities)
    ensures DepositedAs(before, add, caps, DepositCapped(before, add, caps))
  {
    forall kind: Kind
      ensures Deposits(before.Of(kind), add.Of(kind), CapOf(caps, kind), DepositCapped(before, add, caps).Of(kind))
    {
    }
  }

  /** A capped deposit never takes anything away, and never adds more than the bundle. */
  lemma DepositNeverTakesNorInvents(current: Amounts, add: Amounts, caps: Capacities)
    requires add.Covers(NOTHING)
    ensures DepositCapped(current, add, caps).Covers(current)
    ensures current.Plus(add).Covers(DepositCapped(current, add, caps))
  {
  }
}
