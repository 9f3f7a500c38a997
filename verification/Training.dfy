/**
 Training batches: the i-th unit is finished i * perUnit seconds after the start, and starts to eat at
 its own completion instant, whenever the scheduler gets round to delivering it.
 */
module Training {
  import opened Arithmetic
  import opened Economy
  import opened Armies

  datatype Status = Active | Processing | Done

  datatype Batch = Batch(unit: UnitId, total: nat, done: nat, perUnitSecs: int, startedAt: int, status: Status)

  /** The village a batch delivers to: its resource row and its garrison. */
  datatype Village = Village(stored: Amounts, at: int, garrison: UnitCounts)

  /** What a delivery does not change: the roster, and the settle of an amount over some seconds at a
      given raw upkeep. The settle is any function at all: no law below depends on it. */
  datatype Rules = Rules(roster: seq<UnitSpec>, settle: (Amounts, nat, nat) -> Amounts)

  function PerUnit(b: Batch): nat { Max(b.perUnitSecs, 1) }

  /** How many units of the batch are finished at `now`. */
  function FinishedBy(b: Batch, now: int): nat {
    Min(ElapsedSecs(b.startedAt, now) / PerUnit(b), b.total)
  }

  /** The completion instant of the i-th unit. */
  function CompletionOf(b: Batch, i: nat): int { b.startedAt + PerUnit(b) * i * 1000 }

  /** The row and upkeep while units complete one by one. */
  datatype Tally = Tally(amounts: Amounts, from: int, upkeep: nat)

  /** Settle up to the next completion at the upkeep of everything delivered before it. */
  function Next(t: Tally, instant: int, unitUpkeep: nat, r: Rules): Tally {
    Tally(r.settle(t.amounts, ElapsedSecs(t.from, instant), t.upkeep),
          Max(t.from, instant), t.upkeep + unitUpkeep)
  }

  /** Settle through the completions of units `done + 1 .. done + n`. */
  function Through(b: Batch, done: nat, n: nat, t: Tally, r: Rules): Tally
    decreases n
  {
    if n == 0 then t else Through(b, done + 1, n - 1, AfterOne(b, done, t, r), r)
  }

  /** The tally after the completion of unit `done + 1`. */
  function AfterOne(b: Batch, done: nat, t: Tally, r: Rules): Tally {
    Next(t, CompletionOf(b, done + 1), UpkeepOf(r.roster, b.unit), r)
  }

  /** The whole seconds that settlement credits. */
  function SecsThrough(b: Batch, done: nat, n: nat, from: int): nat
    decreases n
  {
    if n == 0 then 0
    else
      var instant := CompletionOf(b, done + 1);
      ElapsedSecs(from, instant) + SecsThrough(b, done + 1, n - 1, Max(from, instant))
  }

  function TallyOf(v: Village, r: Rules): Tally {
    Tally(v.stored, v.at, GarrisonUpkeep(v.garrison, r.roster))
  }

  /** Deliver the next `n` units of the batch. */
  function DeliveredTo(v: Village, b: Batch, n: nat, r: Rules): Village {
    var t := Through(b, b.done, n, TallyOf(v, r), r);
    Village(t.amounts, t.from, Add(v.garrison, b.unit, n))
  }

  function Advanced(b: Batch, n: nat): Batch {
    b.(done := b.done + n, status := if b.done + n >= b.total then Done else Active)
  }

  function Delivered(v: Village, b: Batch, n: nat, r: Rules): (Village, Batch) {
    (DeliveredTo(v, b, n, r), Advanced(b, n))
  }

  /** One scheduler tick: claim the batch if its next unit is due, deliver what is finished, and put
      the batch back unchanged if the guarded write conflicts or nothing is finished. */
  datatype Tick = Tick(now: int, conflict: bool)

  /** When the storage schedules the next completion: by the stored seconds, without the delivery's
      minimum of one. */
  function ScheduledFor(b: Batch): int { b.startedAt + b.perUnitSecs * (b.done + 1) * 1000 }

  predicate IsDue(b: Batch, now: int) { b.status == Active && ScheduledFor(b) <= now }

  function TickStep(v: Village, b: Batch, tick: Tick, r: Rules): (Village, Batch) {
    var completed := Max(0, FinishedBy(b, tick.now) - b.done);
    if !IsDue(b, tick.now) || completed == 0 || tick.conflict then (v, b) else Delivered(v, b, completed, r)
  }

  function Ticks(v: Village, b: Batch, ticks: seq<Tick>, r: Rules): (Village, Batch)
    decreases |ticks|
  {
    if ticks == [] then (v, b)
    else var (v', b') := TickStep(v, b, ticks[0], r); Ticks(v', b', ticks[1..], r)
  }

  /** The delivery worker of one village's batch. */
  class Barracks {
    var stored: Amounts
    var at: int
    var garrison: UnitCounts
    var batch: Batch
    const rules: Rules

    constructor (v: Village, b: Batch, r: Rules)
      ensures State() == (v, b) && rules == r
    {
      stored, at, garrison, batch, rules := v.stored, v.at, v.garrison, b, r;
    }

    function Stock(): Village
      reads this
    {
      Village(stored, at, garrison)
    }

    function State(): (Village, Batch)
      reads this
    {
      (Stock(), batch)
    }

    /** The piecewise settlement of what was read: one segment up to each delivered unit's completion. */
    method SettlePiecewise(seen: Village, completed: nat) returns (t: Tally)
      ensures t == Through(batch, batch.done, completed, TallyOf(seen, rules), rules)
    {
      var unitUpkeep := UpkeepOf(rules.roster, batch.unit);
      t := Tally(seen.stored, seen.at, GarrisonUpkeep(seen.garrison, rules.roster));
      for i := 0 to completed
        invariant Through(batch, batch.done + i, completed - i, t, rules)
               == Through(batch, batch.done, completed, TallyOf(seen, rules), rules)
      {
        t := Next(t, CompletionOf(batch, batch.done + i + 1), unitUpkeep, rules);
      }
    }

    /** `deliver_batch` on a claimed batch, from what it has read of the village: the piecewise settlement,
        then the apply, guarded on the settle instant it read. It delivers exactly if something is
        finished and the guard passes. If the village is still as read, that is one tick of the
        scheduler; refused, it is the tick that puts the batch back. */
    method DeliverBatch(now: int, seen: Village) returns (delivered: bool)
      requires batch.status == Processing && ScheduledFor(batch) <= now
      modifies this
      ensures delivered <==> FinishedBy(old(batch), now) > old(batch).done && old(at) == seen.at
      ensures delivered ==>
                var b, n := old(batch), FinishedBy(old(batch), now) - old(batch).done;
                var t := Through(b, b.done, n, TallyOf(seen, rules), rules);
                && stored == t.amounts && at == t.from && garrison == Add(old(garrison), b.unit, n) && batch.done == b.done + n
      ensures seen == old(Stock()) ==>
                State() == TickStep(old(State()).0, old(batch).(status := Active), Tick(now, false), rules)
      ensures seen.at != old(at) ==>
                State() == TickStep(old(State()).0, old(batch).(status := Active), Tick(now, true), rules)
    {
      var completed := Max(0, FinishedBy(batch, now) - batch.done);
      ghost var claimed := batch;
      batch := batch.(status := Active);
      if completed == 0 {
        return false;
      }
      var t := SettlePiecewise(seen, completed);
      ThroughOfBatch(claimed, batch, batch.done, completed, TallyOf(seen, rules), rules);
      if at != seen.at {
        return false;
      }
      stored, at := t.amounts, t.from;
      garrison := Add(garrison, batch.unit, completed);
      batch := batch.(done := batch.done + completed,
                      status := if batch.done + completed >= batch.total then Done else Active);
      delivered := true;
    }
  }

  /** Settling through any number of completions loses less than a second of production in all: only
      the stretch up to the first completion can end in a fraction, since completions are whole seconds
      apart. */
  lemma {:induction false} CompletionsLoseUnderASecond(b: Batch, done: nat, n: nat, t: Tally, r: Rules)
    ensures var clock := Through(b, done, n, t, r).from;
            && t.from <= clock
            && 0 <= clock - t.from - 1000 * SecsThrough(b, done, n, t.from) <= 999
            && (t.from == CompletionOf(b, done) ==> clock - t.from == 1000 * SecsThrough(b, done, n, t.from))
    decreases n
  {
    if n > 0 {
      CompletionsAreSecondsApart(b, done);
      CompletionsLoseUnderASecond(b, done + 1, n - 1, AfterOne(b, done, t, r), r);
    }
  }

  lemma CompletionsAreSecondsApart(b: Batch, i: nat)
    ensures CompletionOf(b, i + 1) == CompletionOf(b, i) + 1000 * PerUnit(b)
  {
    assert PerUnit(b) * (i + 1) == PerUnit(b) * i + PerUnit(b);
  }

  // ------------------------------------------------------------------ latency independence

  lemma {:induction false} ThroughSplits(b: Batch, done: nat, j: nat, k: nat, t: Tally, r: Rules)
    ensures Through(b, done, j + k, t, r) == Through(b, done + j, k, Through(b, done, j, t, r), r)
    decreases j
  {
    if j > 0 {
      var next := Next(t, CompletionOf(b, done + 1), UpkeepOf(r.roster, b.unit), r);
      ThroughSplits(b, done + 1, j - 1, k, next, r);
      assert Through(b, done, j + k, t, r) == Through(b, done + 1, j - 1 + k, next, r);
      assert Through(b, done, j, t, r) == Through(b, done + 1, j - 1, next, r);
    }
  }

  lemma {:induction false} ThroughAddsUpkeep(b: Batch, done: nat, n: nat, t: Tally, r: Rules)
    ensures Through(b, done, n, t, r).upkeep == t.upkeep + UpkeepOf(r.roster, b.unit) * n
    decreases n
  {
    if n > 0 {
      var k := UpkeepOf(r.roster, b.unit);
      ThroughAddsUpkeep(b, done + 1, n - 1, Next(t, CompletionOf(b, done + 1), k, r), r);
      assert k + k * (n - 1) == k * n;
    }
  }

  lemma {:induction false} AddTwice(c: UnitCounts, unit: UnitId, j: nat, k: nat)
    ensures Add(Add(c, unit, j), unit, k) == Add(c, unit, j + k)
  {
    if c != [] && c[0].0 != unit {
      AddTwice(c[1..], unit, j, k);
    }
  }

  /** The settlement looks at a batch's schedule only, not at its progress. */
  lemma {:induction false} ThroughOfBatch(b: Batch, b1: Batch, done: nat, n: nat, t: Tally, r: Rules)
    requires b1 == b.(done := b1.done, status := b1.status)
    ensures Through(b1, done, n, t, r) == Through(b, done, n, t, r)
    decreases n
  {
    if n > 0 {
      ThroughOfBatch(b, b1, done + 1, n - 1, Next(t, CompletionOf(b, done + 1), UpkeepOf(r.roster, b.unit), r), r);
    }
  }

  lemma TallyAfterDelivery(v: Village, b: Batch, j: nat, r: Rules)
    ensures TallyOf(DeliveredTo(v, b, j, r), r) == Through(b, b.done, j, TallyOf(v, r), r)
  {
    ThroughAddsUpkeep(b, b.done, j, TallyOf(v, r), r);
    AddRaisesUpkeep(v.garrison, b.unit, j, r.roster);
  }

  /** Delivering `j` units and later `k` more gives the same store, settle clock, garrison and
      progress as delivering all of them at once. */
  lemma DeliverySplits(v: Village, b: Batch, j: nat, k: nat, r: Rules)
    ensures var (v1, b1) := Delivered(v, b, j, r);
            Delivered(v1, b1, k, r) == Delivered(v, b, j + k, r)
  {
    var v1, b1 := DeliveredTo(v, b, j, r), Advanced(b, j);
    TallyAfterDelivery(v, b, j, r);
    AddTwice(v.garrison, b.unit, j, k);
    ThroughOfBatch(b, b1, b.done + j, k, TallyOf(v1, r), r);
    ThroughSplits(b, b.done, j, k, TallyOf(v, r), r);
    assert DeliveredTo(v1, b1, k, r) == DeliveredTo(v, b, j + k, r);
    assert Advanced(b1, k) == Advanced(b, j + k);
  }

  /** More of a batch is finished than was delivered exactly from the next unit's completion on. */
  lemma FinishedFromTheCompletionOn(b: Batch, now: int)
    requires b.done < b.total
    ensures CompletionOf(b, b.done + 1) <= now <==> FinishedBy(b, now) > b.done
  {
    var p, secs, n := PerUnit(b), ElapsedSecs(b.startedAt, now), b.done + 1;
    assert p * n * 1000 <= now - b.startedAt <==> p * n <= secs;
    DivAtLeast(secs, p, n);
  }

  /** Whatever is finished is due. And a batch is scheduled for exactly when more of it is finished if
      and only if it takes at least a second a unit; every batch ordered does. */
  lemma DueIffFinished(b: Batch)
    requires b.done < b.total
    ensures forall now :: FinishedBy(b, now) > b.done ==> ScheduledFor(b) <= now
    ensures (forall now :: ScheduledFor(b) <= now <==> FinishedBy(b, now) > b.done) <==> b.perUnitSecs >= 1
  {
    AtMostTheClamped(b);
    forall now ensures CompletionOf(b, b.done + 1) <= now <==> FinishedBy(b, now) > b.done {
      FinishedFromTheCompletionOn(b, now);
    }
    if b.perUnitSecs < 1 {
      assert ScheduledFor(b) <= b.startedAt && !(FinishedBy(b, b.startedAt) > b.done);
    }
  }

  /** A tick changes nothing unless the batch is active, its next unit complete, and the write goes through. */
  lemma OnlyWhatIsCompleteIsDelivered(v: Village, b: Batch, tick: Tick, r: Rules)
    requires b.done < b.total && TickStep(v, b, tick, r) != (v, b)
    ensures b.status == Active && CompletionOf(b, b.done + 1) <= tick.now && !tick.conflict
  {
    FinishedFromTheCompletionOn(b, tick.now);
  }

  lemma AtMostTheClamped(b: Batch)
    ensures ScheduledFor(b) <= CompletionOf(b, b.done + 1)
    ensures b.perUnitSecs >= 1 ==> ScheduledFor(b) == CompletionOf(b, b.done + 1)
    ensures b.perUnitSecs < 1 ==> ScheduledFor(b) <= b.startedAt && CompletionOf(b, b.done + 1) > b.startedAt
  {
    assert (PerUnit(b) - b.perUnitSecs) * (b.done + 1) >= 0;
  }

  // ------------------------------------------------------------------ who eats from when on

  /** Whatever a settle does, delivering the next unit settles the store up to that unit's completion (or
      not at all, if the store was settled past it) at the upkeep of the garrison as it stood before the
      unit; the unit joins then, and is the first to eat more from there on. */
  lemma AUnitEatsFromItsOwnCompletionOn(v: Village, b: Batch, r: Rules)
    ensures var done := CompletionOf(b, b.done + 1);
            var after := DeliveredTo(v, b, 1, r);
            && after.stored == r.settle(v.stored, ElapsedSecs(v.at, done), GarrisonUpkeep(v.garrison, r.roster))
            && after.at == Max(v.at, done)
            && after.garrison == Add(v.garrison, b.unit, 1)
            && GarrisonUpkeep(after.garrison, r.roster) == GarrisonUpkeep(v.garrison, r.roster) + UpkeepOf(r.roster, b.unit)
  {
    AddRaisesUpkeep(v.garrison, b.unit, 1, r.roster);
    assert Through(b, b.done, 1, TallyOf(v, r), r) == AfterOne(b, b.done, TallyOf(v, r), r);
  }

  /** A store that only feeds troops. */
  predicate OnlyFeeds(settle: (Amounts, nat, nat) -> Amounts, a: Amounts, secs: nat, upkeep: nat) {
    settle(a, secs, upkeep) == a.(crop := a.crop - secs * upkeep)
  }

  /** The seconds that `n` units eat by the completion of the last: each from its own completion on (or
      from the last settle, if later). */
  function UnitSecs(b: Batch, done: nat, n: nat, from: int): nat
    decreases n
  {
    if n == 0 then 0
    else
      var start := Max(from, CompletionOf(b, done + 1));
      SecsThrough(b, done + 1, n - 1, start) + UnitSecs(b, done + 1, n - 1, start)
  }

  /** In closed form: from a store that only feeds troops, the delivery of any number of units takes what
      the garrison of before eats over the whole time, and for each unit what it eats from its own
      completion on. */
  lemma {:induction false} EveryoneEatsFromTheirOwnCompletionOn(b: Batch, done: nat, n: nat, t: Tally, r: Rules)
    requires forall a, secs, upkeep :: OnlyFeeds(r.settle, a, secs, upkeep)
    ensures Through(b, done, n, t, r).amounts
         == t.amounts.(crop := t.amounts.crop - t.upkeep * SecsThrough(b, done, n, t.from)
                               - UpkeepOf(r.roster, b.unit) * UnitSecs(b, done, n, t.from))
    decreases n
  {
    if n > 0 {
      var next, k := AfterOne(b, done, t, r), UpkeepOf(r.roster, b.unit);
      var secs := ElapsedSecs(t.from, CompletionOf(b, done + 1));
      EveryoneEatsFromTheirOwnCompletionOn(b, done + 1, n - 1, next, r);
      assert OnlyFeeds(r.settle, t.amounts, secs, t.upkeep);
      OneMoreEats(t.upkeep, k, secs, SecsThrough(b, done + 1, n - 1, next.from), UnitSecs(b, done + 1, n - 1, next.from));
    }
  }

  lemma OneMoreEats(upkeep: nat, unit: nat, secs: nat, later: nat, units: nat)
    ensures secs * upkeep + (upkeep + unit) * later + unit * units == upkeep * (secs + later) + unit * (later + units)
  {
  }

  /** From a completion on (as a store settled no later than it is), that is one unit's time for each unit
      finished after it: the last eats nothing yet, the one before it the time of one unit, and so on. */
  lemma {:induction false} UnitSecsFromACompletion(b: Batch, done: nat, n: nat, from: int)
    requires from <= CompletionOf(b, done + 1)
    ensures 2 * UnitSecs(b, done, n, from) == PerUnit(b) * (n * (n - 1))
    decreases n
  {
    if n > 0 {
      SecsFromACompletion(b, done + 1, n - 1);
      CompletionsAreSecondsApart(b, done + 1);
      UnitSecsFromACompletion(b, done + 1, n - 1, CompletionOf(b, done + 1));
      TwiceTheTriangle(PerUnit(b), n);
    }
  }

  lemma TwiceTheTriangle(p: nat, n: nat)
    requires n > 0
    ensures 2 * (p * (n - 1)) + p * ((n - 1) * (n - 2)) == p * (n * (n - 1))
  {
    assert (n - 1) * (n - 2) + 2 * (n - 1) == n * (n - 1);
    assert p * ((n - 1) * (n - 2) + 2 * (n - 1)) == p * ((n - 1) * (n - 2)) + p * (2 * (n - 1));
  }

  lemma {:induction false} SecsFromACompletion(b: Batch, done: nat, n: nat)
    ensures SecsThrough(b, done, n, CompletionOf(b, done)) == PerUnit(b) * n
    decreases n
  {
    if n > 0 {
      CompletionsAreSecondsApart(b, done);
      SecsFromACompletion(b, done + 1, n - 1);
      assert PerUnit(b) * n == PerUnit(b) + PerUnit(b) * (n - 1);
    }
  }

  /** How far the batch has got after the ticks: the most that was finished at any applied tick. */
  function DoneAfter(b: Batch, ticks: seq<Tick>): nat
    decreases |ticks|
  {
    if ticks == [] then b.done
    else
      var done := if ticks[0].conflict then b.done else Max(b.done, FinishedBy(b, ticks[0].now));
      DoneAfter(b.(done := done), ticks[1..])
  }

  ghost predicate Ready(b: Batch) {
    b.done <= b.total && (b.status == Active <==> b.done < b.total) && b.status != Processing
  }

  lemma TickDeliversTheFinished(v: Village, b: Batch, tick: Tick, r: Rules)
    requires Ready(b)
    ensures var done := if tick.conflict then b.done else Max(b.done, FinishedBy(b, tick.now));
            && b.done <= done <= b.total
            && TickStep(v, b, tick, r) == (if done == b.done then (v, b) else Delivered(v, b, done - b.done, r))
            && Ready(TickStep(v, b, tick, r).1)
            && TickStep(v, b, tick, r).1 == b.(done := done, status := TickStep(v, b, tick, r).1.status)
  {
    if b.done < b.total {
      DueIffFinished(b);
    }
  }

  lemma {:induction false} DoneAfterIsBounded(b: Batch, ticks: seq<Tick>)
    requires b.done <= b.total
    ensures b.done <= DoneAfter(b, ticks) <= b.total
    ensures forall s :: DoneAfter(b.(status := s), ticks) == DoneAfter(b, ticks)
    decreases |ticks|
  {
    if ticks != [] {
      var done := if ticks[0].conflict then b.done else Max(b.done, FinishedBy(b, ticks[0].now));
      DoneAfterIsBounded(b.(done := done), ticks[1..]);
      forall s ensures DoneAfter(b.(status := s), ticks) == DoneAfter(b, ticks) {
        assert FinishedBy(b.(status := s), ticks[0].now) == FinishedBy(b, ticks[0].now);
      }
    }
  }

  /** Training is independent of scheduler latency: after *any* sequence of ticks (early, late, out of
      order, released after conflicts) store, clock, garrison and progress are what one delivery of
      the same number of units gives, and that number is the most finished at an applied tick. */
  lemma {:induction false} LatencyDoesNotMatter(v: Village, b: Batch, ticks: seq<Tick>, r: Rules)
    requires Ready(b)
    ensures b.done <= DoneAfter(b, ticks) <= b.total
    ensures var done := DoneAfter(b, ticks);
            Ticks(v, b, ticks, r) == if done == b.done then (v, b) else Delivered(v, b, done - b.done, r)
    decreases |ticks|
  {
    if ticks != [] {
      TickDeliversTheFinished(v, b, ticks[0], r);
      var (v1, b1) := TickStep(v, b, ticks[0], r);
      LatencyDoesNotMatter(v1, b1, ticks[1..], r);
      DoneAfterIsBounded(b1, ticks[1..]);
      DoneAfterIsBounded(b.(done := b1.done), ticks[1..]);
      assert b1 == b.(done := b1.done).(status := b1.status);
      var j := b1.done - b.done;
      var k := DoneAfter(b1, ticks[1..]) - b1.done;
      if j > 0 && k > 0 {
        DeliverySplits(v, b, j, k, r);
      }
    }
  }

  /** Nobody is delivered early: what is done never exceeds what was finished at the latest tick. */
  lemma {:induction false} NeverDeliversEarly(b: Batch, ticks: seq<Tick>, latest: int)
    requires forall i :: 0 <= i < |ticks| ==> ticks[i].now <= latest
    ensures DoneAfter(b, ticks) <= Max(b.done, FinishedBy(b, latest))
    ensures ticks != [] && ticks[|ticks| - 1] == Tick(latest, false) ==>
              DoneAfter(b, ticks) == Max(b.done, FinishedBy(b, latest))
    decreases |ticks|
  {
    if ticks != [] {
      var done := if ticks[0].conflict then b.done else Max(b.done, FinishedBy(b, ticks[0].now));
      FinishedGrows(b, ticks[0].now, latest);
      assert FinishedBy(b.(done := done), latest) == FinishedBy(b, latest);
      NeverDeliversEarly(b.(done := done), ticks[1..], latest);
      if |ticks| > 1 {
        assert ticks[1..][|ticks| - 2] == ticks[|ticks| - 1];
      }
    }
  }

  lemma FinishedGrows(b: Batch, early: int, late: int)
    requires early <= late
    ensures FinishedBy(b, early) <= FinishedBy(b, late)
  {
    var p := PerUnit(b);
    DivAtLeast(ElapsedSecs(b.startedAt, late), p, ElapsedSecs(b.startedAt, early) / p);
    DivAtLeast(ElapsedSecs(b.startedAt, early), p, ElapsedSecs(b.startedAt, early) / p);
  }

  /** Two schedulers whose last tick is the same and applied agree, whatever they did before. */
  lemma AnyTwoSchedulesAgree(v: Village, b: Batch, some: seq<Tick>, other: seq<Tick>, now: int, r: Rules)
    requires Ready(b)
    requires forall i :: 0 <= i < |some| ==> some[i].now <= now
    requires forall i :: 0 <= i < |other| ==> other[i].now <= now
    ensures Ticks(v, b, some + [Tick(now, false)], r) == Ticks(v, b, other + [Tick(now, false)], r)
  {
    LatencyDoesNotMatter(v, b, some + [Tick(now, false)], r);
    LatencyDoesNotMatter(v, b, other + [Tick(now, false)], r);
    NeverDeliversEarly(b, some + [Tick(now, false)], now);
    NeverDeliversEarly(b, other + [Tick(now, false)], now);
  }
}
