/**
 Catch-up by watermark: the abandonment sweep and the medal settlement process every complete period
 that the latest recorded one does not cover, one atomic step a period, after any downtime and any
 failures.
 */
module Watermark {
  import opened Arithmetic
  import opened Economy
  import opened Options

  datatype Schedule = Schedule(start: int, periodSecs: int, abandonAfterSecs: int)

  function Quotient(a: nat, b: nat): nat
    requires b > 0
  {
    a / b
  }

  /** The period an instant falls in. */
  function PeriodIndex(now: int, s: Schedule): nat {
    if s.periodSecs <= 0 || now <= s.start then 0 else Quotient(now - s.start, s.periodSecs * 1000)
  }

  function PeriodStart(period: int, s: Schedule): int { s.start + period * s.periodSecs * 1000 }

  /** Accounts idle since before this instant are abandoned in the period. */
  function Cutoff(period: int, s: Schedule): int { PeriodStart(period + 1, s) - s.abandonAfterSecs * 1000 }

  /** `exempt` accounts (non-players, bots with a key) are never swept. */
  datatype User = User(lastActivity: int, exempt: bool, abandonedIn: Option<nat>)

  /** `rows` are the recorded periods, in the order they were written; `log` every settlement done. */
  datatype World = World(users: seq<User>, rows: seq<nat>, log: seq<nat>)

  /** `MAX(period)`. */
  function Latest(rows: seq<nat>): Option<nat> {
    if rows == [] then None
    else
      var rest := Latest(rows[1..]);
      if rest.Some? && rest.value >= rows[0] then rest else Some(rows[0])
  }

  function SweptUser(u: User, period: nat, s: Schedule): User {
    if u.abandonedIn.None? && !u.exempt && u.lastActivity < Cutoff(period, s) then u.(abandonedIn := Some(period)) else u
  }

  function SweptUsers(users: seq<User>, period: nat, s: Schedule): (r: seq<User>)
    ensures |r| == |users|
    ensures forall i :: 0 <= i < |r| ==> r[i] == SweptUser(users[i], period, s)
  {
    seq(|users|, i requires 0 <= i < |users| => SweptUser(users[i], period, s))
  }

  /** One period, atomically: the sweep and its record. A sweep always leaves its record; a medal
      settlement leaves one only through the snapshots of the players it finds (`records`). */
  function SettlePeriod(w: World, period: nat, records: bool, s: Schedule): World {
    World(SweptUsers(w.users, period, s), if records then w.rows + [period] else w.rows, w.log + [period])
  }

  /** At most `budget` periods succeed before a failure ends the tick. */
  function CatchUp(w: World, next: nat, current: nat, budget: nat, records: bool, s: Schedule): World
    decreases budget
  {
    if next >= current || budget == 0 then w
    else CatchUp(SettlePeriod(w, next, records, s), next + 1, current, budget - 1, records, s)
  }

  datatype Tick = Tick(now: int, budget: nat)

  function NextPeriod(w: World): nat {
    match Latest(w.rows)
    case None => 0
    case Some(latest) => latest + 1
  }

  function DoTick(w: World, t: Tick, records: bool, s: Schedule): World {
    CatchUp(w, NextPeriod(w), PeriodIndex(t.now, s), t.budget, records, s)
  }

  function Ticks(w: World, ts: seq<Tick>, s: Schedule): World
    decreases |ts|
  {
    if ts == [] then w else Ticks(DoTick(w, ts[0], true, s), ts[1..], s)
  }

  /** The worker. */
  class Sweeper {
    var users: seq<User>
    var rows: seq<nat>
    var log: seq<nat>
    const schedule: Schedule

    constructor (w: World, s: Schedule)
      ensures State() == w && schedule == s
    {
      users, rows, log, schedule := w.users, w.rows, w.log, s;
    }

    function State(): World
      reads this
    {
      World(users, rows, log)
    }

    /** `process_due_lifecycle` (and, with `records` saying whether there is anybody to snapshot,
        `process_due_medal_settlement`): sweep period after period until the current one, or until the
        storage fails, which it does after `budget` of them. */
    method ProcessDue(now: int, budget: nat, records: bool) returns (swept: seq<nat>)
      modifies this
      ensures State() == DoTick(old(State()), Tick(now, budget), records, schedule)
      ensures log == old(log) + swept
    {
      var current := PeriodIndex(now, schedule);
      var latest := Latest(rows);
      var next := if latest.None? then 0 else latest.value + 1;
      var left := budget;
      swept := [];
      while next < current && left > 0
        invariant CatchUp(State(), next, current, left, records, schedule)
               == DoTick(old(State()), Tick(now, budget), records, schedule)
        invariant log == old(log) + swept
        decreases current - next
      {
        users := SweptUsers(users, next, schedule);
        if records {
          rows := rows + [next];
        }
        log := log + [next];
        swept := swept + [next];
        next := next + 1;
        left := left - 1;
      }
    }
  }

  // ------------------------------------------------------------------ the gapless prefix

  function Upto(k: nat): (r: seq<nat>)
    ensures |r| == k && forall i :: 0 <= i < k ==> r[i] == i
  {
    seq(k, i requires 0 <= i => i)
  }

  /** The world after periods `0 .. k` were each settled once, in order. */
  function SweptTo(w: World, k: nat, s: Schedule): World {
    if k == 0 then w else SettlePeriod(SweptTo(w, k - 1, s), k - 1, true, s)
  }

  lemma {:induction false} LatestOfPrefix(k: nat)
    ensures Latest(Upto(k)) == if k == 0 then None else Some(k - 1)
  {
    LatestFrom(0, k);
    assert Upto(k)[0..] == Upto(k);
  }

  lemma {:induction false} LatestFrom(i: nat, k: nat)
    requires i <= k
    ensures Latest(Upto(k)[i..]) == if i == k then None else Some(k - 1)
    decreases k - i
  {
    if i < k {
      assert Upto(k)[i..][1..] == Upto(k)[i + 1..];
      LatestFrom(i + 1, k);
    }
  }

  /** How far a tick gets. */
  function Reach(k: nat, t: Tick, s: Schedule): nat {
    var current := PeriodIndex(t.now, s);
    if k >= current then k else Min(current, k + t.budget)
  }

  function ReachAll(k: nat, ts: seq<Tick>, s: Schedule): nat
    decreases |ts|
  {
    if ts == [] then k else ReachAll(Reach(k, ts[0], s), ts[1..], s)
  }

  lemma {:induction false} SweptToRows(w: World, k: nat, s: Schedule)
    requires w.rows == [] && w.log == []
    ensures SweptTo(w, k, s).rows == Upto(k) && SweptTo(w, k, s).log == Upto(k)
  {
    if k > 0 {
      SweptToRows(w, k - 1, s);
      assert Upto(k) == Upto(k - 1) + [k - 1];
    }
  }

  lemma {:induction false} CatchUpIsPrefix(w: World, k: nat, current: nat, budget: nat, s: Schedule)
    ensures CatchUp(SweptTo(w, k, s), k, current, budget, true, s)
         == SweptTo(w, if k >= current then k else Min(current, k + budget), s)
    decreases budget
  {
    if k < current && budget > 0 {
      CatchUpIsPrefix(w, k + 1, current, budget - 1, s);
    }
  }

  /** After any ticks at all (late, early, failing anywhere) exactly a gapless prefix of the periods has
      been settled, each once and in ascending order, and the world is that of an uninterrupted run
      over the same periods. */
  lemma {:induction false} TicksSettleAGaplessPrefix(w: World, k: nat, ts: seq<Tick>, s: Schedule)
    requires w.rows == [] && w.log == []
    ensures var n := ReachAll(k, ts, s);
            && Ticks(SweptTo(w, k, s), ts, s) == SweptTo(w, n, s)
            && Ticks(SweptTo(w, k, s), ts, s).log == Upto(n)
            && Ticks(SweptTo(w, k, s), ts, s).rows == Upto(n)
    decreases |ts|
  {
    SweptToRows(w, k, s);
    if ts != [] {
      LatestOfPrefix(k);
      CatchUpIsPrefix(w, k, PeriodIndex(ts[0].now, s), ts[0].budget, s);
      TicksSettleAGaplessPrefix(w, Reach(k, ts[0], s), ts[1..], s);
    }
  }

  /** Nothing is settled before its period is complete, and a tick that does not fail settles all that
      are. */
  lemma {:induction false} OnlyCompletePeriodsAreSettled(k: nat, ts: seq<Tick>, last: int, s: Schedule)
    requires forall i :: 0 <= i < |ts| ==> ts[i].now <= last
    ensures k <= ReachAll(k, ts, s) <= Max(k, PeriodIndex(last, s))
    decreases |ts|
  {
    if ts != [] {
      PeriodsGrow(ts[0].now, last, s);
      OnlyCompletePeriodsAreSettled(Reach(k, ts[0], s), ts[1..], last, s);
    }
  }

  lemma PeriodsGrow(early: int, late: int, s: Schedule)
    requires early <= late
    ensures PeriodIndex(early, s) <= PeriodIndex(late, s)
  {
    if s.periodSecs > 0 && early > s.start {
      DivGrows(early - s.start, late - s.start, s.periodSecs * 1000);
    }
  }

  /** Two schedulers, whatever they went through, end in the same world once both have completed a tick
      in the same period. */
  lemma InterruptionsDoNotMatter(w: World, some: seq<Tick>, now: int, s: Schedule)
    requires w.rows == [] && w.log == []
    requires forall i :: 0 <= i < |some| ==> some[i].now <= now
    ensures DoTick(Ticks(w, some, s), Tick(now, PeriodIndex(now, s)), true, s) == SweptTo(w, PeriodIndex(now, s), s)
    ensures DoTick(w, Tick(now, PeriodIndex(now, s)), true, s) == SweptTo(w, PeriodIndex(now, s), s)
  {
    TicksSettleAGaplessPrefix(w, 0, some, s);
    OnlyCompletePeriodsAreSettled(0, some, now, s);
    AFullTick(w, ReachAll(0, some, s), now, s);
    AFullTick(w, 0, now, s);
  }

  lemma AFullTick(w: World, k: nat, now: int, s: Schedule)
    requires w.rows == [] && w.log == [] && k <= PeriodIndex(now, s)
    ensures DoTick(SweptTo(w, k, s), Tick(now, PeriodIndex(now, s)), true, s) == SweptTo(w, PeriodIndex(now, s), s)
  {
    SweptToRows(w, k, s);
    LatestOfPrefix(k);
    CatchUpIsPrefix(w, k, PeriodIndex(now, s), PeriodIndex(now, s), s);
  }

  // ------------------------------------------------------------------ who is swept

  lemma CutoffsGrow(p: nat, q: nat, s: Schedule)
    requires p <= q && s.periodSecs >= 0
    ensures Cutoff(p, s) <= Cutoff(q, s)
  {
    MulMonotone(s.periodSecs, p + 1, q + 1);
  }

  /** An account is gone exactly if it was idle before the last settled period's cutoff, and then it was
      abandoned in the first period whose cutoff it had missed. */
  lemma {:induction false} WhoIsSwept(w: World, k: nat, i: nat, s: Schedule)
    requires i < |w.users| && w.users[i].abandonedIn.None? && s.periodSecs >= 0
    ensures var u := w.users[i];
            var swept := SweptTo(w, k, s).users;
            && |swept| == |w.users|
            && (swept[i].abandonedIn.Some? <==> k > 0 && !u.exempt && u.lastActivity < Cutoff(k - 1, s))
            && (swept[i].abandonedIn.Some? ==>
                  var p := swept[i].abandonedIn.value;
                  p < k && u.lastActivity < Cutoff(p, s) && (p > 0 ==> Cutoff(p - 1, s) <= u.lastActivity))
            && swept[i].lastActivity == u.lastActivity && swept[i].exempt == u.exempt
  {
    if k > 0 {
      WhoIsSwept(w, k - 1, i, s);
      if k > 1 {
        CutoffsGrow(k - 2, k - 1, s);
      }
    }
  }

  /** How long an account has been idle when a period ends, in ms. */
  function IdleAtEnd(u: User, period: nat, s: Schedule): int {
    s.start + (period + 1) * s.periodSecs * 1000 - u.lastActivity
  }

  lemma MissedIffIdleTooLong(u: User, period: nat, s: Schedule)
    ensures u.lastActivity < Cutoff(period, s) <==> IdleAtEnd(u, period, s) > s.abandonAfterSecs * 1000
  {
  }

  /** An account is abandoned in a period exactly if that is the first at whose end it has been idle for
      longer than allowed; nobody else ever is. */
  lemma SweptInTheFirstPeriodIdleTooLong(w: World, k: nat, i: nat, period: nat, s: Schedule)
    requires i < |w.users| && w.users[i].abandonedIn.None? && s.periodSecs >= 0
    ensures var u := w.users[i];
            var swept := SweptTo(w, k, s).users;
            && |swept| == |w.users|
            && (swept[i].abandonedIn == Some(period) <==>
                  && period < k && !u.exempt && IdleAtEnd(u, period, s) > s.abandonAfterSecs * 1000
                  && (period > 0 ==> IdleAtEnd(u, period - 1, s) <= s.abandonAfterSecs * 1000))
  {
    var u := w.users[i];
    WhoIsSwept(w, k, i, s);
    MissedIffIdleTooLong(u, period, s);
    if period > 0 { MissedIffIdleTooLong(u, period - 1, s); }
    var swept := SweptTo(w, k, s).users[i].abandonedIn;
    if swept.Some? {
      if period < swept.value { CutoffsGrow(period, swept.value - 1, s); }
      if swept.value < period { CutoffsGrow(swept.value, period - 1, s); }
    } else if period < k {
      CutoffsGrow(period, k - 1, s);
    }
  }

  lemma InTheMultiple(ms: nat, length: nat)
    requires length > 0
    ensures Quotient(ms, length) * length <= ms < (Quotient(ms, length) + 1) * length
  {
    assert ms == ms / length * length + ms % length;
  }

  /** An instant falls in the period that has begun and not ended by then. */
  lemma AnInstantFallsInItsPeriod(now: int, s: Schedule)
    requires s.periodSecs > 0 && s.start <= now
    ensures var period := PeriodIndex(now, s);
            s.start + period * (s.periodSecs * 1000) <= now < s.start + (period + 1) * (s.periodSecs * 1000)
  {
    if now > s.start {
      InTheMultiple(now - s.start, s.periodSecs * 1000);
    } else {
      assert 0 * (s.periodSecs * 1000) == 0 && 1 * (s.periodSecs * 1000) == s.periodSecs * 1000;
    }
  }

  lemma EarlierPeriodsEndEarlier(start: int, length: nat, period: nat, current: nat, now: int)
    requires period < current && start + current * length <= now
    ensures start + (period + 1) * length <= now
  {
    MulMonotone(length, period + 1, current);
  }

  /** No period is settled before it is over. */
  lemma SettledPeriodsAreOver(ts: seq<Tick>, last: int, period: nat, s: Schedule)
    requires s.periodSecs > 0 && s.start <= last && forall i :: 0 <= i < |ts| ==> ts[i].now <= last
    requires period < ReachAll(0, ts, s)
    ensures s.start + (period + 1) * (s.periodSecs * 1000) <= last
  {
    OnlyCompletePeriodsAreSettled(0, ts, last, s);
    AnInstantFallsInItsPeriod(last, s);
    EarlierPeriodsEndEarlier(s.start, s.periodSecs * 1000, period, PeriodIndex(last, s), last);
  }

  // ------------------------------------------------------------------ a record nobody wrote

  /** The medal settlement's watermark is its snapshots. In a world with nobody to snapshot a settled
      period leaves none, and the watermark stays where it was, whatever number of periods was settled;
      so the next tick attempts the same ones once more (what it writes is keyed, and not written
      twice). A second tick finds nothing to do exactly if the first one recorded something, or had
      nothing to do either. */
  lemma AnUnrecordedSettlementRepeats(w: World, k: nat, now: int, records: bool, s: Schedule)
    requires w.rows == [] && w.log == []
    ensures var before := SweptTo(w, k, s);
            var n := PeriodIndex(now, s);
            var after := DoTick(before, Tick(now, n), records, s);
            && NextPeriod(before) == k && NextPeriod(after) == (if records then Max(k, n) else k)
            && (DoTick(after, Tick(now, n), records, s) == after <==> records || k >= n)
  {
    var before := SweptTo(w, k, s);
    var n := PeriodIndex(now, s);
    var after := DoTick(before, Tick(now, n), records, s);
    SweptToRows(w, k, s);
    LatestOfPrefix(k);
    if records {
      CatchUpIsPrefix(w, k, n, n, s);
      SweptToRows(w, Reach(k, Tick(now, n), s), s);
      LatestOfPrefix(Reach(k, Tick(now, n), s));
    } else {
      Unrecorded(before, k, n, n, s);
      Unrecorded(after, k, n, n, s);
    }
  }

  lemma {:induction false} Unrecorded(w: World, next: nat, current: nat, budget: nat, s: Schedule)
    ensures CatchUp(w, next, current, budget, false, s).rows == w.rows
    ensures |CatchUp(w, next, current, budget, false, s).log|
         == |w.log| + if next >= current then 0 else Min(budget, current - next)
    decreases budget
  {
    if next < current && budget > 0 {
      Unrecorded(SettlePeriod(w, next, false, s), next + 1, current, budget - 1, s);
    }
  }
}
