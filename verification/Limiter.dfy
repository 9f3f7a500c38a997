/**
 The fleet-wide rolling-hour budget of the LLM strategist (`LlmBudget`).

 The implementation keeps a pruned deque of grant instants. Its specification counts *every* grant
 ever made that is younger than one hour; the two are proved to take the same decisions on every
 run whose clock never steps back.
 */
module Limiter {

  const ONE_HOUR_MS: int := 3_600_000

  /** One `try_take` call: the caller's clock and the hourly limit in force. */
  datatype Call = Call(now: int, perHour: nat)

  /** The grants strictly younger than `cutoff`, in order. */
  function Recent(grants: seq<int>, cutoff: int): (r: seq<int>) {
    if grants == [] then []
    else if grants[0] > cutoff then [grants[0]] + Recent(grants[1..], cutoff)
    else Recent(grants[1..], cutoff)
  }

  /** How many grants fall in the hour-long window `(start, start + 1 h]`. */
  function CountInWindow(grants: seq<int>, start: int): nat {
    if grants == [] then 0
    else (if start < grants[0] <= start + ONE_HOUR_MS then 1 else 0) + CountInWindow(grants[1..], start)
  }

  /** Drop the stale prefix of the deque: everything up to the first event younger than `cutoff`. */
  function Prune(events: seq<int>, cutoff: int): (r: seq<int>) {
    if events != [] && events[0] <= cutoff then Prune(events[1..], cutoff) else events
  }

  /** The budget counter itself. */
  class LlmBudget {
    /** Instants of the calls still remembered, oldest first. */
    var events: seq<int>

    constructor ()
      ensures events == []
    {
      events := [];
    }

    method TryTake(nowMs: int, perHour: nat) returns (granted: bool)
      modifies this
      ensures (events, granted) == TakeStep(old(events), Call(nowMs, perHour))
    {
      var cutoff := nowMs - ONE_HOUR_MS;
      while events != [] && events[0] <= cutoff
        invariant Prune(events, cutoff) == Prune(old(events), cutoff)
        decreases |events|
      {
        events := events[1..];
      }
      if |events| < perHour {
        events := events + [nowMs];
        granted := true;
      } else {
        granted := false;
      }
    }
  }

  /** What one call does to the deque, and its answer. */
  function TakeStep(events: seq<int>, call: Call): (seq<int>, bool) {
    var kept := Prune(events, call.now - ONE_HOUR_MS);
    if |kept| < call.perHour then (kept + [call.now], true) else (kept, false)
  }

  /** The reference step: never forget a grant, and count those of the last hour. */
  function CountStep(grants: seq<int>, call: Call): (seq<int>, bool) {
    if |Recent(grants, call.now - ONE_HOUR_MS)| < call.perHour then (grants + [call.now], true) else (grants, false)
  }

  /** The answers the deque gives over a run that starts from `events`. */
  function DequeAnswers(events: seq<int>, calls: seq<Call>): seq<bool>
    decreases |calls|
  {
    if calls == [] then []
    else
      var (next, granted) := TakeStep(events, calls[0]);
      [granted] + DequeAnswers(next, calls[1..])
  }

  /** The answers full counting gives over a run that starts with the past `grants`. */
  function CountAnswers(grants: seq<int>, calls: seq<Call>): seq<bool>
    decreases |calls|
  {
    if calls == [] then []
    else
      var (next, granted) := CountStep(grants, calls[0]);
      [granted] + CountAnswers(next, calls[1..])
  }

  /** Every grant of a run that starts with the past `grants`. */
  function AllGrants(grants: seq<int>, calls: seq<Call>): seq<int>
    decreases |calls|
  {
    if calls == [] then grants else AllGrants(CountStep(grants, calls[0]).0, calls[1..])
  }

  /** The deque at the end of a run that starts from `events`. */
  function DequeAfter(events: seq<int>, calls: seq<Call>): seq<int>
    decreases |calls|
  {
    if calls == [] then events else DequeAfter(TakeStep(events, calls[0]).0, calls[1..])
  }

  /** The clocks of a run never step back, and never below `from`. */
  ghost predicate ClockFrom(from: int, calls: seq<Call>)
    decreases |calls|
  {
    calls != [] ==> from <= calls[0].now && ClockFrom(calls[0].now, calls[1..])
  }

  /** `s` is in order and nothing in it is later than `last`. */
  ghost predicate AscendingUpTo(s: seq<int>, last: int) {
    s != [] ==> s[0] <= last && AllAbove(s[1..], s[0] - 1) && AscendingUpTo(s[1..], last)
  }

  /** No stale event hides behind a fresh one. */
  ghost predicate FreshIsSuffix(s: seq<int>, cutoff: int) {
    s != [] ==> FreshIsSuffix(s[1..], cutoff) && (s[0] > cutoff ==> AllAbove(s[1..], cutoff))
  }

  ghost predicate AllAbove(s: seq<int>, bound: int) {
    s != [] ==> s[0] > bound && AllAbove(s[1..], bound)
  }

  lemma {:induction false} RecentOfAppend(s: seq<int>, t: int, cutoff: int)
    ensures Recent(s + [t], cutoff) == Recent(s, cutoff) + (if t > cutoff then [t] else [])
  {
    if s != [] {
      assert (s + [t])[1..] == s[1..] + [t];
      RecentOfAppend(s[1..], t, cutoff);
    }
  }

  lemma {:induction false} CountOfAppend(s: seq<int>, t: int, start: int)
    ensures CountInWindow(s + [t], start)
         == CountInWindow(s, start) + if start < t <= start + ONE_HOUR_MS then 1 else 0
  {
    if s == [] {
      assert [t][1..] == [];
      assert [] + [t] == [t];
    } else {
      assert (s + [t])[1..] == s[1..] + [t];
      CountOfAppend(s[1..], t, start);
    }
  }

  lemma {:induction false} RecentKeepsOnly(s: seq<int>, cutoff: int)
    ensures |Recent(s, cutoff)| <= |s|
    ensures |Recent(s, cutoff)| == |s| <==> AllAbove(s, cutoff)
    ensures AllAbove(s, cutoff) ==> Recent(s, cutoff) == s
  {
    if s != [] {
      RecentKeepsOnly(s[1..], cutoff);
    }
  }

  /** Pruning only from the front forgets exactly the stale events if and only if no stale event
      sits behind a fresh one. */
  lemma {:induction false} PruneForgetsExactlyTheStale(s: seq<int>, cutoff: int)
    ensures Prune(s, cutoff) == Recent(s, cutoff) <==> FreshIsSuffix(s, cutoff)
  {
    if s != [] {
      if s[0] <= cutoff {
        PruneForgetsExactlyTheStale(s[1..], cutoff);
      } else {
        RecentKeepsOnly(s, cutoff);
        AllAboveIsSuffix(s[1..], cutoff);
      }
    }
  }

  lemma {:induction false} AllAboveIsSuffix(s: seq<int>, cutoff: int)
    ensures AllAbove(s, cutoff) ==> FreshIsSuffix(s, cutoff)
  {
    if s != [] {
      AllAboveIsSuffix(s[1..], cutoff);
    }
  }

  lemma {:induction false} AllAboveLower(s: seq<int>, bound: int, lower: int)
    requires AllAbove(s, bound) && lower <= bound
    ensures AllAbove(s, lower)
  {
    if s != [] {
      AllAboveLower(s[1..], bound, lower);
    }
  }

  lemma {:induction false} AscendingHasFreshSuffix(s: seq<int>, last: int, cutoff: int)
    requires AscendingUpTo(s, last)
    ensures FreshIsSuffix(s, cutoff)
  {
    if s != [] {
      AscendingHasFreshSuffix(s[1..], last, cutoff);
      if s[0] > cutoff {
        AllAboveLower(s[1..], s[0] - 1, cutoff);
      }
    }
  }

  /** A later cutoff sees the same grants whether or not the older ones were already dropped. */
  lemma {:induction false} RecentOfRecent(s: seq<int>, early: int, late: int)
    requires early <= late
    ensures Recent(Recent(s, early), late) == Recent(s, late)
  {
    if s != [] {
      RecentOfRecent(s[1..], early, late);
      if s[0] > early {
        assert Recent(s, early)[1..] == Recent(s[1..], early);
      }
    }
  }

  lemma {:induction false} RecentStaysAbove(s: seq<int>, bound: int, cutoff: int)
    requires AllAbove(s, bound)
    ensures AllAbove(Recent(s, cutoff), bound)
  {
    if s != [] {
      RecentStaysAbove(s[1..], bound, cutoff);
      if s[0] > cutoff {
        assert Recent(s, cutoff)[1..] == Recent(s[1..], cutoff);
      }
    }
  }

  lemma {:induction false} RecentStaysAscending(s: seq<int>, last: int, cutoff: int)
    requires AscendingUpTo(s, last)
    ensures AscendingUpTo(Recent(s, cutoff), last)
  {
    if s != [] {
      RecentStaysAscending(s[1..], last, cutoff);
      if s[0] > cutoff {
        RecentStaysAbove(s[1..], s[0] - 1, cutoff);
        assert Recent(s, cutoff)[1..] == Recent(s[1..], cutoff);
      }
    }
  }

  lemma {:induction false} AboveAppend(s: seq<int>, bound: int, t: int)
    requires AllAbove(s, bound) && t > bound
    ensures AllAbove(s + [t], bound)
  {
    if s == [] {
      assert [] + [t] == [t] && [t][1..] == [];
    } else {
      assert (s + [t])[1..] == s[1..] + [t];
      AboveAppend(s[1..], bound, t);
    }
  }

  lemma {:induction false} AscendingAppend(s: seq<int>, last: int, t: int)
    requires AscendingUpTo(s, last) && last <= t
    ensures AscendingUpTo(s + [t], t)
  {
    if s == [] {
      assert [] + [t] == [t] && [t][1..] == [];
    } else {
      assert (s + [t])[1..] == s[1..] + [t];
      AscendingAppend(s[1..], last, t);
      AboveAppend(s[1..], s[0] - 1, t);
    }
  }

  /** Raising the bound of an ascending sequence. */
  lemma {:induction false} AscendingLater(s: seq<int>, last: int, later: int)
    requires AscendingUpTo(s, last) && last <= later
    ensures AscendingUpTo(s, later)
  {
    if s != [] {
      AscendingLater(s[1..], last, later);
    }
  }

  /** How the deque stands to the full history after a call at `clock`: it holds exactly the last
      hour of grants, and the history is in order. */
  ghost predicate Linked(events: seq<int>, grants: seq<int>, clock: int) {
    AscendingUpTo(grants, clock) && events == Recent(grants, clock - ONE_HOUR_MS)
  }

  lemma PruneOfLinked(events: seq<int>, grants: seq<int>, clock: int, now: int)
    requires Linked(events, grants, clock) && clock <= now
    ensures Prune(events, now - ONE_HOUR_MS) == Recent(grants, now - ONE_HOUR_MS)
  {
    RecentStaysAscending(grants, clock, clock - ONE_HOUR_MS);
    AscendingHasFreshSuffix(events, clock, now - ONE_HOUR_MS);
    PruneForgetsExactlyTheStale(events, now - ONE_HOUR_MS);
    RecentOfRecent(grants, clock - ONE_HOUR_MS, now - ONE_HOUR_MS);
  }

  lemma LinkedStep(events: seq<int>, grants: seq<int>, clock: int, call: Call)
    requires Linked(events, grants, clock) && clock <= call.now
    ensures TakeStep(events, call).1 == CountStep(grants, call).1
    ensures Linked(TakeStep(events, call).0, CountStep(grants, call).0, call.now)
  {
    PruneOfLinked(events, grants, clock, call.now);
    AscendingLater(grants, clock, call.now);
    AscendingAppend(grants, clock, call.now);
    RecentOfAppend(grants, call.now, call.now - ONE_HOUR_MS);
  }

  /** The pruned deque refines full-history counting: on every run of a clock that never steps
      back, whatever the limits, every answer is the one full counting gives, and at the end the
      deque remembers exactly the grants of the hour before the last call. */
  lemma {:induction false} DequeRefinesHistory(events: seq<int>, grants: seq<int>, clock: int, calls: seq<Call>)
    requires Linked(events, grants, clock) && ClockFrom(clock, calls)
    ensures DequeAnswers(events, calls) == CountAnswers(grants, calls)
    ensures calls != [] ==>
              Linked(DequeAfter(events, calls), AllGrants(grants, calls), calls[|calls| - 1].now)
    decreases |calls|
  {
    if calls != [] {
      LinkedStep(events, grants, clock, calls[0]);
      DequeRefinesHistory(TakeStep(events, calls[0]).0, CountStep(grants, calls[0]).0, calls[0].now, calls[1..]);
      if |calls| > 1 {
        assert calls[1..][|calls| - 2] == calls[|calls| - 1];
      } else {
        assert calls[1..] == [];
      }
    }
  }

  /** The same for a fresh budget: an empty deque against an empty history. */
  lemma FreshBudgetRefinesHistory(clock: int, calls: seq<Call>)
    requires ClockFrom(clock, calls)
    ensures DequeAnswers([], calls) == CountAnswers([], calls)
  {
    DequeRefinesHistory([], [], clock, calls);
  }

  lemma {:induction false} WindowWithinRecent(s: seq<int>, start: int, cutoff: int)
    requires cutoff <= start
    ensures CountInWindow(s, start) <= |Recent(s, cutoff)|
  {
    if s != [] {
      WindowWithinRecent(s[1..], start, cutoff);
    }
  }

  ghost predicate LimitsAtMost(calls: seq<Call>, limit: nat) {
    calls != [] ==> calls[0].perHour <= limit && LimitsAtMost(calls[1..], limit)
  }

  lemma {:induction false} CountingKeepsWithinTheLimit(grants: seq<int>, calls: seq<Call>, limit: nat, start: int)
    requires LimitsAtMost(calls, limit)
    requires CountInWindow(grants, start) <= limit
    ensures CountInWindow(AllGrants(grants, calls), start) <= limit
    decreases |calls|
  {
    if calls != [] {
      var now := calls[0].now;
      CountOfAppend(grants, now, start);
      if start < now <= start + ONE_HOUR_MS {
        WindowWithinRecent(grants, start, now - ONE_HOUR_MS);
      }
      CountingKeepsWithinTheLimit(CountStep(grants, calls[0]).0, calls[1..], limit, start);
    }
  }

  /** The instants of the calls that were granted. */
  function Granted(calls: seq<Call>, answers: seq<bool>): seq<int>
    requires |answers| == |calls|
    decreases |calls|
  {
    if calls == [] then []
    else (if answers[0] then [calls[0].now] else []) + Granted(calls[1..], answers[1..])
  }

  lemma {:induction false} OneAnswerACall(events: seq<int>, calls: seq<Call>)
    ensures |DequeAnswers(events, calls)| == |calls|
    decreases |calls|
  {
    if calls != [] {
      OneAnswerACall(TakeStep(events, calls[0]).0, calls[1..]);
    }
  }

  /** What the budget grants over a run that starts from an empty deque. */
  function DequeGrants(calls: seq<Call>): seq<int> {
    OneAnswerACall([], calls);
    Granted(calls, DequeAnswers([], calls))
  }

  lemma {:induction false} CountingGrants(grants: seq<int>, calls: seq<Call>)
    ensures |CountAnswers(grants, calls)| == |calls|
    ensures AllGrants(grants, calls) == grants + Granted(calls, CountAnswers(grants, calls))
    decreases |calls|
  {
    if calls != [] {
      var (next, granted) := CountStep(grants, calls[0]);
      CountingGrants(next, calls[1..]);
      assert CountAnswers(grants, calls)[1..] == CountAnswers(next, calls[1..]);
      var now: seq<int> := if granted then [calls[0].now] else [];
      var rest := Granted(calls[1..], CountAnswers(next, calls[1..]));
      assert Granted(calls, CountAnswers(grants, calls)) == now + rest;
      assert next == grants + now && (grants + now) + rest == grants + (now + rest);
    }
  }

  /** As long as the clock never steps back, no hour-long window `(start, start + 1 h]` ever holds more
      than `limit` of the calls the budget granted. */
  lemma NoWindowExceedsTheLimit(clock: int, calls: seq<Call>, limit: nat, start: int)
    requires ClockFrom(clock, calls) && LimitsAtMost(calls, limit)
    ensures CountInWindow(DequeGrants(calls), start) <= limit
  {
    FreshBudgetRefinesHistory(clock, calls);
    CountingGrants([], calls);
    assert [] + DequeGrants(calls) == DequeGrants(calls);
    CountingKeepsWithinTheLimit([], calls, limit, start);
  }

  lemma {:induction false} RecentIsWindow(s: seq<int>, now: int)
    requires AscendingUpTo(s, now)
    ensures |Recent(s, now - ONE_HOUR_MS)| == CountInWindow(s, now - ONE_HOUR_MS)
  {
    if s != [] {
      RecentIsWindow(s[1..], now);
    }
  }

  /** A call is refused if and only if the window ending now already holds `perHour` grants. */
  lemma RefusedIffWindowIsFull(events: seq<int>, grants: seq<int>, clock: int, call: Call)
    requires Linked(events, grants, clock) && clock <= call.now
    ensures !TakeStep(events, call).1 <==> CountInWindow(grants, call.now - ONE_HOUR_MS) >= call.perHour
  {
    LinkedStep(events, grants, clock, call);
    AscendingLater(grants, clock, call.now);
    RecentIsWindow(grants, call.now);
  }

  /** The windows are half-open for a reason: a grant and its successor exactly one hour later both
      pass a limit of one, so the *closed* hour between them holds two. */
  lemma ClosedHourMayHoldTwo()
    ensures AllGrants([], [Call(0, 1), Call(ONE_HOUR_MS, 1)]) == [0, ONE_HOUR_MS]
  {
    var calls := [Call(0, 1), Call(ONE_HOUR_MS, 1)];
    assert calls[1..] == [calls[1]] && [calls[1]][1..] == [];
    assert CountStep([], calls[0]).0 == [] + [0] == [0];
    assert [0][1..] == [];
    assert CountStep([0], calls[1]).0 == [0] + [ONE_HOUR_MS];
    assert AllGrants([0], [calls[1]]) == AllGrants([0, ONE_HOUR_MS], []);
  }

  // ------------------------------------------------------------------ clocks that step back

  /** The budget's own grants: those its deque has dropped, and those it still remembers. */
  datatype History = History(forgotten: seq<int>, events: seq<int>) {
    function Grants(): seq<int> { forgotten + events }
  }

  /** The stale prefix that pruning drops. */
  function Dropped(events: seq<int>, cutoff: int): (r: seq<int>)
    ensures r + Prune(events, cutoff) == events
  {
    if events != [] && events[0] <= cutoff then [events[0]] + Dropped(events[1..], cutoff) else []
  }

  function HistoryStep(h: History, call: Call): History {
    History(h.forgotten + Dropped(h.events, call.now - ONE_HOUR_MS), TakeStep(h.events, call).0)
  }

  function HistoryAfter(h: History, calls: seq<Call>): History
    decreases |calls|
  {
    if calls == [] then h else HistoryAfter(HistoryStep(h, calls[0]), calls[1..])
  }

  /** Whatever the clocks do, a deque is what is left of the budget's grants once a prefix of them is
      forgotten. */
  lemma {:induction false} TheDequeIsTheRestOfItsGrants(h: History, calls: seq<Call>)
    ensures HistoryAfter(h, calls).events == DequeAfter(h.events, calls)
    ensures |DequeAnswers(h.events, calls)| == |calls|
    ensures HistoryAfter(h, calls).Grants() == h.Grants() + Granted(calls, DequeAnswers(h.events, calls))
    decreases |calls|
  {
    if calls != [] {
      var next := HistoryStep(h, calls[0]);
      var granted := TakeStep(h.events, calls[0]).1;
      TheDequeIsTheRestOfItsGrants(next, calls[1..]);
      assert DequeAnswers(h.events, calls)[1..] == DequeAnswers(next.events, calls[1..]);
      StepAddsItsGrant(h, calls[0]);
      var now: seq<int> := if granted then [calls[0].now] else [];
      var rest := Granted(calls[1..], DequeAnswers(next.events, calls[1..]));
      assert Granted(calls, DequeAnswers(h.events, calls)) == now + rest;
      assert h.Grants() + (now + rest) == (h.Grants() + now) + rest;
    }
  }

  lemma StepAddsItsGrant(h: History, call: Call)
    ensures HistoryStep(h, call).Grants() == h.Grants() + if TakeStep(h.events, call).1 then [call.now] else []
  {
    var cutoff := call.now - ONE_HOUR_MS;
    var kept, dropped := Prune(h.events, cutoff), Dropped(h.events, cutoff);
    assert (h.forgotten + dropped) + kept == h.forgotten + (dropped + kept);
    assert (h.forgotten + dropped) + (kept + [call.now]) == ((h.forgotten + dropped) + kept) + [call.now];
  }

  /** How many of `s` are stale. */
  function StaleIn(s: seq<int>, cutoff: int): nat {
    if s == [] then 0 else (if s[0] <= cutoff then 1 else 0) + StaleIn(s[1..], cutoff)
  }

  /** How many of `s` are later than `now`. */
  function LaterIn(s: seq<int>, now: int): nat {
    if s == [] then 0 else (if s[0] > now then 1 else 0) + LaterIn(s[1..], now)
  }

  /** The grants of the hour that ends now. */
  function LastHour(s: seq<int>, now: int): seq<int> {
    if s == [] then []
    else (if now - ONE_HOUR_MS < s[0] <= now then [s[0]] else []) + LastHour(s[1..], now)
  }

  lemma {:induction false} EachIsStaleLaterOrInTheHour(s: seq<int>, now: int)
    ensures |s| == StaleIn(s, now - ONE_HOUR_MS) + LaterIn(s, now) + CountInWindow(s, now - ONE_HOUR_MS)
    ensures |LastHour(s, now)| == CountInWindow(s, now - ONE_HOUR_MS)
    ensures |LastHour(s, now)| == |s| ==> LastHour(s, now) == s
  {
    if s != [] {
      EachIsStaleLaterOrInTheHour(s[1..], now);
    }
  }

  lemma {:induction false} CountOfConcat(s: seq<int>, t: seq<int>, start: int)
    ensures CountInWindow(s + t, start) == CountInWindow(s, start) + CountInWindow(t, start)
  {
    if s == [] {
      assert [] + t == t;
    } else {
      assert (s + t)[1..] == s[1..] + t;
      CountOfConcat(s[1..], t, start);
    }
  }

  lemma {:induction false} HourOfConcat(s: seq<int>, t: seq<int>, now: int)
    ensures LastHour(s + t, now) == LastHour(s, now) + LastHour(t, now)
  {
    if s == [] {
      assert [] + t == t && LastHour([], now) + LastHour(t, now) == LastHour(t, now);
    } else {
      assert (s + t)[1..] == s[1..] + t;
      HourOfConcat(s[1..], t, now);
      var first: seq<int> := if now - ONE_HOUR_MS < s[0] <= now then [s[0]] else [];
      assert LastHour(s + t, now) == first + (LastHour(s[1..], now) + LastHour(t, now));
      assert first + (LastHour(s[1..], now) + LastHour(t, now)) == (first + LastHour(s[1..], now)) + LastHour(t, now);
    }
  }

  lemma {:induction false} TheDroppedAreStale(events: seq<int>, now: int)
    ensures CountInWindow(Dropped(events, now - ONE_HOUR_MS), now - ONE_HOUR_MS) == 0
    ensures LastHour(Dropped(events, now - ONE_HOUR_MS), now) == []
  {
    if events != [] && events[0] <= now - ONE_HOUR_MS {
      var dropped := Dropped(events, now - ONE_HOUR_MS);
      assert dropped[1..] == Dropped(events[1..], now - ONE_HOUR_MS);
      TheDroppedAreStale(events[1..], now);
    }
  }

  lemma HourOfHistory(h: History, now: int)
    ensures var kept := Prune(h.events, now - ONE_HOUR_MS);
            && LastHour(h.Grants(), now) == LastHour(h.forgotten, now) + LastHour(kept, now)
            && CountInWindow(h.Grants(), now - ONE_HOUR_MS)
                 == CountInWindow(h.forgotten, now - ONE_HOUR_MS) + CountInWindow(kept, now - ONE_HOUR_MS)
  {
    var cutoff := now - ONE_HOUR_MS;
    var kept, dropped := Prune(h.events, cutoff), Dropped(h.events, cutoff);
    HourOfConcat(h.forgotten, h.events, now);
    CountOfConcat(h.forgotten, h.events, cutoff);
    assert dropped + kept == h.events;
    HourOfConcat(dropped, kept, now);
    CountOfConcat(dropped, kept, cutoff);
    assert [] + LastHour(kept, now) == LastHour(kept, now);
    TheDroppedAreStale(h.events, now);
  }

  /** For any history, so at any call of any run: the budget's answer is the one that counting its
      grants of the last hour gives, whatever the limit, if and only if the stale grants hidden in the
      deque and the grants of a later clock make up for the forgotten grants of that hour. */
  lemma ACallAgreesWithCountingIff(h: History, now: int)
    ensures var cutoff := now - ONE_HOUR_MS;
            var kept := Prune(h.events, cutoff);
            var evened := StaleIn(kept, cutoff) + LaterIn(kept, now) == CountInWindow(h.forgotten, cutoff);
            (forall limit: nat :: TakeStep(h.events, Call(now, limit)).1 == (CountInWindow(h.Grants(), cutoff) < limit)) <==> evened
  {
    var cutoff := now - ONE_HOUR_MS;
    var kept, count := Prune(h.events, cutoff), CountInWindow(h.Grants(), cutoff);
    HourOfHistory(h, now);
    EachIsStaleLaterOrInTheHour(kept, now);
    forall limit: nat ensures TakeStep(h.events, Call(now, limit)).1 == (|kept| < limit) {}
    if forall limit: nat :: TakeStep(h.events, Call(now, limit)).1 == (count < limit) {
      assert TakeStep(h.events, Call(now, count)).1 == (count < count);
      assert TakeStep(h.events, Call(now, |kept|)).1 == (count < |kept|);
    }
  }

  /** And the budget looks at exactly the grants of the last hour if and only if it has forgotten none
      of them, none of a later clock is remembered, and no stale one is hidden. */
  lemma TheDequeIsTheLastHourIff(h: History, now: int)
    ensures var cutoff := now - ONE_HOUR_MS;
            var kept := Prune(h.events, cutoff);
            var accurate := CountInWindow(h.forgotten, cutoff) == 0 && LaterIn(kept, now) == 0 && StaleIn(kept, cutoff) == 0;
            kept == LastHour(h.Grants(), now) <==> accurate
  {
    var cutoff := now - ONE_HOUR_MS;
    var kept := Prune(h.events, cutoff);
    HourOfHistory(h, now);
    EachIsStaleLaterOrInTheHour(kept, now);
    EachIsStaleLaterOrInTheHour(h.forgotten, now);
    if kept == LastHour(h.Grants(), now) {
      HourOfHour(h.Grants(), now);
    }
  }

  lemma {:induction false} HourOfHour(s: seq<int>, now: int)
    ensures LastHour(LastHour(s, now), now) == LastHour(s, now)
  {
    if s != [] {
      HourOfHour(s[1..], now);
      var rest := LastHour(s[1..], now);
      if now - ONE_HOUR_MS < s[0] <= now {
        assert LastHour(s, now) == [s[0]] + rest && ([s[0]] + rest)[1..] == rest;
      } else {
        assert LastHour(s, now) == [] + rest == rest;
      }
    }
  }

  /** If the clock steps back, the deque may grant too much: with a limit of two, calls at eight hours,
      again, at ten hours and at half past eight are all granted, three of them within one hour. */
  lemma SteppedBackClockGrantsTooMuch()
    ensures var h := ONE_HOUR_MS;
            var calls := [Call(8 * h, 2), Call(8 * h, 2), Call(10 * h, 2), Call(8 * h + h / 2, 2)];
            && DequeGrants(calls) == [8 * h, 8 * h, 10 * h, 8 * h + h / 2]
            && CountInWindow(DequeGrants(calls), 7 * h + h / 2) == 3
  {
    var h := ONE_HOUR_MS;
    var t, u, v := 8 * h, 10 * h, 8 * h + h / 2;
    var c := [Call(t, 2), Call(t, 2), Call(u, 2), Call(v, 2)];
    TakenFromKept([], c[0], []);
    assert [] + [t] == [t];
    TakenFromKept([t], c[1], [t]);
    assert [t] + [t] == [t, t];
    TwoStale(t, u - h);
    TakenFromKept([t, t], c[2], []);
    assert [] + [u] == [u];
    TakenFromKept([u], c[3], [u]);
    assert [u] + [v] == [u, v];
    GrantedNext([], c, [t]);
    GrantedNext([t], c[1..], [t, t]);
    GrantedNext([t, t], c[1..][1..], [u]);
    GrantedNext([u], c[1..][1..][1..], [u, v]);
    OneAnswerACall([u, v], c[1..][1..][1..][1..]);
    var g := [t, t, u, v];
    assert DequeGrants(c) == g;
    var start := 7 * h + h / 2;
    assert [v][1..] == [] && CountInWindow([v], start) == 1;
    assert [u, v][1..] == [v] && CountInWindow([u, v], start) == 1;
    assert [t, u, v][1..] == [u, v] && CountInWindow([t, u, v], start) == 2;
    assert g[1..] == [t, u, v] && CountInWindow(g, start) == 3;
  }

  lemma TakenFromKept(events: seq<int>, call: Call, kept: seq<int>)
    requires Prune(events, call.now - ONE_HOUR_MS) == kept && |kept| < call.perHour
    ensures TakeStep(events, call) == (kept + [call.now], true)
  {
  }

  lemma TwoStale(t: int, cutoff: int)
    requires t <= cutoff
    ensures Prune([t, t], cutoff) == []
  {
    assert [t][1..] == [] && Prune([t], cutoff) == [];
    assert [t, t][1..] == [t];
  }

  lemma GrantedNext(events: seq<int>, calls: seq<Call>, next: seq<int>)
    requires calls != [] && TakeStep(events, calls[0]) == (next, true)
    ensures |DequeAnswers(events, calls)| == |calls| && |DequeAnswers(next, calls[1..])| == |calls| - 1
    ensures Granted(calls, DequeAnswers(events, calls)) == [calls[0].now] + Granted(calls[1..], DequeAnswers(next, calls[1..]))
  {
    OneAnswerACall(events, calls);
    OneAnswerACall(next, calls[1..]);
    var answers, rest := DequeAnswers(events, calls), DequeAnswers(next, calls[1..]);
    assert answers == [true] + rest && answers[1..] == rest;
    assert Granted(calls, answers) == [calls[0].now] + Granted(calls[1..], answers[1..]);
  }

  /** If the clock steps back, a stale grant can hide behind a fresh one: the deque left by grants at
      ten hours and then at zero refuses a call at two hours that full counting allows. */
  lemma SteppedBackClockRefusesTooMuch()
    ensures var late := Call(10 * ONE_HOUR_MS, 2);
            var early := Call(0, 2);
            var between := Call(2 * ONE_HOUR_MS, 2);
            var events := TakeStep(TakeStep([], late).0, early).0;
            var grants := CountStep(CountStep([], late).0, early).0;
            !TakeStep(events, between).1 && CountStep(grants, between).1
  {
    var t := 10 * ONE_HOUR_MS;
    assert TakeStep([], Call(t, 2)).0 == [t];
    assert TakeStep([t], Call(0, 2)).0 == [t, 0];
    assert CountStep([], Call(t, 2)).0 == [t];
    RecentKeepsOnly([t], -ONE_HOUR_MS);
    assert CountStep([t], Call(0, 2)).0 == [t, 0];
    assert [t, 0][1..] == [0] && [0][1..] == [];
    assert Recent([0], ONE_HOUR_MS) == [];
    assert Recent([t, 0], ONE_HOUR_MS) == [t];
  }
}
