/**
 Culture points: a per-player value and its anchor, settled lazily at the live rate, and re-anchored
 before every event that changes the rate.
 */
module Culture {
  import opened Arithmetic
  import opened Economy

  /** The stored `(value, updated_at)`; the instant in ms. */
  datatype Anchor = Anchor(value: int, at: int)

  /** Up to `at`, the player's villages make `rate` points an hour; then the value is re-anchored. */
  datatype Piece = Piece(rate: int, at: int)

  const MS_PER_HOUR: nat := 3_600_000

  /** `settle_value`, in saturating 64-bit arithmetic with division toward zero. */
  function SettleValue(value: int, rate: int, secs: int): int {
    Max(0, Saturate(value + TruncDiv(Saturate(rate * Max(0, secs)), 3600)))
  }

  /** The value as read at `now` at the live rate. */
  function View(a: Anchor, rate: int, now: int): int {
    SettleValue(a.value, rate, TruncDiv(now - a.at, 1000))
  }

  /** `reanchor_culture`: nothing keeps the new anchor from lying before the old one. */
  function Reanchor(a: Anchor, p: Piece): Anchor {
    Anchor(View(a, p.rate, p.at), p.at)
  }

  function After(a: Anchor, pieces: seq<Piece>): Anchor
    decreases |pieces|
  {
    if pieces == [] then a else After(Reanchor(a, pieces[0]), pieces[1..])
  }

  /** What one piece is worth, in points times ms per hour. */
  function Worth(from: int, p: Piece): int { p.rate * (p.at - from) }

  /** The exact integral of the rate over time, in points times ms per hour. */
  function Exact(from: int, pieces: seq<Piece>): int
    decreases |pieces|
  {
    if pieces == [] then 0
    else Worth(from, pieces[0]) + Exact(pieces[0].at, pieces[1..])
  }

  predicate Ordered(from: int, pieces: seq<Piece>)
    decreases |pieces|
  {
    pieces != [] ==> pieces[0].rate >= 0 && from <= pieces[0].at && Ordered(pieces[0].at, pieces[1..])
  }

  /** What the floors may cost: less than a point, and less than a second's worth, per re-anchor. */
  function Slack(pieces: seq<Piece>): int {
    if pieces == [] then 0 else 999 * pieces[0].rate + 3_599_000 + Slack(pieces[1..])
  }

  // ------------------------------------------------------------------ one piece

  lemma FloorBounds(n: int, d: nat)
    requires d > 0 && n >= 0
    ensures TruncDiv(n, d) * d <= n < TruncDiv(n, d) * d + d
    ensures TruncDiv(n, d) >= 0
  {
  }

  lemma Scale(rate: int, secs: int, ms: int)
    requires rate >= 0 && secs * 1000 <= ms <= secs * 1000 + 999
    ensures rate * secs * 1000 <= rate * ms <= rate * secs * 1000 + 999 * rate
  {
    MulMonotone(rate, secs * 1000, ms);
    MulMonotone(rate, ms, secs * 1000 + 999);
    assert rate * (secs * 1000 + 999) == rate * (secs * 1000) + rate * 999;
    assert rate * (secs * 1000) == rate * secs * 1000;
  }

  lemma GainNeverExceeds(value: int, rate: int, secs: nat)
    requires 0 <= value && rate >= 0
    ensures 0 <= SettleValue(value, rate, secs)
    ensures (SettleValue(value, rate, secs) - value) * 3600 <= rate * secs
    ensures value <= I64_MAX ==> value <= SettleValue(value, rate, secs)
  {
    assert rate * secs >= 0;
    FloorBounds(Saturate(rate * secs), 3600);
  }

  lemma GainLosesAtMostAPoint(value: int, rate: int, secs: nat)
    requires 0 <= value && rate >= 0 && value + rate * secs <= I64_MAX
    ensures rate * secs - 3599 <= (SettleValue(value, rate, secs) - value) * 3600
  {
    assert rate * secs >= 0;
    FloorBounds(rate * secs, 3600);
  }

  lemma PieceBounds(a: Anchor, p: Piece)
    requires 0 <= a.value && p.rate >= 0 && a.at <= p.at
    ensures var gain := Reanchor(a, p).value - a.value;
            && 0 <= Reanchor(a, p).value && 0 <= Worth(a.at, p)
            && gain * MS_PER_HOUR <= Worth(a.at, p)
            && gain <= Worth(a.at, p)
            && (a.value + Worth(a.at, p) <= I64_MAX ==>
                  Worth(a.at, p) - 999 * p.rate - 3_599_000 <= gain * MS_PER_HOUR)
  {
    var ms := p.at - a.at;
    var secs := TruncDiv(ms, 1000);
    FloorBounds(ms, 1000);
    Scale(p.rate, secs, ms);
    GainNeverExceeds(a.value, p.rate, secs);
    if a.value + p.rate * ms <= I64_MAX {
      assert p.rate * secs >= 0;
      GainLosesAtMostAPoint(a.value, p.rate, secs);
    }
  }

  // ------------------------------------------------------------------ any number of pieces

  /** However often the value was re-anchored, at non-decreasing instants, it never runs ahead of the
      exact integral of the rate. */
  lemma {:induction false} NeverAheadOfTheIntegral(a: Anchor, pieces: seq<Piece>)
    requires 0 <= a.value && Ordered(a.at, pieces)
    ensures 0 <= After(a, pieces).value
    ensures (After(a, pieces).value - a.value) * MS_PER_HOUR <= Exact(a.at, pieces)
    decreases |pieces|
  {
    if pieces != [] {
      PieceBounds(a, pieces[0]);
      NeverAheadOfTheIntegral(Reanchor(a, pieces[0]), pieces[1..]);
    }
  }

  lemma {:induction false} ExactIsNeverNegative(from: int, pieces: seq<Piece>)
    requires Ordered(from, pieces)
    ensures Exact(from, pieces) >= 0
    decreases |pieces|
  {
    if pieces != [] {
      ExactIsNeverNegative(pieces[0].at, pieces[1..]);
      assert Worth(from, pieces[0]) >= 0;
    }
  }

  lemma ShortfallAdds(start: int, middle: int, end: int, worth: int, rate: int, rest: int, slack: int)
    requires worth - 999 * rate - 3_599_000 <= (middle - start) * MS_PER_HOUR
    requires rest - slack <= (end - middle) * MS_PER_HOUR
    ensures worth + rest - (999 * rate + 3_599_000 + slack) <= (end - start) * MS_PER_HOUR
  {
  }

  /** And short of 64-bit saturation it falls short by less than one point and one second per
      re-anchor, whatever the lengths of the pieces. */
  lemma {:induction false} ShortfallIsLinearInReanchors(a: Anchor, pieces: seq<Piece>)
    requires 0 <= a.value && Ordered(a.at, pieces)
    requires a.value + Exact(a.at, pieces) <= I64_MAX
    ensures Exact(a.at, pieces) - Slack(pieces) <= (After(a, pieces).value - a.value) * MS_PER_HOUR
    decreases |pieces|
  {
    if pieces != [] {
      var p, rest := pieces[0], pieces[1..];
      PieceBounds(a, p);
      ExactIsNeverNegative(p.at, rest);
      var next := Reanchor(a, p);
      ShortfallIsLinearInReanchors(next, rest);
      ShortfallAdds(a.value, next.value, After(next, rest).value, Worth(a.at, p), p.rate, Exact(p.at, rest), Slack(rest));
    }
  }

  /** What a player reads is the value re-anchored then and there, so both bounds hold of it too. */
  lemma {:induction false} ReadingIsOneMorePiece(a: Anchor, pieces: seq<Piece>, rate: int, now: int)
    ensures View(After(a, pieces), rate, now) == After(a, pieces + [Piece(rate, now)]).value
    decreases |pieces|
  {
    if pieces == [] {
      assert [Piece(rate, now)][1..] == [];
    } else {
      assert (pieces + [Piece(rate, now)])[1..] == pieces[1..] + [Piece(rate, now)];
      ReadingIsOneMorePiece(Reanchor(a, pieces[0]), pieces[1..], rate, now);
    }
  }

  /** Where the order matters: re-anchored at an instant before its anchor, the value stands still but
      the clock goes back, and re-anchoring where it was before pays for the same time again, exactly
      if that time is worth a point. */
  lemma ABackdatedAnchorPaysTwice(a: Anchor, rate: int, early: int)
    requires 0 <= a.value && rate >= 0 && early <= a.at
    requires a.value + rate * (a.at - early) <= I64_MAX
    ensures var back := Reanchor(a, Piece(rate, early));
            var again := Reanchor(back, Piece(rate, a.at));
            && back == Anchor(a.value, early)
            && again.at == a.at
            && (again.value > a.value <==> rate * TruncDiv(a.at - early, 1000) >= 3600)
  {
    var secs := TruncDiv(a.at - early, 1000);
    FloorBounds(a.at - early, 1000);
    Scale(rate, secs, a.at - early);
    FloorBounds(Saturate(rate * secs), 3600);
  }

  // ------------------------------------------------------------------ Town Halls in batches

  /** What the points depend on: the Town Hall level of each of the player's villages. */
  datatype Player = Player(anchor: Anchor, halls: seq<nat>)

  /** A due Town Hall order: its village, the level it reaches, and when it was complete. */
  datatype Hall = Hall(village: nat, level: nat, completeAt: int)

  datatype Rules = Rules(base: nat, perLevel: seq<nat>) {
    /** The points of a Town Hall level; beyond the table, those of its last entry. */
    function HallPoints(level: nat): nat {
      if perLevel == [] then 0 else perLevel[Min(level, |perLevel| - 1)]
    }

    function Rate(halls: seq<nat>): nat {
      if halls == [] then 0 else base + HallPoints(halls[0]) + Rate(halls[1..])
    }
  }

  function Complete(p: Player, h: Hall, r: Rules): Player {
    Player(Reanchor(p.anchor, Piece(r.Rate(p.halls), h.completeAt)),
           if h.village < |p.halls| then p.halls[h.village := h.level] else p.halls)
  }

  function CompleteAll(p: Player, due: seq<Hall>, r: Rules): Player
    decreases |due|
  {
    if due == [] then p else CompleteAll(Complete(p, due[0], r), due[1..], r)
  }

  function InBatches(p: Player, batches: seq<seq<Hall>>, r: Rules): Player
    decreases |batches|
  {
    if batches == [] then p else InBatches(CompleteAll(p, batches[0], r), batches[1..], r)
  }

  function Flat(batches: seq<seq<Hall>>): seq<Hall> {
    if batches == [] then [] else batches[0] + Flat(batches[1..])
  }

  lemma {:induction false} CompleteInTwo(p: Player, first: seq<Hall>, second: seq<Hall>, r: Rules)
    ensures CompleteAll(p, first + second, r) == CompleteAll(CompleteAll(p, first, r), second, r)
    decreases |first|
  {
    if first == [] {
      assert [] + second == second;
    } else {
      assert (first + second)[1..] == first[1..] + second;
      CompleteInTwo(Complete(p, first[0], r), first[1..], second, r);
    }
  }

  /** Value, anchor and levels depend on the stream of Town Halls only, not on how ticks batch it. */
  lemma {:induction false} BatchingDoesNotMatter(p: Player, batches: seq<seq<Hall>>, r: Rules)
    ensures InBatches(p, batches, r) == CompleteAll(p, Flat(batches), r)
    decreases |batches|
  {
    if batches != [] {
      CompleteInTwo(p, batches[0], Flat(batches[1..]), r);
      BatchingDoesNotMatter(CompleteAll(p, batches[0], r), batches[1..], r);
    }
  }

  /** The rate pieces that a stream of Town Halls stands for: each level up to its completion, at the
      rate of everything completed before it. */
  function PiecesOf(halls: seq<nat>, due: seq<Hall>, r: Rules): seq<Piece>
    decreases |due|
  {
    if due == [] then []
    else
      var h := due[0];
      [Piece(r.Rate(halls), h.completeAt)]
      + PiecesOf(if h.village < |halls| then halls[h.village := h.level] else halls, due[1..], r)
  }

  predicate InOrder(from: int, due: seq<Hall>)
    decreases |due|
  {
    due != [] ==> from <= due[0].completeAt && InOrder(due[0].completeAt, due[1..])
  }

  lemma {:induction false} HallsArePieces(p: Player, due: seq<Hall>, r: Rules)
    ensures CompleteAll(p, due, r).anchor == After(p.anchor, PiecesOf(p.halls, due, r))
    ensures InOrder(p.anchor.at, due) ==> Ordered(p.anchor.at, PiecesOf(p.halls, due, r))
    decreases |due|
  {
    if due != [] {
      var next := Complete(p, due[0], r);
      var rest := PiecesOf(next.halls, due[1..], r);
      HallsArePieces(next, due[1..], r);
      assert PiecesOf(p.halls, due, r) == [Piece(r.Rate(p.halls), due[0].completeAt)] + rest;
      assert ([Piece(r.Rate(p.halls), due[0].completeAt)] + rest)[1..] == rest;
    }
  }

  /** Town Halls processed late, in any batches, in completion order: the points are those of the exact
      integral, each period at the rate that was in force, up to the floors. */
  lemma LateTownHallsAreCreditedExactly(p: Player, batches: seq<seq<Hall>>, r: Rules)
    requires 0 <= p.anchor.value && InOrder(p.anchor.at, Flat(batches))
    requires p.anchor.value + Exact(p.anchor.at, PiecesOf(p.halls, Flat(batches), r)) <= I64_MAX
    ensures var pieces := PiecesOf(p.halls, Flat(batches), r);
            var gain := (InBatches(p, batches, r).anchor.value - p.anchor.value) * MS_PER_HOUR;
            Exact(p.anchor.at, pieces) - Slack(pieces) <= gain <= Exact(p.anchor.at, pieces)
  {
    BatchingDoesNotMatter(p, batches, r);
    HallsArePieces(p, Flat(batches), r);
    NeverAheadOfTheIntegral(p.anchor, PiecesOf(p.halls, Flat(batches), r));
    ShortfallIsLinearInReanchors(p.anchor, PiecesOf(p.halls, Flat(batches), r));
  }

  // ------------------------------------------------------------------ what each Town Hall pays

  /** What a level of a Town Hall adds an hour: its entry of the table, the last entry beyond its end,
      nothing if there is none. */
  predicate Pays(perLevel: seq<nat>, level: nat, points: nat) {
    if level < |perLevel| then points == perLevel[level] else if perLevel == [] then points == 0
    else points == perLevel[|perLevel| - 1]
  }

  /** Raising a Town Hall changes the hourly rate by the difference of the two levels. */
  lemma {:induction false} ARaiseAddsTheDifference(halls: seq<nat>, village: nat, level: nat, was: nat, becomes: nat, r: Rules)
    requires village < |halls| && Pays(r.perLevel, halls[village], was) && Pays(r.perLevel, level, becomes)
    ensures r.Rate(halls[village := level]) == r.Rate(halls) + becomes - was
  {
    if village > 0 {
      assert halls[village := level][1..] == halls[1..][village - 1 := level];
      ARaiseAddsTheDifference(halls[1..], village - 1, level, was, becomes, r);
    } else {
      assert halls[village := level][1..] == halls[1..];
    }
  }

  /** One village more pays the base and its Town Hall, if any. */
  lemma {:induction false} AVillageAddsTheBase(halls: seq<nat>, level: nat, points: nat, r: Rules)
    requires Pays(r.perLevel, level, points)
    ensures r.Rate([]) == 0 && r.Rate(halls + [level]) == r.Rate(halls) + r.base + points
  {
    if halls == [] {
      assert [level][1..] == [] && [] + [level] == [level];
    } else {
      assert (halls + [level])[1..] == halls[1..] + [level];
      AVillageAddsTheBase(halls[1..], level, points, r);
    }
  }

  function Raised(halls: seq<nat>, h: Hall): seq<nat> {
    if h.village < |halls| then halls[h.village := h.level] else halls
  }

  function HallsAfter(halls: seq<nat>, due: seq<Hall>): seq<nat>
    decreases |due|
  {
    if due == [] then halls else HallsAfter(Raised(halls, due[0]), due[1..])
  }

  /** What a completion changes of the rate, from the levels before it. */
  function More(halls: seq<nat>, h: Hall, r: Rules): int {
    if h.village < |halls| then r.HallPoints(h.level) - r.HallPoints(halls[h.village]) else 0
  }

  /** What the Town Halls completed before `now` add by then: each the difference of its levels, for the
      time since its own completion (in points times ms per hour). */
  function Raises(halls: seq<nat>, due: seq<Hall>, r: Rules, now: int): int
    decreases |due|
  {
    if due == [] then 0
    else More(halls, due[0], r) * (now - due[0].completeAt) + Raises(Raised(halls, due[0]), due[1..], r, now)
  }

  lemma ACompletionAddsTheDifference(halls: seq<nat>, h: Hall, r: Rules)
    ensures r.Rate(Raised(halls, h)) == r.Rate(halls) + More(halls, h, r)
  {
    if h.village < |halls| {
      ARaiseAddsTheDifference(halls, h.village, h.level, r.HallPoints(halls[h.village]), r.HallPoints(h.level), r);
    }
  }

  lemma TheFirstPiece(from: int, halls: seq<nat>, due: seq<Hall>, r: Rules, last: Piece)
    requires due != []
    ensures Exact(from, PiecesOf(halls, due, r) + [last])
         == r.Rate(halls) * (due[0].completeAt - from)
            + Exact(due[0].completeAt, PiecesOf(Raised(halls, due[0]), due[1..], r) + [last])
  {
    var first, rest := Piece(r.Rate(halls), due[0].completeAt), PiecesOf(Raised(halls, due[0]), due[1..], r) + [last];
    assert PiecesOf(halls, due, r) + [last] == [first] + rest;
    assert ([first] + rest)[1..] == rest;
  }

  lemma LaterAtAnotherRate(rate: int, more: int, other: int, from: int, event: int, now: int)
    requires other == rate + more
    ensures rate * (event - from) + other * (now - event) == rate * (now - from) + more * (now - event)
  {
  }

  /** Every Town Hall pays from its own completion on, and everything that stood before pays throughout. */
  lemma {:induction false} EachTownHallPaysFromItsCompletion(from: int, halls: seq<nat>, due: seq<Hall>, r: Rules, now: int)
    ensures Exact(from, PiecesOf(halls, due, r) + [Piece(r.Rate(HallsAfter(halls, due)), now)])
         == r.Rate(halls) * (now - from) + Raises(halls, due, r, now)
    decreases |due|
  {
    var last := Piece(r.Rate(HallsAfter(halls, due)), now);
    if due == [] {
      assert [] + [last] == [last] && [last][1..] == [];
    } else {
      var h, next := due[0], Raised(halls, due[0]);
      TheFirstPiece(from, halls, due, r, last);
      EachTownHallPaysFromItsCompletion(h.completeAt, next, due[1..], r, now);
      ACompletionAddsTheDifference(halls, h, r);
      LaterAtAnotherRate(r.Rate(halls), More(halls, h, r), r.Rate(next), from, h.completeAt, now);
    }
  }

  lemma {:induction false} OneMorePieceIsOrdered(from: int, pieces: seq<Piece>, last: Piece)
    requires Ordered(from, pieces) && last.rate >= 0 && (if pieces == [] then from else pieces[|pieces| - 1].at) <= last.at
    ensures Ordered(from, pieces + [last])
    decreases |pieces|
  {
    if pieces == [] {
      assert [] + [last] == [last] && [last][1..] == [];
    } else {
      assert (pieces + [last])[1..] == pieces[1..] + [last];
      OneMorePieceIsOrdered(pieces[0].at, pieces[1..], last);
    }
  }

  lemma {:induction false} PiecesEndWithTheLastHall(halls: seq<nat>, due: seq<Hall>, r: Rules)
    ensures |PiecesOf(halls, due, r)| == |due|
    ensures due != [] ==> PiecesOf(halls, due, r)[|due| - 1].at == due[|due| - 1].completeAt
    decreases |due|
  {
    if due != [] {
      PiecesEndWithTheLastHall(Raised(halls, due[0]), due[1..], r);
    }
  }

  lemma {:induction false} LevelsAfterAll(p: Player, due: seq<Hall>, r: Rules)
    ensures CompleteAll(p, due, r).halls == HallsAfter(p.halls, due)
    decreases |due|
  {
    if due != [] {
      LevelsAfterAll(Complete(p, due[0], r), due[1..], r);
    }
  }

  /** What a player reads, however late the Town Halls were processed and in whatever batches: what stood
      before has paid throughout and every Town Hall from its own completion on, up to the floors. */
  lemma PlayersReadWhatEachTownHallPaid(p: Player, batches: seq<seq<Hall>>, r: Rules, now: int)
    requires 0 <= p.anchor.value && InOrder(p.anchor.at, Flat(batches))
    requires var due := Flat(batches); (if due == [] then p.anchor.at else due[|due| - 1].completeAt) <= now
    requires p.anchor.value + r.Rate(p.halls) * (now - p.anchor.at) + Raises(p.halls, Flat(batches), r, now) <= I64_MAX
    ensures var late := InBatches(p, batches, r);
            var paid := r.Rate(p.halls) * (now - p.anchor.at) + Raises(p.halls, Flat(batches), r, now);
            var gain := (View(late.anchor, r.Rate(late.halls), now) - p.anchor.value) * MS_PER_HOUR;
            var slack := Slack(PiecesOf(p.halls, Flat(batches), r) + [Piece(r.Rate(late.halls), now)]);
            paid - slack <= gain <= paid
  {
    var due := Flat(batches);
    var late := CompleteAll(p, due, r);
    var pieces, last := PiecesOf(p.halls, due, r), Piece(r.Rate(HallsAfter(p.halls, due)), now);
    BatchingDoesNotMatter(p, batches, r);
    HallsArePieces(p, due, r);
    LevelsAfterAll(p, due, r);
    ReadingIsOneMorePiece(p.anchor, pieces, last.rate, now);
    PiecesEndWithTheLastHall(p.halls, due, r);
    OneMorePieceIsOrdered(p.anchor.at, pieces, last);
    EachTownHallPaysFromItsCompletion(p.anchor.at, p.halls, due, r, now);
    NeverAheadOfTheIntegral(p.anchor, pieces + [last]);
    ShortfallIsLinearInReanchors(p.anchor, pieces + [last]);
  }

  /** The build worker's view of one player. */
  class Desk {
    var anchor: Anchor
    var halls: seq<nat>
    const rules: Rules

    constructor (p: Player, r: Rules)
      ensures State() == p && rules == r
    {
      anchor, halls, rules := p.anchor, p.halls, r;
    }

    function State(): Player
      reads this
    {
      Player(anchor, halls)
    }

    /** Each due Town Hall: first re-anchor at its completion, then raise the level. */
    method ProcessDue(due: seq<Hall>)
      modifies this
      ensures State() == CompleteAll(old(State()), due, rules)
    {
      var i := 0;
      while i < |due|
        invariant 0 <= i <= |due|
        invariant CompleteAll(State(), due[i..], rules) == CompleteAll(old(State()), due, rules)
      {
        var h := due[i];
        var rate := rules.Rate(halls);
        anchor := Anchor(SettleValue(anchor.value, rate, TruncDiv(h.completeAt - anchor.at, 1000)), h.completeAt);
        if h.village < |halls| {
          halls := halls[h.village := h.level];
        }
        assert due[i..][1..] == due[i + 1..];
        i := i + 1;
      }
    }
  }
}
