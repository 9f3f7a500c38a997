/** The map view on the torus: which cells it shows, and which coordinates its markers are fetched for. */
module Viewport {
  import opened Economy
  import opened Options

  datatype Coordinate = Coordinate(x: int, y: int)

  const I32_MAX: int := 0x7fff_ffff
  const I32_MIN: int := -0x8000_0000

  /** The range of a 32-bit coordinate; sums of coordinates stop at its ends. */
  function Clamp32(n: int): int { Max(I32_MIN, Min(n, I32_MAX)) }

  /** Cells per axis of a world of this radius. */
  function Width(radius: nat): nat { 2 * radius + 1 }

  predicate OnAxis(value: int, radius: int) { -radius <= value <= radius }

  /** Wrap an axis value into `-radius..=radius`. */
  function WrapAxis(value: int, radius: nat): (w: int)
    ensures OnAxis(w, radius)
  {
    var m := value % Width(radius);
    if m > radius then m - Width(radius) else m
  }

  /** What an axis shows `d` cells away from the centre. */
  function AxisAt(center: int, d: int, radius: nat): int { WrapAxis(Clamp32(center + d), radius) }

  /** The canonical coordinate of the cell `(dx, dy)` away from the centre. */
  function CellAt(center: Coordinate, dx: int, dy: int, radius: nat): Coordinate {
    Coordinate(AxisAt(center.x, dx, radius), AxisAt(center.y, dy, radius))
  }

  predicate InBounds(c: Coordinate, radius: nat) { OnAxis(c.x, radius) && OnAxis(c.y, radius) }

  lemma NoSmallMultiple(w: int, d: int)
    requires w > 0
    ensures d == 0 || w * d >= w || w * d <= -w
  {
    if d >= 1 {
      assert w * d == w + w * (d - 1);
    } else if d <= -1 {
      assert w * d == -w + w * (d + 1);
    }
  }

  /** Wrapping moves a value by whole turns of the axis, and leaves one that is on the axis alone. */
  lemma WrappingIsByWholeTurns(value: int, radius: nat) returns (turns: int)
    ensures value == WrapAxis(value, radius) + Width(radius) * turns
    ensures OnAxis(value, radius) ==> WrapAxis(value, radius) == value
  {
    var w := Width(radius);
    assert value == w * (value / w) + value % w;
    turns := value / w + if value % w > radius then 1 else 0;
    assert w * turns == w * (value / w) + if value % w > radius then w else 0;
    NoSmallMultiple(w, turns);
  }

  /** A cell that does not cross the edge of the map is shown at its own place, `dx` east and `dy` north of
      the centre. */
  lemma CellsKeepTheirPlace(center: Coordinate, dx: int, dy: int, radius: nat)
    requires radius <= I32_MAX && InBounds(Coordinate(center.x + dx, center.y + dy), radius)
    ensures CellAt(center, dx, dy, radius) == Coordinate(center.x + dx, center.y + dy)
  {
    var tx := WrappingIsByWholeTurns(center.x + dx, radius);
    var ty := WrappingIsByWholeTurns(center.y + dy, radius);
  }

  // ------------------------------------------------------------------ what the loops visit

  /** The first `n` cells of a row, west to east. */
  function Row(center: Coordinate, halfX: int, dy: int, radius: nat, n: nat): (r: seq<Coordinate>)
    ensures |r| == n
    ensures forall i :: 0 <= i < n ==> r[i] == CellAt(center, i - halfX, dy, radius)
  {
    seq(n, i => CellAt(center, i - halfX, dy, radius))
  }

  /** How many steps `-half..=half` has. */
  function Span(half: int): nat { Max(0, 2 * half + 1) }

  /** The first `n` rows, south to north. */
  function Cells(center: Coordinate, halfX: int, halfY: int, radius: nat, n: nat): seq<Coordinate> {
    if n == 0 then []
    else Cells(center, halfX, halfY, radius, n - 1) + Row(center, halfX, n - 1 - halfY, radius, Span(halfX))
  }

  /** Each element once, in order of first occurrence. */
  function Unique(s: seq<Coordinate>): seq<Coordinate> {
    if s == [] then []
    else
      var before := Unique(s[..|s| - 1]);
      if s[|s| - 1] in before then before else before + [s[|s| - 1]]
  }

  lemma UniqueOfOneMore(s: seq<Coordinate>, c: Coordinate)
    ensures Unique(s + [c]) == if c in Unique(s) then Unique(s) else Unique(s) + [c]
  {
    assert (s + [c])[..|s|] == s;
  }

  lemma OneMoreCell(below: seq<Coordinate>, center: Coordinate, halfX: int, dy: int, radius: nat, n: nat)
    ensures var done := below + Row(center, halfX, dy, radius, n);
            var c := CellAt(center, n - halfX, dy, radius);
            Unique(below + Row(center, halfX, dy, radius, n + 1))
            == if c in Unique(done) then Unique(done) else Unique(done) + [c]
  {
    var done := Row(center, halfX, dy, radius, n);
    var c := CellAt(center, n - halfX, dy, radius);
    assert Row(center, halfX, dy, radius, n + 1) == done + [c];
    assert below + (done + [c]) == (below + done) + [c];
    UniqueOfOneMore(below + done, c);
  }

  /** One row of the scan: push what was not seen yet. */
  method ScanRow(center: Coordinate, halfX: int, dy: int, radius: nat, seen: seq<Coordinate>, ghost below: seq<Coordinate>)
    returns (coords: seq<Coordinate>)
    requires seen == Unique(below)
    ensures coords == Unique(below + Row(center, halfX, dy, radius, Span(halfX)))
  {
    coords := seen;
    ghost var n := 0;
    assert below + Row(center, halfX, dy, radius, 0) == below;
    var dx := -halfX;
    while dx <= halfX
      invariant dx == n - halfX && n <= Span(halfX)
      invariant coords == Unique(below + Row(center, halfX, dy, radius, n))
    {
      OneMoreCell(below, center, halfX, dy, radius, n);
      var c := CellAt(center, dx, dy, radius);
      if c !in coords {
        coords := coords + [c];
      }
      dx := dx + 1;
      n := n + 1;
    }
  }

  /** `viewport_coords_rect`: the coordinates to fetch markers for. */
  method ViewportCoords(center: Coordinate, halfX: int, halfY: int, radius: nat) returns (coords: seq<Coordinate>)
    ensures coords == Unique(Cells(center, halfX, halfY, radius, Span(halfY)))
  {
    coords := [];
    ghost var n := 0;
    var dy := -halfY;
    while dy <= halfY
      invariant dy == n - halfY && n <= Span(halfY)
      invariant coords == Unique(Cells(center, halfX, halfY, radius, n))
    {
      coords := ScanRow(center, halfX, dy, radius, coords, Cells(center, halfX, halfY, radius, n));
      dy := dy + 1;
      n := n + 1;
    }
  }

  /** A cell of the view, with the first marker that stands on it. */
  datatype Cell = Cell(coordinate: Coordinate, marker: Option<nat>)

  /** Markers are known by their coordinates. */
  function MarkerOn(markers: seq<Coordinate>, c: Coordinate): (m: Option<nat>)
    ensures m.None? <==> c !in markers
    ensures m.Some? ==> m.value < |markers| && markers[m.value] == c && c !in markers[..m.value]
  {
    if markers == [] then None
    else if markers[0] == c then Some(0)
    else
      var rest := MarkerOn(markers[1..], c);
      assert rest.Some? ==> markers[..rest.value + 1] == [markers[0]] + markers[1..][..rest.value];
      if rest.None? then None else Some(rest.value + 1)
  }

  /** North at the top, each row west to east, each cell with the first marker on it. */
  ghost predicate IsView(rows: seq<seq<Cell>>, center: Coordinate, halfX: int, halfY: int, radius: nat,
                         markers: seq<Coordinate>)
  {
    && |rows| == Span(halfY)
    && (forall k :: 0 <= k < |rows| ==> |rows[k]| == Span(halfX))
    && forall k, i :: 0 <= k < |rows| && 0 <= i < |rows[k]| ==>
         rows[k][i] == CellOf(CellAt(center, i - halfX, halfY - k, radius), markers)
  }

  function CellOf(c: Coordinate, markers: seq<Coordinate>): Cell { Cell(c, MarkerOn(markers, c)) }

  /** `map_viewport_rect`. */
  method MapViewport(center: Coordinate, halfX: int, halfY: int, radius: nat, markers: seq<Coordinate>)
    returns (rows: seq<seq<Cell>>)
    ensures IsView(rows, center, halfX, halfY, radius, markers)
  {
    rows := [];
    var dy := halfY;
    while dy >= -halfY
      invariant halfY >= 0 ==> -halfY - 1 <= dy <= halfY && |rows| == halfY - dy
      invariant halfY < 0 ==> dy == halfY && rows == []
      invariant forall k :: 0 <= k < |rows| ==> |rows[k]| == Span(halfX)
      invariant forall k, i :: 0 <= k < |rows| && 0 <= i < |rows[k]| ==>
                  rows[k][i] == CellOf(CellAt(center, i - halfX, halfY - k, radius), markers)
    {
      var row := [];
      var dx := -halfX;
      while dx <= halfX
        invariant halfX >= 0 ==> -halfX <= dx <= halfX + 1 && |row| == dx + halfX
        invariant halfX < 0 ==> dx == -halfX && row == []
        invariant forall i :: 0 <= i < |row| ==> row[i] == CellOf(CellAt(center, i - halfX, dy, radius), markers)
      {
        var c := CellAt(center, dx, dy, radius);
        row := row + [CellOf(c, markers)];
        dx := dx + 1;
      }
      rows := rows + [row];
      dy := dy - 1;
    }
  }

  // ------------------------------------------------------------------ the same cells

  lemma {:induction false} UniqueFacts(s: seq<Coordinate>)
    ensures forall c :: c in Unique(s) <==> c in s
    ensures forall i, j :: 0 <= i < j < |Unique(s)| ==> Unique(s)[i] != Unique(s)[j]
  {
    if s != [] {
      UniqueFacts(s[..|s| - 1]);
      assert s == s[..|s| - 1] + [s[|s| - 1]];
    }
  }

  /** The coordinate is shown somewhere in the view. */
  ghost predicate Shown(center: Coordinate, halfX: int, halfY: int, radius: nat, c: Coordinate) {
    exists dx, dy :: -halfX <= dx <= halfX && -halfY <= dy <= halfY && c == CellAt(center, dx, dy, radius)
  }

  lemma {:induction false} CellsAreVisited(center: Coordinate, halfX: int, halfY: int, radius: nat, n: nat, c: Coordinate)
    requires n <= Span(halfY)
    ensures c in Cells(center, halfX, halfY, radius, n)
       <==> exists dx, dy :: -halfX <= dx <= halfX && -halfY <= dy < n - halfY && c == CellAt(center, dx, dy, radius)
  {
    if n > 0 {
      CellsAreVisited(center, halfX, halfY, radius, n - 1, c);
      var row := Row(center, halfX, n - 1 - halfY, radius, Span(halfX));
      if c in row {
        var i :| 0 <= i < |row| && row[i] == c;
        assert c == CellAt(center, i - halfX, n - 1 - halfY, radius);
      }
      if dx, dy :| -halfX <= dx <= halfX && -halfY <= dy < n - halfY && c == CellAt(center, dx, dy, radius) {
        if dy == n - 1 - halfY {
          assert row[dx + halfX] == c;
        }
      }
    }
  }

  /** The markers are fetched for exactly the coordinates the view shows, each once, all on the map. */
  lemma CoordsAreTheShownCellsOnce(center: Coordinate, halfX: int, halfY: int, radius: nat, c: Coordinate)
    ensures var coords := Unique(Cells(center, halfX, halfY, radius, Span(halfY)));
            && (c in coords <==> Shown(center, halfX, halfY, radius, c))
            && (c in coords ==> InBounds(c, radius))
            && (forall i, j :: 0 <= i < j < |coords| ==> coords[i] != coords[j])
  {
    var all := Cells(center, halfX, halfY, radius, Span(halfY));
    UniqueFacts(all);
    CellsAreVisited(center, halfX, halfY, radius, Span(halfY), c);
  }

  /** The view shows exactly the coordinates its markers are fetched for, and every marker fetched. */
  lemma TheViewShowsWhatWasFetched(rows: seq<seq<Cell>>, center: Coordinate, halfX: int, halfY: int, radius: nat,
                                   markers: seq<Coordinate>, c: Coordinate)
    requires IsView(rows, center, halfX, halfY, radius, markers)
    ensures c in Unique(Cells(center, halfX, halfY, radius, Span(halfY)))
       <==> exists k, i :: 0 <= k < |rows| && 0 <= i < |rows[k]| && rows[k][i] == CellOf(c, markers)
  {
    CoordsAreTheShownCellsOnce(center, halfX, halfY, radius, c);
    if dx, dy :| -halfX <= dx <= halfX && -halfY <= dy <= halfY && c == CellAt(center, dx, dy, radius) {
      assert rows[halfY - dy][dx + halfX] == CellOf(c, markers);
    }
    if k, i :| 0 <= k < |rows| && 0 <= i < |rows[k]| && rows[k][i] == CellOf(c, markers) {
      assert c == CellAt(center, i - halfX, halfY - k, radius);
    }
  }

  // ------------------------------------------------------------------ how many

  /** Axis values counted from the map's edge. */
  function FromEdge(value: int, radius: nat): nat { WrapAxis(value, radius) + radius }

  /** The values an axis shows: `n` consecutive ones from `lo`, wrapped. */
  function Window(lo: int, n: nat, radius: nat): set<nat> {
    if n == 0 then {} else Window(lo, n - 1, radius) + {FromEdge(lo + n - 1, radius)}
  }

  lemma {:induction false} InWindow(lo: int, n: nat, radius: nat, a: nat)
    ensures a in Window(lo, n, radius) <==> exists v :: lo <= v < lo + n && a == FromEdge(v, radius)
  {
    if n > 0 {
      InWindow(lo, n - 1, radius, a);
      if v :| lo <= v < lo + n && a == FromEdge(v, radius) {
        assert v == lo + n - 1 || lo <= v < lo + (n - 1);
      }
      if a == FromEdge(lo + n - 1, radius) {
        assert lo <= lo + n - 1 < lo + n;
      }
    }
  }

  lemma ModUnique(v: int, w: int, q: int, m: int)
    requires w > 0 && v == w * q + m && 0 <= m < w
    ensures v % w == m
  {
    var d := v / w - q;
    assert v == w * (v / w) + v % w;
    assert w * (v / w) == w * q + w * d;
    NoSmallMultiple(w, d);
  }

  lemma WrapRepeats(v: int, radius: nat)
    ensures WrapAxis(v - Width(radius), radius) == WrapAxis(v, radius)
  {
    var w := Width(radius);
    assert w * (v / w - 1) == w * (v / w) - w;
    ModUnique(v - w, w, v / w - 1, v % w);
  }

  lemma WrapTellsNeighboursApart(u: int, v: int, radius: nat)
    requires u < v < u + Width(radius)
    ensures WrapAxis(u, radius) != WrapAxis(v, radius)
  {
    var w := Width(radius);
    var d := v / w - u / w;
    assert w * (v / w) == w * (u / w) + w * d;
    assert v - u == w * d + (v % w - u % w);
    NoSmallMultiple(w, d);
  }

  /** The next value is new until the window has gone round. */
  lemma LastIsNewUntilRound(lo: int, n: nat, radius: nat)
    requires n > 0
    ensures FromEdge(lo + n - 1, radius) in Window(lo, n - 1, radius) <==> n > Width(radius)
  {
    var last := FromEdge(lo + n - 1, radius);
    InWindow(lo, n - 1, radius, last);
    if n > Width(radius) {
      WrapRepeats(lo + n - 1, radius);
      assert last == FromEdge(lo + n - 1 - Width(radius), radius);
    } else {
      forall v | lo <= v < lo + (n - 1) ensures FromEdge(v, radius) != last {
        WrapTellsNeighboursApart(v, lo + n - 1, radius);
      }
    }
  }

  /** A window shows each of its values once until it goes round, and then the whole axis. */
  lemma {:induction false} WindowSize(lo: int, n: nat, radius: nat)
    ensures |Window(lo, n, radius)| == Min(n, Width(radius))
  {
    if n > 0 {
      WindowSize(lo, n - 1, radius);
      LastIsNewUntilRound(lo, n, radius);
      OneMore(Window(lo, n - 1, radius), FromEdge(lo + n - 1, radius));
    }
  }

  lemma OneMore(s: set<nat>, x: nat)
    ensures |s + {x}| == |s| + if x in s then 0 else 1
  {
    if x in s {
      assert s + {x} == s;
    }
  }

  /** The coordinate that stands `x` and `y` from the map's edges. */
  function Place(x: nat, y: nat, radius: nat): Coordinate { Coordinate(x - radius, y - radius) }

  function Grid(xs: set<nat>, ys: set<nat>, radius: nat): set<Coordinate> {
    set x, y | x in xs && y in ys :: Place(x, y, radius)
  }

  lemma InGrid(xs: set<nat>, ys: set<nat>, radius: nat, c: Coordinate)
    ensures c in Grid(xs, ys, radius)
       <==> c.x + radius >= 0 && c.y + radius >= 0 && c.x + radius in xs && c.y + radius in ys
  {
    if c.x + radius >= 0 && c.y + radius >= 0 && c.x + radius in xs && c.y + radius in ys {
      assert c == Place(c.x + radius, c.y + radius, radius);
    }
  }

  lemma {:induction false} RowSize(x: nat, ys: set<nat>, radius: nat)
    ensures |Grid({x}, ys, radius)| == |ys|
  {
    if ys == {} {
      assert Grid({x}, ys, radius) == {};
    } else {
      var y :| y in ys;
      RowSize(x, ys - {y}, radius);
      assert Grid({x}, ys, radius) == Grid({x}, ys - {y}, radius) + {Place(x, y, radius)};
    }
  }

  lemma OneColumnMore(xs: set<nat>, x: nat, ys: set<nat>, radius: nat)
    requires x in xs
    ensures |Grid(xs, ys, radius)| == |Grid(xs - {x}, ys, radius)| + |Grid({x}, ys, radius)|
  {
    var rest, column := Grid(xs - {x}, ys, radius), Grid({x}, ys, radius);
    forall c ensures c in Grid(xs, ys, radius) <==> c in rest || c in column {
      InGrid(xs, ys, radius, c);
      InGrid(xs - {x}, ys, radius, c);
      InGrid({x}, ys, radius, c);
    }
    forall c ensures !(c in rest && c in column) {
      InGrid(xs - {x}, ys, radius, c);
      InGrid({x}, ys, radius, c);
    }
    assert Grid(xs, ys, radius) == rest + column && rest !! column;
  }

  lemma {:induction false} GridSize(xs: set<nat>, ys: set<nat>, radius: nat)
    ensures |Grid(xs, ys, radius)| == |xs| * |ys|
  {
    if xs == {} {
      assert Grid(xs, ys, radius) == {};
    } else {
      var x :| x in xs;
      GridSize(xs - {x}, ys, radius);
      RowSize(x, ys, radius);
      OneColumnMore(xs, x, ys, radius);
      assert |xs - {x}| == |xs| - 1;
      assert |xs| * |ys| == (|xs| - 1) * |ys| + |ys|;
    }
  }

  lemma {:induction false} DistinctSize(s: seq<Coordinate>, elements: set<Coordinate>)
    requires forall i, j :: 0 <= i < j < |s| ==> s[i] != s[j]
    requires forall c :: c in s <==> c in elements
    ensures |s| == |elements|
  {
    if s != [] {
      assert s == [s[0]] + s[1..];
      DistinctSize(s[1..], elements - {s[0]});
    } else {
      assert elements == {};
    }
  }

  /** How many values an axis shows before wrapping: the span, cut at the ends of the 32-bit range. */
  function Extent(center: int, half: int): nat
    requires half >= 0
  {
    Clamp32(center + half) - Clamp32(center - half) + 1
  }

  /** The columns (or rows) of the map an axis of the view touches, counted from the edge. */
  function Touched(center: int, half: int, radius: nat): set<nat>
    requires half >= 0
  {
    Window(Clamp32(center - half), Extent(center, half), radius)
  }

  lemma ShownCellsAreAGrid(center: Coordinate, halfX: int, halfY: int, radius: nat, c: Coordinate)
    requires halfX >= 0 && halfY >= 0
    requires I32_MIN <= center.x <= I32_MAX && I32_MIN <= center.y <= I32_MAX
    ensures c in Unique(Cells(center, halfX, halfY, radius, Span(halfY)))
       <==> c in Grid(Touched(center.x, halfX, radius), Touched(center.y, halfY, radius), radius)
  {
    CoordsAreTheShownCellsOnce(center, halfX, halfY, radius, c);
    ShownByAxes(center, halfX, halfY, radius, c);
    AxisIsWindow(center.x, halfX, radius, c.x);
    AxisIsWindow(center.y, halfY, radius, c.y);
    InGrid(Touched(center.x, halfX, radius), Touched(center.y, halfY, radius), radius, c);
  }

  /** For every centre, extent and radius the view covers `min(columns, width) * min(rows, width)`
      coordinates, where columns and rows are `2 * half + 1` but for those beyond the 32-bit range. */
  lemma HowManyCellsAreShown(center: Coordinate, halfX: int, halfY: int, radius: nat)
    requires halfX >= 0 && halfY >= 0
    requires I32_MIN <= center.x <= I32_MAX && I32_MIN <= center.y <= I32_MAX
    ensures |Unique(Cells(center, halfX, halfY, radius, Span(halfY)))|
         == Min(Extent(center.x, halfX), Width(radius)) * Min(Extent(center.y, halfY), Width(radius))
  {
    var xs, ys := Touched(center.x, halfX, radius), Touched(center.y, halfY, radius);
    var coords := Unique(Cells(center, halfX, halfY, radius, Span(halfY)));
    forall c ensures c in coords <==> c in Grid(xs, ys, radius) {
      ShownCellsAreAGrid(center, halfX, halfY, radius, c);
    }
    UniqueFacts(Cells(center, halfX, halfY, radius, Span(halfY)));
    DistinctSize(coords, Grid(xs, ys, radius));
    GridSize(xs, ys, radius);
    WindowSize(Clamp32(center.x - halfX), Extent(center.x, halfX), radius);
    WindowSize(Clamp32(center.y - halfY), Extent(center.y, halfY), radius);
  }

  /** An axis shows `a` at some offset. */
  ghost predicate ShownOnAxis(center: int, half: int, radius: nat, a: int) {
    exists d :: -half <= d <= half && a == AxisAt(center, d, radius)
  }

  lemma ShownByAxes(center: Coordinate, halfX: int, halfY: int, radius: nat, c: Coordinate)
    ensures Shown(center, halfX, halfY, radius, c)
       <==> ShownOnAxis(center.x, halfX, radius, c.x) && ShownOnAxis(center.y, halfY, radius, c.y)
  {
    if ShownOnAxis(center.x, halfX, radius, c.x) && ShownOnAxis(center.y, halfY, radius, c.y) {
      var dx :| -halfX <= dx <= halfX && c.x == AxisAt(center.x, dx, radius);
      var dy :| -halfY <= dy <= halfY && c.y == AxisAt(center.y, dy, radius);
      assert c == CellAt(center, dx, dy, radius);
    }
  }

  lemma AxisIsWindow(center: int, half: int, radius: nat, a: int)
    requires half >= 0 && I32_MIN <= center <= I32_MAX
    ensures ShownOnAxis(center, half, radius, a)
       <==> a + radius >= 0 && a + radius in Window(Clamp32(center - half), Extent(center, half), radius)
  {
    var lo := Clamp32(center - half);
    if a + radius >= 0 {
      InWindow(lo, Extent(center, half), radius, a + radius);
      if v :| lo <= v < lo + Extent(center, half) && a + radius == FromEdge(v, radius) {
        assert a == AxisAt(center, v - center, radius);
      }
      if d :| -half <= d <= half && a == AxisAt(center, d, radius) {
        assert a + radius == FromEdge(Clamp32(center + d), radius);
      }
    }
  }

  /** Away from the ends of the 32-bit range that is the size the view promises. */
  lemma InsideTheRangeTheExtentIsTheSpan(center: int, half: int)
    requires half >= 0 && I32_MIN <= center <= I32_MAX
    ensures Extent(center, half) == Span(half) <==> I32_MIN <= center - half && center + half <= I32_MAX
  {
  }
}
