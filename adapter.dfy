/** The line-to-point adapter: axis-aligned lines are turned into their integer points,
    and the result is memoised in a table keyed by the line's 32-bit hash code. */
module Adapter {
  import opened Int32

  // ---------------------------------------------------------------------------
  // Point and Line: values with structural equality and a 32-bit hash mix

  datatype Point = Point(x: int32, y: int32)

  datatype Line = Line(start: Point, end: Point)

  /** `Point.Equals`: both coordinates match. */
  predicate PointEquals(a: Point, b: Point) {
    a.x == b.x && a.y == b.y
  }

  /** `Line.Equals`: start equals start and end equals end. */
  predicate LineEquals(a: Line, b: Line) {
    PointEquals(a.start, b.start) && PointEquals(a.end, b.end)
  }

  lemma PointEqualsIsValueEquality(a: Point, b: Point)
    ensures PointEquals(a, b) <==> a == b
  {
  }

  lemma LineEqualsIsValueEquality(a: Line, b: Line)
    ensures LineEquals(a, b) <==> a == b
  {
  }

  /** Line equality is order-sensitive: a line equals its reversal only when it is a single point. */
  lemma LineEqualsOrderSensitive(a: Point, b: Point)
    ensures LineEquals(Line(a, b), Line(b, a)) <==> a == b
  {
  }

  /** A C# `int` hash code, held as its 32-bit pattern (which determines the `int`, see
      `Int32.FromBits`); this is the key type of the adapter's dictionary. */
  datatype HashCode = HashCode(bits: bv32)

  /** `Point.GetHashCode`: `(x * 397) ^ y` in unchecked 32-bit arithmetic. */
  function PointHash(p: Point): HashCode {
    HashCode((ToBits(p.x) * 397) ^ ToBits(p.y))
  }

  /** `Line.GetHashCode`: `(hash(Start) * 397) ^ hash(End)` in unchecked 32-bit arithmetic. */
  function LineHash(l: Line): HashCode {
    HashCode((PointHash(l.start).bits * 397) ^ PointHash(l.end).bits)
  }

  /** Equal lines have equal hash codes, as `GetHashCode` must agree with `Equals`. */
  lemma HashRespectsEquals(a: Line, b: Line)
    requires LineEquals(a, b)
    ensures LineHash(a) == LineHash(b)
  {
  }

  /** The hash mix is not injective: two unequal points, and two unequal lines, share a hash. */
  lemma HashCollision()
    ensures Point(0, 397) != Point(1, 0)
    ensures PointHash(Point(0, 397)) == PointHash(Point(1, 0)) == HashCode(397)
    ensures !LineEquals(CollidingVertical, CollidingHorizontal)
    ensures LineHash(CollidingVertical) == LineHash(CollidingHorizontal) == HashCode(397)
  {
  }

  /** A vertical line and a horizontal line whose hash codes collide. */
  const CollidingVertical := Line(Point(0, 0), Point(0, 397))
  const CollidingHorizontal := Line(Point(0, 0), Point(1, 0))

  // ---------------------------------------------------------------------------
  // The points of a line

  function Min(a: int32, b: int32): int32 {
    if a <= b then a else b
  }

  function Max(a: int32, b: int32): int32 {
    if a <= b then b else a
  }

  function Left(l: Line): int32 { Min(l.start.x, l.end.x) }
  function Right(l: Line): int32 { Max(l.start.x, l.end.x) }
  function Top(l: Line): int32 { Min(l.start.y, l.end.y) }
  function Bottom(l: Line): int32 { Max(l.start.y, l.end.y) }

  /** `dx == 0`: the 32-bit difference `right - left` is zero exactly when the two are equal. */
  predicate IsVertical(l: Line) {
    Left(l) == Right(l)
  }

  /** `dy == 0`: the 32-bit difference `End.y - Start.y` is zero exactly when the two are equal. */
  predicate IsHorizontal(l: Line) {
    l.end.y == l.start.y
  }

  /** The integers from `lo` to `hi` inclusive, in increasing order. */
  function Span(lo: int32, hi: int32): seq<int32>
    decreases hi as int - lo as int
  {
    if lo > hi then [] else if lo == hi then [hi] else [lo] + Span(lo + 1, hi)
  }

  lemma {:induction false} SpanAt(lo: int32, hi: int32)
    ensures |Span(lo, hi)| == if lo <= hi then hi as int - lo as int + 1 else 0
    ensures forall i :: 0 <= i < |Span(lo, hi)| ==> Span(lo, hi)[i] as int == lo as int + i
    decreases hi as int - lo as int
  {
    if lo < hi {
      SpanAt(lo + 1, hi);
    }
  }

  /** The points at `x` with the given y coordinates, in order. */
  function Column(x: int32, ys: seq<int32>): (r: seq<Point>)
    ensures |r| == |ys| && forall i :: 0 <= i < |ys| ==> r[i] == Point(x, ys[i])
  {
    if ys == [] then [] else [Point(x, ys[0])] + Column(x, ys[1..])
  }

  /** The points at `y` with the given x coordinates, in order. */
  function Row(y: int32, xs: seq<int32>): (r: seq<Point>)
    ensures |r| == |xs| && forall i :: 0 <= i < |xs| ==> r[i] == Point(xs[i], y)
  {
    if xs == [] then [] else [Point(xs[0], y)] + Row(y, xs[1..])
  }

  /** The points the adapter generates for a line: a column for a vertical line, a row for a
      horizontal one, and nothing for a diagonal one. */
  function Points(l: Line): seq<Point> {
    if IsVertical(l) then Column(Left(l), Span(Top(l), Bottom(l)))
    else if IsHorizontal(l) then Row(Top(l), Span(Left(l), Right(l)))
    else []
  }

  /** A vertical line gives one point per y from the smaller to the larger end, at its x,
      in increasing y. */
  lemma VerticalPoints(l: Line)
    requires IsVertical(l)
    ensures |Points(l)| == Bottom(l) as int - Top(l) as int + 1
    ensures forall i :: 0 <= i < |Points(l)| ==>
              Points(l)[i].x == l.start.x && Points(l)[i].y as int == Top(l) as int + i
  {
    SpanAt(Top(l), Bottom(l));
  }

  /** A horizontal line that is not vertical gives one point per x from the smaller to the
      larger end, at its y, in increasing x. */
  lemma HorizontalPoints(l: Line)
    requires !IsVertical(l) && IsHorizontal(l)
    ensures |Points(l)| == Right(l) as int - Left(l) as int + 1
    ensures forall i :: 0 <= i < |Points(l)| ==>
              Points(l)[i].y == l.start.y && Points(l)[i].x as int == Left(l) as int + i
  {
    SpanAt(Left(l), Right(l));
  }

  /** A diagonal line gives no points. */
  lemma DiagonalPoints(l: Line)
    requires !IsVertical(l) && !IsHorizontal(l)
    ensures Points(l) == []
  {
  }

  /** A degenerate line gives exactly its one point. */
  lemma DegeneratePoints(p: Point)
    ensures Points(Line(p, p)) == [p]
  {
    SpanAt(p.y, p.y);
  }

  /** An axis-aligned line's points include both of its end points. */
  lemma EndpointsIncluded(l: Line)
    requires IsVertical(l) || IsHorizontal(l)
    ensures l.start in Points(l) && l.end in Points(l)
  {
    var ps := Points(l);
    if IsVertical(l) {
      VerticalPoints(l);
      assert ps[l.start.y as int - Top(l) as int] == l.start;
      assert ps[l.end.y as int - Top(l) as int] == l.end;
    } else {
      HorizontalPoints(l);
      assert ps[l.start.x as int - Left(l) as int] == l.start;
      assert ps[l.end.x as int - Left(l) as int] == l.end;
    }
  }

  /** The points do not depend on the line's direction, although equality and hash do. */
  lemma PointsIgnoreDirection(a: Point, b: Point)
    ensures Points(Line(a, b)) == Points(Line(b, a))
  {
  }

  /** The loops of the adapter's constructor, run with a loop variable that cannot overflow. */
  method GeneratePoints(line: Line) returns (points: seq<Point>)
    ensures points == Points(line)
  {
    points := [];
    var left, right := Min(line.start.x, line.end.x), Max(line.start.x, line.end.x);
    var top, bottom := Min(line.start.y, line.end.y), Max(line.start.y, line.end.y);
    if left == right {
      var y: int := top as int;
      while y <= bottom as int
        invariant top as int <= y <= bottom as int + 1
        invariant |points| == y - top as int
        invariant forall i :: 0 <= i < |points| ==> points[i] == Point(left, (top as int + i) as int32)
      {
        points := points + [Point(left, y as int32)];
        y := y + 1;
      }
      VerticalPoints(line);
    } else if line.end.y == line.start.y {
      var x: int := left as int;
      while x <= right as int
        invariant left as int <= x <= right as int + 1
        invariant |points| == x - left as int
        invariant forall i :: 0 <= i < |points| ==> points[i] == Point((left as int + i) as int32, top)
      {
        points := points + [Point(x as int32, top)];
        x := x + 1;
      }
      HorizontalPoints(line);
    }
  }

  // ---------------------------------------------------------------------------
  // The loops as written: `y++` on a C# int wraps at int.MaxValue

  /** `y++` on a C# `int` in the default unchecked context. */
  function Increment(y: int32): (r: int32)
    ensures y as int < MAX ==> r as int == y as int + 1
    ensures y as int == MAX ==> r as int == MIN
  {
    Wrap(y as int + 1)
  }

  /** The first `fuel` rounds of `for (int y = top; y <= bottom; y++) points.Add(new Point(left, y))`
      with the wrapping increment: the points added and whether the loop has exited. */
  function AsWrittenColumnLoop(left: int32, y: int32, bottom: int32, fuel: nat): (seq<Point>, bool)
    decreases fuel
  {
    if fuel == 0 then ([], false)
    else if !(y <= bottom) then ([], true)
    else
      var (rest, exited) := AsWrittenColumnLoop(left, Increment(y), bottom, fuel - 1);
      ([Point(left, y)] + rest, exited)
  }

  /** When the bottom end is int.MaxValue, the loop as written never exits: after any number
      of rounds it is still running and has added one point per round. */
  lemma {:induction false} AsWrittenLoopNeverExits(left: int32, y: int32, fuel: nat)
    ensures !AsWrittenColumnLoop(left, y, MAX as int32, fuel).1
    ensures |AsWrittenColumnLoop(left, y, MAX as int32, fuel).0| == fuel
    decreases fuel
  {
    if fuel > 0 {
      AsWrittenLoopNeverExits(left, Increment(y), fuel - 1);
    }
  }

  /** The degenerate line at int.MaxValue shows it: its one intended point, yet after any
      number of rounds the loop as written is still running. */
  lemma AsWrittenDegenerateAtMax(fuel: nat)
    ensures var p := Point(0, MAX as int32);
      Points(Line(p, p)) == [p] && !AsWrittenColumnLoop(0, MAX as int32, MAX as int32, fuel).1
  {
    DegeneratePoints(Point(0, MAX as int32));
    AsWrittenLoopNeverExits(0, MAX as int32, fuel);
  }

  /** Below int.MaxValue the vertical loop as written exits, given one round more than it
      has points to add, and it has added exactly the column from `y` down to `bottom`. */
  lemma {:induction false} AsWrittenColumnLoopBelowMax(left: int32, y: int32, bottom: int32, fuel: nat)
    requires bottom as int < MAX && fuel > 0 && fuel as int > bottom as int - y as int + 1
    ensures AsWrittenColumnLoop(left, y, bottom, fuel) == (Column(left, Span(y, bottom)), true)
    decreases fuel
  {
    if y <= bottom {
      var rest := Span(Increment(y), bottom);
      assert Span(y, bottom) == [y] + rest;
      assert ([y] + rest)[1..] == rest;
      AsWrittenColumnLoopBelowMax(left, Increment(y), bottom, fuel - 1);
      assert AsWrittenColumnLoop(left, y, bottom, fuel).0 == [Point(left, y)] + Column(left, rest);
      assert Column(left, [y] + rest) == [Point(left, y)] + Column(left, rest);
    } else {
      assert Span(y, bottom) == [];
    }
  }

  /** So for a vertical line whose bottom end is below int.MaxValue, the loop as written and
      the corrected one agree: both yield `Points(l)`. */
  lemma AsWrittenVerticalBelowMax(l: Line, fuel: nat)
    requires IsVertical(l) && Bottom(l) as int < MAX
    requires fuel as int > Bottom(l) as int - Top(l) as int + 1
    ensures AsWrittenColumnLoop(Left(l), Top(l), Bottom(l), fuel) == (Points(l), true)
  {
    AsWrittenColumnLoopBelowMax(Left(l), Top(l), Bottom(l), fuel);
  }

  /** The first `fuel` rounds of `for (int x = left; x <= right; x++) points.Add(new Point(x, top))`
      with the wrapping increment: the points added and whether the loop has exited. */
  function AsWrittenRowLoop(top: int32, x: int32, right: int32, fuel: nat): (seq<Point>, bool)
    decreases fuel
  {
    if fuel == 0 then ([], false)
    else if !(x <= right) then ([], true)
    else
      var (rest, exited) := AsWrittenRowLoop(top, Increment(x), right, fuel - 1);
      ([Point(x, top)] + rest, exited)
  }

  /** When the right end is int.MaxValue, the horizontal loop as written never exits either. */
  lemma {:induction false} AsWrittenRowLoopNeverExits(top: int32, x: int32, fuel: nat)
    ensures !AsWrittenRowLoop(top, x, MAX as int32, fuel).1
    ensures |AsWrittenRowLoop(top, x, MAX as int32, fuel).0| == fuel
    decreases fuel
  {
    if fuel > 0 {
      AsWrittenRowLoopNeverExits(top, Increment(x), fuel - 1);
    }
  }

  /** Below int.MaxValue the horizontal loop as written exits and has added exactly the row
      from `x` to `right`. */
  lemma {:induction false} AsWrittenRowLoopBelowMax(top: int32, x: int32, right: int32, fuel: nat)
    requires right as int < MAX && fuel > 0 && fuel as int > right as int - x as int + 1
    ensures AsWrittenRowLoop(top, x, right, fuel) == (Row(top, Span(x, right)), true)
    decreases fuel
  {
    if x <= right {
      var rest := Span(Increment(x), right);
      assert Span(x, right) == [x] + rest;
      assert ([x] + rest)[1..] == rest;
      AsWrittenRowLoopBelowMax(top, Increment(x), right, fuel - 1);
    }
  }

  /** For a horizontal, non-vertical line whose right end is below int.MaxValue, the loop as
      written and the corrected one agree: both yield `Points(l)`. */
  lemma AsWrittenHorizontalBelowMax(l: Line, fuel: nat)
    requires !IsVertical(l) && IsHorizontal(l) && Right(l) as int < MAX
    requires fuel as int > Right(l) as int - Left(l) as int + 1
    ensures AsWrittenRowLoop(Top(l), Left(l), Right(l), fuel) == (Points(l), true)
  {
    AsWrittenRowLoopBelowMax(Top(l), Left(l), Right(l), fuel);
  }

  /** A two-point horizontal line ending at int.MaxValue: two intended points, yet after any
      number of rounds the loop as written is still running. */
  lemma AsWrittenHorizontalAtMax(fuel: nat)
    ensures var l := Line(Point((MAX - 1) as int32, 0), Point(MAX as int32, 0));
      Points(l) == [l.start, l.end] && !AsWrittenRowLoop(0, (MAX - 1) as int32, MAX as int32, fuel).1
  {
    var l := Line(Point((MAX - 1) as int32, 0), Point(MAX as int32, 0));
    HorizontalPoints(l);
    AsWrittenRowLoopNeverExits(0, (MAX - 1) as int32, fuel);
  }

  // ---------------------------------------------------------------------------
  // The memo table

  /** The adapter's shared state: the hash-keyed dictionary, the order its keys were added
      in (the order in which a .NET Dictionary without removals enumerates them), and the
      number of point lists generated so far. */
  datatype Cache = Cache(keys: seq<HashCode>, entries: map<HashCode, seq<Point>>, count: nat)

  /** The keys are distinct, they are exactly the dictionary's keys, and every entry was
      counted once. */
  ghost predicate WellFormed(c: Cache) {
    && (forall i, j :: 0 <= i < j < |c.keys| ==> c.keys[i] != c.keys[j])
    && (forall k :: k in c.entries <==> k in c.keys)
    && c.count == |c.keys|
  }

  const Empty := Cache([], map[], 0)

  /** What constructing a `LineToPointAdapter` does to the shared state: nothing when the
      line's hash is already a key, otherwise one more entry at that hash and one more count. */
  function Adapt(c: Cache, line: Line): (r: Cache)
    ensures LineHash(line) in r.entries
  {
    var h := LineHash(line);
    if h in c.entries then c
    else Cache(c.keys + [h], c.entries[h := Points(line)], c.count + 1)
  }

  /** An adapter never removes or overwrites an entry, and keeps the table well formed. */
  lemma AdaptPreserves(c: Cache, line: Line)
    ensures forall k :: k in c.entries ==> k in Adapt(c, line).entries && Adapt(c, line).entries[k] == c.entries[k]
    ensures WellFormed(c) ==> WellFormed(Adapt(c, line))
  {
  }

  /** A second adapter for the same line, or for any line whose hash collides with it,
      computes nothing and changes nothing. */
  lemma CollidingLineIsSkipped(c: Cache, a: Line, b: Line)
    requires LineHash(a) == LineHash(b)
    ensures Adapt(Adapt(c, a), b) == Adapt(c, a)
  {
  }

  /** The concrete consequence of a collision: after the vertical line, the colliding
      horizontal line leaves the table holding the vertical line's points under its hash. */
  lemma CollisionKeepsOtherPoints()
    ensures var r := Adapt(Adapt(Empty, CollidingVertical), CollidingHorizontal);
      r.entries[LineHash(CollidingHorizontal)] == Points(CollidingVertical) &&
      Points(CollidingVertical) != Points(CollidingHorizontal) && r.count == 1
  {
    HashCollision();
    VerticalPoints(CollidingVertical);
    HorizontalPoints(CollidingHorizontal);
  }

  /** The counter always equals the number of entries in the table. */
  lemma CountIsEntries(c: Cache)
    requires WellFormed(c)
    ensures c.count == |c.entries|
  {
    assert c.entries.Keys == set k | k in c.keys;
    DistinctCardinality(c.keys);
  }

  lemma {:induction false} DistinctCardinality(s: seq<HashCode>)
    requires forall i, j :: 0 <= i < j < |s| ==> s[i] != s[j]
    ensures |set k | k in s| == |s|
  {
    if s != [] {
      var init := s[..|s| - 1];
      DistinctCardinality(init);
      assert (set k | k in s) == (set k | k in init) + {s[|s| - 1]};
      assert s[|s| - 1] !in init;
    }
  }

  /** The list stored under `k`, if any. */
  function Lookup(entries: map<HashCode, seq<Point>>, k: HashCode): seq<Point> {
    if k in entries then entries[k] else []
  }

  /** The point lists of the given keys, one after the other. */
  function Flatten(keys: seq<HashCode>, entries: map<HashCode, seq<Point>>): seq<Point> {
    if keys == [] then []
    else Flatten(keys[..|keys| - 1], entries) + Lookup(entries, keys[|keys| - 1])
  }

  /** What enumerating any adapter yields: the whole table, in insertion order. */
  function AllPoints(c: Cache): seq<Point> {
    Flatten(c.keys, c.entries)
  }

  /** A point is enumerated exactly when some entry of the table holds it. */
  lemma EnumerationCoversCache(c: Cache)
    requires WellFormed(c)
    ensures forall p :: p in AllPoints(c) <==> exists k :: k in c.entries && p in c.entries[k]
  {
    forall p ensures p in AllPoints(c) <==> exists k :: k in c.entries && p in c.entries[k] {
      FlattenMembership(c.keys, c.entries, p);
    }
  }

  lemma {:induction false} FlattenMembership(keys: seq<HashCode>, entries: map<HashCode, seq<Point>>, p: Point)
    requires forall k :: k in keys ==> k in entries
    ensures p in Flatten(keys, entries) <==> exists k :: k in keys && p in entries[k]
  {
    if keys != [] {
      var init, last := keys[..|keys| - 1], keys[|keys| - 1];
      FlattenMembership(init, entries, p);
      assert forall k :: k in keys <==> k in init || k == last;
    }
  }

  /** Enumerating after a miss yields what it yielded before, then the new line's points. */
  lemma AdaptMissEnumeration(c: Cache, line: Line)
    requires WellFormed(c) && LineHash(line) !in c.entries
    ensures AllPoints(Adapt(c, line)) == AllPoints(c) + Points(line)
  {
    var h := LineHash(line);
    var r := Adapt(c, line);
    assert r.keys[..|r.keys| - 1] == c.keys;
    FlattenUpdate(c.keys, c.entries, h, Points(line));
  }

  lemma {:induction false} FlattenUpdate(keys: seq<HashCode>, entries: map<HashCode, seq<Point>>, h: HashCode, v: seq<Point>)
    requires h !in keys
    ensures Flatten(keys, entries[h := v]) == Flatten(keys, entries)
  {
    if keys != [] {
      FlattenUpdate(keys[..|keys| - 1], entries, h, v);
    }
  }

  // ---------------------------------------------------------------------------
  // Vector objects and drawing

  /** The four lines of `new VectorRectangle(x, y, width, height)`, corners computed with
      32-bit wrap-around. */
  function VectorRectangle(x: int32, y: int32, width: int32, height: int32): (lines: seq<Line>)
    ensures |lines| == 4
    ensures forall i :: 0 <= i < 4 ==> IsVertical(lines[i]) || IsHorizontal(lines[i])
  {
    var right, bottom := Wrap(x as int + width as int), Wrap(y as int + height as int);
    [ Line(Point(x, y), Point(right, y)),
      Line(Point(right, y), Point(right, bottom)),
      Line(Point(x, y), Point(x, bottom)),
      Line(Point(x, bottom), Point(right, bottom)) ]
  }

  /** No line of a rectangle falls into the diagonal case: each has at least one point. */
  lemma RectangleLinesHavePoints(x: int32, y: int32, width: int32, height: int32)
    ensures forall l :: l in VectorRectangle(x, y, width, height) ==> |Points(l)| >= 1
  {
    forall l | l in VectorRectangle(x, y, width, height) ensures |Points(l)| >= 1 {
      if IsVertical(l) { VerticalPoints(l); } else { HorizontalPoints(l); }
    }
  }

  /** The corners `(x, y)`, `(x + width, y)`, `(x + width, y + height)` and `(x, y + height)`,
      sums wrapped to 32 bits. */
  function Corners(x: int32, y: int32, width: int32, height: int32): set<Point> {
    var right, bottom := Wrap(x as int + width as int), Wrap(y as int + height as int);
    {Point(x, y), Point(right, y), Point(right, bottom), Point(x, bottom)}
  }

  /** Every line of a rectangle runs between two of its corners, and every corner ends some
      line. */
  lemma RectangleCorners(x: int32, y: int32, width: int32, height: int32)
    ensures var lines, corners := VectorRectangle(x, y, width, height), Corners(x, y, width, height);
      && (forall i :: 0 <= i < 4 ==> lines[i].start in corners && lines[i].end in corners)
      && (forall c :: c in corners ==> exists i :: 0 <= i < 4 && (lines[i].start == c || lines[i].end == c))
  {
    var lines := VectorRectangle(x, y, width, height);
    var right, bottom := Wrap(x as int + width as int), Wrap(y as int + height as int);
    assert lines[0].start == Point(x, y) && lines[1].start == Point(right, y);
    assert lines[1].end == Point(right, bottom) && lines[3].start == Point(x, bottom);
  }

  /** All lines of all vector objects, in order. */
  function Concat(objects: seq<seq<Line>>): seq<Line> {
    if objects == [] then [] else objects[0] + Concat(objects[1..])
  }

  /** The shared state after one adapter per line, in order. */
  function DrawAll(c: Cache, lines: seq<Line>): Cache
    decreases lines
  {
    if lines == [] then c else DrawAll(Adapt(c, lines[0]), lines[1..])
  }

  /** The points handed to `DrawPoint`: each adapter enumerates the whole table as it is
      right after that adapter was built. */
  function Drawn(c: Cache, lines: seq<Line>): seq<Point>
    decreases lines
  {
    if lines == [] then []
    else var next := Adapt(c, lines[0]); AllPoints(next) + Drawn(next, lines[1..])
  }

  /** Drawing keeps the table well formed. */
  lemma {:induction false} DrawWellFormed(c: Cache, lines: seq<Line>)
    requires WellFormed(c)
    ensures WellFormed(DrawAll(c, lines))
    decreases lines
  {
    if lines != [] {
      AdaptPreserves(c, lines[0]);
      DrawWellFormed(Adapt(c, lines[0]), lines[1..]);
    }
  }

  /** Drawing never removes or overwrites an entry. */
  lemma {:induction false} DrawKeepsEntries(c: Cache, lines: seq<Line>)
    ensures forall k :: k in c.entries ==> k in DrawAll(c, lines).entries && DrawAll(c, lines).entries[k] == c.entries[k]
    decreases lines
  {
    if lines != [] {
      AdaptPreserves(c, lines[0]);
      DrawKeepsEntries(Adapt(c, lines[0]), lines[1..]);
    }
  }

  /** After drawing, every line's hash is in the table. */
  lemma {:induction false} DrawCovers(c: Cache, lines: seq<Line>)
    ensures forall l :: l in lines ==> LineHash(l) in DrawAll(c, lines).entries
    decreases lines
  {
    if lines != [] {
      var next := Adapt(c, lines[0]);
      DrawCovers(next, lines[1..]);
      DrawKeepsEntries(next, lines[1..]);
      assert forall l :: l in lines ==> l == lines[0] || l in lines[1..];
    }
  }

  /** Drawing lines whose hashes are all in the table already changes nothing. */
  lemma {:induction false} DrawCovered(c: Cache, lines: seq<Line>)
    requires forall l :: l in lines ==> LineHash(l) in c.entries
    ensures DrawAll(c, lines) == c
  {
    if lines != [] {
      assert lines[0] in lines;
      assert Adapt(c, lines[0]) == c;
      DrawCovered(c, lines[1..]);
    }
  }

  /** Drawing the same objects a second time triggers no new computation. */
  lemma DrawTwice(c: Cache, lines: seq<Line>)
    ensures DrawAll(DrawAll(c, lines), lines) == DrawAll(c, lines)
  {
    DrawCovers(c, lines);
    DrawCovered(DrawAll(c, lines), lines);
  }

  /** `n` copies of `s`, one after the other. */
  function Repeat(s: seq<Point>, n: nat): seq<Point> {
    if n == 0 then [] else s + Repeat(s, n - 1)
  }

  /** The second drawing hands the whole table to `DrawPoint` once per line. */
  lemma {:induction false} RedrawRepeatsTable(c: Cache, lines: seq<Line>)
    requires forall l :: l in lines ==> LineHash(l) in c.entries
    ensures Drawn(c, lines) == Repeat(AllPoints(c), |lines|)
  {
    if lines != [] {
      assert lines[0] in lines;
      assert Adapt(c, lines[0]) == c;
      RedrawRepeatsTable(c, lines[1..]);
    }
  }

  /** Drawing two runs of lines one after the other is drawing their concatenation, and the
      points handed over are those of the first run, then those of the second run started
      from the state the first one left. */
  lemma {:induction false} DrawAppend(c: Cache, a: seq<Line>, b: seq<Line>)
    ensures DrawAll(c, a + b) == DrawAll(DrawAll(c, a), b)
    ensures Drawn(c, a + b) == Drawn(c, a) + Drawn(DrawAll(c, a), b)
    decreases a
  {
    if a == [] {
      assert a + b == b;
    } else {
      var next := Adapt(c, a[0]);
      assert (a + b)[0] == a[0] && (a + b)[1..] == a[1..] + b;
      DrawAppend(next, a[1..], b);
      Associative(AllPoints(next), Drawn(next, a[1..]), Drawn(DrawAll(next, a[1..]), b));
    }
  }

  /** Drawing adds no key but the hashes of the lines drawn. */
  lemma {:induction false} DrawAddsOnlyTheirHashes(c: Cache, lines: seq<Line>, h: HashCode)
    requires h !in c.entries
    requires forall l :: l in lines ==> LineHash(l) != h
    ensures h !in DrawAll(c, lines).entries
    decreases lines
  {
    if lines != [] {
      assert lines[0] in lines;
      DrawAddsOnlyTheirHashes(Adapt(c, lines[0]), lines[1..], h);
    }
  }

  /** Dropping the first of several lines with distinct hashes leaves lines with distinct
      hashes. */
  lemma DistinctTail(lines: seq<Line>)
    requires lines != []
    requires forall i, j :: 0 <= i < j < |lines| ==> LineHash(lines[i]) != LineHash(lines[j])
    ensures forall i, j :: 0 <= i < j < |lines[1..]| ==> LineHash(lines[1..][i]) != LineHash(lines[1..][j])
  {
  }

  /** After the first of several lines with distinct, new hashes is drawn, the hashes of the
      others are still not in the table. */
  lemma FreshTail(c: Cache, lines: seq<Line>)
    requires lines != []
    requires forall i, j :: 0 <= i < j < |lines| ==> LineHash(lines[i]) != LineHash(lines[j])
    requires forall l :: l in lines ==> LineHash(l) !in c.entries
    ensures forall l :: l in lines[1..] ==> LineHash(l) !in Adapt(c, lines[0]).entries
  {
    var h, rest := LineHash(lines[0]), lines[1..];
    assert lines[0] in lines;
    forall l | l in rest ensures LineHash(l) != h && LineHash(l) !in c.entries {
      var j :| 0 <= j < |rest| && rest[j] == l;
      assert lines[j + 1] == l;
    }
  }

  /** Lines whose hashes are pairwise distinct and new to the table are each computed once. */
  lemma {:induction false} DrawDistinctCount(c: Cache, lines: seq<Line>)
    requires forall i, j :: 0 <= i < j < |lines| ==> LineHash(lines[i]) != LineHash(lines[j])
    requires forall l :: l in lines ==> LineHash(l) !in c.entries
    ensures DrawAll(c, lines).count == c.count + |lines|
    decreases lines
  {
    if lines != [] {
      DistinctTail(lines);
      FreshTail(c, lines);
      DrawDistinctCount(Adapt(c, lines[0]), lines[1..]);
    }
  }

  /** Whatever was drawn before or after it, the entry for a new hash holds the points of the
      first drawn line with that hash: later lines with the same hash never replace it. */
  lemma {:induction false} DrawFirstWins(c: Cache, lines: seq<Line>, i: nat)
    requires i < |lines| && LineHash(lines[i]) !in c.entries
    requires forall j :: 0 <= j < i ==> LineHash(lines[j]) != LineHash(lines[i])
    ensures LineHash(lines[i]) in DrawAll(c, lines).entries
    ensures DrawAll(c, lines).entries[LineHash(lines[i])] == Points(lines[i])
    decreases lines
  {
    var h := LineHash(lines[i]);
    var next, rest := Adapt(c, lines[0]), lines[1..];
    assert DrawAll(c, lines) == DrawAll(next, rest);
    if i == 0 {
      assert next.entries[h] == Points(lines[0]);
      DrawKeepsEntries(next, rest);
    } else {
      assert h !in next.entries by {
        assert LineHash(lines[0]) != h;
      }
      assert rest[i - 1] == lines[i];
      forall j | 0 <= j < i - 1 ensures LineHash(rest[j]) != h {
        assert rest[j] == lines[j + 1];
      }
      DrawFirstWins(next, rest, i - 1);
    }
  }

  /** The points of the given lines, one line after the other. */
  function PointsOf(lines: seq<Line>): seq<Point> {
    if lines == [] then [] else Points(lines[0]) + PointsOf(lines[1..])
  }

  /** Drawing lines with distinct, new hashes adds their points to the enumeration in drawing
      order. */
  lemma {:induction false} DrawDistinctEnumeration(c: Cache, lines: seq<Line>)
    requires WellFormed(c)
    requires forall i, j :: 0 <= i < j < |lines| ==> LineHash(lines[i]) != LineHash(lines[j])
    requires forall l :: l in lines ==> LineHash(l) !in c.entries
    ensures AllPoints(DrawAll(c, lines)) == AllPoints(c) + PointsOf(lines)
    decreases lines
  {
    if lines != [] {
      AdaptPreserves(c, lines[0]);
      DistinctTail(lines);
      FreshTail(c, lines);
      DrawDistinctEnumeration(Adapt(c, lines[0]), lines[1..]);
      DrawMissEnumeration(c, lines);
    }
  }

  /** One step of the above: a miss for the first line, then the rest as the induction
      hypothesis says. */
  lemma DrawMissEnumeration(c: Cache, lines: seq<Line>)
    requires WellFormed(c) && lines != [] && LineHash(lines[0]) !in c.entries
    requires AllPoints(DrawAll(Adapt(c, lines[0]), lines[1..])) == AllPoints(Adapt(c, lines[0])) + PointsOf(lines[1..])
    ensures AllPoints(DrawAll(c, lines)) == AllPoints(c) + PointsOf(lines)
  {
    AdaptMissEnumeration(c, lines[0]);
    Associative(AllPoints(c), Points(lines[0]), PointsOf(lines[1..]));
  }

  /** The two rectangles of the demo program. */
  const SampleObjects := [VectorRectangle(1, 1, 10, 10), VectorRectangle(3, 3, 6, 6)]

  // ---------------------------------------------------------------------------
  // The objects

  /** The static `cache` and `count` of `LineToPointAdapter`, as one object that every
      adapter shares. */
  class PointCache {
    var keys: seq<HashCode>
    var entries: map<HashCode, seq<Point>>
    var count: nat

    function State(): Cache
      reads this
    {
      Cache(keys, entries, count)
    }

    ghost predicate Valid()
      reads this
    {
      WellFormed(State())
    }

    constructor ()
      ensures State() == Empty && Valid()
    {
      keys, entries, count := [], map[], 0;
    }
  }

  class LineToPointAdapter {
    const cache: PointCache

    /** Generates and stores the line's points unless its hash is already a key. */
    constructor (cache: PointCache, line: Line)
      requires cache.Valid()
      modifies cache
      ensures this.cache == cache && cache.Valid()
      ensures cache.State() == Adapt(old(cache.State()), line)
    {
      this.cache := cache;
      new;
      AdaptPreserves(cache.State(), line);
      var hash := LineHash(line);
      if hash !in cache.entries {
        cache.count := cache.count + 1;
        var points := GeneratePoints(line);
        cache.entries := cache.entries[hash := points];
        cache.keys := cache.keys + [hash];
      }
    }

    /** `GetEnumerator`: the concatenation of every cached list, not only this line's. */
    method GetEnumerator() returns (ps: seq<Point>)
      requires cache.Valid()
      ensures ps == AllPoints(cache.State())
    {
      ps := [];
      var i := 0;
      while i < |cache.keys|
        invariant 0 <= i <= |cache.keys|
        invariant ps == Flatten(cache.keys[..i], cache.entries)
      {
        assert cache.keys[..i + 1][..i] == cache.keys[..i];
        ps := ps + cache.entries[cache.keys[i]];
        i := i + 1;
      }
      assert cache.keys[..i] == cache.keys;
    }
  }

  /** The inner loop of the demo's `Draw`: an adapter per line of one vector object, each
      enumerated into `DrawPoint`; `drawn` lists the points in the order they were handed over. */
  method DrawObject(cache: PointCache, vo: seq<Line>) returns (drawn: seq<Point>)
    requires cache.Valid()
    modifies cache
    ensures cache.Valid()
    ensures cache.State() == DrawAll(old(cache.State()), vo)
    ensures drawn == Drawn(old(cache.State()), vo)
  {
    ghost var start := cache.State();
    drawn := [];
    var j := 0;
    while j < |vo|
      invariant 0 <= j <= |vo|
      invariant cache.Valid()
      invariant DrawAll(cache.State(), vo[j..]) == DrawAll(start, vo)
      invariant drawn + Drawn(cache.State(), vo[j..]) == Drawn(start, vo)
    {
      assert vo[j..][1..] == vo[j + 1..];
      var adapter := new LineToPointAdapter(cache, vo[j]);
      var ps := adapter.GetEnumerator();
      Associative(drawn, ps, Drawn(cache.State(), vo[j + 1..]));
      drawn := drawn + ps;
      j := j + 1;
    }
    assert vo[j..] == [];
  }

  lemma Associative(a: seq<Point>, b: seq<Point>, c: seq<Point>)
    ensures (a + b) + c == a + (b + c)
  {
  }

  /** The demo's `Draw`: every line of every vector object, in order. */
  method Draw(cache: PointCache, objects: seq<seq<Line>>) returns (drawn: seq<Point>)
    requires cache.Valid()
    modifies cache
    ensures cache.Valid()
    ensures cache.State() == DrawAll(old(cache.State()), Concat(objects))
    ensures drawn == Drawn(old(cache.State()), Concat(objects))
  {
    ghost var start := cache.State();
    drawn := [];
    var i := 0;
    while i < |objects|
      invariant 0 <= i <= |objects|
      invariant cache.Valid()
      invariant DrawAll(cache.State(), Concat(objects[i..])) == DrawAll(start, Concat(objects))
      invariant drawn + Drawn(cache.State(), Concat(objects[i..])) == Drawn(start, Concat(objects))
    {
      assert objects[i..][1..] == objects[i + 1..];
      DrawAppend(cache.State(), objects[i], Concat(objects[i + 1..]));
      var more := DrawObject(cache, objects[i]);
      Associative(drawn, more, Drawn(cache.State(), Concat(objects[i + 1..])));
      drawn := drawn + more;
      i := i + 1;
    }
    assert objects[i..] == [];
  }

  /** The demo's `Main`: the first drawing generates one point list for each of the eight
      lines, whose hashes are distinct, and the table then holds their 72 points in drawing
      order. The second drawing generates none and hands the whole table to `DrawPoint` once
      for each line. */
  method DrawTwiceDemo() returns (first: nat, second: nat, ghost table: seq<Point>, redrawn: seq<Point>)
    ensures first == 8 && second == first
    ensures table == PointsOf(Concat(SampleObjects)) && |table| == 72
    ensures redrawn == Repeat(table, 8)
  {
    var cache := new PointCache();
    var _ := Draw(cache, SampleObjects);
    first := cache.count;
    table := AllPoints(cache.State());
    ghost var lines := Concat(SampleObjects);
    SampleObjectLines();
    SampleHashes();
    SamplePointCount();
    DrawDistinctCount(Empty, lines);
    DrawDistinctEnumeration(Empty, lines);
    DrawCovers(Empty, lines);
    RedrawRepeatsTable(cache.State(), lines);
    redrawn := Draw(cache, SampleObjects);
    second := cache.count;
    DrawTwice(Empty, lines);
  }

  /** The eight lines of the two demo rectangles, corners worked out. */
  const SampleLines := [Line(Point(1, 1), Point(11, 1)), Line(Point(11, 1), Point(11, 11)),
                        Line(Point(1, 1), Point(1, 11)), Line(Point(1, 11), Point(11, 11)),
                        Line(Point(3, 3), Point(9, 3)), Line(Point(9, 3), Point(9, 9)),
                        Line(Point(3, 3), Point(3, 9)), Line(Point(3, 9), Point(9, 9))]

  /** The demo draws its rectangles' lines in this order: the first rectangle's four sides,
      then the second's. */
  lemma SampleObjectLines()
    ensures Concat(SampleObjects) == SampleLines
  {
    assert SampleObjects[..1] == [SampleObjects[0]];
    assert Concat(SampleObjects) == SampleObjects[0] + SampleObjects[1];
  }

  /** The hash codes of the demo's lines. */
  lemma SampleLineHashes()
    ensures LineHash(Line(Point(1, 1), Point(11, 1))).bits == 161554
    ensures LineHash(Line(Point(11, 1), Point(11, 11))).bits == 1729458
    ensures LineHash(Line(Point(1, 1), Point(1, 11))).bits == 157594
    ensures LineHash(Line(Point(1, 11), Point(11, 11))).bits == 150986
    ensures LineHash(Line(Point(3, 3), Point(9, 3))).bits == 475042
    ensures LineHash(Line(Point(9, 3), Point(9, 9))).bits == 1420162
    ensures LineHash(Line(Point(3, 3), Point(3, 9))).bits == 472826
    ensures LineHash(Line(Point(3, 9), Point(9, 9))).bits == 478250
  {
  }

  /** The hash codes of the demo's lines, in drawing order. */
  const SampleHashCodes: seq<bv32> := [161554, 1729458, 157594, 150986, 475042, 1420162, 472826, 478250]

  lemma SampleHashTable()
    ensures forall i :: 0 <= i < |SampleLines| ==> LineHash(SampleLines[i]).bits == SampleHashCodes[i]
  {
    SampleLineHashes();
  }

  lemma SampleHashCodesDistinct()
    ensures forall i, j :: 0 <= i < j < |SampleHashCodes| ==> SampleHashCodes[i] != SampleHashCodes[j]
  {
  }

  /** The demo's lines have pairwise different hash codes. */
  lemma SampleHashes()
    ensures forall i, j :: 0 <= i < j < |SampleLines| ==> LineHash(SampleLines[i]) != LineHash(SampleLines[j])
  {
    SampleHashTable();
    SampleHashCodesDistinct();
    DistinctByTable(SampleLines, SampleHashCodes);
  }

  /** Lines whose hash codes are listed in a table without repeats have distinct hashes. */
  lemma DistinctByTable(lines: seq<Line>, hashes: seq<bv32>)
    requires |lines| == |hashes|
    requires forall i :: 0 <= i < |lines| ==> LineHash(lines[i]).bits == hashes[i]
    requires forall i, j :: 0 <= i < j < |hashes| ==> hashes[i] != hashes[j]
    ensures forall i, j :: 0 <= i < j < |lines| ==> LineHash(lines[i]) != LineHash(lines[j])
  {
  }

  /** The sides of the first demo rectangle have 11 points each: 44 in all. */
  lemma OuterPointCount()
    ensures |PointsOf(SampleLines[..4])| == 44
  {
    var outer := SampleLines[..4];
    forall i | 0 <= i < 4 ensures |Points(outer[i])| == 11 {
      if IsVertical(outer[i]) { VerticalPoints(outer[i]); } else { HorizontalPoints(outer[i]); }
    }
    PointsOfUniform(outer, 11);
  }

  /** The sides of the second demo rectangle have 7 points each: 28 in all. */
  lemma InnerPointCount()
    ensures |PointsOf(SampleLines[4..])| == 28
  {
    var inner := SampleLines[4..];
    forall i | 0 <= i < 4 ensures |Points(inner[i])| == 7 {
      if IsVertical(inner[i]) { VerticalPoints(inner[i]); } else { HorizontalPoints(inner[i]); }
    }
    PointsOfUniform(inner, 7);
  }

  /** The demo's lines yield 72 points between them. */
  lemma SamplePointCount()
    ensures |PointsOf(SampleLines)| == 72
  {
    assert SampleLines[..4] + SampleLines[4..] == SampleLines;
    OuterPointCount();
    InnerPointCount();
    PointsOfAppend(SampleLines[..4], SampleLines[4..]);
  }

  /** The points of two runs of lines, one after the other. */
  lemma {:induction false} PointsOfAppend(a: seq<Line>, b: seq<Line>)
    ensures PointsOf(a + b) == PointsOf(a) + PointsOf(b)
    decreases a
  {
    if a != [] {
      assert (a + b)[0] == a[0] && (a + b)[1..] == a[1..] + b;
      PointsOfAppend(a[1..], b);
      Associative(Points(a[0]), PointsOf(a[1..]), PointsOf(b));
    } else {
      assert a + b == b;
    }
  }

  /** Lines with `n` points each yield `n` points per line. */
  lemma {:induction false} PointsOfUniform(lines: seq<Line>, n: nat)
    requires forall i :: 0 <= i < |lines| ==> |Points(lines[i])| == n
    ensures |PointsOf(lines)| == n * |lines|
    decreases lines
  {
    if lines != [] {
      PointsOfUniform(lines[1..], n);
      assert |PointsOf(lines)| == n + n * (|lines| - 1);
      assert n + n * (|lines| - 1) == n * |lines| by {
        MultiplyOut(n, |lines| - 1);
      }
    }
  }

  lemma MultiplyOut(n: nat, m: nat)
    ensures n + n * m == n * (m + 1)
  {
  }
}
