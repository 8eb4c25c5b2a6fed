/** Dropping the points of a traced ring that lie on straight runs. */
module Collinear {
  import opened Boundary
  import opened Contours
  import opened ContourArea

  /** Twice the signed area of the triangle `previous`, `point`, `following`. */
  function Bend(previous: Point, point: Point, following: Point): int {
    (point.x - previous.x) * (following.y - point.y) - (point.y - previous.y) * (following.x - point.x)
  }

  /** Twice the signed area of the triangle, so that it is zero exactly for collinear points. */
  lemma BendIsArea(a: Point, b: Point, c: Point)
    ensures Bend(a, b, c) == Cross(a, b) + Cross(b, c) + Cross(c, a)
  {
  }

  function Before(ring: seq<Point>, i: nat): Point
    requires i < |ring|
  {
    if i == 0 then ring[|ring| - 1] else ring[i - 1]
  }

  function After(ring: seq<Point>, i: nat): Point
    requires i < |ring|
  {
    ring[(i + 1) % |ring|]
  }

  predicate IsCorner(ring: seq<Point>, i: nat)
    requires i < |ring|
  {
    Bend(Before(ring, i), ring[i], After(ring, i)) != 0
  }

  /** The corners among the first `n` points of the ring. */
  function CornersUpTo(ring: seq<Point>, n: nat): (r: seq<Point>)
    requires n <= |ring|
    ensures |r| <= n
    ensures (forall i :: 0 <= i < n ==> IsCorner(ring, i)) ==> r == ring[..n]
    ensures |r| == n ==> r == ring[..n]
  {
    if n == 0 then [] else
    CornersUpTo(ring, n - 1) + (if IsCorner(ring, n - 1) then [ring[n - 1]] else [])
  }

  function Corners(ring: seq<Point>): (r: seq<Point>)
    ensures |r| <= |ring| && (|r| == |ring| ==> r == ring)
  {
    CornersUpTo(ring, |ring|)
  }

  /** The ring after all passes. */
  function Simplified(ring: seq<Point>): (r: seq<Point>)
    ensures |r| <= |ring|
    decreases |ring|
  {
    if |ring| > 3 && |Corners(ring)| < |ring| then Simplified(Corners(ring)) else ring
  }

  datatype Simplification = Closed(points: seq<Point>) | EmptyRing

  function OpenRing(points: seq<Point>): seq<Point>
    requires |points| > 0
  {
    if points[0] == points[|points| - 1] then points[..|points| - 1] else points
  }

  /** One pass over the ring, judging every point against its neighbours of before the pass. */
  method Pass(ring: seq<Point>) returns (output: seq<Point>, changed: bool)
    ensures output == Corners(ring) && (changed <==> |output| < |ring|)
  {
    changed := false;
    output := [];
    for index := 0 to |ring|
      invariant output == CornersUpTo(ring, index)
      invariant changed <==> |output| < index
    {
      var cross := Bend(Before(ring, index), ring[index], After(ring, index));
      if cross == 0 {
        changed := true;
      } else {
        output := output + [ring[index]];
      }
    }
  }

  /** Repeats the pass until nothing changes; indexing an emptied ring is the one way to fail. */
  method RemoveCollinear(points: seq<Point>) returns (result: Simplification)
    ensures |points| < 4 ==> result == Closed(points)
    ensures |points| >= 4 ==>
              var ring := Simplified(OpenRing(points));
              result == if ring == [] then EmptyRing else Closed(ring + [ring[0]])
  {
    if |points| < 4 {
      return Closed(points);
    }
    var ring := OpenRing(points);
    var changed := true;
    while changed && |ring| > 3
      invariant Simplified(ring) == Simplified(OpenRing(points))
      invariant !changed ==> Corners(ring) == ring
      decreases |ring|, changed
    {
      ring, changed := Pass(ring);
    }
    result := if ring == [] then EmptyRing else Closed(ring + [ring[0]]);
  }

  /** Whatever ring comes in, a simplified ring of more than three points turns at every point. */
  lemma {:induction false} SimplifiedTurns(ring: seq<Point>)
    ensures |Simplified(ring)| > 3 ==> forall i :: 0 <= i < |Simplified(ring)| ==> IsCorner(Simplified(ring), i)
    decreases |ring|
  {
    if |ring| > 3 {
      if |Corners(ring)| < |ring| {
        SimplifiedTurns(Corners(ring));
      } else {
        AllCorners(ring);
      }
    }
  }

  lemma {:induction false} CornersUpToAll(ring: seq<Point>, n: nat)
    requires n <= |ring| && |CornersUpTo(ring, n)| == n
    ensures forall i :: 0 <= i < n ==> IsCorner(ring, i)
  {
    if n > 0 {
      CornersUpToAll(ring, n - 1);
    }
  }

  lemma AllCorners(ring: seq<Point>)
    requires Corners(ring) == ring
    ensures forall i :: 0 <= i < |ring| ==> IsCorner(ring, i)
  {
    CornersUpToAll(ring, |ring|);
  }

  // ---- Rings that run along the grid ----

  /** The heading of an axis-parallel step of any positive length. */
  predicate Heads(p: Point, q: Point, d: Direction) {
    match d
    case 0 => p.y == q.y && p.x < q.x
    case 1 => p.x == q.x && p.y < q.y
    case 2 => p.y == q.y && p.x > q.x
    case _ => p.x == q.x && p.y > q.y
  }

  predicate IsStep(p: Point, q: Point) { exists d: Direction :: Heads(p, q, d) }

  function Heading(p: Point, q: Point): (d: Direction)
    ensures IsStep(p, q) ==> Heads(p, q, d)
  {
    if Heads(p, q, 0) then 0 else if Heads(p, q, 1) then 1 else if Heads(p, q, 2) then 2 else 3
  }

  /** Both steps at the point run along an axis, and the second does not reverse the first. */
  ghost predicate GridAt(ring: seq<Point>, i: nat)
    requires i < |ring|
  {
    && IsStep(Before(ring, i), ring[i])
    && IsStep(ring[i], After(ring, i))
    && Turn(Heading(Before(ring, i), ring[i]), Heading(ring[i], After(ring, i))) != 2
  }

  ghost predicate IsGridRing(ring: seq<Point>) {
    |ring| > 0 && forall i :: 0 <= i < |ring| ==> GridAt(ring, i)
  }

  /** Twice the signed area of a ring, closed up. */
  ghost function RingArea2(ring: seq<Point>): int {
    if ring == [] then 0 else SignedArea2(ring + [ring[0]])
  }

  // ---- The ring walked twice round, so that every run of points is an interval ----

  function Wrap(ring: seq<Point>, i: nat): (k: nat)
    requires i < 2 * |ring|
    ensures k < |ring|
  {
    if i < |ring| then i else i - |ring|
  }

  function At2(ring: seq<Point>, i: nat): Point
    requires i < 2 * |ring|
  {
    ring[Wrap(ring, i)]
  }

  predicate CornerAt(ring: seq<Point>, i: nat)
    requires i < 2 * |ring|
  {
    IsCorner(ring, Wrap(ring, i))
  }

  /** The heading of the step that leaves the point. */
  function Leaving(ring: seq<Point>, i: nat): Direction
    requires i + 1 < 2 * |ring|
  {
    Heading(At2(ring, i), At2(ring, i + 1))
  }

  lemma BendOfHeadings(p: Point, q: Point, r: Point, d: Direction, e: Direction)
    requires Heads(p, q, d) && Heads(q, r, e)
    ensures Bend(p, q, r) == 0 <==> Turn(d, e) % 2 == 0
  {
  }

  lemma Neighbourhood(ring: seq<Point>, i: nat)
    requires i + 2 < 2 * |ring|
    ensures var k := Wrap(ring, i + 1);
            Before(ring, k) == At2(ring, i) && After(ring, k) == At2(ring, i + 2)
  {
    var k := Wrap(ring, i + 1);
    if k + 1 < |ring| {
      assert (k + 1) % |ring| == k + 1;
    } else {
      assert (k + 1) % |ring| == 0;
    }
  }

  lemma StepHeads(ring: seq<Point>, i: nat)
    requires IsGridRing(ring) && i + 1 < 2 * |ring|
    ensures Heads(At2(ring, i), At2(ring, i + 1), Leaving(ring, i))
  {
    var k := Wrap(ring, i);
    assert GridAt(ring, k);
    if k + 1 < |ring| {
      assert (k + 1) % |ring| == k + 1;
    } else {
      assert (k + 1) % |ring| == 0;
    }
  }

  lemma TurnFacts(ring: seq<Point>, i: nat)
    requires IsGridRing(ring) && i + 2 < 2 * |ring|
    ensures CornerAt(ring, i + 1) <==> Turn(Leaving(ring, i), Leaving(ring, i + 1)) % 2 == 1
    ensures !CornerAt(ring, i + 1) ==> Leaving(ring, i + 1) == Leaving(ring, i)
  {
    Neighbourhood(ring, i);
    StepHeads(ring, i);
    StepHeads(ring, i + 1);
    assert GridAt(ring, Wrap(ring, i + 1));
    BendOfHeadings(At2(ring, i), At2(ring, i + 1), At2(ring, i + 2), Leaving(ring, i), Leaving(ring, i + 1));
  }

  ghost predicate NoCornerBetween(ring: seq<Point>, a: nat, b: nat)
    requires b <= 2 * |ring|
  {
    forall i :: a < i < b ==> !CornerAt(ring, i)
  }

  /** The shoelace sum along the interval. */
  ghost function Swept(ring: seq<Point>, a: nat, b: nat): int
    requires a <= b < 2 * |ring|
    decreases b
  {
    if a == b then 0 else Swept(ring, a, b - 1) + Cross(At2(ring, b - 1), At2(ring, b))
  }

  /** A run without corners is one straight step, and sweeps the same area as that step. */
  lemma {:induction false} StraightRun(ring: seq<Point>, a: nat, b: nat)
    requires IsGridRing(ring) && a < b < 2 * |ring| && NoCornerBetween(ring, a, b)
    ensures Heads(At2(ring, a), At2(ring, b), Leaving(ring, a))
    ensures Leaving(ring, b - 1) == Leaving(ring, a)
    ensures Swept(ring, a, b) == Cross(At2(ring, a), At2(ring, b))
    decreases b
  {
    StepHeads(ring, b - 1);
    if a + 1 < b {
      StraightRun(ring, a, b - 1);
      TurnFacts(ring, b - 2);
      CrossAlong(At2(ring, a), At2(ring, b - 1), At2(ring, b), Leaving(ring, a));
    } else {
      assert Swept(ring, a, a) == 0;
    }
  }

  lemma CrossAlong(p: Point, q: Point, r: Point, d: Direction)
    requires Heads(p, q, d) && Heads(q, r, d)
    ensures Heads(p, r, d) && Cross(p, q) + Cross(q, r) == Cross(p, r)
  {
    if d == 0 || d == 2 {
      assert p.y == q.y == r.y;
    } else {
      assert p.x == q.x == r.x;
    }
  }

  lemma {:induction false} SweptSplit(ring: seq<Point>, a: nat, b: nat, c: nat)
    requires a <= b <= c < 2 * |ring|
    ensures Swept(ring, a, c) == Swept(ring, a, b) + Swept(ring, b, c)
    decreases c
  {
    if b < c { SweptSplit(ring, a, b, c - 1); }
  }

  lemma {:induction false} SweptSecondRound(ring: seq<Point>, k: nat)
    requires k < |ring|
    ensures Swept(ring, 0, k) == Swept(ring, |ring|, |ring| + k)
  {
    if k > 0 { SweptSecondRound(ring, k - 1); }
  }

  lemma {:induction false} SweptPrefix(ring: seq<Point>, n: nat)
    requires 0 < n <= |ring|
    ensures SignedArea2(ring[..n]) == Swept(ring, 0, n - 1)
  {
    if n > 1 {
      SweptPrefix(ring, n - 1);
      assert ring[..n][..n - 1] == ring[..n - 1];
    }
  }

  lemma SweptRing(ring: seq<Point>)
    requires |ring| > 1
    ensures RingArea2(ring) == Swept(ring, 0, |ring|)
  {
    SweptPrefix(ring, |ring|);
    assert ring[..|ring|] == ring && (ring + [ring[0]])[..|ring|] == ring;
  }

  // ---- Corners by index ----

  function CornerIndices(ring: seq<Point>, n: nat): (r: seq<nat>)
    requires n <= |ring|
    ensures forall j :: 0 <= j < |r| ==> r[j] < n
  {
    if n == 0 then [] else
    CornerIndices(ring, n - 1) + (if IsCorner(ring, n - 1) then [n - 1] else [])
  }

  /** `r` lists every corner below `n`, in order, and no other point. */
  ghost predicate ListsCorners(ring: seq<Point>, n: nat, r: seq<nat>) {
    && n <= |ring|
    && (forall j :: 0 <= j < |r| ==> r[j] < n && IsCorner(ring, r[j]))
    && (forall j, k :: 0 <= j < k < |r| ==> r[j] < r[k])
    && (forall i :: 0 <= i < n && IsCorner(ring, i) ==> i in r)
  }

  lemma ListNext(ring: seq<Point>, n: nat, r: seq<nat>)
    requires n < |ring| && ListsCorners(ring, n, r)
    ensures ListsCorners(ring, n + 1, r + (if IsCorner(ring, n) then [n] else []))
  {
    var longer := r + (if IsCorner(ring, n) then [n] else []);
    forall i | 0 <= i < n + 1 && IsCorner(ring, i) ensures i in longer {
      if i == n { assert longer[|r|] == n; } else { assert i in r; }
    }
  }

  lemma {:induction false} IndicesListCorners(ring: seq<Point>, n: nat)
    requires n <= |ring|
    ensures ListsCorners(ring, n, CornerIndices(ring, n))
  {
    if n > 0 {
      IndicesListCorners(ring, n - 1);
      ListNext(ring, n - 1, CornerIndices(ring, n - 1));
    }
  }

  lemma {:induction false} IndicesGivePoints(ring: seq<Point>, n: nat)
    requires n <= |ring|
    ensures |CornerIndices(ring, n)| == |CornersUpTo(ring, n)|
    ensures forall j :: 0 <= j < |CornerIndices(ring, n)| ==> CornersUpTo(ring, n)[j] == ring[CornerIndices(ring, n)[j]]
  {
    if n > 0 { IndicesGivePoints(ring, n - 1); }
  }

  /** The index of the `j`-th corner, counting on into the second round. */
  ghost function Nth(ring: seq<Point>, r: seq<nat>, j: nat): nat
    requires |r| > 0 && j <= |r|
  {
    if j < |r| then r[j] else r[0] + |ring|
  }

  lemma NthFacts(ring: seq<Point>, r: seq<nat>, j: nat)
    requires ListsCorners(ring, |ring|, r) && |r| > 0 && j < |r|
    ensures Nth(ring, r, j) < Nth(ring, r, j + 1) < 2 * |ring|
    ensures NoCornerBetween(ring, Nth(ring, r, j), Nth(ring, r, j + 1))
    ensures CornerAt(ring, Nth(ring, r, j + 1))
  {
    var a, b := Nth(ring, r, j), Nth(ring, r, j + 1);
    forall i | a < i < b ensures !CornerAt(ring, i) {
      var k := Wrap(ring, i);
      if IsCorner(ring, k) {
        assert k in r;
        var m :| 0 <= m < |r| && r[m] == k;
        assert false;
      }
    }
  }

  /** A closed grid ring must turn somewhere. */
  lemma SomeCorner(ring: seq<Point>)
    requires IsGridRing(ring) && |ring| > 1
    ensures exists i :: 0 <= i < |ring| && IsCorner(ring, i)
  {
    if forall i :: 0 <= i < |ring| ==> !IsCorner(ring, i) {
      StraightRun(ring, 0, |ring|);
      assert false;
    }
  }

  // ---- A pass over a grid ring ----

  lemma {:induction false} CornersSweep(ring: seq<Point>, r: seq<nat>, corners: seq<Point>, m: nat)
    requires IsGridRing(ring) && ListsCorners(ring, |ring|, r)
    requires |corners| == |r| && forall j :: 0 <= j < |r| ==> corners[j] == ring[r[j]]
    requires 0 < m <= |r|
    ensures r[0] <= r[m - 1]
    ensures SignedArea2(corners[..m]) == Swept(ring, r[0], r[m - 1])
  {
    if m > 1 {
      CornersSweep(ring, r, corners, m - 1);
      assert corners[..m][..m - 1] == corners[..m - 1];
      NthFacts(ring, r, m - 2);
      StraightRun(ring, r[m - 2], r[m - 1]);
      SweptSplit(ring, r[0], r[m - 2], r[m - 1]);
    }
  }

  lemma OneRound(ring: seq<Point>, k: nat)
    requires 1 < |ring| && k < |ring|
    ensures Swept(ring, k, k + |ring|) == RingArea2(ring)
  {
    SweptSplit(ring, 0, k, |ring|);
    SweptSplit(ring, k, |ring|, k + |ring|);
    SweptSecondRound(ring, k);
    SweptRing(ring);
  }

  /** A grid ring has at least two corners. */
  lemma CornerFacts(ring: seq<Point>, r: seq<nat>)
    requires IsGridRing(ring) && |ring| > 1 && r == CornerIndices(ring, |ring|)
    ensures ListsCorners(ring, |ring|, r) && |r| == |Corners(ring)| > 1
    ensures forall j :: 0 <= j < |r| ==> Corners(ring)[j] == ring[r[j]]
  {
    IndicesListCorners(ring, |ring|);
    IndicesGivePoints(ring, |ring|);
    SomeCorner(ring);
    hide IsGridRing, CornersUpTo, Corners, CornerIndices, IsCorner;
    NoLoneCorner(ring, r);
  }

  lemma NoLoneCorner(ring: seq<Point>, r: seq<nat>)
    requires IsGridRing(ring) && |ring| > 1 && ListsCorners(ring, |ring|, r)
    ensures |r| != 1
  {
    hide IsGridRing, CornersUpTo, Corners, CornerIndices, IsCorner;
    if |r| == 1 {
      NthFacts(ring, r, 0);
      StraightRun(ring, r[0], r[0] + |ring|);
      assert false;
    }
  }

  lemma AreaSnoc(points: seq<Point>, p: Point)
    requires |points| > 0
    ensures SignedArea2(points + [p]) == SignedArea2(points) + Cross(points[|points| - 1], p)
  {
    assert (points + [p])[..|points|] == points;
  }

  lemma CloseRound(ring: seq<Point>, first: nat, last: nat)
    requires IsGridRing(ring) && first <= last < |ring| && NoCornerBetween(ring, last, first + |ring|)
    ensures Swept(ring, first, last) + Cross(ring[last], ring[first]) == Swept(ring, first, first + |ring|)
  {
    StraightRun(ring, last, first + |ring|);
    SweptSplit(ring, first, last, first + |ring|);
  }

  /** Points that sweep the ring from its first corner to its last sweep the whole ring once closed up. */
  lemma ClosedSweep(ring: seq<Point>, corners: seq<Point>, first: nat, last: nat)
    requires IsGridRing(ring) && first <= last < |ring| && NoCornerBetween(ring, last, first + |ring|)
    requires |corners| > 0 && corners[0] == ring[first] && corners[|corners| - 1] == ring[last]
    requires SignedArea2(corners) == Swept(ring, first, last)
    ensures RingArea2(corners) == Swept(ring, first, first + |ring|)
  {
    AreaSnoc(corners, corners[0]);
    CloseRound(ring, first, last);
  }

  /** A pass keeps the enclosed area, whatever point the ring starts at. */
  lemma PassKeepsArea(ring: seq<Point>)
    requires IsGridRing(ring) && |ring| > 1
    ensures RingArea2(Corners(ring)) == RingArea2(ring)
  {
    var r, corners := CornerIndices(ring, |ring|), Corners(ring);
    CornerFacts(ring, r);
    CornersSweep(ring, r, corners, |r|);
    assert corners[..|r|] == corners;
    NthFacts(ring, r, |r| - 1);
    ClosedSweep(ring, corners, r[0], r[|r| - 1]);
    OneRound(ring, r[0]);
  }

  lemma Perpendicular(ring: seq<Point>, a: nat, b: nat, c: nat)
    requires IsGridRing(ring) && a < b < c < 2 * |ring|
    requires NoCornerBetween(ring, a, b) && NoCornerBetween(ring, b, c) && CornerAt(ring, b)
    ensures Bend(At2(ring, a), At2(ring, b), At2(ring, c)) != 0
  {
    StraightRun(ring, a, b);
    StraightRun(ring, b, c);
    TurnFacts(ring, b - 1);
    BendOfHeadings(At2(ring, a), At2(ring, b), At2(ring, c), Leaving(ring, a), Leaving(ring, b));
  }

  lemma SecondRound(ring: seq<Point>, a: nat, b: nat)
    requires b < |ring| && NoCornerBetween(ring, a, b)
    ensures NoCornerBetween(ring, a + |ring|, b + |ring|)
  {
    forall i | a + |ring| < i < b + |ring| ensures !CornerAt(ring, i) {
      assert !CornerAt(ring, i - |ring|);
    }
  }

  lemma FirstKept(ring: seq<Point>, r: seq<nat>)
    requires IsGridRing(ring) && ListsCorners(ring, |ring|, r) && |r| > 1
    ensures Bend(ring[r[|r| - 1]], ring[r[0]], ring[r[1]]) != 0
  {
    NthFacts(ring, r, |r| - 1);
    NthFacts(ring, r, 0);
    SecondRound(ring, r[0], r[1]);
    Perpendicular(ring, r[|r| - 1], r[0] + |ring|, r[1] + |ring|);
  }

  lemma LaterKept(ring: seq<Point>, r: seq<nat>, j: nat)
    requires IsGridRing(ring) && ListsCorners(ring, |ring|, r) && 0 < j < |r|
    ensures Bend(ring[r[j - 1]], ring[r[j]], ring[if j + 1 < |r| then r[j + 1] else r[0]]) != 0
  {
    NthFacts(ring, r, j - 1);
    NthFacts(ring, r, j);
    Perpendicular(ring, r[j - 1], r[j], Nth(ring, r, j + 1));
  }

  lemma AfterIs(ring: seq<Point>, i: nat)
    requires i < |ring|
    ensures After(ring, i) == if i + 1 < |ring| then ring[i + 1] else ring[0]
  {
    if i + 1 < |ring| { assert (i + 1) % |ring| == i + 1; } else { assert (i + 1) % |ring| == 0; }
  }

  lemma KeptCorner(ring: seq<Point>, j: nat)
    requires IsGridRing(ring) && |ring| > 1 && j < |Corners(ring)|
    ensures IsCorner(Corners(ring), j)
  {
    var r, corners := CornerIndices(ring, |ring|), Corners(ring);
    CornerFacts(ring, r);
    AfterIs(corners, j);
    if j == 0 {
      FirstKept(ring, r);
    } else {
      LaterKept(ring, r, j);
    }
  }

  /** Between two corners nothing was dropped that turned, so every kept point still turns. */
  lemma PassLeavesCorners(ring: seq<Point>)
    requires IsGridRing(ring) && |ring| > 1
    ensures Corners(Corners(ring)) == Corners(ring)
  {
    var corners := Corners(ring);
    forall j | 0 <= j < |corners| ensures IsCorner(corners, j) {
      KeptCorner(ring, j);
    }
    assert corners[..|corners|] == corners;
  }

  /** On a grid ring the passes stop after the corners are found: same area, no three neighbours in line. */
  lemma SimplifiedGridRing(ring: seq<Point>)
    requires IsGridRing(ring) && |ring| > 3
    ensures Simplified(ring) == Corners(ring) != []
    ensures RingArea2(Simplified(ring)) == RingArea2(ring)
    ensures forall i :: 0 <= i < |Simplified(ring)| ==> IsCorner(Simplified(ring), i)
  {
    PassKeepsArea(ring);
    PassLeavesCorners(ring);
    CornerFacts(ring, CornerIndices(ring, |ring|));
    AllCorners(Corners(ring));
  }

  // ---- Traced loops ----

  /** The points of a traced loop, without the repeated last one, form a grid ring of at least four points. */
  lemma TracedLoopIsGridRing(region: set<Pixels.Pixel>, loops: seq<Loop>, k: nat)
    requires IsTrace(region, loops) && k < |loops|
    ensures |loops[k]| >= 5 && OpenRing(loops[k]) == loops[k][..|loops[k]| - 1]
    ensures IsGridRing(OpenRing(loops[k]))
  {
    var loop := loops[k];
    var ring := loop[..|loop| - 1];
    TrailInBorder(region, loops, k);
    forall i | 0 <= i < |ring| ensures GridAt(ring, i) {
      TracedRingAt(region, loop, i);
    }
    AtLeastFour(ring, loop);
  }

  lemma {:induction false} TrailIncluded(loops: seq<Loop>, k: nat)
    requires k < |loops|
    ensures forall e :: e in Trail(loops[k]) ==> e in AllEdges(loops)
    decreases |loops|
  {
    if k < |loops| - 1 {
      TrailIncluded(loops[..|loops| - 1], k);
    }
  }

  lemma TrailInBorder(region: set<Pixels.Pixel>, loops: seq<Loop>, k: nat)
    requires IsTrace(region, loops) && k < |loops|
    ensures forall e :: e in Trail(loops[k]) ==> e in Border(region)
  {
    TrailIncluded(loops, k);
    forall e | e in Trail(loops[k]) ensures e in Border(region) {
      assert e in EdgeSet(AllEdges(loops));
    }
  }

  lemma UnitHeading(e: Edge)
    ensures IsStep(e.start, End(e)) && Heading(e.start, End(e)) == e.dir == StepDirection(e.start, End(e))
  {
    assert Heads(e.start, End(e), e.dir);
  }

  /** The `i`-th edge of a traced loop: a border edge whose direction is the heading of the step. */
  lemma TracedEdge(region: set<Pixels.Pixel>, loop: Loop, i: nat)
    requires IsClosedLoop(loop) && forall e :: e in Trail(loop) ==> e in Border(region)
    requires i + 1 < |loop|
    ensures var e := Edge(loop[i], StepDirection(loop[i], loop[i + 1]));
            && e in Border(region) && End(e) == loop[i + 1]
            && IsStep(loop[i], loop[i + 1]) && Heading(loop[i], loop[i + 1]) == e.dir
  {
    TrailAt(loop, i);
    assert Trail(loop)[i] in Trail(loop);
    assert UnitStep(loop[i], loop[i + 1]);
    UnitHeading(Trail(loop)[i]);
  }

  lemma TracedRingAt(region: set<Pixels.Pixel>, loop: Loop, i: nat)
    requires IsClosedLoop(loop) && forall e :: e in Trail(loop) ==> e in Border(region)
    requires i < |loop| - 1
    ensures GridAt(loop[..|loop| - 1], i)
  {
    var ring := loop[..|loop| - 1];
    var j := if i == 0 then |ring| - 1 else i - 1;
    TracedEdge(region, loop, j);
    TracedEdge(region, loop, i);
    var arriving := Edge(loop[j], StepDirection(loop[j], loop[j + 1]));
    var leaving := Edge(loop[i], StepDirection(loop[i], loop[i + 1]));
    NoReversal(region, arriving, leaving);
    assert Before(ring, i) == loop[j];
    AfterIs(ring, i);
    assert After(ring, i) == loop[i + 1];
  }

  /** Unit steps that never reverse need at least four points to close. */
  lemma AtLeastFour(ring: seq<Point>, loop: Loop)
    requires IsClosedLoop(loop) && ring == loop[..|loop| - 1] && IsGridRing(ring)
    ensures |ring| >= 4
  {
    assert UnitStep(loop[0], loop[1]) && GridAt(ring, 0);
  }

  /** Simplifying any traced loop succeeds, keeps its signed area and leaves a turn at every point. */
  lemma SimplifiedTracedLoop(region: set<Pixels.Pixel>, loops: seq<Loop>, k: nat)
    requires IsTrace(region, loops) && k < |loops|
    ensures var ring := Simplified(OpenRing(loops[k]));
            && ring != []
            && SignedArea2(ring + [ring[0]]) == SignedArea2(loops[k])
            && forall i :: 0 <= i < |ring| ==> IsCorner(ring, i)
  {
    TracedLoopIsGridRing(region, loops, k);
    var open := OpenRing(loops[k]);
    SimplifiedGridRing(open);
    assert open + [open[0]] == loops[k];
  }

  /** The ring after `k` more passes. */
  function Passes(ring: seq<Point>, k: nat): seq<Point>
    decreases k
  {
    if k == 0 then ring else Passes(Corners(ring), k - 1)
  }

  /** Some pass over more than three points finds no corner. */
  ghost predicate Vanishes(ring: seq<Point>) {
    exists k: nat :: |Passes(ring, k)| > 3 && Corners(Passes(ring, k)) == []
  }

  lemma {:induction false} PassesShrink(ring: seq<Point>, k: nat)
    ensures |Passes(ring, k)| <= |ring| && (Corners(ring) == ring ==> Passes(ring, k) == ring)
    decreases k
  {
    if k > 0 { PassesShrink(Corners(ring), k - 1); }
  }

  lemma {:induction false} VanishedWithin(ring: seq<Point>, k: nat)
    requires |Passes(ring, k)| > 3 && Corners(Passes(ring, k)) == []
    ensures Simplified(ring) == []
    decreases k
  {
    PassesShrink(ring, k);
    if k > 0 {
      if |Corners(ring)| == |ring| { assert false; }
      VanishedWithin(Corners(ring), k - 1);
    }
  }

  lemma {:induction false} EmptiedWithin(ring: seq<Point>) returns (k: nat)
    requires ring != [] && Simplified(ring) == []
    ensures |Passes(ring, k)| > 3 && Corners(Passes(ring, k)) == []
    decreases |ring|
  {
    k := 0;
    if Corners(ring) != [] {
      k := EmptiedWithin(Corners(ring));
      k := k + 1;
    }
  }

  /** A ring is emptied, and the program then fails on it, exactly when some pass over more than three points finds
      no corner. */
  lemma EmptiedIff(ring: seq<Point>)
    requires ring != []
    ensures Simplified(ring) == [] <==> Vanishes(ring)
  {
    if Simplified(ring) == [] {
      var k := EmptiedWithin(ring);
    } else if Vanishes(ring) {
      var k: nat :| |Passes(ring, k)| > 3 && Corners(Passes(ring, k)) == [];
      VanishedWithin(ring, k);
    }
  }

  /** A flat spike has no corner to come back to. */
  lemma FlatSpikeVanishes()
    ensures var spike := [Point(0, 0), Point(1, 0), Point(2, 0), Point(1, 0), Point(0, 0)];
            Vanishes(OpenRing(spike)) && Simplified(OpenRing(spike)) == []
  {
    var ring := [Point(0, 0), Point(1, 0), Point(2, 0), Point(1, 0)];
    assert OpenRing([Point(0, 0), Point(1, 0), Point(2, 0), Point(1, 0), Point(0, 0)]) == ring;
    SpikeIsFlat();
    hide Corners, CornersUpTo, Passes;
    EmptiedAtOnce(ring);
  }

  /** None of its points is a corner. */
  lemma SpikeIsFlat()
    ensures Corners([Point(0, 0), Point(1, 0), Point(2, 0), Point(1, 0)]) == []
  {
    var ring := [Point(0, 0), Point(1, 0), Point(2, 0), Point(1, 0)];
    hide Corners, CornersUpTo;
    forall i | 0 <= i < 4 ensures !IsCorner(ring, i) {
      AfterIs(ring, i);
    }
    NoCorners(ring);
  }

  lemma NoCorners(ring: seq<Point>)
    requires forall i :: 0 <= i < |ring| ==> !IsCorner(ring, i)
    ensures Corners(ring) == []
  {
    hide IsCorner;
    NoCornersLeft(ring, |ring|);
  }

  lemma EmptiedAtOnce(ring: seq<Point>)
    requires |ring| > 3 && Corners(ring) == []
    ensures Vanishes(ring) && Simplified(ring) == []
  {
    hide Corners;
    assert Passes(ring, 0) == ring;
  }

  lemma {:induction false} NoCornersLeft(ring: seq<Point>, n: nat)
    requires n <= |ring| && forall i :: 0 <= i < n ==> !IsCorner(ring, i)
    ensures CornersUpTo(ring, n) == []
  {
    if n > 0 { NoCornersLeft(ring, n - 1); }
  }
}
