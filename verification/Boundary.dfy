/** The directed unit edges around a region: balance at every lattice point, and the area they enclose. */
module Boundary {
  import opened Pixels

  /** A lattice point: the corner shared by up to four pixels. */
  datatype Point = Point(x: int, y: int)

  /** Quarter turns from "right" in image coordinates, where y grows downwards: right, down, left, up. */
  type Direction = d: int | 0 <= d < 4

  datatype Edge = Edge(start: Point, dir: Direction)

  function Move(v: Point, d: Direction): Point {
    match d
    case 0 => Point(v.x + 1, v.y)
    case 1 => Point(v.x, v.y + 1)
    case 2 => Point(v.x - 1, v.y)
    case _ => Point(v.x, v.y - 1)
  }

  function End(e: Edge): Point { Move(e.start, e.dir) }

  function Opposite(d: Direction): Direction { (d + 2) % 4 }

  function Reverse(e: Edge): Edge { Edge(End(e), Opposite(e.dir)) }

  /** The pixel on the right-hand side of an edge, which the edge goes around. */
  function Owner(e: Edge): Pixel {
    match e.dir
    case 0 => Pixel(e.start.x, e.start.y)
    case 1 => Pixel(e.start.x - 1, e.start.y)
    case 2 => Pixel(e.start.x - 1, e.start.y - 1)
    case _ => Pixel(e.start.x, e.start.y - 1)
  }

  /** The pixel on the other side. */
  function Across(e: Edge): Pixel { Owner(Reverse(e)) }

  /** The side of pixel `p` that runs in direction `d`. */
  function Side(p: Pixel, d: Direction): (e: Edge)
    ensures Owner(e) == p && e.dir == d
  {
    match d
    case 0 => Edge(Point(p.x, p.y), 0)
    case 1 => Edge(Point(p.x + 1, p.y), 1)
    case 2 => Edge(Point(p.x + 1, p.y + 1), 2)
    case _ => Edge(Point(p.x, p.y + 1), 3)
  }

  lemma SideOfOwner(e: Edge)
    ensures Side(Owner(e), e.dir) == e
    ensures Reverse(Reverse(e)) == e && Reverse(e) != e
    ensures Adjacent(Owner(e), Across(e))
  {
  }

  /** Every side of every pixel of the region. */
  ghost function Sides(region: set<Pixel>): (r: set<Edge>)
    ensures forall e :: e in r <==> Owner(e) in region
  {
    var r := set p, d: Direction | p in region && 0 <= d < 4 :: Side(p, d);
    assert forall e :: Owner(e) in region ==> e in r by {
      forall e | Owner(e) in region ensures e in r {
        SideOfOwner(e);
      }
    }
    r
  }

  /** The sides that separate the region from its complement. */
  ghost function Border(region: set<Pixel>): (r: set<Edge>)
    ensures forall e :: e in r <==> Owner(e) in region && Across(e) !in region
  {
    set e | e in Sides(region) && Across(e) !in region
  }

  ghost function Owned(edges: set<Edge>, part: set<Pixel>): set<Edge> {
    set e | e in edges && Owner(e) in part
  }

  /** The border of a union of classes is its share of the whole border. */
  lemma OwnedBorder(region: set<Pixel>, part: set<Pixel>)
    requires Closed(region, part)
    ensures Owned(Border(region), part) == Border(part)
  {
    forall e | Owner(e) in part ensures Across(e) in region <==> Across(e) in part {
      SideOfOwner(e);
    }
  }

  // ---- Degrees ----

  ghost function Has(edges: set<Edge>, v: Point, d: Direction): int {
    if Edge(v, d) in edges then 1 else 0
  }

  ghost function OutDegree(edges: set<Edge>, v: Point): int {
    Has(edges, v, 0) + Has(edges, v, 1) + Has(edges, v, 2) + Has(edges, v, 3)
  }

  ghost function InDegree(edges: set<Edge>, v: Point): int {
    Has(edges, Move(v, 2), 0) + Has(edges, Move(v, 3), 1) + Has(edges, Move(v, 0), 2) + Has(edges, Move(v, 1), 3)
  }

  ghost predicate Balanced(edges: set<Edge>) {
    forall v :: OutDegree(edges, v) == InDegree(edges, v)
  }

  /** Going round a lattice point, the region is entered as often as it is left. */
  lemma BorderBalanced(region: set<Pixel>)
    ensures Balanced(Border(region))
  {
    forall v ensures OutDegree(Border(region), v) == InDegree(Border(region), v) {
      BorderBalancedAt(region, v);
    }
  }

  /** The border edges that leave a point separate two of the four pixels around it. */
  lemma BorderLeaves(region: set<Pixel>, v: Point)
    ensures var se, sw := Pixel(v.x, v.y) in region, Pixel(v.x - 1, v.y) in region;
            var nw, ne := Pixel(v.x - 1, v.y - 1) in region, Pixel(v.x, v.y - 1) in region;
            && Has(Border(region), v, 0) == (if se && !ne then 1 else 0) && Has(Border(region), v, 1) == (if sw && !se then 1 else 0)
            && Has(Border(region), v, 2) == (if nw && !sw then 1 else 0) && Has(Border(region), v, 3) == (if ne && !nw then 1 else 0)
  {
  }

  lemma BorderArrives(region: set<Pixel>, v: Point)
    ensures var se, sw := Pixel(v.x, v.y) in region, Pixel(v.x - 1, v.y) in region;
            var nw, ne := Pixel(v.x - 1, v.y - 1) in region, Pixel(v.x, v.y - 1) in region;
            && Has(Border(region), Move(v, 2), 0) == (if sw && !nw then 1 else 0)
            && Has(Border(region), Move(v, 3), 1) == (if nw && !ne then 1 else 0)
            && Has(Border(region), Move(v, 0), 2) == (if ne && !se then 1 else 0)
            && Has(Border(region), Move(v, 1), 3) == (if se && !sw then 1 else 0)
  {
  }

  lemma BorderBalancedAt(region: set<Pixel>, v: Point)
    ensures OutDegree(Border(region), v) == InDegree(Border(region), v)
  {
    BorderLeaves(region, v);
    BorderArrives(region, v);
    hide Has, Border;
  }

  ghost function At(v: Point, w: Point): int { if v == w then 1 else 0 }

  /** A walk from `from` that has used up its edges and stands at `to` leaves exactly this imbalance. */
  ghost predicate BalancedBut(edges: set<Edge>, from: Point, to: Point) {
    forall v :: OutDegree(edges, v) + At(v, from) == InDegree(edges, v) + At(v, to)
  }

  lemma RemoveEdge(edges: set<Edge>, e: Edge, v: Point)
    requires e in edges
    ensures OutDegree(edges - {e}, v) == OutDegree(edges, v) - At(v, e.start)
    ensures InDegree(edges - {e}, v) == InDegree(edges, v) - At(v, End(e))
  {
    assert Has(edges - {e}, v, 0) == Has(edges, v, 0) - (if e == Edge(v, 0) then 1 else 0);
    assert Has(edges - {e}, v, 1) == Has(edges, v, 1) - (if e == Edge(v, 1) then 1 else 0);
    assert Has(edges - {e}, v, 2) == Has(edges, v, 2) - (if e == Edge(v, 2) then 1 else 0);
    assert Has(edges - {e}, v, 3) == Has(edges, v, 3) - (if e == Edge(v, 3) then 1 else 0);
  }

  /** A walk that is not back at its start can always go on. */
  lemma CanContinue(edges: set<Edge>, from: Point, to: Point)
    requires BalancedBut(edges, from, to) && from != to
    ensures exists e :: e in edges && e.start == to
  {
    assert OutDegree(edges, to) + At(to, from) == InDegree(edges, to) + At(to, to);
    assert OutDegree(edges, to) > 0;
    if forall e :: e in edges ==> e.start != to {
      assert forall d: Direction :: Has(edges, to, d) == 0;
      assert false;
    }
  }

  lemma WalkEdge(edges: set<Edge>, from: Point, e: Edge)
    requires BalancedBut(edges, from, e.start) && e in edges
    ensures BalancedBut(edges - {e}, from, End(e))
  {
    forall v ensures OutDegree(edges - {e}, v) + At(v, from) == InDegree(edges - {e}, v) + At(v, End(e)) {
      RemoveEdge(edges, e, v);
      assert OutDegree(edges, v) + At(v, from) == InDegree(edges, v) + At(v, e.start);
    }
  }

  lemma StartWalk(edges: set<Edge>, v: Point)
    requires Balanced(edges)
    ensures BalancedBut(edges, v, v)
  {
  }

  lemma EndWalk(edges: set<Edge>, v: Point)
    requires BalancedBut(edges, v, v)
    ensures Balanced(edges)
  {
    forall w ensures OutDegree(edges, w) == InDegree(edges, w) {
      assert OutDegree(edges, w) + At(w, v) == InDegree(edges, w) + At(w, v);
    }
  }

  // ---- Junctions ----

  /** Quarter turns from the arriving direction to the leaving one; 0 is straight on. */
  function Turn(arriving: Direction, leaving: Direction): int { (leaving - arriving) % 4 }

  /** No border reverses on itself. */
  lemma NoReversal(region: set<Pixel>, arriving: Edge, leaving: Edge)
    requires arriving in Border(region) && leaving in Border(region) && End(arriving) == leaving.start
    ensures Turn(arriving.dir, leaving.dir) != 2
  {
  }

  /** The edge taken by the tracer, least turn first, keeps the walk within the class it started in: a wider turn
      leaves it only where two pixels touch diagonally, and there the tightest turn is part of the border too. */
  lemma TightestStaysInClass(region: set<Pixel>, part: set<Pixel>, unused: set<Edge>, from: Point, arriving: Edge, leaving: Edge)
    requires Closed(region, part) && Owner(arriving) in part && arriving in Border(region)
    requires unused <= Border(region) && leaving in unused && End(arriving) == leaving.start != from
    requires BalancedBut(Owned(unused, part), from, leaving.start)
    requires forall e :: e in unused && e.start == leaving.start
                         ==> Turn(arriving.dir, leaving.dir) <= Turn(arriving.dir, e.dir)
    ensures Owner(leaving) in part
  {
    if Owner(leaving) !in part {
      CanContinue(Owned(unused, part), from, leaving.start);
      assert false;
    }
  }

  // ---- Area ----

  /** The cross product of two corner vectors: the shoelace term. */
  function Cross(p: Point, q: Point): int { p.x * q.y - q.x * p.y }

  function EdgeCross(e: Edge): int { Cross(e.start, End(e)) }

  lemma EdgeCrossLinear(e: Edge)
    ensures EdgeCross(e) == match e.dir case 0 => -e.start.y case 1 => e.start.x case 2 => e.start.y case _ => -e.start.x
    ensures EdgeCross(Reverse(e)) == -EdgeCross(e)
  {
    var x, y := e.start.x, e.start.y;
    assert x * y - (x + 1) * y == -y;
    assert x * (y + 1) - x * y == x;
    assert x * y - (x - 1) * y == y;
    assert x * (y - 1) - x * y == -x;
    var p, q := e.start, End(e);
    assert EdgeCross(Reverse(e)) == Cross(q, p);
  }

  ghost function Total(edges: set<Edge>): int {
    if edges == {} then 0 else
    var e :| e in edges;
    EdgeCross(e) + Total(edges - {e})
  }

  lemma {:induction false} TotalRemove(edges: set<Edge>, e: Edge)
    requires e in edges
    ensures Total(edges) == EdgeCross(e) + Total(edges - {e})
    decreases |edges|
  {
    var f :| f in edges && Total(edges) == EdgeCross(f) + Total(edges - {f});
    if f != e {
      TotalRemove(edges - {f}, e);
      TotalRemove(edges - {e}, f);
      assert (edges - {f}) - {e} == (edges - {e}) - {f};
    }
  }

  lemma {:induction false} TotalDisjoint(a: set<Edge>, b: set<Edge>)
    requires a !! b
    ensures Total(a + b) == Total(a) + Total(b)
    decreases |a|
  {
    if a == {} {
      assert a + b == b;
    } else {
      var e :| e in a;
      TotalRemove(a, e);
      TotalRemove(a + b, e);
      assert (a + b) - {e} == (a - {e}) + b;
      TotalDisjoint(a - {e}, b);
    }
  }

  /** Edges that come with their reversals cancel. */
  lemma {:induction false} ReversalsCancel(edges: set<Edge>)
    requires forall e :: e in edges ==> Reverse(e) in edges
    ensures Total(edges) == 0
    decreases |edges|
  {
    if edges != {} {
      var e :| e in edges;
      SideOfOwner(e);
      var rest := (edges - {e}) - {Reverse(e)};
      TotalRemove(edges, e);
      TotalRemove(edges - {e}, Reverse(e));
      EdgeCrossLinear(e);
      forall f | f in rest ensures Reverse(f) in rest {
        SideOfOwner(f);
      }
      ReversalsCancel(rest);
    }
  }

  lemma PixelTotal(p: Pixel)
    ensures Total({Side(p, 0), Side(p, 1), Side(p, 2), Side(p, 3)}) == 2
  {
    var a, b, c, d := Side(p, 0), Side(p, 1), Side(p, 2), Side(p, 3);
    TotalRemove({a, b, c, d}, a);
    assert {a, b, c, d} - {a} == {b, c, d};
    TotalRemove({b, c, d}, b);
    assert {b, c, d} - {b} == {c, d};
    TotalRemove({c, d}, c);
    assert {c, d} - {c} == {d};
    TotalRemove({d}, d);
    assert {d} - {d} == {};
    EdgeCrossLinear(a);
    EdgeCrossLinear(b);
    EdgeCrossLinear(c);
    EdgeCrossLinear(d);
  }

  lemma {:induction false} SidesTotal(region: set<Pixel>)
    ensures Total(Sides(region)) == 2 * |region|
    decreases |region|
  {
    if region == {} {
      assert Sides(region) == {};
    } else {
      var p :| p in region;
      var own := {Side(p, 0), Side(p, 1), Side(p, 2), Side(p, 3)};
      forall e | Owner(e) == p ensures e in own {
        SideOfOwner(e);
      }
      assert Sides(region) == own + Sides(region - {p});
      TotalDisjoint(own, Sides(region - {p}));
      PixelTotal(p);
      SidesTotal(region - {p});
    }
  }

  /** Discrete Green's theorem: the border of any region encloses exactly its pixels. */
  lemma BorderTotal(region: set<Pixel>)
    ensures Total(Border(region)) == 2 * |region|
  {
    var interior := Sides(region) - Border(region);
    forall e | e in interior ensures Reverse(e) in interior {
      SideOfOwner(e);
    }
    ReversalsCancel(interior);
    assert Sides(region) == Border(region) + interior;
    TotalDisjoint(Border(region), interior);
    SidesTotal(region);
  }
}
