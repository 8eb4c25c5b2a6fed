/** Tracing a mask into closed boundary loops. */
module Contours {
  import opened Pixels
  import opened Boundary
  import opened Components

  type Loop = seq<Point>

  predicate UnitStep(p: Point, q: Point) {
    exists d: Direction :: Move(p, d) == q
  }

  function StepDirection(p: Point, q: Point): (d: Direction)
    ensures UnitStep(p, q) ==> Move(p, d) == q
  {
    if q == Move(p, 0) then 0 else if q == Move(p, 1) then 1 else if q == Move(p, 2) then 2 else 3
  }

  /** The edges a point list walks along. */
  function Trail(loop: Loop): seq<Edge> {
    if |loop| <= 1 then [] else
    Trail(loop[..|loop| - 1]) + [Edge(loop[|loop| - 2], StepDirection(loop[|loop| - 2], loop[|loop| - 1]))]
  }

  ghost predicate IsWalk(loop: Loop) {
    |loop| > 0 && forall i :: 0 < i < |loop| ==> UnitStep(loop[i - 1], loop[i])
  }

  ghost predicate IsClosedLoop(loop: Loop) {
    IsWalk(loop) && |loop| > 1 && loop[0] == loop[|loop| - 1]
  }

  ghost predicate Distinct(edges: seq<Edge>) {
    forall i, j :: 0 <= i < j < |edges| ==> edges[i] != edges[j]
  }

  ghost function EdgeSet(edges: seq<Edge>): set<Edge> { set e | e in edges }

  ghost function AllEdges(loops: seq<Loop>): seq<Edge> {
    if |loops| == 0 then [] else AllEdges(loops[..|loops| - 1]) + Trail(loops[|loops| - 1])
  }

  /** All edges of the loop go around pixels of one 4-connected component of the region. */
  ghost predicate WithinOneClass(region: set<Pixel>, loop: Loop) {
    exists p :: p in region && forall e :: e in Trail(loop) ==> Owner(e) in Class(region, p)
  }

  /** The loops are closed, use each border edge exactly once, and each follows a single component. */
  ghost predicate IsTrace(region: set<Pixel>, loops: seq<Loop>) {
    && (forall k :: 0 <= k < |loops| ==> IsClosedLoop(loops[k]) && WithinOneClass(region, loops[k]))
    && Distinct(AllEdges(loops))
    && EdgeSet(AllEdges(loops)) == Border(region)
  }

  lemma {:induction false} TrailAt(loop: Loop, i: nat)
    requires i + 1 < |loop|
    ensures |Trail(loop)| == |loop| - 1
    ensures Trail(loop)[i] == Edge(loop[i], StepDirection(loop[i], loop[i + 1]))
    decreases |loop|
  {
    var front := loop[..|loop| - 1];
    if i + 1 < |front| {
      TrailAt(front, i);
    } else if |front| > 1 {
      TrailAt(front, 0);
    }
  }

  lemma {:induction false} TrailSnoc(loop: Loop, e: Edge)
    requires |loop| > 0 && loop[|loop| - 1] == e.start
    ensures Trail(loop + [End(e)]) == Trail(loop) + [e]
    ensures IsWalk(loop) ==> IsWalk(loop + [End(e)])
  {
    var longer := loop + [End(e)];
    assert longer[..|longer| - 1] == loop;
    assert UnitStep(e.start, End(e));
  }

  // ---- The edge table and the set of unused edges ----

  type EdgeTable = map<Point, seq<Edge>>

  /** The table lists, under each start point, exactly the edges in `listed`. */
  ghost predicate Lists(table: EdgeTable, listed: set<Edge>) {
    && (forall v, e :: v in table && e in table[v] ==> e.start == v && e in listed)
    && (forall e :: e in listed ==> e.start in table && e in table[e.start])
  }

  function AddEdge(table: EdgeTable, e: Edge): EdgeTable {
    table[e.start := (if e.start in table then table[e.start] else []) + [e]]
  }

  lemma AddEdgeLists(table: EdgeTable, listed: set<Edge>, e: Edge)
    requires Lists(table, listed)
    ensures Lists(AddEdge(table, e), listed + {e})
  {
  }

  /** The sides of `p` in the first `n` directions that face empty pixels. */
  ghost function FacingSides(region: set<Pixel>, p: Pixel, n: int): set<Edge> {
    set e | e in Border(region) && Owner(e) == p && e.dir < n
  }

  lemma FacingStep(region: set<Pixel>, p: Pixel, d: Direction)
    requires p in region
    ensures FacingSides(region, p, d + 1)
         == FacingSides(region, p, d) + (if Across(Side(p, d)) in region then {} else {Side(p, d)})
  {
    forall f | Owner(f) == p && f.dir == d ensures f == Side(p, d) { SideOfOwner(f); }
  }

  /** The sides of one pixel that face empty pixels, in the order they are added. */
  method AddSides(padded: array2<bool>, x: nat, y: nat, table: EdgeTable, ghost region: set<Pixel>, ghost listed: set<Edge>)
    returns (longer: EdgeTable, ghost more: set<Edge>)
    requires 1 <= y < padded.Length0 - 1 && 1 <= x < padded.Length1 - 1
    requires Marks(padded, region) && Pixel(x, y) in region
    requires Lists(table, listed)
    ensures Lists(longer, more)
    ensures more == listed + FacingSides(region, Pixel(x, y), 4)
  {
    ghost var p, added: set<Edge> := Pixel(x, y), {};
    longer, more := table, listed;
    for d := 0 to 4
      invariant Lists(longer, more)
      invariant added == FacingSides(region, p, d) && more == listed + added
    {
      var e := Side(Pixel(x, y), d);
      var q := Across(e);
      FacingStep(region, p, d);
      assert Pixel(q.x, q.y) == q;
      if !padded[q.y, q.x] {
        AddEdgeLists(longer, more, e);
        longer, more, added := AddEdge(longer, e), more + {e}, added + {e};
      }
    }
  }

  /** Lexicographic order of (start, end) pairs, each compared by x and then y. */
  predicate Precedes(e: Edge, f: Edge) {
    || PointBefore(e.start, f.start)
    || (e.start == f.start && (PointBefore(End(e), End(f)) || e == f))
  }

  predicate PointBefore(p: Point, q: Point) { p.x < q.x || (p.x == q.x && p.y < q.y) }

  lemma PrecedesTotal(e: Edge, f: Edge)
    ensures Precedes(e, f) || Precedes(f, e)
  {
  }

  lemma {:induction false} LeastExists(edges: set<Edge>)
    requires edges != {}
    ensures exists e :: Least(edges, e)
    decreases |edges|
  {
    var g :| g in edges;
    if edges != {g} {
      LeastExists(edges - {g});
      var e :| Least(edges - {g}, e);
      PrecedesTotal(e, g);
      var least := if Precedes(e, g) then e else g;
      forall f | f in edges ensures Precedes(least, f) {
        if f != g { assert Precedes(e, f); }
      }
      assert Least(edges, least);
    } else {
      assert Least(edges, g);
    }
  }

  predicate Least(edges: set<Edge>, e: Edge) {
    e in edges && forall f :: f in edges ==> Precedes(e, f)
  }

  /** The least edge starts furthest left, of those highest up, and of the edges that start there it leads likewise. */
  lemma LeastIsLeftmost(edges: set<Edge>, e: Edge, f: Edge)
    requires Least(edges, e) && f in edges
    ensures e.start.x <= f.start.x && (e.start.x == f.start.x ==> e.start.y <= f.start.y)
    ensures e.start == f.start ==> End(e).x <= End(f).x && (End(e).x == End(f).x ==> End(e).y <= End(f).y)
  {
    assert Precedes(e, f);
  }

  lemma LeastUnique(edges: set<Edge>, e: Edge, f: Edge)
    requires Least(edges, e) && Least(edges, f)
    ensures e == f
  {
    assert Precedes(e, f) && Precedes(f, e);
  }

  /** Among the edges that leave the end of `arriving`, the one that turns least. */
  ghost predicate TightestOf(edges: set<Edge>, arriving: Edge, next: Edge) {
    && next in edges && next.start == End(arriving)
    && forall e :: e in edges && e.start == End(arriving) ==> Turn(arriving.dir, next.dir) <= Turn(arriving.dir, e.dir)
  }

  /** Keeps the edges not used yet, in list order. */
  function Remaining(edges: seq<Edge>, unused: set<Edge>): (r: seq<Edge>)
    ensures forall e :: e in r <==> e in edges && e in unused
  {
    if edges == [] then [] else (if edges[0] in unused then [edges[0]] else []) + Remaining(edges[1..], unused)
  }

  /** The first candidate after sorting by turn: the tightest continuation. */
  method Tightest(candidates: seq<Edge>, arriving: Direction) returns (best: Edge)
    requires |candidates| > 0
    ensures best in candidates
    ensures forall e :: e in candidates ==> Turn(arriving, best.dir) <= Turn(arriving, e.dir)
  {
    best := candidates[0];
    for k := 1 to |candidates|
      invariant best in candidates
      invariant forall i :: 0 <= i < k ==> Turn(arriving, best.dir) <= Turn(arriving, candidates[i].dir)
    {
      if Turn(arriving, candidates[k].dir) < Turn(arriving, best.dir) {
        best := candidates[k];
      }
    }
  }

  // ---- What the unused edges satisfy between and during walks ----

  /** Every component's share of the unused edges can still be walked. */
  ghost predicate Traceable(region: set<Pixel>, unused: set<Edge>) {
    && unused <= Border(region)
    && forall p :: p in region ==> Balanced(Owned(unused, Class(region, p)))
  }

  /** During a walk around the class of `home`: its share is out of balance at the two ends of the walk only. */
  ghost predicate Walking(region: set<Pixel>, unused: set<Edge>, home: Pixel, from: Point, to: Point) {
    && unused <= Border(region) && home in region
    && BalancedBut(Owned(unused, Class(region, home)), from, to)
    && forall p :: p in region && p !in Class(region, home) ==> Balanced(Owned(unused, Class(region, p)))
  }

  lemma BorderTraceable(region: set<Pixel>)
    ensures Traceable(region, Border(region))
  {
    forall p | p in region ensures Balanced(Owned(Border(region), Class(region, p))) {
      ClassClosed(region, p);
      OwnedBorder(region, Class(region, p));
      BorderBalanced(Class(region, p));
    }
  }

  lemma ClassesDisjoint(region: set<Pixel>, p: Pixel, q: Pixel)
    requires p in region && q in region && q !in Class(region, p)
    ensures Class(region, p) !! Class(region, q)
  {
    forall r | r in Class(region, p) && r in Class(region, q) ensures false {
      ConnectedSym(region, q, r);
      ClassEqual(region, p, r);
      ClassEqual(region, r, q);
      ConnectedRefl(region, q);
      assert false;
    }
  }

  lemma TakeEdge(region: set<Pixel>, unused: set<Edge>, home: Pixel, from: Point, e: Edge)
    requires Walking(region, unused, home, from, e.start)
    requires e in unused && Owner(e) in Class(region, home)
    ensures Walking(region, unused - {e}, home, from, End(e))
  {
    var share := Owned(unused, Class(region, home));
    WalkEdge(share, from, e);
    assert Owned(unused - {e}, Class(region, home)) == share - {e};
    forall p | p in region && p !in Class(region, home)
      ensures Balanced(Owned(unused - {e}, Class(region, p)))
    {
      ClassesDisjoint(region, home, p);
      assert Owned(unused - {e}, Class(region, p)) == Owned(unused, Class(region, p));
    }
  }

  lemma BeginWalk(region: set<Pixel>, unused: set<Edge>, home: Pixel, v: Point)
    requires Traceable(region, unused) && home in region
    ensures Walking(region, unused, home, v, v)
  {
    StartWalk(Owned(unused, Class(region, home)), v);
  }

  lemma FinishWalk(region: set<Pixel>, unused: set<Edge>, home: Pixel, v: Point)
    requires Walking(region, unused, home, v, v)
    ensures Traceable(region, unused)
  {
    EndWalk(Owned(unused, Class(region, home)), v);
    forall p | p in region ensures Balanced(Owned(unused, Class(region, p))) {
      if p in Class(region, home) {
        ClassEqual(region, home, p);
      }
    }
  }

  /** A walk away from its start always finds a candidate: the open-contour error cannot happen. */
  lemma CandidateExists(region: set<Pixel>, unused: set<Edge>, home: Pixel, from: Point, to: Point)
    requires Walking(region, unused, home, from, to) && from != to
    ensures exists e :: e in unused && e.start == to
  {
    CanContinue(Owned(unused, Class(region, home)), from, to);
  }

  // ---- The tracer's choices ----

  /** The walk was still open before edge `k`, and went on along the tightest edge it had not used. */
  ghost predicate TakesTightest(unused: set<Edge>, trail: seq<Edge>, k: int)
    requires 0 < k < |trail|
  {
    End(trail[k - 1]) != trail[0].start && TightestOf(unused - EdgeSet(trail[..k]), trail[k - 1], trail[k])
  }

  /** A walk from the least unused edge that always takes the tightest continuation and never passes its start. */
  ghost predicate Follows(unused: set<Edge>, trail: seq<Edge>) {
    |trail| > 0 && Least(unused, trail[0]) && forall k :: 0 < k < |trail| ==> TakesTightest(unused, trail, k)
  }

  /** Each loop follows the edges that the loops before it leave unused. */
  ghost predicate InOrder(border: set<Edge>, loops: seq<Loop>) {
    forall k :: 0 <= k < |loops| ==> Follows(border - EdgeSet(AllEdges(loops[..k])), Trail(loops[k]))
  }

  lemma FollowsSnoc(unused: set<Edge>, trail: seq<Edge>, next: Edge)
    requires Follows(unused, trail) && End(trail[|trail| - 1]) != trail[0].start
    requires TightestOf(unused - EdgeSet(trail), trail[|trail| - 1], next)
    ensures Follows(unused, trail + [next])
  {
    var longer := trail + [next];
    forall k | 0 < k < |longer| ensures TakesTightest(unused, longer, k) {
      assert longer[..k] == trail[..k];
      if k < |trail| {
        assert TakesTightest(unused, trail, k);
      } else {
        assert trail[..k] == trail;
      }
    }
  }

  lemma {:induction false} SamePrefix(unused: set<Edge>, a: seq<Edge>, b: seq<Edge>, n: nat)
    requires Follows(unused, a) && Follows(unused, b) && n <= |a| && n <= |b|
    ensures a[..n] == b[..n]
  {
    if n == 1 {
      LeastUnique(unused, a[0], b[0]);
    } else if n > 1 {
      var k := n - 1;
      SamePrefix(unused, a, b, k);
      assert TakesTightest(unused, a, k) && TakesTightest(unused, b, k);
      assert a[k - 1] == a[..k][k - 1] == b[..k][k - 1] == b[k - 1];
      assert Turn(a[k - 1].dir, a[k].dir) == Turn(b[k - 1].dir, b[k].dir);
      assert a[..n] == a[..k] + [a[k]] && b[..n] == b[..k] + [b[k]];
    }
  }

  lemma OpenBefore(unused: set<Edge>, trail: seq<Edge>, k: nat)
    requires Follows(unused, trail) && 0 < k < |trail|
    ensures End(trail[k - 1]) != trail[0].start
  {
    assert TakesTightest(unused, trail, k);
  }

  lemma ShorterIsWhole(unused: set<Edge>, a: seq<Edge>, b: seq<Edge>)
    requires Follows(unused, a) && Follows(unused, b) && |a| <= |b| && End(a[|a| - 1]) == a[0].start
    ensures a == b
  {
    if |a| < |b| {
      OpenBefore(unused, b, |a|);
    }
    SamePrefix(unused, a, b, |a|);
    assert a[..|a|] == a && b[..|b|] == b;
    assert a[|a| - 1] == b[..|a|][|a| - 1] && a[0] == b[..|a|][0];
  }

  lemma LoopDetermined(unused: set<Edge>, a: Loop, b: Loop)
    requires IsClosedLoop(a) && IsClosedLoop(b)
    requires Follows(unused, Trail(a)) && Follows(unused, Trail(b))
    ensures a == b
  {
    TrailEnds(a);
    TrailEnds(b);
    if |a| <= |b| {
      ShorterIsWhole(unused, Trail(a), Trail(b));
    } else {
      ShorterIsWhole(unused, Trail(b), Trail(a));
    }
    forall i | 0 <= i < |a| ensures a[i] == b[i] {
      if i < |a| - 1 {
        TrailAt(a, i);
        TrailAt(b, i);
      }
    }
  }

  lemma TrailEnds(loop: Loop)
    requires IsClosedLoop(loop)
    ensures |Trail(loop)| == |loop| - 1 && Trail(loop)[0].start == loop[0]
    ensures End(Trail(loop)[|loop| - 2]) == loop[0]
  {
    TrailAt(loop, 0);
    TrailAt(loop, |loop| - 2);
    assert UnitStep(loop[|loop| - 2], loop[|loop| - 1]);
  }

  ghost predicate AllClosed(loops: seq<Loop>) {
    forall k :: 0 <= k < |loops| ==> IsClosedLoop(loops[k])
  }

  lemma {:induction false} SameLoops(border: set<Edge>, a: seq<Loop>, b: seq<Loop>, n: nat)
    requires AllClosed(a) && InOrder(border, a) && AllClosed(b) && InOrder(border, b)
    requires n <= |a| && n <= |b|
    ensures a[..n] == b[..n]
  {
    hide Follows, IsClosedLoop, EdgeSet, AllEdges, Trail;
    if n > 0 {
      var k := n - 1;
      SameLoops(border, a, b, k);
      LoopDetermined(border - EdgeSet(AllEdges(a[..k])), a[k], b[k]);
      assert a[..n] == a[..k] + [a[k]] && b[..n] == b[..k] + [b[k]];
    }
  }

  lemma NoLoopFewer(border: set<Edge>, a: seq<Loop>, b: seq<Loop>)
    requires AllClosed(a) && InOrder(border, a) && AllClosed(b) && InOrder(border, b)
    requires EdgeSet(AllEdges(a)) == border && |a| <= |b|
    ensures a == b
  {
    SameLoops(border, a, b, |a|);
    assert a[..|a|] == a;
    if |a| < |b| {
      assert false;
    }
    assert b[..|b|] == b;
  }

  /** The loops are determined by the region alone. */
  lemma TraceDetermined(region: set<Pixel>, a: seq<Loop>, b: seq<Loop>)
    requires IsTrace(region, a) && InOrder(Border(region), a) && IsTrace(region, b) && InOrder(Border(region), b)
    ensures a == b
  {
    var border := Border(region);
    if |a| <= |b| {
      NoLoopFewer(border, a, b);
    } else {
      NoLoopFewer(border, b, a);
    }
  }

  // ---- The tracer ----

  /** The body of the walk loop: picks the continuation at the walk's end. */
  method NextEdge(table: EdgeTable, unused: set<Edge>, arriving: Edge, ghost region: set<Pixel>, ghost home: Pixel, ghost from: Point)
    returns (next: Edge)
    requires Lists(table, Border(region))
    requires Walking(region, unused, home, from, End(arriving)) && End(arriving) != from
    requires arriving in Border(region) && Owner(arriving) in Class(region, home)
    ensures TightestOf(unused, arriving, next) && Owner(next) in Class(region, home)
  {
    var current := End(arriving);
    var candidates := Remaining(if current in table then table[current] else [], unused);
    CandidateExists(region, unused, home, from, current);
    assert forall e :: e in unused && e.start == current ==> e in candidates;
    if |candidates| == 0 {
      assert false;  // "Open contour" is unreachable
    }
    next := candidates[0];
    if |candidates| > 1 {
      next := Tightest(candidates, arriving.dir);
    }
    forall e | e in unused && e.start == current
      ensures Turn(arriving.dir, next.dir) <= Turn(arriving.dir, e.dir)
    {
      assert e in candidates;
    }
    ClassClosed(region, home);
    TightestStaysInClass(region, Class(region, home), unused, from, arriving, next);
  }

  /** The walk so far: `loop` has used up exactly the edges missing from `left`, all around one component. */
  ghost predicate IsTracing(region: set<Pixel>, unused: set<Edge>, left: set<Edge>, home: Pixel, loop: Loop, last: Edge) {
    && |loop| > 1 && IsWalk(loop) && loop[|loop| - 1] == End(last)
    && last in Border(region)
    && Follows(unused, Trail(loop)) && Trail(loop)[|Trail(loop)| - 1] == last && Trail(loop)[0].start == loop[0]
    && Owner(last) in Class(region, home)
    && Walking(region, left, home, loop[0], End(last))
    && Distinct(Trail(loop)) && |Trail(loop)| > 0
    && EdgeSet(Trail(loop)) <= unused && left == unused - EdgeSet(Trail(loop))
    && forall e :: e in Trail(loop) ==> Owner(e) in Class(region, home)
  }

  lemma FirstStep(region: set<Pixel>, unused: set<Edge>, first: Edge)
    requires Traceable(region, unused) && Least(unused, first)
    ensures IsTracing(region, unused, unused - {first}, Owner(first), [first.start, End(first)], first)
  {
    var home := Owner(first);
    ConnectedRefl(region, home);
    BeginWalk(region, unused, home, first.start);
    TakeEdge(region, unused, home, first.start, first);
    TrailSnoc([first.start], first);
    assert [first.start] + [End(first)] == [first.start, End(first)];
    assert Trail([first.start]) + [first] == [first];
  }

  lemma NextStep(region: set<Pixel>, unused: set<Edge>, left: set<Edge>, home: Pixel, loop: Loop, last: Edge, next: Edge)
    requires IsTracing(region, unused, left, home, loop, last)
    requires End(last) != loop[0] && TightestOf(left, last, next) && Owner(next) in Class(region, home)
    ensures IsTracing(region, unused, left - {next}, home, loop + [End(next)], next)
  {
    FollowsSnoc(unused, Trail(loop), next);
    TakeEdge(region, left, home, loop[0], next);
    TrailSnoc(loop, next);
    assert EdgeSet(Trail(loop) + [next]) == EdgeSet(Trail(loop)) + {next};
  }

  lemma LoopDone(region: set<Pixel>, unused: set<Edge>, left: set<Edge>, home: Pixel, loop: Loop, last: Edge)
    requires IsTracing(region, unused, left, home, loop, last) && loop[|loop| - 1] == loop[0]
    ensures IsClosedLoop(loop) && WithinOneClass(region, loop)
    ensures Distinct(Trail(loop)) && left == unused - EdgeSet(Trail(loop)) && EdgeSet(Trail(loop)) <= unused
    ensures left < unused && Traceable(region, left)
    ensures Follows(unused, Trail(loop))
  {
    FinishWalk(region, left, home, loop[0]);
    assert Trail(loop)[0] in EdgeSet(Trail(loop));
  }

  /** Traces one loop, starting with the least unused edge. */
  method TraceLoop(table: EdgeTable, unused: set<Edge>, ghost region: set<Pixel>)
    returns (loop: Loop, left: set<Edge>)
    requires Lists(table, Border(region)) && Traceable(region, unused) && unused != {}
    ensures IsClosedLoop(loop) && WithinOneClass(region, loop)
    ensures Distinct(Trail(loop)) && left == unused - EdgeSet(Trail(loop)) && EdgeSet(Trail(loop)) <= unused
    ensures left < unused && Traceable(region, left)
    ensures Follows(unused, Trail(loop))
  {
    LeastExists(unused);
    var first :| Least(unused, first);
    ghost var home := Owner(first);
    FirstStep(region, unused, first);
    var start, last := first.start, first;
    left := unused - {first};
    loop := [start, End(first)];
    while loop[|loop| - 1] != start
      invariant IsTracing(region, unused, left, home, loop, last) && loop[0] == start
      decreases left
    {
      var next := NextEdge(table, left, last, region, home, start);
      NextStep(region, unused, left, home, loop, last, next);
      left := left - {next};
      loop := loop + [End(next)];
      last := next;
    }
    LoopDone(region, unused, left, home, loop, last);
  }

  method TraceAll(table: EdgeTable, ghost region: set<Pixel>) returns (loops: seq<Loop>)
    requires Lists(table, Border(region))
    ensures IsTrace(region, loops) && InOrder(Border(region), loops)
  {
    var unused := set v, e | v in table && e in table[v] :: e;
    assert unused == Border(region);
    BorderTraceable(region);
    loops := [];
    while unused != {}
      invariant Traceable(region, unused) && IsTraceOf(region, loops, unused)
      decreases unused
    {
      var loop, left := TraceLoop(table, unused, region);
      AppendLoop(region, loops, loop, unused);
      loops := loops + [loop];
      unused := left;
    }
  }

  /** The loops traced so far use every border edge but the unused ones. */
  ghost predicate IsTraceOf(region: set<Pixel>, loops: seq<Loop>, unused: set<Edge>) {
    && (forall k :: 0 <= k < |loops| ==> IsClosedLoop(loops[k]) && WithinOneClass(region, loops[k]))
    && Distinct(AllEdges(loops)) && InOrder(Border(region), loops)
    && EdgeSet(AllEdges(loops)) + unused == Border(region) && EdgeSet(AllEdges(loops)) !! unused
  }

  lemma AppendLoop(region: set<Pixel>, loops: seq<Loop>, loop: Loop, unused: set<Edge>)
    requires IsTraceOf(region, loops, unused)
    requires IsClosedLoop(loop) && WithinOneClass(region, loop) && Follows(unused, Trail(loop))
    requires Distinct(Trail(loop)) && EdgeSet(Trail(loop)) <= unused
    ensures IsTraceOf(region, loops + [loop], unused - EdgeSet(Trail(loop)))
  {
    hide Follows, IsClosedLoop, WithinOneClass, Distinct, InOrder, EdgeSet, AllEdges;
    AppendEdges(loops, loop, unused);
    AppendInOrder(Border(region), loops, loop, unused);
  }

  lemma AppendEdges(loops: seq<Loop>, loop: Loop, unused: set<Edge>)
    requires Distinct(AllEdges(loops)) && Distinct(Trail(loop))
    requires EdgeSet(AllEdges(loops)) !! unused && EdgeSet(Trail(loop)) <= unused
    ensures Distinct(AllEdges(loops + [loop]))
    ensures EdgeSet(AllEdges(loops + [loop])) == EdgeSet(AllEdges(loops)) + EdgeSet(Trail(loop))
  {
    assert (loops + [loop])[..|loops|] == loops;
    var done, trail := AllEdges(loops), Trail(loop);
    forall i, j | 0 <= i < |done| && 0 <= j < |trail| ensures done[i] != trail[j] {
      assert done[i] in EdgeSet(done) && trail[j] in EdgeSet(trail);
    }
  }

  lemma AppendInOrder(border: set<Edge>, loops: seq<Loop>, loop: Loop, unused: set<Edge>)
    requires InOrder(border, loops) && Follows(unused, Trail(loop))
    requires unused == border - EdgeSet(AllEdges(loops))
    ensures InOrder(border, loops + [loop])
  {
    var longer := loops + [loop];
    forall k | 0 <= k < |longer| ensures Follows(border - EdgeSet(AllEdges(longer[..k])), Trail(longer[k])) {
      assert longer[..k] == loops[..k];
      if k == |loops| { assert loops[..k] == loops; }
    }
  }

  // ---- Padding ----

  function Unshift(p: Pixel): Pixel { Pixel(p.x - 1, p.y - 1) }

  /** The region moved one pixel right and down, into the frame that padding adds. */
  ghost function Shifted(region: set<Pixel>): (r: set<Pixel>)
    ensures forall p :: p in r <==> Unshift(p) in region
  {
    var r := set p | p in region :: Pixel(p.x + 1, p.y + 1);
    assert forall p :: Unshift(p) in region ==> p in r by {
      forall p | Unshift(p) in region ensures p in r {
        assert p == Pixel(Unshift(p).x + 1, Unshift(p).y + 1);
      }
    }
    r
  }

  lemma {:induction false} ShiftedSize(region: set<Pixel>)
    ensures |Shifted(region)| == |region|
    decreases |region|
  {
    if p :| p in region {
      var q := Pixel(p.x + 1, p.y + 1);
      assert Unshift(q) == p;
      forall r ensures r in Shifted(region) <==> r in Shifted(region - {p}) + {q} {
        assert Unshift(r) == p <==> r == q;
      }
      assert Shifted(region) == Shifted(region - {p}) + {q};
      ShiftedSize(region - {p});
    } else {
      assert Shifted(region) == {};
    }
  }

  method Padded(mask: array2<bool>, ghost region: set<Pixel>) returns (padded: array2<bool>)
    requires Marks(mask, region)
    ensures padded.Length0 == mask.Length0 + 2 && padded.Length1 == mask.Length1 + 2
    ensures Marks(padded, Shifted(region)) && Framed(padded, Shifted(region))
  {
    padded := new bool[mask.Length0 + 2, mask.Length1 + 2];
    forall y, x | 0 <= y < padded.Length0 && 0 <= x < padded.Length1 {
      padded[y, x] := 1 <= y <= mask.Length0 && 1 <= x <= mask.Length1 && mask[y - 1, x - 1];
    }
    ghost var shifted := Shifted(region);
    forall p | p in shifted ensures 1 <= p.x < padded.Length1 - 1 && 1 <= p.y < padded.Length0 - 1 {
      assert Unshift(p) in region;
    }
    forall y, x | 0 <= y < padded.Length0 && 0 <= x < padded.Length1
      ensures padded[y, x] <==> Pixel(x, y) in shifted
    {
      assert Unshift(Pixel(x, y)) == Pixel(x - 1, y - 1);
    }
  }

  /** The border edges of the pixels that come before column `x` of row `y`. */
  ghost function EdgesBefore(region: set<Pixel>, x: int, y: int): set<Edge> {
    set e | e in Border(region) && (Owner(e).y < y || (Owner(e).y == y && Owner(e).x < x))
  }

  lemma EdgesBeforeStep(region: set<Pixel>, x: int, y: int)
    ensures EdgesBefore(region, x + 1, y)
         == EdgesBefore(region, x, y) + (if Pixel(x, y) in region then FacingSides(region, Pixel(x, y), 4) else {})
  {
    forall e: Edge | Owner(e).x == x && Owner(e).y == y ensures Owner(e) == Pixel(x, y) {}
  }

  /** The pixels of a region inside a padding frame. */
  ghost predicate Framed(padded: array2<bool>, region: set<Pixel>) {
    forall p :: p in region ==> 1 <= p.x < padded.Length1 - 1 && 1 <= p.y < padded.Length0 - 1
  }

  lemma EdgesBeforeRow(padded: array2<bool>, region: set<Pixel>, y: int)
    requires Framed(padded, region)
    ensures EdgesBefore(region, padded.Length1 - 1, y) == EdgesBefore(region, 1, y + 1)
    ensures EdgesBefore(region, 1, 1) == {}
    ensures EdgesBefore(region, 1, padded.Length0 - 1) == Border(region)
  {
  }

  /** Collects the border edges of a padded mask, row by row. */
  method CollectEdges(padded: array2<bool>, ghost region: set<Pixel>) returns (table: EdgeTable)
    requires padded.Length0 >= 2 && padded.Length1 >= 2
    requires Marks(padded, region) && Framed(padded, region)
    ensures Lists(table, Border(region))
  {
    ghost var listed: set<Edge> := {};
    table := map[];
    EdgesBeforeRow(padded, region, 0);
    for y := 1 to padded.Length0 - 1
      invariant Lists(table, listed) && listed == EdgesBefore(region, 1, y)
    {
      for x := 1 to padded.Length1 - 1
        invariant Lists(table, listed) && listed == EdgesBefore(region, x, y)
      {
        EdgesBeforeStep(region, x, y);
        if padded[y, x] {
          table, listed := AddSides(padded, x, y, table, region, listed);
        }
      }
      EdgesBeforeRow(padded, region, y);
    }
  }

  /** Traces the boundary of a mask; the error branch of the walk is dead for every mask. */
  method BoundaryLoops(mask: array2<bool>) returns (loops: seq<Loop>)
    ensures IsTrace(Shifted(Filled(mask)), loops) && InOrder(Border(Shifted(Filled(mask))), loops)
  {
    FilledMarks(mask, Filled(mask));
    ghost var region := Shifted(Filled(mask));
    var padded := Padded(mask, Filled(mask));
    var table := CollectEdges(padded, region);
    loops := TraceAll(table, region);
  }
}
