/** What the traced loops enclose: the mask, component by component. */
module ContourArea {
  import opened Pixels
  import opened Boundary
  import opened Contours

  /** Twice the signed area of a point list. */
  function SignedArea2(points: seq<Point>): int {
    if |points| <= 1 then 0
    else SignedArea2(points[..|points| - 1]) + Cross(points[|points| - 2], points[|points| - 1])
  }

  ghost function SeqTotal(edges: seq<Edge>): int {
    if edges == [] then 0 else SeqTotal(edges[..|edges| - 1]) + EdgeCross(edges[|edges| - 1])
  }

  /** Twice the areas of the loops whose pixels lie in `part`, summed. */
  ghost function AreaAround(loops: seq<Loop>, part: set<Pixel>): int {
    if loops == [] then 0 else
    AreaAround(loops[..|loops| - 1], part) +
    (if Around(loops[|loops| - 1], part) then SignedArea2(loops[|loops| - 1]) else 0)
  }

  ghost predicate Around(loop: Loop, part: set<Pixel>) {
    Trail(loop) != [] && Owner(Trail(loop)[0]) in part
  }

  lemma {:induction false} AreaOfWalk(loop: Loop)
    requires IsWalk(loop)
    ensures SignedArea2(loop) == SeqTotal(Trail(loop))
    decreases |loop|
  {
    if |loop| > 1 {
      var front := loop[..|loop| - 1];
      AreaOfWalk(front);
      assert Trail(loop)[..|Trail(loop)| - 1] == Trail(front);
      assert UnitStep(loop[|loop| - 2], loop[|loop| - 1]);
    }
  }

  lemma {:induction false} DistinctTotal(edges: seq<Edge>)
    requires Distinct(edges)
    ensures SeqTotal(edges) == Total(EdgeSet(edges))
    decreases |edges|
  {
    if edges == [] {
      assert EdgeSet(edges) == {};
    } else {
      var front, last := edges[..|edges| - 1], edges[|edges| - 1];
      DistinctTotal(front);
      TotalRemove(EdgeSet(edges), last);
      assert EdgeSet(edges) - {last} == EdgeSet(front);
    }
  }

  ghost function Restrict(edges: seq<Edge>, part: set<Pixel>): seq<Edge> {
    if edges == [] then [] else
    Restrict(edges[..|edges| - 1], part) + (if Owner(edges[|edges| - 1]) in part then [edges[|edges| - 1]] else [])
  }

  lemma {:induction false} RestrictAppend(a: seq<Edge>, b: seq<Edge>, part: set<Pixel>)
    ensures Restrict(a + b, part) == Restrict(a, part) + Restrict(b, part)
    decreases |b|
  {
    if b == [] {
      assert a + b == a;
    } else {
      var front := b[..|b| - 1];
      assert (a + b)[..|a + b| - 1] == a + front;
      RestrictAppend(a, front, part);
    }
  }

  lemma {:induction false} SeqTotalAppend(a: seq<Edge>, b: seq<Edge>)
    ensures SeqTotal(a + b) == SeqTotal(a) + SeqTotal(b)
    decreases |b|
  {
    if b == [] {
      assert a + b == a;
    } else {
      var front := b[..|b| - 1];
      assert (a + b)[..|a + b| - 1] == a + front;
      SeqTotalAppend(a, front);
    }
  }

  lemma {:induction false} RestrictIsOwned(edges: seq<Edge>, part: set<Pixel>)
    requires Distinct(edges)
    ensures Distinct(Restrict(edges, part))
    ensures EdgeSet(Restrict(edges, part)) == Owned(EdgeSet(edges), part)
    decreases |edges|
  {
    if edges != [] {
      var front, last := edges[..|edges| - 1], edges[|edges| - 1];
      RestrictIsOwned(front, part);
      var kept := Restrict(front, part);
      forall e | e in kept ensures e in front {
        assert e in EdgeSet(kept);
      }
      assert EdgeSet(edges) == EdgeSet(front) + {last};
      assert EdgeSet(kept + [last]) == EdgeSet(kept) + {last};
      assert Owned(EdgeSet(edges), part) == Owned(EdgeSet(front), part) + (if Owner(last) in part then {last} else {});
    }
  }

  lemma {:induction false} RestrictAllOrNothing(edges: seq<Edge>, part: set<Pixel>, inside: bool)
    requires forall e :: e in edges ==> (Owner(e) in part <==> inside)
    ensures Restrict(edges, part) == if inside then edges else []
    decreases |edges|
  {
    if edges != [] {
      var front, last := edges[..|edges| - 1], edges[|edges| - 1];
      assert edges == front + [last] && last in edges;
      RestrictAllOrNothing(front, part, inside);
    }
  }

  lemma {:induction false} AreaAroundIsRestricted(region: set<Pixel>, loops: seq<Loop>, part: set<Pixel>)
    requires Closed(region, part)
    requires forall k :: 0 <= k < |loops| ==> IsWalk(loops[k]) && WithinOneClass(region, loops[k])
    ensures AreaAround(loops, part) == SeqTotal(Restrict(AllEdges(loops), part))
    decreases |loops|
  {
    if loops != [] {
      var front, loop := loops[..|loops| - 1], loops[|loops| - 1];
      AreaAroundIsRestricted(region, front, part);
      var trail := Trail(loop);
      var p :| p in region && forall e :: e in trail ==> Owner(e) in Class(region, p);
      forall e | e in trail ensures Owner(e) in part <==> Around(loop, part) {
        ClosedHoldsClass(region, part, p, Owner(trail[0]), Owner(e));
      }
      RestrictAllOrNothing(trail, part, Around(loop, part));
      RestrictAppend(AllEdges(front), trail, part);
      SeqTotalAppend(Restrict(AllEdges(front), part), Restrict(trail, part));
      AreaOfWalk(loop);
    }
  }

  /** A union of classes holds two connected pixels or neither. */
  lemma ClosedHoldsClass(region: set<Pixel>, part: set<Pixel>, p: Pixel, q: Pixel, r: Pixel)
    requires Closed(region, part) && p in region && q in Class(region, p) && r in Class(region, p)
    ensures q in part <==> r in part
  {
    ClassEqual(region, p, q);
    ClassEqual(region, p, r);
    ClassEqual(region, q, r);
    ConnectedSym(region, q, r);
    if q in part { ClassSurvives(region, part, q); }
    if r in part { ClassSurvives(region, part, r); }
  }

  /** The loops around any union of components enclose exactly its pixels. */
  lemma TracedArea(region: set<Pixel>, loops: seq<Loop>, part: set<Pixel>)
    requires IsTrace(region, loops) && Closed(region, part)
    ensures AreaAround(loops, part) == 2 * |part|
  {
    AreaAroundIsRestricted(region, loops, part);
    RestrictIsOwned(AllEdges(loops), part);
    DistinctTotal(Restrict(AllEdges(loops), part));
    OwnedBorder(region, part);
    BorderTotal(part);
  }

  ghost function TotalArea2(loops: seq<Loop>): int {
    if loops == [] then 0 else TotalArea2(loops[..|loops| - 1]) + SignedArea2(loops[|loops| - 1])
  }

  /** Over any mask, the signed areas of all loops sum to the number of filled pixels. */
  lemma TracedTotal(region: set<Pixel>, loops: seq<Loop>)
    requires IsTrace(region, loops)
    ensures TotalArea2(loops) == 2 * |region|
  {
    forall k | 0 <= k < |loops| ensures Around(loops[k], region) {
      var loop := loops[k];
      var p :| p in region && forall e :: e in Trail(loop) ==> Owner(e) in Class(region, p);
      TrailAt(loop, 0);
      assert Trail(loop)[0] in Trail(loop);
    }
    AroundAll(loops, region);
    TracedArea(region, loops, region);
  }

  lemma {:induction false} AroundAll(loops: seq<Loop>, region: set<Pixel>)
    requires forall k :: 0 <= k < |loops| ==> Around(loops[k], region)
    ensures TotalArea2(loops) == AreaAround(loops, region)
    decreases |loops|
  {
    if loops != [] {
      AroundAll(loops[..|loops| - 1], region);
    }
  }

  /** The loops around one component enclose exactly that component. */
  lemma ComponentArea(region: set<Pixel>, loops: seq<Loop>, p: Pixel)
    requires IsTrace(region, loops) && p in region
    ensures AreaAround(loops, Class(region, p)) == 2 * |Class(region, p)|
  {
    ClassClosed(region, p);
    TracedArea(region, loops, Class(region, p));
  }

  /** The tracer pads the mask before tracing; the areas still sum to the pixels of the mask itself. */
  lemma TracedMaskTotal(filled: set<Pixel>, loops: seq<Loop>)
    requires IsTrace(Shifted(filled), loops)
    ensures TotalArea2(loops) == 2 * |filled|
  {
    ShiftedSize(filled);
    TracedTotal(Shifted(filled), loops);
  }
}
