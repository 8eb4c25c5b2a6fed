/** Tracing with junctions resolved in any order: the walk is never stuck and uses every border edge exactly once. */
module JunctionOrder {
  import opened Pixels
  import opened Boundary

  /** Where the loop being walked began, and where it has got to; a closed loop leaves both at one point. */
  datatype Pen = Pen(start: Point, at: Point)

  predicate IsClosed(pen: Pen) { pen.start == pen.at }

  /** A closed loop is followed by a new one, wherever it begins; an open one goes on. */
  function Draw(pen: Pen, e: Edge): Pen { if IsClosed(pen) then Pen(e.start, End(e)) else Pen(pen.start, End(e)) }

  function After(taken: seq<Edge>): Pen {
    if taken == [] then Pen(Point(0, 0), Point(0, 0)) else Draw(After(taken[..|taken| - 1]), taken[|taken| - 1])
  }

  function EdgesOf(taken: seq<Edge>): set<Edge> { set e | e in taken }

  /** An edge the tracer may take next: unused, and at the end of the walk if the loop is open. */
  predicate MayTake(border: set<Edge>, taken: seq<Edge>, e: Edge) {
    e in border && e !in taken && (!IsClosed(After(taken)) ==> e.start == After(taken).at)
  }

  /** Any choices whatever, one allowed edge after another. */
  predicate IsTracing(border: set<Edge>, taken: seq<Edge>) {
    taken != [] ==> IsTracing(border, taken[..|taken| - 1]) && MayTake(border, taken[..|taken| - 1], taken[|taken| - 1])
  }

  /** What is left of the border is out of balance at the two ends of the open loop only. */
  lemma {:induction false} LeftoverBalance(region: set<Pixel>, taken: seq<Edge>)
    requires IsTracing(Border(region), taken)
    ensures BalancedBut(Border(region) - EdgesOf(taken), After(taken).start, After(taken).at)
  {
    if taken == [] {
      BorderBalanced(region);
      StartWalk(Border(region), Point(0, 0));
      assert Border(region) - EdgesOf([]) == Border(region);
    } else {
      var front, e := taken[..|taken| - 1], taken[|taken| - 1];
      var left, pen := Border(region) - EdgesOf(front), After(front);
      LeftoverBalance(region, front);
      if IsClosed(pen) {
        EndWalk(left, pen.start);
        StartWalk(left, e.start);
        WalkEdge(left, e.start, e);
      } else {
        WalkEdge(left, pen.start, e);
      }
      assert taken == front + [e];
      assert Border(region) - EdgesOf(taken) == left - {e};
    }
  }

  /** However junctions were resolved so far, some allowed edge remains while any border edge is unused or a loop is open. */
  lemma NeverStuck(region: set<Pixel>, taken: seq<Edge>)
    requires IsTracing(Border(region), taken)
    requires !IsClosed(After(taken)) || exists e :: e in Border(region) && e !in taken
    ensures exists e :: MayTake(Border(region), taken, e)
  {
    if IsClosed(After(taken)) {
      var e :| e in Border(region) && e !in taken;
      assert MayTake(Border(region), taken, e);
    } else {
      var left := Border(region) - EdgesOf(taken);
      LeftoverBalance(region, taken);
      CanContinue(left, After(taken).start, After(taken).at);
      var e :| e in left && e.start == After(taken).at;
      assert MayTake(Border(region), taken, e);
    }
  }

  lemma {:induction false} TakenOnce(border: set<Edge>, taken: seq<Edge>)
    requires IsTracing(border, taken)
    ensures EdgesOf(taken) <= border && |EdgesOf(taken)| == |taken|
    ensures forall i, j :: 0 <= i < j < |taken| ==> taken[i] != taken[j]
  {
    if taken != [] {
      var front, e := taken[..|taken| - 1], taken[|taken| - 1];
      TakenOnce(border, front);
      assert taken == front + [e];
      assert EdgesOf(taken) == EdgesOf(front) + {e};
      assert forall i :: 0 <= i < |front| ==> taken[i] == front[i] && front[i] in front;
    }
  }

  /** So whatever the choices, the tracer stops exactly with all loops closed and every border edge used once. */
  lemma StopsWhenAllUsed(region: set<Pixel>, taken: seq<Edge>)
    requires IsTracing(Border(region), taken)
    ensures |taken| <= |Border(region)|
    ensures (forall e :: !MayTake(Border(region), taken, e)) <==> IsClosed(After(taken)) && EdgesOf(taken) == Border(region)
  {
    TakenOnce(Border(region), taken);
    assert |Border(region) - EdgesOf(taken)| == |Border(region)| - |EdgesOf(taken)|;
    if forall e :: !MayTake(Border(region), taken, e) {
      if !IsClosed(After(taken)) || exists e :: e in Border(region) && e !in taken { NeverStuck(region, taken); }
      assert EdgesOf(taken) == Border(region);
    }
  }
}
