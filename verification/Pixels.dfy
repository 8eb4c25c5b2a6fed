/** Pixels of a raster mask, 4-connectivity, and what a component filter does to a region. */
module Pixels {

  datatype Pixel = Pixel(x: int, y: int)

  predicate Adjacent(p: Pixel, q: Pixel) {
    || (p.y == q.y && (q.x == p.x - 1 || q.x == p.x + 1))
    || (p.x == q.x && (q.y == p.y - 1 || q.y == p.y + 1))
  }

  /** A nonempty walk through `region` whose consecutive pixels share a side. */
  ghost predicate IsPath(region: set<Pixel>, path: seq<Pixel>) {
    && |path| > 0
    && (forall i :: 0 <= i < |path| ==> path[i] in region)
    && (forall i :: 0 < i < |path| ==> Adjacent(path[i - 1], path[i]))
  }

  ghost predicate Connected(region: set<Pixel>, p: Pixel, q: Pixel) {
    exists path :: IsPath(region, path) && path[0] == p && path[|path| - 1] == q
  }

  /** The 4-connected class of `p` within `region`. */
  ghost function Class(region: set<Pixel>, p: Pixel): set<Pixel> {
    set q | q in region && Connected(region, p, q)
  }

  /** `part` is a union of whole classes of `region`. */
  ghost predicate Closed(region: set<Pixel>, part: set<Pixel>) {
    part <= region && forall p, q :: p in part && q in region && Adjacent(p, q) ==> q in part
  }

  lemma ConnectedRefl(region: set<Pixel>, p: Pixel)
    requires p in region
    ensures Connected(region, p, p)
  {
    assert IsPath(region, [p]) && [p][0] == p && [p][|[p]| - 1] == p;
  }

  lemma ConnectedStep(region: set<Pixel>, p: Pixel, q: Pixel, r: Pixel)
    requires Connected(region, p, q) && r in region && Adjacent(q, r)
    ensures Connected(region, p, r)
  {
    var path :| IsPath(region, path) && path[0] == p && path[|path| - 1] == q;
    var longer := path + [r];
    assert IsPath(region, longer) && longer[0] == p && longer[|longer| - 1] == r;
  }

  lemma {:induction false} ConnectedTrans(region: set<Pixel>, p: Pixel, path: seq<Pixel>)
    requires IsPath(region, path) && Connected(region, p, path[0])
    ensures Connected(region, p, path[|path| - 1])
    decreases |path|
  {
    if |path| > 1 {
      var front := path[..|path| - 1];
      ConnectedTrans(region, p, front);
      ConnectedStep(region, p, front[|front| - 1], path[|path| - 1]);
    }
  }

  lemma {:induction false} PathReversed(region: set<Pixel>, path: seq<Pixel>)
    requires IsPath(region, path)
    ensures Connected(region, path[|path| - 1], path[0])
    decreases |path|
  {
    var last := path[|path| - 1];
    ConnectedRefl(region, last);
    if |path| > 1 {
      var tail := path[1..];
      PathReversed(region, tail);
      ConnectedStep(region, last, tail[0], path[0]);
    }
  }

  lemma ConnectedSym(region: set<Pixel>, p: Pixel, q: Pixel)
    requires Connected(region, p, q)
    ensures Connected(region, q, p)
  {
    var path :| IsPath(region, path) && path[0] == p && path[|path| - 1] == q;
    PathReversed(region, path);
  }

  /** A path cannot leave a closed part, so it is also a path of that part. */
  lemma {:induction false} PathStays(region: set<Pixel>, part: set<Pixel>, path: seq<Pixel>)
    requires Closed(region, part) && IsPath(region, path) && path[0] in part
    ensures IsPath(part, path)
    decreases |path|
  {
    if |path| > 1 {
      var front := path[..|path| - 1];
      PathStays(region, part, front);
      assert front[|front| - 1] in part && Adjacent(front[|front| - 1], path[|path| - 1]);
    }
  }

  lemma ClassClosed(region: set<Pixel>, p: Pixel)
    ensures Closed(region, Class(region, p))
  {
    forall q, r | q in Class(region, p) && r in region && Adjacent(q, r)
      ensures r in Class(region, p)
    {
      ConnectedStep(region, p, q, r);
    }
  }

  /** Two pixels have the same class exactly when they are connected. */
  lemma ClassEqual(region: set<Pixel>, p: Pixel, q: Pixel)
    requires p in region && q in region
    ensures Connected(region, p, q) <==> Class(region, p) == Class(region, q)
  {
    ConnectedRefl(region, q);
    assert q in Class(region, q);
    if Connected(region, p, q) {
      ConnectedSym(region, p, q);
      forall r | r in Class(region, p) ensures r in Class(region, q) {
        var path :| IsPath(region, path) && path[0] == p && path[|path| - 1] == r;
        ConnectedTrans(region, q, path);
      }
      forall r | r in Class(region, q) ensures r in Class(region, p) {
        var path :| IsPath(region, path) && path[0] == q && path[|path| - 1] == r;
        ConnectedTrans(region, p, path);
      }
    }
  }

  /** A closed connected set is the whole class of any of its pixels. */
  lemma ClosedConnectedIsClass(region: set<Pixel>, seed: Pixel, part: set<Pixel>)
    requires Closed(region, part) && seed in part
    requires forall q :: q in part ==> Connected(region, seed, q)
    ensures part == Class(region, seed)
  {
    forall q | q in Class(region, seed) ensures q in part {
      var path :| IsPath(region, path) && path[0] == seed && path[|path| - 1] == q;
      PathStays(region, part, path);
    }
  }

  /** Deleting whole classes leaves every surviving class exactly as it was. */
  lemma ClassSurvives(region: set<Pixel>, part: set<Pixel>, p: Pixel)
    requires Closed(region, part) && p in part
    ensures Class(part, p) == Class(region, p)
  {
    forall q | q in Class(region, p) ensures q in Class(part, p) {
      var path :| IsPath(region, path) && path[0] == p && path[|path| - 1] == q;
      PathStays(region, part, path);
    }
    forall q | q in Class(part, p) ensures q in Class(region, p) {
      var path :| IsPath(part, path) && path[0] == p && path[|path| - 1] == q;
      assert IsPath(region, path);
    }
  }

  // ---- The two component filters, as functions on regions ----

  /** The pixels lying in classes of at least `minimum` pixels. */
  ghost function Kept(region: set<Pixel>, minimum: int): set<Pixel> {
    set p | p in region && |Class(region, p)| >= minimum
  }

  ghost predicate TouchesBorder(width: int, height: int, part: set<Pixel>) {
    exists p :: p in part && OnBorder(width, height, p)
  }

  predicate OnBorder(width: int, height: int, p: Pixel) {
    p.x == 0 || p.x == width - 1 || p.y == 0 || p.y == height - 1
  }

  /** A pixel of the grid is on the border exactly when one of its four neighbours lies outside the grid. */
  lemma BorderIff(width: int, height: int, p: Pixel)
    requires 0 <= p.x < width && 0 <= p.y < height
    ensures OnBorder(width, height, p) <==> exists q :: Adjacent(p, q) && !(0 <= q.x < width && 0 <= q.y < height)
  {
    assert Adjacent(p, Pixel(p.x - 1, p.y)) && Adjacent(p, Pixel(p.x + 1, p.y));
    assert Adjacent(p, Pixel(p.x, p.y - 1)) && Adjacent(p, Pixel(p.x, p.y + 1));
  }

  /** The background pixels that hole filling leaves empty. */
  ghost function Open(width: int, height: int, background: set<Pixel>, maximum: int): set<Pixel> {
    set p | p in background &&
            (TouchesBorder(width, height, Class(background, p)) || |Class(background, p)| > maximum)
  }

  lemma KeptClosed(region: set<Pixel>, minimum: int)
    ensures Closed(region, Kept(region, minimum))
  {
    forall p, q | p in Kept(region, minimum) && q in region && Adjacent(p, q)
      ensures q in Kept(region, minimum)
    {
      ConnectedRefl(region, p);
      ConnectedStep(region, p, p, q);
      ClassEqual(region, p, q);
    }
  }

  lemma OpenClosed(width: int, height: int, background: set<Pixel>, maximum: int)
    ensures Closed(background, Open(width, height, background, maximum))
  {
    forall p, q | p in Open(width, height, background, maximum) && q in background && Adjacent(p, q)
      ensures q in Open(width, height, background, maximum)
    {
      ConnectedRefl(background, p);
      ConnectedStep(background, p, p, q);
      ClassEqual(background, p, q);
    }
  }

  function Max(a: int, b: int): int { if a < b then b else a }

  /** Filtering twice is filtering once by the stricter bound; with equal bounds, idempotence. */
  lemma KeptTwice(region: set<Pixel>, first: int, second: int)
    ensures Kept(region, first) <= region
    ensures Kept(Kept(region, first), second) == Kept(region, Max(first, second))
  {
    KeptClosed(region, first);
    forall p | p in Kept(region, first)
      ensures Class(Kept(region, first), p) == Class(region, p)
    {
      ClassSurvives(region, Kept(region, first), p);
    }
  }

  /** Filling holes twice is filling once by the larger bound. */
  lemma OpenTwice(width: int, height: int, background: set<Pixel>, first: int, second: int)
    ensures Open(width, height, Open(width, height, background, first), second)
         == Open(width, height, background, Max(first, second))
  {
    OpenClosed(width, height, background, first);
    forall p | p in Open(width, height, background, first)
      ensures Class(Open(width, height, background, first), p) == Class(background, p)
    {
      ClassSurvives(background, Open(width, height, background, first), p);
    }
  }
}
