/** Flood fill of a raster mask and the two component filters built on it. */
module Components {
  import opened Pixels
  import opened Collections

  /** The true cells of a mask, as pixels. */
  ghost function Filled(mask: array2<bool>): (r: set<Pixel>)
    reads mask
    ensures forall p :: p in r <==> 0 <= p.x < mask.Length1 && 0 <= p.y < mask.Length0 && mask[p.y, p.x]
  {
    set x, y | 0 <= x < mask.Length1 && 0 <= y < mask.Length0 && mask[y, x] :: Pixel(x, y)
  }

  /** Every cell of the grid `mask` is drawn on. */
  ghost function Grid(mask: array2<bool>): (r: set<Pixel>)
    ensures forall p :: p in r <==> 0 <= p.x < mask.Length1 && 0 <= p.y < mask.Length0
  {
    set x, y | 0 <= x < mask.Length1 && 0 <= y < mask.Length0 :: Pixel(x, y)
  }

  ghost function Elements(pixels: seq<Pixel>): set<Pixel> {
    set p | p in pixels
  }

  ghost predicate NoRepeats(pixels: seq<Pixel>) {
    forall i, j :: 0 <= i < j < |pixels| ==> pixels[i] != pixels[j]
  }

  /** One list: a whole class of `region`, each pixel once. */
  ghost predicate IsClass(region: set<Pixel>, component: seq<Pixel>) {
    && |component| > 0
    && NoRepeats(component)
    && component[0] in region
    && Elements(component) == Class(region, component[0])
  }

  ghost predicate Disjoint(components: seq<seq<Pixel>>) {
    forall i, j :: 0 <= i < j < |components| ==> Elements(components[i]) !! Elements(components[j])
  }

  ghost function Union(components: seq<seq<Pixel>>): set<Pixel> {
    set i, p | 0 <= i < |components| && p in components[i] :: p
  }

  /** The lists are exactly the 4-connected classes of `region`, each listed once. */
  ghost predicate IsDecomposition(region: set<Pixel>, components: seq<seq<Pixel>>) {
    && (forall i :: 0 <= i < |components| ==> IsClass(region, components[i]))
    && Disjoint(components)
    && Union(components) == region
  }

  lemma UnionSnoc(components: seq<seq<Pixel>>, component: seq<Pixel>)
    ensures Union(components + [component]) == Union(components) + Elements(component)
  {
    var all := components + [component];
    forall p | p in Union(components) + Elements(component) ensures p in Union(all) {
      if p in Union(components) {
        var i :| 0 <= i < |components| && p in components[i];
        assert all[i] == components[i];
      } else {
        assert p in all[|components|];
      }
    }
  }

  lemma SizeOfElements(pixels: seq<Pixel>)
    requires NoRepeats(pixels)
    ensures |Elements(pixels)| == |pixels|
  {
    if |pixels| > 0 {
      var front, last := pixels[..|pixels| - 1], pixels[|pixels| - 1];
      SizeOfElements(front);
      assert Elements(pixels) == Elements(front) + {last};
      assert last !in Elements(front);
    }
  }

  lemma ListedWith(region: set<Pixel>, component: seq<Pixel>, p: Pixel, q: Pixel)
    requires IsClass(region, component) && p in component && q in region
    ensures p in region && (Connected(region, p, q) <==> q in component)
  {
    var seed := component[0];
    assert p in Elements(component);
    ClassEqual(region, seed, p);
    ClassEqual(region, p, q);
    ClassEqual(region, seed, q);
    assert q in component <==> q in Class(region, seed);
  }

  /** Two pixels are listed together exactly when they are connected. */
  lemma TogetherIffConnected(region: set<Pixel>, components: seq<seq<Pixel>>, p: Pixel, q: Pixel)
    requires IsDecomposition(region, components) && p in region && q in region
    ensures Connected(region, p, q) <==> exists i :: 0 <= i < |components| && p in components[i] && q in components[i]
  {
    assert p in Union(components);
    var i :| 0 <= i < |components| && p in components[i];
    ListedWith(region, components[i], p, q);
    if j :| 0 <= j < |components| && p in components[j] && q in components[j] {
      ListedWith(region, components[j], p, q);
    }
  }

  function Neighbours(p: Pixel): seq<Pixel> {
    [Pixel(p.x - 1, p.y), Pixel(p.x + 1, p.y), Pixel(p.x, p.y - 1), Pixel(p.x, p.y + 1)]
  }

  lemma NeighboursAreAdjacent(p: Pixel)
    ensures forall q :: q in Neighbours(p) <==> Adjacent(p, q)
  {
    forall q | Adjacent(p, q) ensures q in Neighbours(p) {
      var n := Neighbours(p);
      assert q == n[0] || q == n[1] || q == n[2] || q == n[3];
    }
  }

  /** `mask` marks exactly the pixels of `region`. */
  ghost predicate Marks(mask: array2<bool>, region: set<Pixel>)
    reads mask
  {
    && (forall p :: p in region ==> 0 <= p.x < mask.Length1 && 0 <= p.y < mask.Length0)
    && (forall y, x :: 0 <= y < mask.Length0 && 0 <= x < mask.Length1 ==> (mask[y, x] <==> Pixel(x, y) in region))
  }

  lemma FilledMarks(mask: array2<bool>, region: set<Pixel>)
    ensures Marks(mask, region) <==> region == Filled(mask)
  {
    if Marks(mask, region) {
      forall p ensures p in region <==> p in Filled(mask) {
        if p in Filled(mask) { assert mask[p.y, p.x] && Pixel(p.x, p.y) == p; }
        if p in region { assert Pixel(p.x, p.y) == p && mask[p.y, p.x]; }
      }
    }
  }

  /** The pixels discovered from `seed`, in discovery order, none of them visited `before`. */
  ghost predicate IsFrontier(region: set<Pixel>, before: set<Pixel>, seed: Pixel, known: seq<Pixel>) {
    && |known| > 0 && known[0] == seed
    && NoRepeats(known)
    && (forall p :: p in known ==> p in region && p !in before && Connected(region, seed, p))
  }

  ghost predicate IsExpanded(region: set<Pixel>, component: seq<Pixel>, known: seq<Pixel>) {
    forall p, q :: p in component && q in region && Adjacent(p, q) ==> q in known
  }

  lemma Discover(region: set<Pixel>, before: set<Pixel>, seed: Pixel, known: seq<Pixel>, p: Pixel, n: Pixel)
    requires IsFrontier(region, before, seed, known)
    requires p in known && n in region && Adjacent(p, n) && n !in known && n !in before
    ensures IsFrontier(region, before, seed, known + [n])
    ensures Elements(known + [n]) == Elements(known) + {n}
  {
    ConnectedStep(region, seed, p, n);
  }

  lemma FrontierBound(region: set<Pixel>, before: set<Pixel>, seed: Pixel, known: seq<Pixel>)
    requires IsFrontier(region, before, seed, known)
    ensures |known| <= |region|
  {
    SizeOfElements(known);
    assert Elements(known) <= region;
    SubsetSize(Elements(known), region);
  }

  lemma ExpandLast(region: set<Pixel>, listed: seq<Pixel>, p: Pixel, known: seq<Pixel>, grown: seq<Pixel>)
    requires IsExpanded(region, listed, known) && known <= grown
    requires forall q :: q in Neighbours(p) && q in region ==> q in grown
    ensures IsExpanded(region, listed + [p], grown)
  {
    NeighboursAreAdjacent(p);
  }

  lemma FloodDone(region: set<Pixel>, before: set<Pixel>, seed: Pixel, component: seq<Pixel>)
    requires IsFrontier(region, before, seed, component) && IsExpanded(region, component, component)
    ensures IsClass(region, component) && Elements(component) !! before
  {
    assert Closed(region, Elements(component));
    assert seed in component;
    ClosedConnectedIsClass(region, seed, Elements(component));
  }

  /** Tests one neighbour and enqueues it when it is filled and new. */
  method Enqueue(mask: array2<bool>, visited: array2<bool>, component: seq<Pixel>, p: Pixel, n: Pixel, queue: seq<Pixel>,
                 ghost region: set<Pixel>, ghost before: set<Pixel>, ghost seed: Pixel)
    returns (longer: seq<Pixel>)
    requires mask != visited && visited.Length0 == mask.Length0 && visited.Length1 == mask.Length1
    requires Marks(mask, region) && Marks(visited, before + Elements(component + queue))
    requires Closed(region, before)
    requires IsFrontier(region, before, seed, component + queue) && p in component && Adjacent(p, n)
    modifies visited
    ensures queue <= longer && (n in region ==> n in component + longer)
    ensures IsFrontier(region, before, seed, component + longer)
    ensures Marks(visited, before + Elements(component + longer))
  {
    longer := queue;
    if 0 <= n.x < mask.Length1 && 0 <= n.y < mask.Length0 && mask[n.y, n.x] && !visited[n.y, n.x] {
      assert Pixel(n.x, n.y) == n;
      Discover(region, before, seed, component + queue, p, n);
      assert component + (queue + [n]) == (component + queue) + [n];
      visited[n.y, n.x] := true;
      longer := queue + [n];
    } else if n in region {
      assert Pixel(n.x, n.y) == n;
      assert n in before + Elements(component + queue);
      assert Adjacent(n, p);
    }
  }

  /** Tests the four neighbours of the pixel just listed. */
  method ExpandPixel(mask: array2<bool>, visited: array2<bool>, component: seq<Pixel>, p: Pixel, queue: seq<Pixel>,
                     ghost region: set<Pixel>, ghost before: set<Pixel>, ghost seed: Pixel)
    returns (longer: seq<Pixel>)
    requires mask != visited && visited.Length0 == mask.Length0 && visited.Length1 == mask.Length1
    requires Marks(mask, region) && Marks(visited, before + Elements(component + queue))
    requires Closed(region, before)
    requires IsFrontier(region, before, seed, component + queue) && p in component
    modifies visited
    ensures queue <= longer
    ensures forall q :: q in Neighbours(p) && q in region ==> q in component + longer
    ensures IsFrontier(region, before, seed, component + longer)
    ensures Marks(visited, before + Elements(component + longer))
  {
    longer := queue;
    var neighbours := Neighbours(p);
    NeighboursAreAdjacent(p);
    for k := 0 to 4
      invariant Marks(mask, region) && Marks(visited, before + Elements(component + longer))
      invariant IsFrontier(region, before, seed, component + longer)
      invariant queue <= longer
      invariant forall i :: 0 <= i < k && neighbours[i] in region ==> neighbours[i] in component + longer
    {
      assert neighbours[k] in neighbours;
      longer := Enqueue(mask, visited, component, p, neighbours[k], longer, region, before, seed);
    }
  }

  /** The inner breadth-first loop: lists and marks the class of one unvisited filled pixel. */
  method FloodFill(mask: array2<bool>, visited: array2<bool>, seed: Pixel, ghost region: set<Pixel>, ghost before: set<Pixel>)
    returns (component: seq<Pixel>)
    requires mask != visited && visited.Length0 == mask.Length0 && visited.Length1 == mask.Length1
    requires Marks(mask, region) && Marks(visited, before)
    requires seed in region && seed !in before && Closed(region, before)
    modifies visited
    ensures IsClass(region, component) && component[0] == seed && Elements(component) !! before
    ensures Marks(visited, before + Elements(component))
  {
    var queue := [seed];
    visited[seed.y, seed.x] := true;
    component := [];
    ConnectedRefl(region, seed);
    assert component + queue == [seed];
    while |queue| > 0
      invariant Marks(mask, region) && Marks(visited, before + Elements(component + queue))
      invariant IsFrontier(region, before, seed, component + queue)
      invariant IsExpanded(region, component, component + queue)
      invariant |component| <= |region|
      decreases |region| - |component|
    {
      ghost var listed, known := component, component + queue;
      var p := queue[0];
      queue := queue[1..];
      component := component + [p];
      assert component + queue == known;
      queue := ExpandPixel(mask, visited, component, p, queue, region, before, seed);
      ExpandLast(region, listed, p, known, component + queue);
      FrontierBound(region, before, seed, component + queue);
    }
    assert component + queue == component;
    FloodDone(region, before, seed, component);
  }

  /** The classes listed so far, covering exactly the pixels in `seen`. */
  ghost predicate IsPartial(region: set<Pixel>, seen: set<Pixel>, components: seq<seq<Pixel>>) {
    && (forall i :: 0 <= i < |components| ==> IsClass(region, components[i]))
    && Disjoint(components)
    && Union(components) == seen
    && Closed(region, seen)
  }

  lemma PartialSnoc(region: set<Pixel>, seen: set<Pixel>, components: seq<seq<Pixel>>, component: seq<Pixel>)
    requires IsPartial(region, seen, components)
    requires IsClass(region, component) && seen !! Elements(component)
    ensures IsPartial(region, seen + Elements(component), components + [component])
  {
    ClassClosed(region, component[0]);
    UnionSnoc(components, component);
    forall i | 0 <= i < |components| ensures Elements(components[i]) !! Elements(component) {
      assert Elements(components[i]) <= Union(components);
    }
  }

  /** Lists the 4-connected classes of a mask in raster order of their first pixels. */
  method ConnectedComponents(mask: array2<bool>) returns (components: seq<seq<Pixel>>)
    ensures IsDecomposition(Filled(mask), components)
  {
    var height, width := mask.Length0, mask.Length1;
    ghost var region, seen := Filled(mask), {};
    FilledMarks(mask, region);
    var visited := new bool[height, width]((_, _) => false);
    components := [];
    for y := 0 to height
      invariant Marks(mask, region) && Marks(visited, seen) && IsPartial(region, seen, components)
      invariant forall p :: p in region && p.y < y ==> p in seen
    {
      for x := 0 to width
        invariant Marks(mask, region) && Marks(visited, seen) && IsPartial(region, seen, components)
        invariant forall p :: p in region && (p.y < y || (p.y == y && p.x < x)) ==> p in seen
      {
        if mask[y, x] && !visited[y, x] {
          var component := FloodFill(mask, visited, Pixel(x, y), region, seen);
          PartialSnoc(region, seen, components, component);
          seen := seen + Elements(component);
          components := components + [component];
          assert Pixel(x, y) in component;
        }
        assert Pixel(x, y) in region ==> Pixel(x, y) in seen;
        assert forall p: Pixel :: p.y == y && p.x == x ==> p == Pixel(x, y);
      }
    }
    assert seen == region;
    FilledMarks(mask, region);
  }

  /** Sets every listed pixel of a drawing. */
  method Paint(canvas: array2<bool>, pixels: seq<Pixel>, ghost drawn: set<Pixel>)
    requires Marks(canvas, drawn) && Elements(pixels) <= Grid(canvas)
    modifies canvas
    ensures Marks(canvas, drawn + Elements(pixels))
  {
    for k := 0 to |pixels|
      invariant Marks(canvas, drawn + Elements(pixels[..k]))
    {
      assert pixels[..k + 1] == pixels[..k] + [pixels[k]];
      assert pixels[k] in Elements(pixels);
      canvas[pixels[k].y, pixels[k].x] := true;
    }
    assert pixels[..|pixels|] == pixels;
  }

  /** Every pixel of a listed class shares the class, so a class-wise filter keeps the list whole or not at all. */
  lemma ListedClass(region: set<Pixel>, components: seq<seq<Pixel>>, k: nat, p: Pixel)
    requires IsDecomposition(region, components) && k < |components| && p in components[k]
    ensures p in region && Class(region, p) == Elements(components[k]) && |Class(region, p)| == |components[k]|
  {
    assert p in Elements(components[k]);
    ClassEqual(region, components[k][0], p);
    SizeOfElements(components[k]);
  }

  lemma UnionTake(components: seq<seq<Pixel>>, k: nat)
    requires k < |components|
    ensures Union(components[..k + 1]) == Union(components[..k]) + Elements(components[k])
  {
    assert components[..k + 1] == components[..k] + [components[k]];
    UnionSnoc(components[..k], components[k]);
  }

  lemma KeptStep(region: set<Pixel>, components: seq<seq<Pixel>>, k: nat, minimum: int)
    requires IsDecomposition(region, components) && k < |components|
    ensures Elements(components[k]) <= region
    ensures Kept(region, minimum) * Union(components[..k + 1])
         == Kept(region, minimum) * Union(components[..k])
            + (if |components[k]| >= minimum then Elements(components[k]) else {})
  {
    UnionTake(components, k);
    forall p | p in components[k]
      ensures p in region && (p in Kept(region, minimum) <==> |components[k]| >= minimum)
    {
      ListedClass(region, components, k, p);
    }
  }

  lemma HoleMember(background: set<Pixel>, component: seq<Pixel>, width: int, height: int, maximum: int, p: Pixel)
    requires Class(background, p) == Elements(component) && p in background
    requires |Class(background, p)| == |component|
    ensures p in Open(width, height, background, maximum)
            <==> AnyOnBorder(width, height, component) || |component| > maximum
  {
    assert TouchesBorder(width, height, Elements(component)) <==> AnyOnBorder(width, height, component) by {
      if AnyOnBorder(width, height, component) {
        var i :| 0 <= i < |component| && OnBorder(width, height, component[i]);
        assert component[i] in Elements(component);
      }
    }
  }

  lemma HoleStep(background: set<Pixel>, components: seq<seq<Pixel>>, k: nat, width: int, height: int, maximum: int)
    requires IsDecomposition(background, components) && k < |components|
    ensures Elements(components[k]) <= background
    ensures Union(components[..k + 1]) - Open(width, height, background, maximum)
         == Union(components[..k]) - Open(width, height, background, maximum)
            + (if AnyOnBorder(width, height, components[k]) || |components[k]| > maximum then {}
               else Elements(components[k]))
  {
    var component, open := components[k], Open(width, height, background, maximum);
    UnionTake(components, k);
    forall p | p in component
      ensures p in background
      ensures p in open <==> AnyOnBorder(width, height, component) || |component| > maximum
    {
      ListedClass(background, components, k, p);
      HoleMember(background, component, width, height, maximum, p);
    }
  }

  /** Paints the components of at least `minimumPixels` pixels onto an empty canvas. */
  method PaintKept(result: array2<bool>, components: seq<seq<Pixel>>, minimumPixels: int, ghost region: set<Pixel>)
    requires Marks(result, {}) && region <= Grid(result)
    requires IsDecomposition(region, components)
    modifies result
    ensures Marks(result, Kept(region, minimumPixels))
  {
    ghost var kept, drawn: set<Pixel> := Kept(region, minimumPixels), {};
    assert components[..0] == [];
    for k := 0 to |components|
      invariant Marks(result, drawn)
      invariant drawn == kept * Union(components[..k])
    {
      KeptStep(region, components, k, minimumPixels);
      if |components[k]| >= minimumPixels {
        Paint(result, components[k], drawn);
        drawn := drawn + Elements(components[k]);
      }
    }
    assert components[..|components|] == components;
    assert kept * region == kept;
  }

  /** Drops every component of fewer than `minimumPixels` pixels. */
  method KeepPrintableComponents(mask: array2<bool>, minimumPixels: int) returns (result: array2<bool>)
    ensures result.Length0 == mask.Length0 && result.Length1 == mask.Length1
    ensures Filled(result) == Kept(Filled(mask), minimumPixels)
  {
    ghost var region := Filled(mask);
    var components := ConnectedComponents(mask);
    result := new bool[mask.Length0, mask.Length1]((_, _) => false);
    assert Marks(result, {});
    PaintKept(result, components, minimumPixels, region);
    FilledMarks(result, Kept(region, minimumPixels));
  }

  /** The complement of a mask, cell by cell. */
  method Inverted(mask: array2<bool>) returns (inverse: array2<bool>)
    ensures inverse.Length0 == mask.Length0 && inverse.Length1 == mask.Length1
    ensures Filled(inverse) == Grid(mask) - Filled(mask)
  {
    inverse := new bool[mask.Length0, mask.Length1];
    forall y, x | 0 <= y < mask.Length0 && 0 <= x < mask.Length1 {
      inverse[y, x] := !mask[y, x];
    }
  }

  method Copied(mask: array2<bool>) returns (copy: array2<bool>)
    ensures copy.Length0 == mask.Length0 && copy.Length1 == mask.Length1 && fresh(copy)
    ensures Filled(copy) == Filled(mask)
  {
    copy := new bool[mask.Length0, mask.Length1];
    forall y, x | 0 <= y < mask.Length0 && 0 <= x < mask.Length1 {
      copy[y, x] := mask[y, x];
    }
  }

  predicate AnyOnBorder(width: int, height: int, component: seq<Pixel>) {
    exists k :: 0 <= k < |component| && OnBorder(width, height, component[k])
  }

  /** Paints the enclosed small components of the background over `before`. */
  method PaintHoles(result: array2<bool>, components: seq<seq<Pixel>>, maximumPixels: int,
                    ghost before: set<Pixel>, ghost background: set<Pixel>)
    requires Marks(result, before) && background <= Grid(result)
    requires IsDecomposition(background, components)
    modifies result
    ensures Marks(result, before + (background - Open(result.Length1, result.Length0, background, maximumPixels)))
  {
    var height, width := result.Length0, result.Length1;
    ghost var kept := Open(width, height, background, maximumPixels);
    ghost var painted: set<Pixel> := {};
    assert components[..0] == [] && before + painted == before;
    assert background <= Grid(result);
    for k := 0 to |components|
      invariant Marks(result, before + painted)
      invariant painted == Union(components[..k]) - kept
    {
      HoleStep(background, components, k, width, height, maximumPixels);
      ghost var part := Elements(components[k]);
      if !AnyOnBorder(width, height, components[k]) && |components[k]| <= maximumPixels {
        assert part <= Grid(result);
        assert (before + painted) + part == before + (painted + part);
        Paint(result, components[k], before + painted);
        painted := painted + part;
      }
    }
    assert components[..|components|] == components;
  }

  /** Fills every enclosed background component of at most `maximumPixels` pixels. */
  method FillSmallHoles(mask: array2<bool>, maximumPixels: int) returns (result: array2<bool>)
    ensures result.Length0 == mask.Length0 && result.Length1 == mask.Length1
    ensures Filled(result)
         == Grid(mask) - Open(mask.Length1, mask.Length0, Grid(mask) - Filled(mask), maximumPixels)
  {
    ghost var before, grid := Filled(mask), Grid(mask);
    var inverse := Inverted(mask);
    var components := ConnectedComponents(inverse);
    result := Copied(mask);
    FilledMarks(result, before);
    PaintHoles(result, components, maximumPixels, before, grid - before);
    ghost var open := Open(mask.Length1, mask.Length0, grid - before, maximumPixels);
    assert before + ((grid - before) - open) == grid - open;
    FilledMarks(result, grid - open);
  }

  /** Both filters on regions: filtering only shrinks, filling only grows, and repeating either
      changes nothing beyond the stricter of the two bounds. */
  lemma FiltersAreMonotoneAndIdempotent(grid: set<Pixel>, width: int, height: int, region: set<Pixel>, bound: int)
    requires region <= grid
    ensures Kept(region, bound) <= region
    ensures Kept(Kept(region, bound), bound) == Kept(region, bound)
    ensures var filled := grid - Open(width, height, grid - region, bound);
            && region <= filled
            && grid - Open(width, height, grid - filled, bound) == filled
  {
    KeptTwice(region, bound, bound);
    var open := Open(width, height, grid - region, bound);
    OpenTwice(width, height, grid - region, bound, bound);
    assert grid - (grid - open) == open;
  }
}
