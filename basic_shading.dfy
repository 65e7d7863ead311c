/** The four integrators whose `compute_color` is a straight-line
    conditional: Lazy, Intersection, Depth and Normal. */
module BasicShading {
  import opened Results
  import opened Colors
  import opened Geometry
  import opened Scenes

  /** `LazyIntegrator.compute_color`: black for every ray. */
  function LazyColor(ray: Ray): (c: RGB)
    ensures c == Black
  {
    Black
  }

  /** `IntersectionIntegrator.compute_color`: red exactly when the ray hits
      something, black otherwise. */
  function IntersectionColor(w: World, ray: Ray): (c: RGB)
    ensures c == Red <==> w.anyHit(ray)
    ensures c == Black <==> !w.anyHit(ray)
  {
    if w.anyHit(ray) then Red else Black
  }

  /** `DepthIntegrator.compute_color`: a grey `max(0, 1 - d / max_depth)` for a
      hit at distance `d`, black on a miss. */
  function DepthColor(w: World, maxDepth: real, ray: Ray): (c: Result<RGB>)
    ensures w.closestHit(ray).NoHit? ==> c == Ok(Black)
    ensures w.closestHit(ray).Hit? && maxDepth == 0.0 ==> c == Err(ZeroMaxDepth)
    ensures c.Ok? ==> IsGrey(c.value) && 0.0 <= c.value.r
    ensures c.Err? ==> c == Err(ZeroMaxDepth)
  {
    match w.closestHit(ray)
    case NoHit => Ok(Black)
    case Hit(_, _, distance, _) =>
      if maxDepth == 0.0 then Err(ZeroMaxDepth)
      else
        var depth := 1.0 - distance / maxDepth;
        var grey := if depth < 0.0 then 0.0 else depth;
        Ok(RGB(grey, grey, grey))
  }

  /** With a positive `max_depth` the grey falls linearly from 1 at the camera
      to 0 at `max_depth`, stays 0 beyond it, and never exceeds 1 for a hit in
      front of the ray origin. */
  lemma DepthProfile(w: World, maxDepth: real, ray: Ray)
    requires maxDepth > 0.0 && w.closestHit(ray).Hit?
    ensures DepthColor(w, maxDepth, ray).Ok?
    ensures var d, g := w.closestHit(ray).distance, DepthColor(w, maxDepth, ray).value.r;
      && (d < maxDepth ==> g == 1.0 - d / maxDepth && 0.0 < g)
      && (d >= maxDepth ==> g == 0.0)
      && (0.0 <= d ==> g <= 1.0)
  {
    var d := w.closestHit(ray).distance;
    if d < maxDepth {
      assert d / maxDepth < 1.0;
    } else {
      assert d / maxDepth >= 1.0;
    }
    if 0.0 <= d {
      assert 0.0 <= d / maxDepth;
    }
  }

  /** `NormalIntegrator.compute_color`: the normalised surface normal, remapped
      from [-1, 1] to [0, 1] component by component; black on a miss. */
  function NormalColor(w: World, m: Maths, ray: Ray): (c: RGB)
    ensures w.closestHit(ray).NoHit? ==> c == Black
    ensures w.closestHit(ray).Hit? ==>
      var n := m.normalize(w.closestHit(ray).normal);
      2.0 * c.r - 1.0 == n.x && 2.0 * c.g - 1.0 == n.y && 2.0 * c.b - 1.0 == n.z
  {
    match w.closestHit(ray)
    case NoHit => Black
    case Hit(_, normal, _, _) =>
      var components := Over(Plus(m.normalize(normal), One), 2.0);
      RGB(components.x, components.y, components.z)
  }

  /** A unit normal gives a colour in the unit cube. */
  lemma NormalColorInUnitCube(w: World, m: Maths, ray: Ray)
    requires w.closestHit(ray).Hit?
    requires var n := m.normalize(w.closestHit(ray).normal);
      -1.0 <= n.x <= 1.0 && -1.0 <= n.y <= 1.0 && -1.0 <= n.z <= 1.0
    ensures var c := NormalColor(w, m, ray);
      NonNegative(c) && c.r <= 1.0 && c.g <= 1.0 && c.b <= 1.0
  {
  }
}
