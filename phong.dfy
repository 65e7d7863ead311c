/** `PhongIntegrator.compute_color`: ambient light plus, for every point light
    the hit point can see, a diffuse and a specular term. */
module PhongShading {
  import opened Results
  import opened Colors
  import opened Geometry
  import opened Scenes

  /** The fixed shininess exponent; the specular coefficient is `kd` itself. */
  const Shininess: nat := 5

  function Pow(x: real, k: nat): real {
    if k == 0 then 1.0 else x * Pow(x, k - 1)
  }

  lemma {:induction false} PowNonNegative(x: real, k: nat)
    requires 0.0 <= x
    ensures 0.0 <= Pow(x, k)
  {
    if k > 0 {
      PowNonNegative(x, k - 1);
    }
  }

  /** `max(0, v)` */
  function Clamp(v: real): (r: real)
    ensures 0.0 <= r && v <= r
    ensures r == v || r == 0.0
  {
    if v < 0.0 then 0.0 else v
  }

  /** `dist_from_light**2`, the divisor of the light's intensity. */
  function SquaredDistance(m: Maths, point: Vec3, light: PointLight): (r: real)
    ensures 0.0 <= r
  {
    var dist := m.length(Minus(light.position, point));
    SquareNonNegative(dist);
    dist * dist
  }

  /** What one light adds: nothing when the shadow ray is blocked, otherwise a
      diffuse and a specular term. */
  datatype Contribution = Occluded | Lit(diffuse: RGB, specular: RGB)

  /** The shadow ray from `point` towards `light`, cut at the light distance. */
  function ShadowRay(m: Maths, point: Vec3, light: PointLight): (r: Ray)
    ensures r.origin == point
    ensures r.direction == m.normalize(m.normalize(Minus(light.position, point)))
    ensures r.extent == UpTo(m.length(Minus(light.position, point)))
  {
    var lightVec := Minus(light.position, point);
    MakeRay(m, point, m.normalize(lightVec), UpTo(m.length(lightVec)))
  }

  /** Diffuse term `kd * I/d^2 * max(0, n.w_i)`. */
  function Diffuse(kd: RGB, incident: RGB, normal: Vec3, wi: Vec3): (c: RGB)
    ensures NonNegative(kd) && NonNegative(incident) ==> NonNegative(c)
    ensures Dot(normal, wi) <= 0.0 ==> c == Black
  {
    var lit := Multiply(kd, incident);
    var c := Scale(lit, Clamp(Dot(normal, wi)));
    if NonNegative(kd) && NonNegative(incident) then
      MultiplyNonNegative(kd, incident);
      ScaleNonNegative(lit, Clamp(Dot(normal, wi)));
      c
    else c
  }

  /** Specular term `ks * I/d^2 * max(0, w_o.r)^5`, with `ks = kd` and `r` the
      mirror image of `w_i` about the normal. */
  function Specular(m: Maths, kd: RGB, incident: RGB, normal: Vec3, wi: Vec3, wo: Vec3): (c: RGB)
    ensures NonNegative(kd) && NonNegative(incident) ==> NonNegative(c)
  {
    var twoNDotL := 2.0 * Dot(normal, wi);
    var reflected := m.normalize(Minus(Times(normal, twoNDotL), wi));
    var lit := Multiply(kd, incident);
    var factor := Pow(Clamp(Dot(wo, reflected)), Shininess);
    var c := Scale(lit, factor);
    if NonNegative(kd) && NonNegative(incident) then
      MultiplyNonNegative(kd, incident);
      PowNonNegative(Clamp(Dot(wo, reflected)), Shininess);
      ScaleNonNegative(lit, factor);
      c
    else c
  }

  /** One iteration of the loop over `pointLights`, at hit point `point` with
      unit normal `normal` and unit direction `wo` back to the viewer. */
  function LightTerm(w: World, m: Maths, point: Vec3, kd: RGB, normal: Vec3, wo: Vec3,
                     light: PointLight): (r: Result<Contribution>)
    ensures r.Err? <==> SquaredDistance(m, point, light) == 0.0
    ensures r.Err? ==> r.fault == LightAtHitPoint
    ensures r.Ok? ==> (r.value.Occluded? <==> w.anyHit(ShadowRay(m, point, light)))
  {
    var lightVec := Minus(light.position, point);
    var dist := m.length(lightVec);
    var sq := SquaredDistance(m, point, light);
    if sq == 0.0 then Err(LightAtHitPoint)
    else
      var incident := Divide(light.intensity, sq);
      var wi := m.normalize(lightVec);
      var shadowRay := MakeRay(m, point, wi, UpTo(dist));
      if w.anyHit(shadowRay) then Ok(Occluded)
      else
        Ok(Lit(Diffuse(kd, incident, normal, wi), Specular(m, kd, incident, normal, wi, wo)))
  }

  /** The colour accumulated after the loop has visited `lights`, in list
      order, starting from the ambient term `kd * i_a`. The first failing light
      aborts the loop. */
  function Accumulated(w: World, m: Maths, point: Vec3, kd: RGB, normal: Vec3, wo: Vec3,
                       lights: seq<PointLight>): (r: Result<RGB>)
    ensures r.Ok? <==> forall j :: 0 <= j < |lights| ==> SquaredDistance(m, point, lights[j]) != 0.0
    ensures r.Err? ==> r.fault == LightAtHitPoint
    ensures lights == [] ==> r == Ok(Multiply(kd, w.ambient))
    decreases |lights|
  {
    if lights == [] then Ok(Multiply(kd, w.ambient))
    else
      match Accumulated(w, m, point, kd, normal, wo, lights[..|lights| - 1])
      case Err(f) => Err(f)
      case Ok(acc) =>
        match LightTerm(w, m, point, kd, normal, wo, lights[|lights| - 1])
        case Err(f) => Err(f)
        case Ok(Occluded) => Ok(acc)
        case Ok(Lit(diffuse, specular)) => Ok(Add(Add(acc, diffuse), specular))
  }

  /** The colour `compute_color` returns for `ray`. A miss is black: unlike
      the Monte Carlo integrator, Phong ignores the environment map. */
  function PhongColor(w: World, m: Maths, ray: Ray): (r: Result<RGB>)
    ensures w.closestHit(ray).NoHit? ==> r == Ok(Black)
    ensures w.closestHit(ray).Hit? && w.closestHit(ray).primitive >= |w.objects| ==> r == Err(NoSuchObject)
    ensures w.closestHit(ray).Hit? && w.closestHit(ray).primitive < |w.objects| ==>
      (r.Ok? <==> forall j :: 0 <= j < |w.pointLights| ==>
         SquaredDistance(m, w.closestHit(ray).point, w.pointLights[j]) != 0.0)
  {
    match w.closestHit(ray)
    case NoHit => Ok(Black)
    case Hit(point, normal, _, primitive) =>
      match ObjectAt(w, primitive)
      case Err(f) => Err(f)
      case Ok(obj) =>
        Accumulated(w, m, point, obj.kd, m.normalize(normal),
                    m.normalize(Times(ray.direction, -1.0)), w.pointLights)
  }

  /** Once the loop has failed on a prefix of the lights, the whole loop fails
      the same way. */
  lemma {:induction false} FailureSticks(w: World, m: Maths, point: Vec3, kd: RGB, normal: Vec3,
                                         wo: Vec3, lights: seq<PointLight>, i: nat)
    requires i <= |lights|
    requires Accumulated(w, m, point, kd, normal, wo, lights[..i]).Err?
    ensures Accumulated(w, m, point, kd, normal, wo, lights) ==
            Accumulated(w, m, point, kd, normal, wo, lights[..i])
    decreases |lights| - i
  {
    if i < |lights| {
      assert lights[..i + 1][..i] == lights[..i];
      FailureSticks(w, m, point, kd, normal, wo, lights, i + 1);
    } else {
      assert lights[..i] == lights;
    }
  }

  /** One more light extends the accumulated colour by that light's term. */
  lemma AccumulatedStep(w: World, m: Maths, point: Vec3, kd: RGB, normal: Vec3, wo: Vec3,
                        lights: seq<PointLight>, i: nat)
    requires i < |lights|
    ensures Accumulated(w, m, point, kd, normal, wo, lights[..i + 1]) ==
      match Accumulated(w, m, point, kd, normal, wo, lights[..i])
      case Err(f) => Err(f)
      case Ok(acc) =>
        match LightTerm(w, m, point, kd, normal, wo, lights[i])
        case Err(f) => Err(f)
        case Ok(Occluded) => Ok(acc)
        case Ok(Lit(diffuse, specular)) => Ok(Add(Add(acc, diffuse), specular))
  {
    assert lights[..i + 1][..i] == lights[..i];
  }

  /** What `LightTerm` gives for a light at non-zero distance that the hit
      point can see. */
  lemma LitTerm(w: World, m: Maths, point: Vec3, kd: RGB, normal: Vec3, wo: Vec3, light: PointLight)
    requires SquaredDistance(m, point, light) != 0.0
    requires !w.anyHit(ShadowRay(m, point, light))
    ensures var incident := Divide(light.intensity, SquaredDistance(m, point, light));
      var wi := m.normalize(Minus(light.position, point));
      LightTerm(w, m, point, kd, normal, wo, light) ==
        Ok(Lit(Diffuse(kd, incident, normal, wi), Specular(m, kd, incident, normal, wi, wo)))
  {
  }

  /** The imperative `compute_color`: the light loop with its `continue` for
      occluded lights. */
  method ComputeColor(w: World, m: Maths, ray: Ray) returns (c: Result<RGB>)
    ensures c == PhongColor(w, m, ray)
  {
    var hit := w.closestHit(ray);
    if hit.NoHit? {
      return Ok(Black);
    }
    if hit.primitive >= |w.objects| {
      return Err(NoSuchObject);
    }
    var kd := w.objects[hit.primitive].kd;
    var ks := kd;
    var normal := m.normalize(hit.normal);
    var wo := m.normalize(Times(ray.direction, -1.0));
    var accumulated := Multiply(kd, w.ambient);
    var lights := w.pointLights;
    var i := 0;
    while i < |lights|
      invariant 0 <= i <= |lights|
      invariant Accumulated(w, m, hit.point, kd, normal, wo, lights[..i]) == Ok(accumulated)
    {
      AccumulatedStep(w, m, hit.point, kd, normal, wo, lights, i);
      var light := lights[i];
      var lightVec := Minus(light.position, hit.point);
      var dist := m.length(lightVec);
      var sq := SquaredDistance(m, hit.point, light);
      if sq == 0.0 {
        assert LightTerm(w, m, hit.point, kd, normal, wo, light) == Err(LightAtHitPoint);
        FailureSticks(w, m, hit.point, kd, normal, wo, lights, i + 1);
        return Err(LightAtHitPoint);
      }
      var incident := Divide(light.intensity, sq);
      var wi := m.normalize(lightVec);
      var shadowRay := MakeRay(m, hit.point, wi, UpTo(dist));
      assert shadowRay == ShadowRay(m, hit.point, light);
      if w.anyHit(shadowRay) {
        assert LightTerm(w, m, hit.point, kd, normal, wo, light) == Ok(Occluded);
        i := i + 1;
        continue;
      }
      var diffuse := Diffuse(kd, incident, normal, wi);
      var specular := Specular(m, ks, incident, normal, wi, wo);
      LitTerm(w, m, hit.point, kd, normal, wo, light);
      accumulated := Add(Add(accumulated, diffuse), specular);
      i := i + 1;
    }
    assert lights[..i] == lights;
    return Ok(accumulated);
  }

  /** A hit with no point lights gets exactly the ambient term `kd * i_a`. */
  lemma NoLightsGivesAmbient(w: World, m: Maths, ray: Ray)
    requires w.pointLights == []
    requires w.closestHit(ray).Hit? && w.closestHit(ray).primitive < |w.objects|
    ensures PhongColor(w, m, ray) ==
      Ok(Multiply(w.objects[w.closestHit(ray).primitive].kd, w.ambient))
  {
  }

  /** A light whose shadow ray is blocked leaves the accumulated colour as it
      was (the `continue` of the loop). */
  lemma OccludedLightAddsNothing(w: World, m: Maths, point: Vec3, kd: RGB, normal: Vec3, wo: Vec3,
                                 lights: seq<PointLight>, light: PointLight)
    requires SquaredDistance(m, point, light) != 0.0
    requires w.anyHit(ShadowRay(m, point, light))
    ensures Accumulated(w, m, point, kd, normal, wo, lights + [light]) ==
            Accumulated(w, m, point, kd, normal, wo, lights)
  {
    assert (lights + [light])[..|lights|] == lights;
  }

  /** When every light is at a non-zero distance and hidden from the hit point,
      only the ambient term remains. */
  lemma {:induction false} AllOccludedGivesAmbient(w: World, m: Maths, point: Vec3, kd: RGB,
                                                   normal: Vec3, wo: Vec3, lights: seq<PointLight>)
    requires forall i :: 0 <= i < |lights| ==>
      SquaredDistance(m, point, lights[i]) != 0.0 && w.anyHit(ShadowRay(m, point, lights[i]))
    ensures Accumulated(w, m, point, kd, normal, wo, lights) == Ok(Multiply(kd, w.ambient))
    decreases |lights|
  {
    if lights != [] {
      var init := lights[..|lights| - 1];
      AllOccludedGivesAmbient(w, m, point, kd, normal, wo, init);
      assert lights == init + [lights[|lights| - 1]];
      OccludedLightAddsNothing(w, m, point, kd, normal, wo, init, lights[|lights| - 1]);
    }
  }

  /** The same, for `compute_color`: a hit whose every light is blocked gets
      exactly `kd * i_a`. */
  lemma AllOccludedPhongColor(w: World, m: Maths, ray: Ray)
    requires w.closestHit(ray).Hit? && w.closestHit(ray).primitive < |w.objects|
    requires forall i :: 0 <= i < |w.pointLights| ==>
      var p := w.closestHit(ray).point;
      SquaredDistance(m, p, w.pointLights[i]) != 0.0 && w.anyHit(ShadowRay(m, p, w.pointLights[i]))
    ensures PhongColor(w, m, ray) ==
      Ok(Multiply(w.objects[w.closestHit(ray).primitive].kd, w.ambient))
  {
    var hit := w.closestHit(ray);
    AllOccludedGivesAmbient(w, m, hit.point, w.objects[hit.primitive].kd, m.normalize(hit.normal),
                            m.normalize(Times(ray.direction, -1.0)), w.pointLights);
  }

  lemma SquareNonNegative(x: real)
    ensures 0.0 <= x * x
  {
    if x < 0.0 {
      MulNonNegative(-x, -x);
      assert (-x) * (-x) == x * x;
    } else {
      MulNonNegative(x, x);
    }
  }

  /** With non-negative `kd` and light intensity, the diffuse and the specular
      term a visible light adds are both non-negative. */
  lemma LightTermNonNegative(w: World, m: Maths, point: Vec3, kd: RGB, normal: Vec3, wo: Vec3,
                             light: PointLight)
    requires NonNegative(kd) && NonNegative(light.intensity)
    requires SquaredDistance(m, point, light) != 0.0
    ensures var t := LightTerm(w, m, point, kd, normal, wo, light).value;
      t.Lit? ==> NonNegative(t.diffuse) && NonNegative(t.specular)
  {
    var sq := SquaredDistance(m, point, light);
    if !w.anyHit(ShadowRay(m, point, light)) {
      LitTerm(w, m, point, kd, normal, wo, light);
      DivideNonNegative(light.intensity, sq);
    }
  }

  /** Lights only ever add light: with non-negative `kd` and intensities the
      accumulated colour is at least the ambient term, component by component. */
  lemma {:induction false} AccumulatedAtLeastAmbient(w: World, m: Maths, point: Vec3, kd: RGB,
                                                     normal: Vec3, wo: Vec3, lights: seq<PointLight>)
    requires NonNegative(kd)
    requires forall i :: 0 <= i < |lights| ==> NonNegative(lights[i].intensity)
    requires Accumulated(w, m, point, kd, normal, wo, lights).Ok?
    ensures AtLeast(Accumulated(w, m, point, kd, normal, wo, lights).value, Multiply(kd, w.ambient))
    decreases |lights|
  {
    if lights != [] {
      var init := lights[..|lights| - 1];
      var last := lights[|lights| - 1];
      AccumulatedAtLeastAmbient(w, m, point, kd, normal, wo, init);
      LightTermNonNegative(w, m, point, kd, normal, wo, last);
    }
  }

  /** In a scene whose reflectances, ambient intensity and light intensities
      are non-negative, every colour the Phong integrator returns is
      non-negative. */
  lemma PhongColorNonNegative(w: World, m: Maths, ray: Ray)
    requires forall i :: 0 <= i < |w.objects| ==> NonNegative(w.objects[i].kd)
    requires forall i :: 0 <= i < |w.pointLights| ==> NonNegative(w.pointLights[i].intensity)
    requires NonNegative(w.ambient)
    requires PhongColor(w, m, ray).Ok?
    ensures NonNegative(PhongColor(w, m, ray).value)
  {
    var hit := w.closestHit(ray);
    if hit.Hit? {
      var kd := w.objects[hit.primitive].kd;
      AccumulatedAtLeastAmbient(w, m, hit.point, kd, m.normalize(hit.normal),
                                m.normalize(Times(ray.direction, -1.0)), w.pointLights);
      MultiplyNonNegative(kd, w.ambient);
    }
  }
}
