/** `CMCIntegrator.compute_color`: the environment on a miss; on a hit, the
    classical single-bounce Monte Carlo estimate `(1/N) sum_j L_j / p_j` over
    a hemisphere sample set around the hit normal. The sample set is an
    argument: it is what the random sampler returned for this call. */
module MonteCarlo {
  import opened Results
  import opened Colors
  import opened Geometry
  import opened Scenes

  /** The environment's radiance along `direction`, black without one. */
  function Environment(w: World, direction: Vec3): (c: RGB)
    ensures w.envMap.None? ==> c == Black
    ensures w.envMap.Some? ==> c == w.envMap.value(direction)
  {
    match w.envMap
    case None => Black
    case Some(lookup) => lookup(direction)
  }

  /** `l_i` for the secondary ray from `point` along `omegaBar`: the emission of
      the object it hits first, else the environment. */
  function IncomingRadiance(w: World, m: Maths, point: Vec3, omegaBar: Vec3): (r: Result<RGB>)
    ensures var hit := w.closestHit(MakeRay(m, point, omegaBar, Unbounded));
      && (hit.NoHit? ==> r == Ok(Environment(w, omegaBar)))
      && (hit.Hit? && hit.primitive < |w.objects| ==> r == Ok(w.objects[hit.primitive].emission))
      && (hit.Hit? && hit.primitive >= |w.objects| ==> r == Err(NoSuchObject))
  {
    match w.closestHit(MakeRay(m, point, omegaBar, Unbounded))
    case NoHit => Ok(Environment(w, omegaBar))
    case Hit(_, _, _, primitive) =>
      match ObjectAt(w, primitive)
      case Err(f) => Err(f)
      case Ok(obj) => Ok(obj.emission)
  }

  /** `l_o = l_i * brdf * Dot(normal, omegaBar)` for the hemisphere sample
      `omega`, reoriented around the (unnormalised) hit normal. The cosine is
      not clamped. */
  function SampleValue(w: World, m: Maths, point: Vec3, normal: Vec3, brdf: RGB, omega: Vec3): (r: Result<RGB>)
    ensures var omegaBar := m.centerAroundNormal(omega, normal);
      var li := IncomingRadiance(w, m, point, omegaBar);
      && (r.Err? <==> li.Err?)
      && (r.Err? ==> r.fault == NoSuchObject)
      && (r.Ok? ==> r.value == Scale(Multiply(li.value, brdf), Dot(normal, omegaBar)))
  {
    var omegaBar := m.centerAroundNormal(omega, normal);
    match IncomingRadiance(w, m, point, omegaBar)
    case Err(f) => Err(f)
    case Ok(li) => Ok(Scale(Multiply(li, brdf), Dot(normal, omegaBar)))
  }

  /** `samples_values` after the first loop has visited `omegas`. */
  function SampleValues(w: World, m: Maths, point: Vec3, normal: Vec3, brdf: RGB,
                        omegas: seq<Vec3>): (r: Result<seq<RGB>>)
    ensures r.Ok? <==> forall j :: 0 <= j < |omegas| ==> SampleValue(w, m, point, normal, brdf, omegas[j]).Ok?
    ensures r.Err? ==> r.fault == NoSuchObject
    ensures r.Ok? ==> |r.value| == |omegas|
    ensures r.Ok? ==> forall j :: 0 <= j < |omegas| ==>
      r.value[j] == SampleValue(w, m, point, normal, brdf, omegas[j]).value
    decreases |omegas|
  {
    if omegas == [] then Ok([])
    else
      var init := omegas[..|omegas| - 1];
      match SampleValues(w, m, point, normal, brdf, init)
      case Err(f) => Err(f)
      case Ok(values) =>
        match SampleValue(w, m, point, normal, brdf, omegas[|omegas| - 1])
        case Err(f) => Err(f)
        case Ok(v) => Ok(values + [v])
  }

  /** `result` after the second loop has visited the first `k` pairs of
      `zip(values, probabilities)`: the running sum of `value / probability`. */
  function WeightedSum(values: seq<RGB>, probabilities: seq<real>, k: nat): (r: Result<RGB>)
    requires k <= |values| && k <= |probabilities|
    ensures r.Ok? <==> forall j :: 0 <= j < k ==> probabilities[j] != 0.0
    ensures r.Err? ==> r.fault == ZeroDensity
  {
    if k == 0 then Ok(Black)
    else
      match WeightedSum(values, probabilities, k - 1)
      case Err(f) => Err(f)
      case Ok(acc) =>
        if probabilities[k - 1] == 0.0 then Err(ZeroDensity)
        else Ok(Add(acc, Divide(values[k - 1], probabilities[k - 1])))
  }

  function Min(a: nat, b: nat): nat {
    if a < b then a else b
  }

  /** The estimate: the weighted sum over `zip(values, probabilities)` (as long
      as the shorter of the two) divided by the number of values. */
  function Estimate(values: seq<RGB>, probabilities: seq<real>): (r: Result<RGB>)
    ensures values == [] ==> r == Err(NoSamples)
  {
    match WeightedSum(values, probabilities, Min(|values|, |probabilities|))
    case Err(f) => Err(f)
    case Ok(sum) =>
      if |values| == 0 then Err(NoSamples) else Ok(Divide(sum, |values| as real))
  }

  /** The colour `compute_color` returns for `ray` given the sample set drawn
      for this call. */
  function CmcColor(w: World, m: Maths, ray: Ray, samples: SampleSet): (r: Result<RGB>)
    ensures w.closestHit(ray).NoHit? ==> r == Ok(Environment(w, ray.direction))
    ensures w.closestHit(ray).Hit? && w.closestHit(ray).primitive >= |w.objects| ==> r == Err(NoSuchObject)
    ensures w.closestHit(ray).Hit? && w.closestHit(ray).primitive < |w.objects| && samples.directions == [] ==>
      r == Err(NoSamples)
  {
    match w.closestHit(ray)
    case NoHit => Ok(Environment(w, ray.direction))
    case Hit(point, normal, _, primitive) =>
      match ObjectAt(w, primitive)
      case Err(f) => Err(f)
      case Ok(obj) =>
        match SampleValues(w, m, point, normal, obj.kd, samples.directions)
        case Err(f) => Err(f)
        case Ok(values) => Estimate(values, samples.probabilities)
  }

  /** The first loop of `compute_color`: trace one secondary ray per sample
      direction and collect `samples_values`. */
  method TraceSamples(w: World, m: Maths, point: Vec3, normal: Vec3, brdf: RGB, sampleSet: seq<Vec3>)
    returns (r: Result<seq<RGB>>)
    ensures r == SampleValues(w, m, point, normal, brdf, sampleSet)
  {
    var values: seq<RGB> := [];
    var j := 0;
    while j < |sampleSet|
      invariant 0 <= j <= |sampleSet|
      invariant SampleValues(w, m, point, normal, brdf, sampleSet[..j]) == Ok(values)
    {
      assert sampleSet[..j + 1][..j] == sampleSet[..j];
      var omegaJBar := m.centerAroundNormal(sampleSet[j], normal);
      var ray := MakeRay(m, point, omegaJBar, Unbounded);
      var rHit := w.closestHit(ray);
      var li: RGB;
      if rHit.Hit? {
        if rHit.primitive >= |w.objects| {
          assert SampleValue(w, m, point, normal, brdf, sampleSet[j]).Err?;
          return Err(NoSuchObject);
        }
        li := w.objects[rHit.primitive].emission;
      } else if w.envMap.Some? {
        li := w.envMap.value(omegaJBar);
      } else {
        li := Black;
      }
      var lo := Scale(Multiply(li, brdf), Dot(normal, omegaJBar));
      assert SampleValue(w, m, point, normal, brdf, sampleSet[j]) == Ok(lo);
      values := values + [lo];
      j := j + 1;
    }
    assert sampleSet[..j] == sampleSet;
    return Ok(values);
  }

  /** The second loop of `compute_color` and the final division: accumulate
      `val / prob` over `zip(values, probabilities)`, then divide by the number
      of values. */
  method Average(values: seq<RGB>, probabilities: seq<real>) returns (r: Result<RGB>)
    ensures r == Estimate(values, probabilities)
  {
    var result := Black;
    var pairs := if |values| < |probabilities| then |values| else |probabilities|;
    var k := 0;
    while k < pairs
      invariant 0 <= k <= pairs
      invariant WeightedSum(values, probabilities, k) == Ok(result)
    {
      if probabilities[k] == 0.0 {
        assert !WeightedSum(values, probabilities, pairs).Ok?;
        return Err(ZeroDensity);
      }
      result := Add(result, Divide(values[k], probabilities[k]));
      k := k + 1;
    }
    if |values| == 0 {
      return Err(NoSamples);
    }
    return Ok(Divide(result, |values| as real));
  }

  /** The imperative `compute_color`: the environment on a miss, otherwise the
      two loops above. */
  method ComputeColor(w: World, m: Maths, ray: Ray, samples: SampleSet) returns (c: Result<RGB>)
    ensures c == CmcColor(w, m, ray, samples)
  {
    var hit := w.closestHit(ray);
    if hit.NoHit? {
      if w.envMap.Some? {
        return Ok(w.envMap.value(ray.direction));
      } else {
        return Ok(Black);
      }
    }
    if hit.primitive >= |w.objects| {
      return Err(NoSuchObject);
    }
    var brdf := w.objects[hit.primitive].kd;
    var sampled := TraceSamples(w, m, hit.point, hit.normal, brdf, samples.directions);
    if sampled.Err? {
      return Err(sampled.fault);
    }
    c := Average(sampled.value, samples.probabilities);
  }

  /** The running sum of `k` equal terms `c` is `k * c`. */
  lemma {:induction false} WeightedSumOfConstant(values: seq<RGB>, probabilities: seq<real>, k: nat, c: RGB)
    requires k <= |values| && k <= |probabilities|
    requires forall j :: 0 <= j < k ==> probabilities[j] != 0.0 && Divide(values[j], probabilities[j]) == c
    ensures WeightedSum(values, probabilities, k) == Ok(Scale(c, k as real))
  {
    if k > 0 {
      WeightedSumOfConstant(values, probabilities, k - 1, c);
      ScaleStep(c, (k - 1) as real);
      assert (k - 1) as real + 1.0 == k as real;
    } else {
      assert Scale(c, 0.0) == Black;
    }
  }

  /** When every sample contributes the same `value / probability`, the
      estimate is exactly that value: dividing by the density and averaging
      over the sample count cancel. */
  lemma EstimateOfConstant(values: seq<RGB>, probabilities: seq<real>, c: RGB)
    requires 0 < |values| <= |probabilities|
    requires forall j :: 0 <= j < |values| ==> probabilities[j] != 0.0 && Divide(values[j], probabilities[j]) == c
    ensures Estimate(values, probabilities) == Ok(c)
  {
    var n := |values|;
    WeightedSumOfConstant(values, probabilities, n, c);
    ScaleDivideCancel(c, n as real);
  }

  /** At a valid hit, when every sample succeeds and contributes the same
      `l_o / prob == c`, `compute_color` returns exactly `c`. */
  lemma CmcColorOfConstant(w: World, m: Maths, ray: Ray, samples: SampleSet, c: RGB)
    requires w.closestHit(ray).Hit? && w.closestHit(ray).primitive < |w.objects|
    requires 0 < |samples.directions| <= |samples.probabilities|
    requires var hit := w.closestHit(ray);
      forall j :: 0 <= j < |samples.directions| ==>
        var v := SampleValue(w, m, hit.point, hit.normal, w.objects[hit.primitive].kd, samples.directions[j]);
        v.Ok? && samples.probabilities[j] != 0.0 && Divide(v.value, samples.probabilities[j]) == c
    ensures CmcColor(w, m, ray, samples) == Ok(c)
  {
    var hit := w.closestHit(ray);
    var values := SampleValues(w, m, hit.point, hit.normal, w.objects[hit.primitive].kd, samples.directions);
    EstimateOfConstant(values.value, samples.probabilities, c);
  }

  /** Non-negative sample values over positive densities sum to a non-negative
      colour. */
  lemma {:induction false} WeightedSumNonNegative(values: seq<RGB>, probabilities: seq<real>, k: nat)
    requires k <= |values| && k <= |probabilities|
    requires forall j :: 0 <= j < k ==> NonNegative(values[j]) && 0.0 < probabilities[j]
    ensures WeightedSum(values, probabilities, k).Ok?
    ensures NonNegative(WeightedSum(values, probabilities, k).value)
  {
    if k > 0 {
      WeightedSumNonNegative(values, probabilities, k - 1);
      DivideNonNegative(values[k - 1], probabilities[k - 1]);
    }
  }

  /** The same for the estimate, whenever there is at least one sample. */
  lemma EstimateNonNegative(values: seq<RGB>, probabilities: seq<real>)
    requires 0 < |values|
    requires forall j :: 0 <= j < |values| ==> NonNegative(values[j])
    requires forall j :: 0 <= j < |probabilities| ==> 0.0 < probabilities[j]
    ensures Estimate(values, probabilities).Ok?
    ensures NonNegative(Estimate(values, probabilities).value)
  {
    var k := Min(|values|, |probabilities|);
    WeightedSumNonNegative(values, probabilities, k);
    DivideNonNegative(WeightedSum(values, probabilities, k).value, |values| as real);
  }

  /** Every reflectance, emission and environment value is non-negative. */
  ghost predicate NonNegativeWorld(w: World) {
    && (forall i :: 0 <= i < |w.objects| ==> NonNegative(w.objects[i].kd) && NonNegative(w.objects[i].emission))
    && (w.envMap.Some? ==> forall d :: NonNegative(w.envMap.value(d)))
  }

  /** In a non-negative scene, with every reoriented sample on the normal's side
      (non-negative cosine) and positive densities, the estimate at a hit is
      non-negative; so is the environment value returned on a miss. */
  lemma CmcColorNonNegative(w: World, m: Maths, ray: Ray, samples: SampleSet)
    requires NonNegativeWorld(w)
    requires w.closestHit(ray).Hit? ==>
      var n := w.closestHit(ray).normal;
      forall j :: 0 <= j < |samples.directions| ==> 0.0 <= Dot(n, m.centerAroundNormal(samples.directions[j], n))
    requires forall j :: 0 <= j < |samples.probabilities| ==> 0.0 < samples.probabilities[j]
    requires CmcColor(w, m, ray, samples).Ok?
    ensures NonNegative(CmcColor(w, m, ray, samples).value)
  {
    var hit := w.closestHit(ray);
    if hit.Hit? {
      var brdf := w.objects[hit.primitive].kd;
      var omegas := samples.directions;
      var values := SampleValues(w, m, hit.point, hit.normal, brdf, omegas).value;
      forall j | 0 <= j < |omegas|
        ensures NonNegative(values[j])
      {
        var omegaBar := m.centerAroundNormal(omegas[j], hit.normal);
        var li := IncomingRadiance(w, m, hit.point, omegaBar).value;
        MultiplyNonNegative(li, brdf);
        ScaleNonNegative(Multiply(li, brdf), Dot(hit.normal, omegaBar));
      }
      EstimateNonNegative(values, samples.probabilities);
    }
  }
}
