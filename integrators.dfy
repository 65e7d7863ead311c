/** The integrator hierarchy: one class whose constant `kind` selects the
    estimator (the Python subclasses), the filename each constructor builds,
    `add_scene`, `get_filename`, the dispatching `compute_color` and the shared
    render loop. */
module Integrators {
  import opened Results
  import opened Colors
  import opened Geometry
  import opened Scenes
  import opened Decimal
  import opened BasicShading
  import PhongShading
  import MonteCarlo

  /** The regression model handed to the Bayesian Monte Carlo integrator; it is
      stored and never consulted. */
  type Regressor

  /** Which `compute_color` an integrator runs, with its parameters. */
  datatype Strategy =
    | Lazy
    | Intersection
    | Depth(maxDepth: real)
    | Normal
    | Phong
    | ClassicMC(nSamples: int)
    | BayesianMC(nSamples: int, regressor: Regressor)

  /** The name of the Python class that implements `kind`. */
  function ClassName(kind: Strategy): string {
    match kind
    case Lazy => "LazyIntegrator"
    case Intersection => "IntersectionIntegrator"
    case Depth(_) => "DepthIntegrator"
    case Normal => "NormalIntegrator"
    case Phong => "PhongIntegrator"
    case ClassicMC(_) => "CMCIntegrator"
    case BayesianMC(_, _) => "BayesianMonteCarloIntegrator"
  }

  /** `Integrator.__init__`: the stored filename is `filename_ + experiment_name`. */
  function BaseFilename(filename: string, experimentName: string): (r: string)
    ensures |r| == |filename| + |experimentName|
    ensures r[..|filename|] == filename && r[|filename|..] == experimentName
  {
    filename + experimentName
  }

  /** The text each subclass constructor appends to the caller's prefix. Only
      the two Monte Carlo constructors take an experiment name. */
  function Suffix(kind: Strategy, experimentName: string): (r: string)
    ensures |r| >= 2 && r[0] == '_' && r[1] == Tag(kind)
    ensures kind.ClassicMC? || kind.BayesianMC? ==>
      |experimentName| <= |r| && r[|r| - |experimentName|..] == experimentName
  {
    match kind
    case Lazy => "_Lazy"
    case Intersection => "_Intersection"
    case Depth(_) => "_Depth"
    case Normal => "_Normal"
    case Phong => "_Phong"
    case ClassicMC(n) => "_MC_" + (IntToString(n) + ("_samples" + experimentName))
    case BayesianMC(n, _) => "_BMC_" + (IntToString(n) + ("_samples" + experimentName))
  }

  /** The filename an integrator of `kind` built from `prefix` stores. */
  function Filename(prefix: string, kind: Strategy, experimentName: string): (name: string)
    ensures |prefix| <= |name| && name[..|prefix|] == prefix
    ensures name[|prefix|..] == Suffix(kind, experimentName)
  {
    BaseFilename(prefix + Suffix(kind, experimentName), "")
  }

  /** The second character of the suffix tells the integrator classes apart. */
  function Tag(kind: Strategy): char {
    match kind
    case Lazy => 'L'
    case Intersection => 'I'
    case Depth(_) => 'D'
    case Normal => 'N'
    case Phong => 'P'
    case ClassicMC(_) => 'M'
    case BayesianMC(_, _) => 'B'
  }

  lemma TagIdentifiesClass(k1: Strategy, k2: Strategy)
    requires Tag(k1) == Tag(k2)
    ensures ClassName(k1) == ClassName(k2)
  {
  }

  /** From one prefix, two integrators get the same filename only if they are of
      the same class and, for the Monte Carlo classes, were given the same
      sample count and experiment name. */
  lemma FilenameIdentifiesIntegrator(prefix: string, k1: Strategy, e1: string, k2: Strategy, e2: string)
    requires Filename(prefix, k1, e1) == Filename(prefix, k2, e2)
    ensures ClassName(k1) == ClassName(k2)
    ensures k1.ClassicMC? && k2.ClassicMC? ==> k1.nSamples == k2.nSamples && e1 == e2
    ensures k1.BayesianMC? && k2.BayesianMC? ==> k1.nSamples == k2.nSamples && e1 == e2
  {
    var s1, s2 := Suffix(k1, e1), Suffix(k2, e2);
    assert s1 == Filename(prefix, k1, e1)[|prefix|..] == s2;
    TagIdentifiesClass(k1, k2);
    if k1.ClassicMC? && k2.ClassicMC? {
      SampleCountRecovered("_MC_", k1.nSamples, e1, k2.nSamples, e2);
    }
    if k1.BayesianMC? && k2.BayesianMC? {
      SampleCountRecovered("_BMC_", k1.nSamples, e1, k2.nSamples, e2);
    }
  }

  /** `tag + str(n) + "_samples" + e` determines `n` and `e`. */
  lemma SampleCountRecovered(tag: string, n1: int, e1: string, n2: int, e2: string)
    requires tag + (IntToString(n1) + ("_samples" + e1)) == tag + (IntToString(n2) + ("_samples" + e2))
    ensures n1 == n2 && e1 == e2
  {
    var t1, t2 := "_samples" + e1, "_samples" + e2;
    var u1, u2 := IntToString(n1) + t1, IntToString(n2) + t2;
    assert u1 == (tag + u1)[|tag|..];
    assert u2 == (tag + u2)[|tag|..];
    IntToStringInjective(n1, t1, n2, t2);
    assert e1 == t1[8..];
    assert e2 == t2[8..];
  }

  /** `compute_color(ray)` of an integrator of `kind` over a bound scene, given
      the sample set the sampler draws for the call (used by CMC only). */
  function Shade(kind: Strategy, w: World, m: Maths, ray: Ray, samples: SampleSet): (r: Result<RGB>)
    ensures kind.Lazy? ==> r == Ok(Black)
    ensures kind.Intersection? ==> r == Ok(IntersectionColor(w, ray))
    ensures kind.Depth? ==> r == DepthColor(w, kind.maxDepth, ray)
    ensures kind.Normal? ==> r == Ok(NormalColor(w, m, ray))
    ensures kind.Phong? ==> r == PhongShading.PhongColor(w, m, ray)
    ensures kind.ClassicMC? ==> r == MonteCarlo.CmcColor(w, m, ray, samples)
    ensures kind.BayesianMC? ==> r == Err(NoColor)
  {
    match kind
    case Lazy => Ok(LazyColor(ray))
    case Intersection => Ok(IntersectionColor(w, ray))
    case Depth(maxDepth) => DepthColor(w, maxDepth, ray)
    case Normal => Ok(NormalColor(w, m, ray))
    case Phong => PhongShading.PhongColor(w, m, ray)
    case ClassicMC(_) => MonteCarlo.CmcColor(w, m, ray, samples)
    case BayesianMC(_, _) => Err(NoColor)
  }

  /** A ray that reaches no object is black for every implemented integrator,
      except that the Monte Carlo one returns the environment along it. */
  lemma MissingRayColor(kind: Strategy, w: World, m: Maths, ray: Ray, samples: SampleSet)
    requires w.closestHit(ray).NoHit? && !w.anyHit(ray) && !kind.BayesianMC?
    ensures Shade(kind, w, m, ray, samples) ==
      Ok(if kind.ClassicMC? then MonteCarlo.Environment(w, ray.direction) else Black)
  {
  }

  /** The colour of pixel `(x, y)`: the camera ray through it, shaded with the
      sample set drawn there. */
  function PixelColor(kind: Strategy, w: World, camera: Camera, m: Maths,
                      draws: (int, int) -> SampleSet, x: int, y: int): (r: Result<RGB>)
    ensures kind.Lazy? ==> r == Ok(Black)
    ensures kind.Intersection? ==>
      (r == Ok(Red) <==> w.anyHit(Ray(Zero, m.normalize(camera.getDirection(x, y)), Unbounded)))
    ensures kind.ClassicMC? ==> r == MonteCarlo.CmcColor(w, m, CameraRay(m, camera.getDirection(x, y)), draws(x, y))
    ensures kind.BayesianMC? ==> r == Err(NoColor)
  {
    Shade(kind, w, m, CameraRay(m, camera.getDirection(x, y)), draws(x, y))
  }

  /** Pixel `(i, j)` is visited before pixel `(x, y)`: columns outer, rows inner. */
  predicate Before(i: int, j: int, x: int, y: int) {
    i < x || (i == x && j < y)
  }

  datatype Outcome = Done | Failed(fault: Fault)

  class Integrator {
    const kind: Strategy
    var filename: string
    /** The bound scene; None until `add_scene`. */
    var scene: Scene?

    constructor LazyIntegrator(filename_: string)
      ensures kind == Lazy && filename == Filename(filename_, kind, "") && scene == null
    {
      kind := Lazy;
      filename := BaseFilename(filename_ + "_Lazy", "");
      scene := null;
    }

    constructor IntersectionIntegrator(filename_: string)
      ensures kind == Intersection && filename == Filename(filename_, kind, "") && scene == null
    {
      kind := Intersection;
      filename := BaseFilename(filename_ + "_Intersection", "");
      scene := null;
    }

    constructor DepthIntegrator(filename_: string, maxDepth: real := 10.0)
      ensures kind == Depth(maxDepth) && filename == Filename(filename_, kind, "") && scene == null
    {
      kind := Depth(maxDepth);
      filename := BaseFilename(filename_ + "_Depth", "");
      scene := null;
    }

    constructor NormalIntegrator(filename_: string)
      ensures kind == Normal && filename == Filename(filename_, kind, "") && scene == null
    {
      kind := Normal;
      filename := BaseFilename(filename_ + "_Normal", "");
      scene := null;
    }

    constructor PhongIntegrator(filename_: string)
      ensures kind == Phong && filename == Filename(filename_, kind, "") && scene == null
    {
      kind := Phong;
      filename := BaseFilename(filename_ + "_Phong", "");
      scene := null;
    }

    constructor CMCIntegrator(n: int, filename_: string, experimentName: string := "")
      ensures kind == ClassicMC(n) && filename == Filename(filename_, kind, experimentName) && scene == null
    {
      kind := ClassicMC(n);
      filename := BaseFilename(filename_ + "_MC_" + IntToString(n) + "_samples" + experimentName, "");
      new;
      assert filename == filename_ + ("_MC_" + (IntToString(n) + ("_samples" + experimentName)));
      scene := null;
    }

    constructor BayesianMonteCarloIntegrator(n: int, gp: Regressor, filename_: string, experimentName: string := "")
      ensures kind == BayesianMC(n, gp) && filename == Filename(filename_, kind, experimentName) && scene == null
    {
      kind := BayesianMC(n, gp);
      filename := BaseFilename(filename_ + "_BMC_" + IntToString(n) + "_samples" + experimentName, "");
      new;
      assert filename == filename_ + ("_BMC_" + (IntToString(n) + ("_samples" + experimentName)));
      scene := null;
    }

    /** `add_scene`: binds the scene and changes nothing else. */
    method AddScene(s: Scene)
      modifies this
      ensures scene == s && filename == old(filename)
    {
      scene := s;
    }

    /** `get_filename` */
    method GetFilename() returns (name: string)
      ensures name == filename
    {
      name := filename;
    }

    /** `compute_color(ray)`: dispatches on the integrator's kind. Without a
        scene only Lazy (which never looks at it) and the unimplemented
        Bayesian variant get past the scene access. */
    method ComputeColor(m: Maths, ray: Ray, samples: SampleSet) returns (c: Result<RGB>)
      ensures scene == null ==>
        c == (if kind.Lazy? then Ok(Black) else if kind.BayesianMC? then Err(NoColor) else Err(NoScene))
      ensures scene != null ==> c == Shade(kind, scene.world, m, ray, samples)
    {
      match kind
      case Lazy =>
        c := Ok(LazyColor(ray));
      case BayesianMC(_, _) =>
        c := Err(NoColor);
      case Intersection =>
        if scene == null { return Err(NoScene); }
        c := Ok(IntersectionColor(scene.world, ray));
      case Depth(maxDepth) =>
        if scene == null { return Err(NoScene); }
        c := DepthColor(scene.world, maxDepth, ray);
      case Normal =>
        if scene == null { return Err(NoScene); }
        c := Ok(NormalColor(scene.world, m, ray));
      case Phong =>
        if scene == null { return Err(NoScene); }
        c := PhongShading.ComputeColor(scene.world, m, ray);
      case ClassicMC(_) =>
        if scene == null { return Err(NoScene); }
        c := MonteCarlo.ComputeColor(scene.world, m, ray, samples);
    }

    /** The colour `render` writes at pixel `(x, y)`. */
    function Pixel(m: Maths, draws: (int, int) -> SampleSet, x: int, y: int): Result<RGB>
      reads this
      requires scene != null
    {
      PixelColor(kind, scene.world, scene.camera, m, draws, x, y)
    }

    /** `render`: visits every pixel of the camera's image, columns outer and
        rows inner, and writes the colour of its camera ray. The first pixel
        whose colour cannot be computed aborts the render; the pixels visited
        before it keep their new colours and the rest are untouched. */
    method Render(m: Maths, draws: (int, int) -> SampleSet) returns (outcome: Outcome)
      requires scene != null ==> scene.Valid()
      modifies if scene != null then {scene.image} else {}
      ensures scene == null ==> outcome == Failed(NoScene)
      ensures scene != null ==>
        (outcome == Done <==>
          forall x, y :: 0 <= x < scene.camera.width && 0 <= y < scene.camera.height ==> Pixel(m, draws, x, y).Ok?)
      ensures scene != null && outcome == Done ==>
        forall x, y :: 0 <= x < scene.camera.width && 0 <= y < scene.camera.height ==>
          scene.image[x, y] == Pixel(m, draws, x, y).value
      ensures scene != null && outcome.Failed? ==>
        exists fx, fy :: 0 <= fx < scene.camera.width && 0 <= fy < scene.camera.height &&
          Pixel(m, draws, fx, fy) == Err(outcome.fault) &&
          (forall x, y :: 0 <= x < scene.camera.width && 0 <= y < scene.camera.height ==>
            if Before(x, y, fx, fy) then Pixel(m, draws, x, y).Ok? && scene.image[x, y] == Pixel(m, draws, x, y).value
            else scene.image[x, y] == old(scene.image[x, y]))
    {
      if scene == null {
        return Failed(NoScene);
      }
      var cam := scene.camera;
      var image := scene.image;
      var x := 0;
      while x < cam.width
        invariant 0 <= x <= cam.width
        invariant forall i, j :: 0 <= i < cam.width && 0 <= j < cam.height ==>
          if i < x then Pixel(m, draws, i, j).Ok? && image[i, j] == Pixel(m, draws, i, j).value
          else image[i, j] == old(image[i, j])
      {
        var y := 0;
        while y < cam.height
          invariant 0 <= y <= cam.height
          invariant forall i, j :: 0 <= i < cam.width && 0 <= j < cam.height ==>
            if Before(i, j, x, y) then Pixel(m, draws, i, j).Ok? && image[i, j] == Pixel(m, draws, i, j).value
            else image[i, j] == old(image[i, j])
        {
          var direction := cam.getDirection(x, y);
          var ray := CameraRay(m, direction);
          var pixel := ComputeColor(m, ray, draws(x, y));
          if pixel.Err? {
            assert Pixel(m, draws, x, y) == Err(pixel.fault);
            return Failed(pixel.fault);
          }
          scene.SetPixel(pixel.value, x, y);
          y := y + 1;
        }
        x := x + 1;
      }
      return Done;
    }
  }
}
