# PyRT integrators, modelled in Dafny

This project models the integrator engine of the PyRT ray tracer
(`assignment_2/baseCode_A2_25-26/PyRT_Integrators.py`): the pixel-colour
estimators (Lazy, Intersection, Depth, Normal, Phong, classical Monte Carlo,
and the Bayesian Monte Carlo constructor) and the render loop they share.

Colours and vectors are triples of `real`. The scene is split in two:

- an immutable `World` value holding the object list (each object's `kd` and
  `emission`), the point lights, the ambient intensity `i_a`, the optional
  environment map, and the two traversal queries `closest_hit` / `any_hit` as
  function values;
- a `Scene` class holding that world, the camera (`width`, `height`,
  `get_direction`) and the pixel buffer that `set_pixel` writes.

The Python subclasses become one `Integrator` class whose constant `kind` (a
`Strategy` value) selects the estimator. Each Python constructor is a named
constructor. `compute_color` dispatches on `kind`. Phong and CMC, which loop
and update variables in the source, are methods with loop invariants, proved
equal to the functions `PhongColor` and `CmcColor`. The other four are
functions.

Python raises an exception in several places. The model returns an `Err` with
a `Fault` there instead:

- `NoScene`: no scene bound.
- `NoSuchObject`: a hit index outside `object_list`.
- `ZeroMaxDepth`: division by a zero `max_depth`.
- `LightAtHitPoint`: division by a zero `dist_from_light**2`.
- `ZeroDensity`: division by a zero sample probability.
- `NoSamples`: the CMC average over an empty sample list.
- `NoColor`: the Bayesian `compute_color` is `pass` and returns no colour.

The render loop stops at the first such pixel.

Foreign helpers from `PyRT_Common` are function values in a `Maths` record:
`Normalize`, `Length` and `center_around_normal`. PyRT_Common is not part of
this model. `Dot` and the colour/vector arithmetic are defined directly. The
random hemisphere sampler becomes an argument: `Render` takes `draws(x, y)`,
the sample set the sampler returns for the `compute_color` call at pixel
`(x, y)`.

Three behaviours of the code worth noting:

- The CMC cosine `Dot(normal, omega_bar)` is not clamped at zero. It uses the
  hit normal as returned, not normalised.
- A zero sample count is not rejected up front. It fails only on a hit, at the
  final division by `len(samples_values)`.
- With probabilities shorter than the sample list, `zip` truncates the sum,
  but the division is still by the number of samples.

## Model

| member | source | states |
|---|---|---|
| `Integrators.BaseFilename` | assignment_2/baseCode_A2_25-26/PyRT_Integrators.py:13-15 | the stored name is `filename_` followed by `experiment_name`, both recovered from it; every subclass passes `''` as the second |
| `Integrators.Filename` | assignment_2/baseCode_A2_25-26/PyRT_Integrators.py:13-15 | the stored filename starts with the caller's prefix and the rest is exactly the class's suffix |
| `Integrators.Suffix` | assignment_2/baseCode_A2_25-26/PyRT_Integrators.py:53-214 | the text a subclass constructor appends (`_Lazy`, `_Intersection`, `_Depth`, `_Normal`, `_Phong`, `_MC_`/`_BMC_` + `str(n)` + `_samples` + experiment name) starts with `_` followed by a letter that is different for each class, and for CMC and BMC ends with the experiment name |
| `Integrators.FilenameIdentifiesIntegrator` | assignment_2/baseCode_A2_25-26/PyRT_Integrators.py:51-215 | from one prefix, equal filenames imply the same integrator class and, for CMC and BMC, the same sample count and experiment name |
| `Integrators.SampleCountRecovered` | assignment_2/baseCode_A2_25-26/PyRT_Integrators.py:161 | `tag + str(n) + '_samples' + e` determines both `n` and `e` |
| `Decimal.NatToString` | assignment_2/baseCode_A2_25-26/PyRT_Integrators.py:161 | `str(n)` of a natural number is a non-empty run of decimal digits with no leading zero |
| `Decimal.IntToString` | assignment_2/baseCode_A2_25-26/PyRT_Integrators.py:161 | `str(n)` is non-empty and starts with a minus sign exactly when `n` is negative |
| `Decimal.NatToStringValue` | assignment_2/baseCode_A2_25-26/PyRT_Integrators.py:161 | reading back the decimal digits `str(n)` writes gives `n` |
| `Decimal.NatToStringInjective` | assignment_2/baseCode_A2_25-26/PyRT_Integrators.py:161 | the digits of `p` followed by text starting with a non-digit determine `p` and the text |
| `Decimal.IntToStringInjective` | assignment_2/baseCode_A2_25-26/PyRT_Integrators.py:161 | `str(a) + s == str(b) + t`, with `s` and `t` starting with a non-digit, forces `a == b` and `s == t` |
| `Integrators.Integrator.LazyIntegrator` | assignment_2/baseCode_A2_25-26/PyRT_Integrators.py:52-53 | filename is prefix + `_Lazy`; no scene bound |
| `Integrators.Integrator.IntersectionIntegrator` | assignment_2/baseCode_A2_25-26/PyRT_Integrators.py:61-62 | filename is prefix + `_Intersection`; no scene bound |
| `Integrators.Integrator.DepthIntegrator` | assignment_2/baseCode_A2_25-26/PyRT_Integrators.py:71-73 | filename is prefix + `_Depth`; `max_depth` stored, default 10; no scene bound |
| `Integrators.Integrator.NormalIntegrator` | assignment_2/baseCode_A2_25-26/PyRT_Integrators.py:89-90 | filename is prefix + `_Normal`; no scene bound |
| `Integrators.Integrator.PhongIntegrator` | assignment_2/baseCode_A2_25-26/PyRT_Integrators.py:107-108 | filename is prefix + `_Phong`; no scene bound |
| `Integrators.Integrator.CMCIntegrator` | assignment_2/baseCode_A2_25-26/PyRT_Integrators.py:160-163 | filename is prefix + `_MC_` + `str(n)` + `_samples` + experiment name; `n` stored; no scene bound |
| `Integrators.Integrator.BayesianMonteCarloIntegrator` | assignment_2/baseCode_A2_25-26/PyRT_Integrators.py:213-217 | filename is prefix + `_BMC_` + `str(n)` + `_samples` + experiment name; `n` and the regression model stored |
| `Integrators.Integrator.AddScene` | assignment_2/baseCode_A2_25-26/PyRT_Integrators.py:25-26 | binds the given scene and leaves the filename unchanged |
| `Integrators.Integrator.GetFilename` | assignment_2/baseCode_A2_25-26/PyRT_Integrators.py:28-29 | returns exactly the stored filename |
| `Integrators.Integrator.ComputeColor` | assignment_2/baseCode_A2_25-26/PyRT_Integrators.py:19-21 | dispatches to the estimator of the integrator's class; without a scene only Lazy yields a colour |
| `Integrators.Integrator.Render` | assignment_2/baseCode_A2_25-26/PyRT_Integrators.py:32-42 | without a scene it fails; otherwise it succeeds iff every pixel's colour can be computed, and then pixel `(x, y)` holds `compute_color(Ray(get_direction(x, y)))` for every `0 <= x < width`, `0 <= y < height`; on failure it names the first failing pixel in column-major order, and only the pixels before it are written |
| `Integrators.Shade` | assignment_2/baseCode_A2_25-26/PyRT_Integrators.py:19-21 | `compute_color` over a bound scene is the estimator of the integrator's class: black for Lazy, the Intersection, Depth, Normal, Phong and CMC colours for theirs, no colour for BMC |
| `Integrators.PixelColor` | assignment_2/baseCode_A2_25-26/PyRT_Integrators.py:39-41 | the colour for pixel `(x, y)` is `compute_color` of the unbounded ray from the origin along the normalised `get_direction(x, y)`, with the sample set drawn for that pixel: black for Lazy, red exactly when that ray hits for Intersection, no colour for BMC |
| `Integrators.MissingRayColor` | assignment_2/baseCode_A2_25-26/PyRT_Integrators.py:55-173 | a ray that hits nothing is black for every implemented integrator, except CMC, which returns the environment's value |
| `Geometry.MakeRay` | assignment_2/baseCode_A2_25-26/PyRT_Integrators.py:141 | `Ray(origin, direction, extent)` keeps the origin and the extent and normalises the direction |
| `Geometry.CameraRay` | assignment_2/baseCode_A2_25-26/PyRT_Integrators.py:40 | `Ray(direction=d)` starts at the origin, has no distance bound, and has the normalised `d` as its direction |
| `BasicShading.LazyColor` | assignment_2/baseCode_A2_25-26/PyRT_Integrators.py:55-56 | black for every ray |
| `BasicShading.IntersectionColor` | assignment_2/baseCode_A2_25-26/PyRT_Integrators.py:64-66 | red exactly when `any_hit(ray)`, black exactly when not |
| `BasicShading.DepthColor` | assignment_2/baseCode_A2_25-26/PyRT_Integrators.py:75-84 | black on a miss; division error when `max_depth` is 0; otherwise a grey with non-negative components |
| `BasicShading.DepthProfile` | assignment_2/baseCode_A2_25-26/PyRT_Integrators.py:82-84 | for `max_depth > 0`: the grey is `1 - d/max_depth` (positive) before `max_depth`, 0 from it on, and at most 1 for `d >= 0` |
| `BasicShading.NormalColor` | assignment_2/baseCode_A2_25-26/PyRT_Integrators.py:92-102 | black on a miss; on a hit, `2c - 1` recovers each component of the normalised normal |
| `BasicShading.NormalColorInUnitCube` | assignment_2/baseCode_A2_25-26/PyRT_Integrators.py:99-102 | normalised components in [-1, 1] give a colour in [0, 1]^3 |
| `Scenes.ObjectAt` | assignment_2/baseCode_A2_25-26/PyRT_Integrators.py:117 | `object_list[i]` succeeds exactly for an index inside the list |
| `Scenes.Scene.constructor` | assignment_1/baseCode_A1_25-26/AppRenderer.py:5-47 | a scene holds its world and camera, and a fresh `width x height` pixel buffer |
| `Scenes.Scene.SetPixel` | assignment_2/baseCode_A2_25-26/PyRT_Integrators.py:42 | writes the one pixel and leaves every other unchanged |
| `PhongShading.LightTerm` | assignment_2/baseCode_A2_25-26/PyRT_Integrators.py:133-153 | one light fails exactly when `dist**2` is 0, and is skipped exactly when its shadow ray `any_hit`s |
| `PhongShading.SquaredDistance` | assignment_2/baseCode_A2_25-26/PyRT_Integrators.py:136-137 | `dist_from_light**2` is non-negative |
| `PhongShading.ShadowRay` | assignment_2/baseCode_A2_25-26/PyRT_Integrators.py:135-141 | the shadow ray starts at the hit point, points along the normalised `light_vec`, and is cut at `dist_from_light` |
| `PhongShading.Diffuse` | assignment_2/baseCode_A2_25-26/PyRT_Integrators.py:146 | `kd * I/d^2 * max(0, n.w_i)` is black when `n.w_i <= 0`, and non-negative for non-negative `kd` and `I/d^2` |
| `PhongShading.Specular` | assignment_2/baseCode_A2_25-26/PyRT_Integrators.py:148-151 | `ks * I/d^2 * max(0, w_o.r)^5`, with `ks = kd`, is non-negative for non-negative `kd` and `I/d^2` |
| `PhongShading.Accumulated` | assignment_2/baseCode_A2_25-26/PyRT_Integrators.py:128-153 | the accumulation succeeds exactly when no light has `dist**2 == 0`, fails only with that division error, and over no lights is `kd * i_a` |
| `PhongShading.PhongColor` | assignment_2/baseCode_A2_25-26/PyRT_Integrators.py:110-155 | black on a miss; an index error for a bad hit index; on a valid hit, a colour exactly when no light sits at the hit point |
| `PhongShading.ComputeColor` | assignment_2/baseCode_A2_25-26/PyRT_Integrators.py:110-155 | the loop over `pointLights`, with its `continue`, returns exactly `PhongColor` |
| `PhongShading.NoLightsGivesAmbient` | assignment_2/baseCode_A2_25-26/PyRT_Integrators.py:128-133 | with no lights the result is exactly `kd * i_a` |
| `PhongShading.OccludedLightAddsNothing` | assignment_2/baseCode_A2_25-26/PyRT_Integrators.py:140-143 | appending an occluded light leaves the accumulated colour unchanged |
| `PhongShading.AllOccludedGivesAmbient` | assignment_2/baseCode_A2_25-26/PyRT_Integrators.py:130-153 | when every light is occluded, the accumulation is exactly the ambient term |
| `PhongShading.AllOccludedPhongColor` | assignment_2/baseCode_A2_25-26/PyRT_Integrators.py:110-155 | a hit whose every light is occluded gets exactly `kd * i_a` |
| `PhongShading.Clamp` | assignment_2/baseCode_A2_25-26/PyRT_Integrators.py:146 | `max(0, v)` is non-negative, at least `v`, and is `v` or 0 |
| `PhongShading.PowNonNegative` | assignment_2/baseCode_A2_25-26/PyRT_Integrators.py:151 | a power of a non-negative base is non-negative |
| `PhongShading.LightTermNonNegative` | assignment_2/baseCode_A2_25-26/PyRT_Integrators.py:145-151 | with non-negative `kd` and intensity, the diffuse and specular terms are non-negative |
| `PhongShading.AccumulatedAtLeastAmbient` | assignment_2/baseCode_A2_25-26/PyRT_Integrators.py:128-153 | with non-negative `kd` and intensities, the result is component-wise at least `kd * i_a` |
| `PhongShading.PhongColorNonNegative` | assignment_2/baseCode_A2_25-26/PyRT_Integrators.py:110-155 | in a scene with non-negative reflectances and intensities, every Phong colour is non-negative |
| `MonteCarlo.Environment` | assignment_2/baseCode_A2_25-26/PyRT_Integrators.py:170-173 | the environment's value when there is a map, black otherwise |
| `MonteCarlo.IncomingRadiance` | assignment_2/baseCode_A2_25-26/PyRT_Integrators.py:187-199 | the secondary ray's `l_i`: the emission of the object it hits, the environment value on a miss, an index error for a bad hit index |
| `MonteCarlo.SampleValue` | assignment_2/baseCode_A2_25-26/PyRT_Integrators.py:186-202 | one sample fails exactly when its secondary ray's `l_i` does, only with an index error, and otherwise is `l_i * brdf * Dot(normal, omega_bar)` for `omega_bar = center_around_normal(omega, normal)` |
| `MonteCarlo.SampleValues` | assignment_2/baseCode_A2_25-26/PyRT_Integrators.py:182-203 | succeeds iff every sample does; then it has one value per sample, in sample order |
| `MonteCarlo.WeightedSum` | assignment_2/baseCode_A2_25-26/PyRT_Integrators.py:206-208 | the running sum fails, with a division error, exactly when a visited probability is 0 |
| `MonteCarlo.Estimate` | assignment_2/baseCode_A2_25-26/PyRT_Integrators.py:205-209 | no samples is a division error |
| `MonteCarlo.CmcColor` | assignment_2/baseCode_A2_25-26/PyRT_Integrators.py:165-209 | on a miss, the environment value along the ray (black without a map); a bad hit index fails; a hit with no samples fails |
| `MonteCarlo.ComputeColor` | assignment_2/baseCode_A2_25-26/PyRT_Integrators.py:165-209 | the two loops, building `samples_values` and then summing `val / prob`, return exactly `CmcColor` |
| `MonteCarlo.TraceSamples` | assignment_2/baseCode_A2_25-26/PyRT_Integrators.py:182-203 | the first loop, tracing one secondary ray per sample, returns exactly `SampleValues` |
| `MonteCarlo.Average` | assignment_2/baseCode_A2_25-26/PyRT_Integrators.py:205-209 | the second loop over `zip(samples_values, sample_prob)` and the division by `len(samples_values)` return exactly `Estimate` |
| `MonteCarlo.WeightedSumOfConstant` | assignment_2/baseCode_A2_25-26/PyRT_Integrators.py:206-208 | `k` equal terms `c` sum to `k * c` |
| `MonteCarlo.EstimateOfConstant` | assignment_2/baseCode_A2_25-26/PyRT_Integrators.py:205-209 | if every `value / probability` equals `c`, the estimate is exactly `c` |
| `MonteCarlo.CmcColorOfConstant` | assignment_2/baseCode_A2_25-26/PyRT_Integrators.py:165-209 | at a valid hit, if every sample succeeds and every `l_o / prob` equals `c`, with at least one sample and no fewer densities than samples, `compute_color` returns exactly `c` |
| `MonteCarlo.WeightedSumNonNegative` | assignment_2/baseCode_A2_25-26/PyRT_Integrators.py:206-208 | non-negative values over positive densities have a non-negative sum |
| `MonteCarlo.EstimateNonNegative` | assignment_2/baseCode_A2_25-26/PyRT_Integrators.py:205-209 | with at least one sample and positive densities, the estimate exists and is non-negative |
| `MonteCarlo.CmcColorNonNegative` | assignment_2/baseCode_A2_25-26/PyRT_Integrators.py:165-209 | non-negative emissions, `kd` and environment, non-negative cosines and positive densities give a non-negative colour |
| `AppRenderer.RenderOneLazyPixel` | assignment_1/baseCode_A1_25-26/AppRenderer.py:58-69 | follows the construct / `add_scene` / `render` sequence of these lines, with a Lazy integrator and a 1x1 image in place of the Phong integrator and the 500x500 sphere scene: rendering succeeds and leaves the pixel black |

## Left out

- Console output and file I/O: the progress and banner printing and `scene.save_image` (PyRT_Integrators.py:36, 43-48).
- PyRT_Common is not part of this model. `Normalize`, `Length`, `center_around_normal`, `env_map.getValue`, and the scene's `closest_hit` / `any_hit` are supplied as function values. Nothing is assumed of them (not unit length, not the epsilon interval, not nearest-hit order), except that a hit's primitive index is taken to be non-negative. A negative index, which Python's `object_list[i]` would read from the end of the list, cannot occur in the model.
- `Dot`, vector subtraction and colour arithmetic are written out as the usual component-wise formulas. `RED` is taken to be `(1, 0, 0)`, `BLACK` to be `(0, 0, 0)` and `ONE` to be `(1, 1, 1)`. The `Ray` constructor is taken to normalise its direction, `Ray(direction=d)` to start at the origin with no distance bound, and the secondary ray `Ray(hit_point, omega_jbar)` of the Monte Carlo integrator to have no distance bound either.
- `UniformPDF` and `sample_set_hemisphere` (PyRT_Integrators.py:180-181): the sample set is an input, `draws(x, y)` per pixel. Its distribution, its length relative to `n`, and convergence of the estimator are not modelled.
- Floating point: reals have no rounding, NaN or infinity. Division by zero is the only numeric failure modelled.
- `BayesianMonteCarloIntegrator.compute_color` (PyRT_Integrators.py:219-220) is `pass`. It is modelled as yielding no colour (`Err(NoColor)`), so a render with it stops at the first pixel. What writing `None` into the pixel buffer would do is not modelled. The regression model `myGP` is an opaque stored value.
- `set_pixel` is taken to store the colour at `image[x, y]` of a `width x height` buffer. The buffer's layout and persistence belong to the scene, which is not shown.
- MonteCarlo.CmcColorNonNegative: takes non-negative cosines as a premise. It does not derive them from `center_around_normal`, whose behaviour is not modelled.
- assignment_1/baseCode_A1_25-26/PyRT_Integrators.py: its integrators are `pass` stubs, and its render fills noise and a drawn smiley. Its only concrete logic is the Lazy integrator modelled here.
- The rest of AppRenderer.py is scene-building configuration and OpenCV display. MCError.py is an image-comparison script.
