/** The driver sequence of the application script: build an integrator, bind
    a scene, render. Shown here for a one-pixel image and the Lazy integrator. */
module AppRenderer {
  import opened Colors
  import opened Geometry
  import opened Scenes
  import opened Integrators

  /** Rendering a 1x1 image with the Lazy integrator succeeds and leaves the
      single pixel black, whatever the scene and the sampler. */
  method RenderOneLazyPixel(w: World, m: Maths, direction: (int, int) -> Vec3,
                            draws: (int, int) -> SampleSet) returns (outcome: Outcome, pixel: RGB)
    ensures outcome == Done && pixel == Black
  {
    var integrator := new Integrator.LazyIntegrator("out/phong");
    var scene := new Scene(w, Camera(1, 1, direction));
    integrator.AddScene(scene);
    outcome := integrator.Render(m, draws);
    pixel := scene.image[0, 0];
  }
}
