/** The scene an integrator renders: what it queries (objects, lights,
    ambient intensity, environment map, nearest-hit and any-hit traversal),
    its camera, and the pixel buffer it writes. */
module Scenes {
  import opened Results
  import opened Colors
  import opened Geometry

  /** A scene object as the integrators see it: the diffuse coefficient of its
      BRDF and its emission. */
  datatype SceneObject = SceneObject(kd: RGB, emission: RGB)

  datatype PointLight = PointLight(position: Vec3, intensity: RGB)

  /** The read-only part of a scene. `closestHit` and `anyHit` stand for the
      traversal over every object; `envMap` for `env_map.getValue`. */
  datatype World = World(
    objects: seq<SceneObject>,
    pointLights: seq<PointLight>,
    ambient: RGB,
    envMap: Option<Vec3 -> RGB>,
    closestHit: Ray -> HitRecord,
    anyHit: Ray -> bool)

  /** `object_list[i]`, failing as the list indexing does. */
  function ObjectAt(w: World, i: nat): (r: Result<SceneObject>)
    ensures r.Ok? <==> i < |w.objects|
    ensures r.Ok? ==> r.value == w.objects[i]
    ensures r.Err? ==> r.fault == NoSuchObject
  {
    if i < |w.objects| then Ok(w.objects[i]) else Err(NoSuchObject)
  }

  /** Image size and `get_direction(x, y)`. */
  datatype Camera = Camera(width: nat, height: nat, getDirection: (int, int) -> Vec3)

  class Scene {
    const world: World
    const camera: Camera
    /** The pixel buffer: `image[x, y]` is the colour of pixel `(x, y)`. */
    const image: array2<RGB>

    predicate Valid() {
      image.Length0 == camera.width && image.Length1 == camera.height
    }

    constructor (world: World, camera: Camera)
      ensures Valid() && fresh(image)
      ensures this.world == world && this.camera == camera
    {
      this.world := world;
      this.camera := camera;
      image := new RGB[camera.width, camera.height]((_, _) => Black);
    }

    /** `set_pixel(color, x, y)`: writes one pixel and nothing else. */
    method SetPixel(color: RGB, x: int, y: int)
      requires 0 <= x < image.Length0 && 0 <= y < image.Length1
      modifies image
      ensures image[x, y] == color
      ensures forall i, j :: 0 <= i < image.Length0 && 0 <= j < image.Length1 && (i != x || j != y) ==>
        image[i, j] == old(image[i, j])
    {
      image[x, y] := color;
    }
  }
}
