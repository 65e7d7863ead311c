/** Optional values and the failures that abort a computation.
    Python raises an exception where this model returns `Err`. */
module Results {

  datatype Option<+T> = None | Some(value: T)

  /** Why a colour computation or a render stopped. */
  datatype Fault =
    | NoScene          // `self.scene` is still None (AttributeError)
    | NoSuchObject     // a hit record names an index outside `object_list` (IndexError)
    | ZeroMaxDepth     // Depth: `hit_distance / max_depth` with max_depth == 0
    | LightAtHitPoint  // Phong: `intensity / dist_from_light**2` with distance 0
    | ZeroDensity      // CMC: `val / prob` with prob == 0
    | NoSamples        // CMC: `result / len(samples_values)` with no samples
    | NoColor          // Bayesian MC: `compute_color` is `pass` and yields no colour

  datatype Result<+T> = Ok(value: T) | Err(fault: Fault)
}
