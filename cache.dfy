/** The resource cache of `set_image_texture`: whether the texture of the
    current image can be reused or must be loaded again, and how the view is
    reset when a new image is loaded. */
module ImageCache {
  import opened Wrappers
  import opened Geometry

  /** A path to an image file, as the navigation list gives it. */
  type Path = string

  /** A loaded image texture: a handle and the size `query()` reports. */
  datatype Texture = Texture(id: nat, width: nat, height: nat)

  /** What the image service (`load_texture`) returns for the current path. */
  datatype LoadResult = Loaded(texture: Texture) | LoadFailed

  /** The view transform. Scale and pan are `f32` in the source; here they are
      reals, and the fit scale is whatever the caller computed. */
  datatype View = View(scale: real, panX: real, panY: real, rot: RotAngle, flipH: bool, flipV: bool)

  /** The screen's cache fields together with the view. */
  datatype CacheState = CacheState(lastIndex: nat, texture: Option<Texture>, dirty: bool, view: View)

  /** The result of one `set_image_texture`: the new state, and whether the
      image service was asked for a texture. */
  datatype Step = Step(state: CacheState, loaded: bool)

  /** The view right after an image is loaded: fitted to the viewport, not
      panned, not rotated, not mirrored. */
  function FitView(fit: real): View
  {
    View(fit, 0.0, 0.0, Up, false, false)
  }

  /** The cached texture can be reused: it shows the requested image, nothing
      marked it dirty and the caller did not force a reload. */
  predicate CacheHit(s: CacheState, index: nat, force: bool)
  {
    index == s.lastIndex && s.texture.Some? && !s.dirty && !force
  }

  /** `set_image_texture` for the image at `index`, whose path is `path` (None
      when there are no images) and which the image service would return as
      `load`.
      - A hit changes nothing and loads nothing.
      - A miss clears both flip flags, whatever happens next.
      - A miss with a path asks the image service; on success the texture,
        `lastIndex` and `dirty` describe the new image and the view is reset to
        the fitted one.
      - A miss without a path, or whose load fails, keeps the texture, the
        index, the dirty flag, scale, pan and rotation as they were. */
  function TextureStep(s: CacheState, index: nat, force: bool, path: Option<Path>, load: LoadResult, fit: real): (r: Step)
    ensures CacheHit(s, index, force) ==> r == Step(s, false)
    ensures !CacheHit(s, index, force) ==> r.loaded == path.Some? && !r.state.view.flipH && !r.state.view.flipV
    ensures r.loaded && load.Loaded? ==>
      r.state == CacheState(index, Some(load.texture), false, FitView(fit))
    ensures !(r.loaded && load.Loaded?) ==>
      r.state.lastIndex == s.lastIndex && r.state.texture == s.texture && r.state.dirty == s.dirty
      && r.state.view.scale == s.view.scale && r.state.view.panX == s.view.panX
      && r.state.view.panY == s.view.panY && r.state.view.rot == s.view.rot
  {
    if CacheHit(s, index, force) then Step(s, false)
    else
      var unflipped := s.(view := s.view.(flipH := false, flipV := false));
      match path
      case None => Step(unflipped, false)
      case Some(_) =>
        match load
        case LoadFailed => Step(unflipped, true)
        case Loaded(t) => Step(CacheState(index, Some(t), false, FitView(fit)), true)
  }

  /** After a successful load the same image is a hit: calling again with the
      same index and no force is a no-op that loads nothing. */
  lemma LoadedImageIsCached(s: CacheState, index: nat, force: bool, path: Option<Path>, t: Texture, fit: real,
                            path2: Option<Path>, load2: LoadResult, fit2: real)
    requires !CacheHit(s, index, force) && path.Some?
    ensures var next := TextureStep(s, index, force, path, Loaded(t), fit).state;
      CacheHit(next, index, false) && TextureStep(next, index, false, path2, load2, fit2) == Step(next, false)
  {
  }

  /** Forcing a render always asks the image service when there is a path,
      whatever the cache holds. */
  lemma ForceAlwaysLoads(s: CacheState, index: nat, path: Option<Path>, load: LoadResult, fit: real)
    requires path.Some?
    ensures TextureStep(s, index, true, path, load, fit).loaded
  {
  }

  /** A forced reload of the cached image that fails leaves the cache as it
      was, apart from the mirroring: the next frame without force is a hit
      again and does not retry the load. */
  lemma FailedForcedReloadKeepsHit(s: CacheState, index: nat, path: Option<Path>, fit: real,
                                   path2: Option<Path>, load2: LoadResult, fit2: real)
    requires CacheHit(s, index, false) && path.Some?
    ensures var step := TextureStep(s, index, true, path, LoadFailed, fit);
      step.loaded && CacheHit(step.state, index, false)
      && !TextureStep(step.state, index, false, path2, load2, fit2).loaded
  {
  }

  /** The cache over consecutive frames showing the same image without forcing:
      `results[k]` is what the image service would return in frame `k`. */
  datatype Run = Run(state: CacheState, loads: nat)

  function Replay(s: CacheState, index: nat, path: Option<Path>, results: seq<LoadResult>, fit: real): (r: Run)
    ensures r.loads <= |results|
    decreases |results|
  {
    if results == [] then Run(s, 0)
    else
      var step := TextureStep(s, index, false, path, results[0], fit);
      var rest := Replay(step.state, index, path, results[1..], fit);
      Run(rest.state, rest.loads + (if step.loaded then 1 else 0))
  }

  /** A hit stays a hit: repeated frames of a cached image never load. */
  lemma {:induction false} HitIsStable(s: CacheState, index: nat, path: Option<Path>, results: seq<LoadResult>, fit: real)
    requires CacheHit(s, index, false)
    ensures Replay(s, index, path, results, fit) == Run(s, 0)
    decreases |results|
  {
    if results != [] {
      HitIsStable(s, index, path, results[1..], fit);
    }
  }

  /** While the image service succeeds, any number of frames of the same image
      load it at most once. */
  lemma {:induction false} LoadsAtMostOnce(s: CacheState, index: nat, path: Option<Path>, results: seq<LoadResult>, fit: real)
    requires forall k :: 0 <= k < |results| ==> results[k].Loaded?
    ensures Replay(s, index, path, results, fit).loads <= 1
    decreases |results|
  {
    if results != [] {
      var step := TextureStep(s, index, false, path, results[0], fit);
      if CacheHit(s, index, false) {
        HitIsStable(s, index, path, results, fit);
      } else if path.None? {
        LoadsAtMostOnce(step.state, index, path, results[1..], fit);
      } else {
        HitIsStable(step.state, index, path, results[1..], fit);
      }
    }
  }

  /** A failed load is retried in every following frame, and until one succeeds
      the previous texture stays cached under its old index. */
  lemma {:induction false} FailedLoadsRetry(s: CacheState, index: nat, path: Option<Path>, results: seq<LoadResult>, fit: real)
    requires path.Some? && !CacheHit(s, index, false)
    requires forall k :: 0 <= k < |results| ==> results[k] == LoadFailed
    ensures var r := Replay(s, index, path, results, fit);
      r.loads == |results|
      && r.state.texture == s.texture && r.state.lastIndex == s.lastIndex && r.state.dirty == s.dirty
    decreases |results|
  {
    if results != [] {
      var step := TextureStep(s, index, false, path, results[0], fit);
      FailedLoadsRetry(step.state, index, path, results[1..], fit);
    }
  }
}
