# Radiance cascades: layer planning and dispatch order

This project models the integer and sequencing skeleton of a Unity demo that renders 2D
global illumination with radiance cascades. Each frame a camera image (the emitter scene)
is turned into a lit scene at `1 / renderScale` of the camera resolution. Rendering goes
through a stack of radiance maps, called layers or cascades:

- Layer 0 has the finest probe grid and the shortest rays.
- Each later layer halves the probe count per axis, doubles the probe spacing, quadruples
  the angular resolution and the ray length, and starts its rays where the previous
  layer's rays end.

Every frame runs three steps in order:

1. The creation kernel fills every layer.
2. The merging kernel folds each far layer into the next nearer one, from the coarsest
   layer down.
3. The finalization kernel reads layer 0 into the lit scene.

The model has three modules:

- `RayCaster` (`ray_caster.dfy`) is the shared base. It holds the layer descriptor
  `RadianceLayerInfo`, the work-group ceiling division `CalcWorkingGroupSize` and the
  lit-scene resolution. It holds the planner `SetupRadianceMaps`, an array-filling loop
  proved against the spec functions `Halved`, `RayLength`, `RayOffset`,
  `QuarterSampleCount`, `StepSize` and `PlannedLayer`, with their closed forms. It also
  holds an integer rephrasing `LayerCountFor` of the floating-point layer count, and the
  `Dispatch` event type for shader calls. Finally, it holds the frame-ordering predicates:
  `FrameShape` gives the positions of the calls, `CascadeOrdered` gives the dependencies
  between them, and a lemma links the two.
- `TexturePacked` (`ray_caster_t2d.dfy`) is the 2D variant, class `RayCasterT2D`. All
  layers share one padded 2D footprint and one group count.
- `Volumetric` (`ray_caster_t3d.dfy`) is the 3D variant, class `RayCasterT3D`. Every layer
  gets its own 3D texture and group count. The cascade is cut at the first layer that
  exceeds the hardware's largest 3D texture extent.

In each class, the base class's `Start` is split in two:

- The constructor does `SetupRenderTexture` and `LoadShaders`.
- The method `SetupRadianceMaps` plans the layers and calls the variant's
  `InitializeRadianceMaps`.

Each `Dispatch` call becomes one `Dispatch` event appended to the field `dispatches`. The
event carries the map bindings and the per-map uniforms set just before that call, and
the thread-group counts. That log is what `OnRenderImage` is specified and proved against.
The other shader calls are recorded as fields rather than events:

- The per-frame emitter-scene bind (`RayCaster.cs:177`) sets the field `emitterScene`.
  Every creation event also carries it.
- The setup-time binds for finalization (`RayCasterT2D.cs:74`, `RayCasterT3D.cs:62`) set
  the field `finalizationRadianceMap`.
- The 2D creation kernel's `renderScale / 2` uniform (`RayCasterT2D.cs:73`) sets the
  field `creationRenderScale`. It is not repeated in each 2D creation event.

`Valid()` pins these fields.

Two edge cases of the layer count:

- For a 960 x 540 lit scene the diagonal is about 1101.45, and
  `ceil(log_4(diagonal)) + 1` gives 7 layers. The lemmas `RayCaster.FullHdAtHalfScale`
  and `TexturePacked.FullHdFootprint` state the 7-layer plan and its 1920 x 1152
  footprint.
- For a 0 x 0 lit scene, `Math.Log(0, 4)` is negative infinity. Its cast to `int` gives
  a negative array length, so setup throws. In the model, `LayerCountFor` returns `None`
  and `SetupRadianceMaps` returns `false` with the state unchanged.

## Model

| member | source | states |
|---|---|---|
| RayCaster.GroupsFor | Assets/Scripts/RayCaster.cs:128-132 | `(w + t - 1) / t` is the ceiling of w / t: g·t ≥ w and (g−1)·t < w, and it is 0 when w is 0 |
| RayCaster.CalcWorkingGroupSize | Assets/Scripts/RayCaster.cs:118-133 | for positive thread-group sizes, every axis of the result is the ceiling division of the work size by the threads on that axis |
| RayCaster.LitSceneResolution | Assets/Scripts/RayCaster.cs:82-83 | the lit scene is the camera resolution floor-divided by renderScale: res·s ≤ pixels < (res+1)·s on each axis |
| RayCaster.Ceiling | Assets/Scripts/RayCaster.cs:154 | `Math.Ceiling` over the reals: the least integer n with x ≤ n |
| RayCaster.RayLength | Assets/Scripts/RayCaster.cs:169 | the ray length that is quadrupled per layer never drops below a positive base length; `RayOffset` (line 167) accumulates these lengths, and `PlannedLayer` assembles descriptor i from `Halved`, `Pow4`, `Pow2`, `RayOffset`, `StepSize` and `QuarterSampleCount` |
| RayCaster.QuarterSampleCount | Assets/Scripts/RayCaster.cs:154 | min(ceil(len/4), 64) is at most 64, at least 1 for a positive length, brackets len/4 when 0 < len ≤ 256, and is exactly the cap 64 when len > 256 |
| RayCaster.StepSize | Assets/Scripts/RayCaster.cs:155 | for a positive ray length the step is positive and steps · quarterSampleCount · 4 is exactly the ray length |
| RayCaster.SetupRadianceMaps | Assets/Scripts/RayCaster.cs:140-170 | the rolling loop emits exactly layerCount descriptors, and descriptor i is the planned layer i: resolution (⌈w/2^i⌉, ⌈h/2^i⌉, 4^(i+1)), spacing 2^(i+1), offset and ray parameters of ray length base·4^i |
| RayCaster.HalvedIsCeilDiv | Assets/Scripts/RayCaster.cs:161-163 | repeated `(x + 1) / 2` i times is the ceiling of x / 2^i; it stays ≥ 1 once positive and is 0 only for 0 |
| RayCaster.RayLengthClosedForm | Assets/Scripts/RayCaster.cs:150-169 | the ray length of layer i is baseRayLength · 4^i |
| RayCaster.RayOffsetClosedForm | Assets/Scripts/RayCaster.cs:167-169 | the accumulated offset of layer i is the base offset plus (4^i − 1)/3 · baseRayLength |
| RayCaster.RayOffsetsIncrease | Assets/Scripts/RayCaster.cs:167 | with a positive base length, ray offsets strictly increase with the layer index |
| RayCaster.CoveringExponent | Assets/Scripts/RayCaster.cs:138 | the least n with (4^n)² ≥ d², that is, ceil(log_4 d) over integers |
| RayCaster.LayerCountFor | Assets/Scripts/RayCaster.cs:137-138 | defined exactly when the diagonal is nonzero; then the count is at least 1, 4^(count−1) reaches the diagonal, and 4^(count−2) falls short of it |
| RayCaster.CascadeCoversDiagonal | Assets/Scripts/RayCaster.cs:137-169 | with that count, a base offset ≥ 0 and a base length ≥ 1, the rays of the last layer reach past the lit scene's diagonal |
| RayCaster.FullHdAtHalfScale | Assets/Scripts/RayCaster.cs:137-166 | a 1920 x 1080 camera at renderScale 2 gives a 960 x 540 lit scene and 7 layers; the coarsest has 15 x 9 probes, depth 4^7 and spacing 128 |
| RayCaster.FrameShapeIsCascadeOrdered | Assets/Scripts/RayCaster.cs:179-181 | create-all, merge-down, finalize-map-0 implies the dependency order: every map is created before it is merged, each far map is folded before it is read as a near map, nothing repeats, and finalization comes last after every map has been traced and folded |
| TexturePacked.PaddedExtent | Assets/Scripts/RayCasterT2D.cs:54-57 | each footprint axis is a multiple of maxProbeSpacing, at least 2·litDim and below 2·litDim + maxProbeSpacing |
| TexturePacked.FootprintTilesEveryLayer | Assets/Scripts/RayCasterT2D.cs:52-57 | the footprint, padded to `MaxProbeSpacing(L)` = `1 << L` = 2^L (line 52), is a multiple of every planned layer's probe spacing 2^(i+1) on both axes |
| TexturePacked.FullHdFootprint | Assets/Scripts/RayCasterT2D.cs:52-57 | 7 layers over a 960 x 540 lit scene share a 1920 x 1152 footprint |
| TexturePacked.CreatePhaseAt | Assets/Scripts/RayCasterT2D.cs:88-99 | the create phase is exactly N dispatches, in map order 0 to N−1, each with its map's spacing, angular resolution, offset, step and sample count over the shared groups with depth 1 |
| TexturePacked.MergePhaseAt | Assets/Scripts/RayCasterT2D.cs:101-113 | the merge phase is exactly N−1 dispatches, with far i and near i−1 for i from N−1 down to 1, and none for one layer |
| TexturePacked.FrameSchedule | Assets/Scripts/RayCasterT2D.cs:88-122 | a frame is 2N dispatches: the creates, then the merges, then one finalize over the lit-scene groups |
| TexturePacked.FrameIsCascadeOrdered | Assets/Scripts/RayCasterT2D.cs:74-122 | a frame with finalization bound to map 0 has the frame shape and the cascade dependency order |
| TexturePacked.RayCasterT2D.constructor | Assets/Scripts/RayCaster.cs:80-116 | records the configuration, the lit-scene resolution and the finalization groups over it; nothing is bound or dispatched yet |
| TexturePacked.RayCasterT2D.SetupRadianceMaps | Assets/Scripts/RayCaster.cs:135-173 | setup succeeds exactly when the lit scene is not 0 x 0 (w² + h² > 0, so a 0 x 540 scene succeeds, as in the source); the layers are then the planned ones, in number LayerCountFor, and the maps are valid; on failure nothing changes |
| TexturePacked.RayCasterT2D.InitializeRadianceMaps | Assets/Scripts/RayCasterT2D.cs:48-76 | one fresh map per descriptor in order, over the padded footprint, copying spacing, angular resolution (= depth), offset, step and sample count; one group count for all; creation renderScale = renderScale/2; map 0 bound for finalization |
| TexturePacked.RayCasterT2D.CreateRadianceCascade | Assets/Scripts/RayCasterT2D.cs:88-99 | appends exactly the create phase to the log |
| TexturePacked.RayCasterT2D.MergeRadianceCascade | Assets/Scripts/RayCasterT2D.cs:101-113 | appends exactly the merge phase to the log |
| TexturePacked.RayCasterT2D.FinalizeRadiance | Assets/Scripts/RayCasterT2D.cs:115-122 | appends one finalize dispatch of the bound map over the lit-scene groups |
| TexturePacked.RayCasterT2D.OnRenderImage | Assets/Scripts/RayCaster.cs:175-184 | binds this frame's emitter scene, appends exactly one frame and keeps the maps valid; the appended frame is cascade-ordered |
| Volumetric.DetermineMaxLayerCount | Assets/Scripts/RayCasterT3D.cs:65-83 | returns k ≤ length such that every layer below k fits on all three axes, and layer k, if present, does not fit: only a suffix is dropped |
| Volumetric.KeptDepthBound | Assets/Scripts/RayCasterT3D.cs:65-83 | over planned layers, keeping k ≥ 1 layers means 4^k fits, so the cascade is at most log_4 of the hardware limit deep |
| Volumetric.CreatePhaseAt | Assets/Scripts/RayCasterT3D.cs:97-112 | the create phase is exactly k dispatches in map order, each with its map's scale, offset, step and sample count over that map's own groups |
| Volumetric.MergePhaseAt | Assets/Scripts/RayCasterT3D.cs:114-127 | the merge phase is exactly k−1 dispatches, with far i and near i−1 for i from k−1 down to 1, each over the near map's groups |
| Volumetric.FrameSchedule | Assets/Scripts/RayCasterT3D.cs:97-136 | a frame is 2k dispatches: the creates, then the merges, then one finalize |
| Volumetric.FrameIsCascadeOrdered | Assets/Scripts/RayCasterT3D.cs:62-136 | a frame with finalization bound to map 0 has the frame shape and the cascade dependency order |
| Volumetric.RayCasterT3D.constructor | Assets/Scripts/RayCaster.cs:80-116 | records the configuration, the lit-scene resolution and the finalization groups over it; nothing is bound or dispatched yet |
| Volumetric.RayCasterT3D.SetupRadianceMaps | Assets/Scripts/RayCaster.cs:135-173 | a 0 x 0 lit scene fails with nothing changed; otherwise the planned layers are built up to the first that does not fit, and setup succeeds exactly when layer 0 fits; on every failure the finalization binding is left as it was |
| Volumetric.RayCasterT3D.InitializeRadianceMaps | Assets/Scripts/RayCasterT3D.cs:42-63 | keeps the fitting prefix; map i has the layer's resolution, the ceiling-divided group count of that resolution, scale `Scale(renderScale, i)` = renderScale·2^i (`radianceScale *= 2`, lines 47 and 59) and the layer's ray parameters; binding map 0 succeeds exactly when a layer was kept |
| Volumetric.RayCasterT3D.CreateRadianceCascade | Assets/Scripts/RayCasterT3D.cs:97-112 | appends exactly the create phase to the log |
| Volumetric.RayCasterT3D.MergeRadianceCascade | Assets/Scripts/RayCasterT3D.cs:114-127 | appends exactly the merge phase to the log |
| Volumetric.RayCasterT3D.FinalizeRadiance | Assets/Scripts/RayCasterT3D.cs:129-136 | appends one finalize dispatch of the bound map over the lit-scene groups |
| Volumetric.RayCasterT3D.OnRenderImage | Assets/Scripts/RayCaster.cs:175-184 | binds this frame's emitter scene, appends exactly one frame and keeps the maps valid; the appended frame is cascade-ordered |

## Left out

- Unity plumbing is not modelled: `Start` as one call, the camera lookup, `Resources.Load`, `FindKernel`, texture creation and formats, `Graphics.Blit` and `Debug.Log`. A texture is represented by its size, and a binding by the index of the bound map.
- The bind of the lit scene to the finalization kernel (`RayCaster.cs:108`) is not modelled. It is set once and never changes.
- The creation, merging and finalization kernels are not modelled. They are GPU code outside the scripts, doing floating-point image work.
- `GetKernelThreadGroupSizes` and `SystemInfo.maxTexture3DSize` are foreign queries. They are configuration parameters here, and the thread-group sizes must be positive.
- LayerCountFor: the float diagonal and `Math.Log` are replaced by the exact integer condition. Float rounding is not modelled. The source rounds three times: when `Vector2Int.magnitude` converts the integer w² + h² to float, in the square root, and in `Math.Log`. Each of these can move the count by one whenever the diagonal is at or near a power of 4. For example, for a 4096 x 1 lit scene `(float)16777217` is 16777216, so the source's diagonal is exactly 4096 and the source plans 7 layers, where the model plans 8.
- IEEE single-precision rounding of ray offsets, ray lengths and step sizes is not modelled. They are `real` numbers.
- 32-bit overflow is not modelled: `1 << L` for L ≥ 31, `(int)Math.Ceiling` of a huge length, and `renderScale * 2^i`. All integers are unbounded. Layer counts stay far below the overflow point for any real screen.
- TexturePacked.RayCasterT2D.constructor, Volumetric.RayCasterT3D.constructor: require renderScale ≥ 1. The source divides by it and does not guard zero or negative values.
- TexturePacked.RayCasterT2D.constructor, Volumetric.RayCasterT3D.constructor: require baseRayLength > 0, excluding zero and negative lengths. With a zero length the source divides 0 by 0 in float and gets a NaN step size, without an exception. With a negative length it quietly gets a negative sample count, for example q = −2 and step 1 at −8.
- TexturePacked.RayCasterT2D.InitializeRadianceMaps: requires at least one descriptor. The planner always supplies one, and with none the source throws when binding map 0.
- Volumetric.RayCasterT3D.InitializeRadianceMaps: when no layer fits, the source throws IndexOutOfRange at `m_radianceMaps[0]` (RayCasterT3D.cs:62), after assigning the empty map array. The model instead returns `ok == false`, keeps the empty array and leaves the finalization binding unchanged.
- TexturePacked.RayCasterT2D.OnRenderImage, Volumetric.RayCasterT3D.OnRenderImage: frames after a failed setup are not modelled, because both require a completed setup.
- The 2D merge dispatch uses the creation kernel's group count, as the source does. The merging kernel's own thread-group size is never queried.
- The UI scripts (colour changer, oscillator, mouse mover, rotator) are outside the core. They are per-frame transform and colour updates driven by time and input.
