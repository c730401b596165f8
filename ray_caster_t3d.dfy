/** The volumetric layout (Assets/Scripts/RayCasterT3D.cs): every layer gets its own 3D
    texture of exactly its planned resolution, so the hardware's largest 3D extent cuts
    the cascade short at the first layer that does not fit. */
module Volumetric {
  import opened RayCaster

  /** One layer: its texture (modelled by its size), its own group count and the uniforms
      its creation dispatch reads. */
  datatype RadianceMap = RadianceMap(
    textureRes: Vec3,
    threadGroupCount: Vec3,
    scale: int,
    rayOffset: real,
    stepSize: real,
    quarterSampleCount: int)

  /** A layer fits when no axis exceeds the largest 3D texture extent. */
  predicate FitsTexture3D(info: RadianceLayerInfo, maxTexture3DSize: int)
  {
    info.resolution.x <= maxTexture3DSize && info.resolution.y <= maxTexture3DSize && info.resolution.z <= maxTexture3DSize
  }

  /** k layers are kept: all of them fit, and if any layer is dropped, layer k does not fit. */
  predicate KeepsPrefix(layerInfos: seq<RadianceLayerInfo>, maxTexture3DSize: int, k: nat)
  {
    k <= |layerInfos|
    && (forall i :: 0 <= i < k ==> FitsTexture3D(layerInfos[i], maxTexture3DSize))
    && (k < |layerInfos| ==> !FitsTexture3D(layerInfos[k], maxTexture3DSize))
  }

  /** determineMaxLayerCount: the length of the longest prefix of layers that fit. */
  method DetermineMaxLayerCount(layerInfos: seq<RadianceLayerInfo>, maxTexture3DSize: int) returns (layerCount: nat)
    ensures layerCount <= |layerInfos|
    ensures forall i :: 0 <= i < layerCount ==> FitsTexture3D(layerInfos[i], maxTexture3DSize)
    ensures layerCount < |layerInfos| ==> !FitsTexture3D(layerInfos[layerCount], maxTexture3DSize)
  {
    layerCount := 0;
    while layerCount != |layerInfos|
      invariant layerCount <= |layerInfos|
      invariant forall i :: 0 <= i < layerCount ==> FitsTexture3D(layerInfos[i], maxTexture3DSize)
    {
      var info := layerInfos[layerCount];
      if info.resolution.x > maxTexture3DSize
        || info.resolution.y > maxTexture3DSize
        || info.resolution.z > maxTexture3DSize
      {
        break;
      }
      layerCount := layerCount + 1;
    }
  }

  /** Over planned layers the depth axis is 4^(i+1), so keeping k >= 1 layers means
      4^k fits the hardware limit: the cascade is at most log_4 of that limit deep. */
  lemma KeptDepthBound(w: nat, h: nat, baseRayOffset: real, baseRayLength: real, layerInfos: seq<RadianceLayerInfo>, maxTexture3DSize: int, k: nat)
    requires baseRayLength > 0.0
    requires forall i :: 0 <= i < |layerInfos| ==> layerInfos[i] == PlannedLayer(w, h, baseRayOffset, baseRayLength, i)
    requires KeepsPrefix(layerInfos, maxTexture3DSize, k) && k >= 1
    ensures Pow4(k) <= maxTexture3DSize
  {
    assert FitsTexture3D(layerInfos[k - 1], maxTexture3DSize);
    assert layerInfos[k - 1].resolution.z == Pow4(k);
  }

  /** The map built for layer i: its own resolution and group count, the scale
      renderScale * 2^i, and the descriptor's ray parameters. */
  function MapFor(info: RadianceLayerInfo, scale: int, creationThreads: Vec3): RadianceMap
    requires Positive(creationThreads)
  {
    RadianceMap(info.resolution, CalcWorkingGroupSize(info.resolution, creationThreads),
                scale, info.rayOffset, info.stepSize, info.quarterSampleCount)
  }

  /** The scale doubles from layer to layer. */
  function Scale(renderScale: int, i: nat): (s: int)
  {
    renderScale * Pow2(i)
  }

  // ---------------------------------------------------------------------------
  // The dispatches of one frame

  /** The creation dispatch of map k, over the map's own group count. */
  function CreateEvent(maps: seq<RadianceMap>, k: nat, emitterScene: nat): Dispatch
    requires k < |maps|
  {
    Create(emitterScene, k,
           VolumetricCreate(maps[k].scale, maps[k].rayOffset, maps[k].stepSize, maps[k].quarterSampleCount),
           maps[k].threadGroupCount)
  }

  /** What the creation loop has issued after visiting maps 0 .. n-1. */
  function CreatePhase(maps: seq<RadianceMap>, n: nat, emitterScene: nat): seq<Dispatch>
    requires n <= |maps|
  {
    if n == 0 then [] else CreatePhase(maps, n - 1, emitterScene) + [CreateEvent(maps, n - 1, emitterScene)]
  }

  /** The merging dispatch that folds map far into map far - 1, over the near map's group count. */
  function MergeEvent(maps: seq<RadianceMap>, far: nat): Dispatch
    requires 1 <= far < |maps|
  {
    Merge(far, far - 1, VolumetricMerge, maps[far - 1].threadGroupCount)
  }

  /** What the merging loop has issued after visiting far = |maps| - 1 down to lo. */
  function MergePhase(maps: seq<RadianceMap>, lo: nat): seq<Dispatch>
    requires lo >= 1
    decreases |maps| - lo
  {
    if lo >= |maps| then [] else MergePhase(maps, lo + 1) + [MergeEvent(maps, lo)]
  }

  /** One call of OnRenderImage: create, merge, finalize. */
  function Frame(maps: seq<RadianceMap>, emitterScene: nat, finalMap: nat, finalGroups: Vec3): seq<Dispatch>
  {
    CreatePhase(maps, |maps|, emitterScene) + MergePhase(maps, 1) + [Finalize(finalMap, finalGroups)]
  }

  /** The creation loop visits maps 0, 1, ..., n-1, each with its own uniforms and groups. */
  lemma {:induction false} CreatePhaseAt(maps: seq<RadianceMap>, n: nat, emitterScene: nat)
    requires n <= |maps|
    ensures |CreatePhase(maps, n, emitterScene)| == n
    ensures forall k :: 0 <= k < n ==> CreatePhase(maps, n, emitterScene)[k] == CreateEvent(maps, k, emitterScene)
  {
    if n > 0 {
      CreatePhaseAt(maps, n - 1, emitterScene);
    }
  }

  /** The merging loop visits the pairs (far, far - 1) for far = |maps| - 1 down to lo. */
  lemma {:induction false} MergePhaseAt(maps: seq<RadianceMap>, lo: nat)
    requires 1 <= lo <= |maps|
    ensures |MergePhase(maps, lo)| == |maps| - lo
    ensures forall k :: 0 <= k < |maps| - lo ==> MergePhase(maps, lo)[k] == MergeEvent(maps, |maps| - 1 - k)
    decreases |maps| - lo
  {
    if lo < |maps| {
      MergePhaseAt(maps, lo + 1);
    }
  }

  /** One frame over n >= 1 maps: exactly n creations (map k at position k), then exactly
      n - 1 merges (the pair (2n-1-k, 2n-2-k) at position k, over the near map's groups),
      then one finalization. */
  lemma FrameSchedule(maps: seq<RadianceMap>, emitterScene: nat, finalMap: nat, finalGroups: Vec3)
    requires |maps| >= 1
    ensures var frame := Frame(maps, emitterScene, finalMap, finalGroups);
            |frame| == 2 * |maps|
            && (forall k :: 0 <= k < |maps| ==> frame[k] == CreateEvent(maps, k, emitterScene))
            && (forall k :: |maps| <= k < 2 * |maps| - 1 ==> frame[k] == MergeEvent(maps, 2 * |maps| - 1 - k))
            && frame[2 * |maps| - 1] == Finalize(finalMap, finalGroups)
  {
    var n := |maps|;
    var merges := MergePhase(maps, 1);
    var frame := Frame(maps, emitterScene, finalMap, finalGroups);
    CreatePhaseAt(maps, n, emitterScene);
    MergePhaseAt(maps, 1);
    forall k | n <= k < 2 * n - 1
      ensures frame[k] == MergeEvent(maps, 2 * n - 1 - k)
    {
      assert frame[k] == merges[k - n];
    }
  }

  /** With map 0 bound for finalization, every frame satisfies the cascade's dependency order. */
  lemma FrameIsCascadeOrdered(maps: seq<RadianceMap>, emitterScene: nat, finalGroups: Vec3)
    requires |maps| >= 1
    ensures FrameShape(Frame(maps, emitterScene, 0, finalGroups), |maps|)
    ensures CascadeOrdered(Frame(maps, emitterScene, 0, finalGroups), |maps|)
  {
    FrameSchedule(maps, emitterScene, 0, finalGroups);
    FrameShapeIsCascadeOrdered(Frame(maps, emitterScene, 0, finalGroups), |maps|);
  }

  // ---------------------------------------------------------------------------
  // The component

  /** RayCasterT3D with the state of its base class; the hardware's largest 3D texture
      extent is configuration. */
  class RayCasterT3D {
    const renderScale: nat
    const baseRayOffset: real
    const baseRayLength: real
    const creationThreads: Vec3
    const finalizationThreads: Vec3
    const maxTexture3DSize: int

    var litSceneRes: Vec2
    var finalizationThreadGroupCount: Vec3
    var radianceMaps: array<RadianceMap>
    /** The map bound to the finalization kernel's radianceMap, if any. */
    var finalizationRadianceMap: Option<nat>
    /** The creation kernel's emitterScene binding. */
    var emitterScene: nat
    var dispatches: seq<Dispatch>

    /** The descriptors the maps were built from, kept or not. */
    ghost var layerInfos: seq<RadianceLayerInfo>

    /** What Start's first two steps establish. */
    ghost predicate Configured()
      reads this
    {
      renderScale >= 1 && baseRayLength > 0.0
      && Positive(creationThreads) && Positive(finalizationThreads)
      && finalizationThreadGroupCount == CalcWorkingGroupSize(Vec3(litSceneRes.x, litSceneRes.y, 1), finalizationThreads)
    }

    /** The maps mirror the kept prefix of the descriptors. */
    ghost predicate MapsBuilt()
      reads this, radianceMaps
    {
      Configured()
      && KeepsPrefix(layerInfos, maxTexture3DSize, radianceMaps.Length)
      && (forall i :: 0 <= i < radianceMaps.Length ==>
            radianceMaps[i] == MapFor(layerInfos[i], Scale(renderScale, i), creationThreads))
    }

    /** A successful setup: at least one layer kept and map 0 bound for finalization. */
    ghost predicate Valid()
      reads this, radianceMaps
    {
      MapsBuilt() && radianceMaps.Length >= 1 && finalizationRadianceMap == Some(0)
    }

    /** Start's SetupRenderTexture and LoadShaders. */
    constructor (pixelWidth: nat, pixelHeight: nat, renderScale: nat, baseRayOffset: real, baseRayLength: real,
                 creationThreads: Vec3, finalizationThreads: Vec3, maxTexture3DSize: int)
      requires renderScale >= 1 && baseRayLength > 0.0
      requires Positive(creationThreads) && Positive(finalizationThreads)
      ensures Configured()
      ensures this.renderScale == renderScale && this.baseRayOffset == baseRayOffset && this.baseRayLength == baseRayLength
      ensures this.creationThreads == creationThreads && this.finalizationThreads == finalizationThreads
      ensures this.maxTexture3DSize == maxTexture3DSize
      ensures litSceneRes == LitSceneResolution(pixelWidth, pixelHeight, renderScale)
      ensures finalizationRadianceMap == None && dispatches == []
    {
      this.renderScale := renderScale;
      this.baseRayOffset := baseRayOffset;
      this.baseRayLength := baseRayLength;
      this.creationThreads := creationThreads;
      this.finalizationThreads := finalizationThreads;
      this.maxTexture3DSize := maxTexture3DSize;
      var res := LitSceneResolution(pixelWidth, pixelHeight, renderScale);
      litSceneRes := res;
      finalizationThreadGroupCount := CalcWorkingGroupSize(Vec3(res.x, res.y, 1), finalizationThreads);
      radianceMaps := new RadianceMap[0];
      finalizationRadianceMap := None;
      emitterScene := 0;
      dispatches := [];
      layerInfos := [];
    }

    /** Start's SetupRadianceMaps: plan the layers for the lit scene and build the maps
        that fit. Setup fails for a lit scene of zero size, and when not even layer 0 fits. */
    method SetupRadianceMaps() returns (ok: bool)
      requires Configured()
      modifies this
      ensures Configured()
      ensures litSceneRes == old(litSceneRes) && finalizationThreadGroupCount == old(finalizationThreadGroupCount)
      ensures dispatches == old(dispatches) && emitterScene == old(emitterScene)
      ensures old(LayerCountFor(litSceneRes.x, litSceneRes.y)).None? ==> !ok && unchanged(this)
      ensures old(LayerCountFor(litSceneRes.x, litSceneRes.y)).Some? ==>
        && MapsBuilt() && fresh(radianceMaps)
        && Some(|layerInfos|) == LayerCountFor(litSceneRes.x, litSceneRes.y)
        && (forall i :: 0 <= i < |layerInfos| ==>
              layerInfos[i] == PlannedLayer(litSceneRes.x, litSceneRes.y, baseRayOffset, baseRayLength, i))
        && (ok <==> FitsTexture3D(layerInfos[0], maxTexture3DSize))
      ensures ok ==> Valid()
      ensures !ok ==> finalizationRadianceMap == old(finalizationRadianceMap)
    {
      var layerCount := LayerCountFor(litSceneRes.x, litSceneRes.y);
      if layerCount.None? {
        return false;
      }
      var infos := RayCaster.SetupRadianceMaps(litSceneRes.x, litSceneRes.y, layerCount.value, baseRayOffset, baseRayLength);
      ok := InitializeRadianceMaps(infos);
    }

    /** InitializeRadianceMaps: keep the prefix of layers that fit, build one map per kept
        layer with its own group count and a scale that doubles per layer, then bind map 0
        for finalization; with no layer kept that binding fails. */
    method InitializeRadianceMaps(infos: seq<RadianceLayerInfo>) returns (ok: bool)
      requires Configured()
      modifies this
      ensures MapsBuilt() && fresh(radianceMaps) && layerInfos == infos
      ensures ok <==> radianceMaps.Length >= 1
      ensures ok ==> finalizationRadianceMap == Some(0)
      ensures !ok ==> finalizationRadianceMap == old(finalizationRadianceMap)
      ensures litSceneRes == old(litSceneRes) && finalizationThreadGroupCount == old(finalizationThreadGroupCount)
      ensures dispatches == old(dispatches) && emitterScene == old(emitterScene)
    {
      layerInfos := infos;
      var layerCount := DetermineMaxLayerCount(infos, maxTexture3DSize);
      var maps := new RadianceMap[layerCount];
      var radianceScale: int := renderScale;
      var i := 0;
      while i != maps.Length
        modifies maps
        invariant 0 <= i <= maps.Length
        invariant radianceScale == Scale(renderScale, i)
        invariant forall j :: 0 <= j < i ==> maps[j] == MapFor(infos[j], Scale(renderScale, j), creationThreads)
      {
        var info := infos[i];
        maps[i] := RadianceMap(info.resolution, CalcWorkingGroupSize(info.resolution, creationThreads),
                               radianceScale, info.rayOffset, info.stepSize, info.quarterSampleCount);
        radianceScale := radianceScale * 2;
        i := i + 1;
      }
      radianceMaps := maps;
      if maps.Length == 0 {
        return false;
      }
      finalizationRadianceMap := Some(0);
      ok := true;
    }

    /** CreateRadianceCascade: one creation dispatch per map, map 0 first, each over its own groups. */
    method CreateRadianceCascade()
      requires Valid()
      modifies this`dispatches
      ensures dispatches == old(dispatches) + CreatePhase(radianceMaps[..], radianceMaps.Length, emitterScene)
    {
      var i := 0;
      while i != radianceMaps.Length
        invariant 0 <= i <= radianceMaps.Length
        invariant dispatches == old(dispatches) + CreatePhase(radianceMaps[..], i, emitterScene)
      {
        var radianceMap := radianceMaps[i];
        dispatches := dispatches + [Create(emitterScene, i,
          VolumetricCreate(radianceMap.scale, radianceMap.rayOffset, radianceMap.stepSize, radianceMap.quarterSampleCount),
          radianceMap.threadGroupCount)];
        i := i + 1;
      }
    }

    /** MergeRadianceCascade: fold map i into map i - 1 for i from the farthest down to 1,
        each over the near map's groups. */
    method MergeRadianceCascade()
      requires Valid()
      modifies this`dispatches
      ensures dispatches == old(dispatches) + MergePhase(radianceMaps[..], 1)
    {
      var i := radianceMaps.Length - 1;
      while i > 0
        invariant 0 <= i < radianceMaps.Length
        invariant dispatches == old(dispatches) + MergePhase(radianceMaps[..], i + 1)
      {
        var nearRadianceMap := radianceMaps[i - 1];
        dispatches := dispatches + [Merge(i, i - 1, VolumetricMerge, nearRadianceMap.threadGroupCount)];
        i := i - 1;
      }
    }

    /** FinalizeRadiance: one finalization dispatch over the lit scene. */
    method FinalizeRadiance()
      requires finalizationRadianceMap.Some?
      modifies this`dispatches
      ensures dispatches == old(dispatches) + [Finalize(finalizationRadianceMap.value, finalizationThreadGroupCount)]
    {
      dispatches := dispatches + [Finalize(finalizationRadianceMap.value, finalizationThreadGroupCount)];
    }

    /** OnRenderImage: bind this frame's source, then create, merge and finalize. */
    method OnRenderImage(src: nat)
      requires Valid()
      modifies this`dispatches, this`emitterScene
      ensures Valid() && emitterScene == src
      ensures dispatches == old(dispatches) + Frame(radianceMaps[..], src, 0, finalizationThreadGroupCount)
      ensures CascadeOrdered(dispatches[|old(dispatches)|..], radianceMaps.Length)
    {
      emitterScene := src;
      ghost var before := dispatches;
      CreateRadianceCascade();
      MergeRadianceCascade();
      FinalizeRadiance();
      ghost var frame := Frame(radianceMaps[..], src, 0, finalizationThreadGroupCount);
      assert dispatches == before + frame;
      assert dispatches[|before|..] == frame;
      FrameIsCascadeOrdered(radianceMaps[..], src, finalizationThreadGroupCount);
    }
  }
}
