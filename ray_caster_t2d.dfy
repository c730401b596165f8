/** The texture-packed layout (Assets/Scripts/RayCasterT2D.cs): every layer packs its
    angular samples around its probes inside one shared, padded 2D footprint. */
module TexturePacked {
  import opened RayCaster

  /** One layer: its texture (modelled by its size) and the uniforms its kernels read. */
  datatype RadianceMap = RadianceMap(
    textureRes: Vec2,
    probeSpacing: nat,
    angularRes: nat,
    rayOffset: real,
    stepSize: real,
    quarterSampleCount: int)

  /** 1 << layerCount: the probe spacing one past the coarsest layer. */
  function MaxProbeSpacing(layerCount: nat): nat
  {
    Pow2(layerCount)
  }

  /** One axis of the shared footprint: (2 * litDim + m - 1) / m * m, twice the lit-scene
      axis rounded up to a multiple of the maximum probe spacing m. */
  function PaddedExtent(litDim: nat, maxProbeSpacing: nat): (r: nat)
    requires maxProbeSpacing >= 1
    ensures r % maxProbeSpacing == 0
    ensures 2 * litDim <= r < 2 * litDim + maxProbeSpacing
  {
    var g := GroupsFor(litDim * 2, maxProbeSpacing);
    MulMod(g, maxProbeSpacing);
    g * maxProbeSpacing
  }

  /** The size every layer's texture shares. */
  function RadianceMapRes(litSceneRes: Vec2, layerCount: nat): Vec2
  {
    Vec2(PaddedExtent(litSceneRes.x, MaxProbeSpacing(layerCount)),
         PaddedExtent(litSceneRes.y, MaxProbeSpacing(layerCount)))
  }

  /** The map built from one layer descriptor over the shared footprint. */
  function MapFor(info: RadianceLayerInfo, res: Vec2): RadianceMap
  {
    RadianceMap(res, info.probeSpacing, info.resolution.z, info.rayOffset, info.stepSize, info.quarterSampleCount)
  }

  /** Each planned layer's probe grid tiles the footprint exactly: every axis is a multiple
      of every layer's probe spacing. */
  lemma {:induction false} FootprintTilesEveryLayer(litSceneRes: Vec2, layerCount: nat, baseRayOffset: real, baseRayLength: real, i: nat)
    requires baseRayLength > 0.0 && i < layerCount
    ensures var spacing := PlannedLayer(litSceneRes.x, litSceneRes.y, baseRayOffset, baseRayLength, i).probeSpacing;
            RadianceMapRes(litSceneRes, layerCount).x % spacing == 0
            && RadianceMapRes(litSceneRes, layerCount).y % spacing == 0
  {
    var spacing := Pow2(i + 1);
    var m := MaxProbeSpacing(layerCount);
    var k := Pow2Split(i + 1, layerCount - (i + 1));
    var res := RadianceMapRes(litSceneRes, layerCount);
    MultipleOfMultiple(res.x, m, spacing, k);
    MultipleOfMultiple(res.y, m, spacing, k);
  }

  lemma {:induction false} Pow2Split(a: nat, b: nat) returns (k: nat)
    ensures Pow2(a + b) == Pow2(a) * k
  {
    if b == 0 {
      k := 1;
    } else {
      var k' := Pow2Split(a, b - 1);
      k := 2 * k';
      assert Pow2(a + b) == 2 * Pow2(a + b - 1);
    }
  }

  lemma MultipleOfMultiple(r: nat, m: nat, d: nat, k: nat)
    requires d >= 1 && m == d * k && m >= 1 && r % m == 0
    ensures r % d == 0
  {
    var c := r / m;
    assert r == c * m;
    assert c * m == (c * k) * d;
    MulMod(c * k, d);
  }

  /** A 1920 x 1080 camera at renderScale 2 plans seven layers, so the maximum probe
      spacing is 128 and the shared footprint is 1920 x 1152. */
  lemma FullHdFootprint()
    ensures RadianceMapRes(Vec2(960, 540), 7) == Vec2(1920, 1152)
  {
  }

  // ---------------------------------------------------------------------------
  // The dispatches of one frame

  /** The creation dispatch of map k: its own uniforms, over the shared group count. */
  function CreateEvent(maps: seq<RadianceMap>, k: nat, emitterScene: nat, groups: Vec3): Dispatch
    requires k < |maps|
  {
    Create(emitterScene, k,
           PackedCreate(maps[k].probeSpacing, maps[k].angularRes, maps[k].rayOffset, maps[k].stepSize, maps[k].quarterSampleCount),
           Vec3(groups.x, groups.y, 1))
  }

  /** What the creation loop has issued after visiting maps 0 .. n-1. */
  function CreatePhase(maps: seq<RadianceMap>, n: nat, emitterScene: nat, groups: Vec3): seq<Dispatch>
    requires n <= |maps|
  {
    if n == 0 then [] else CreatePhase(maps, n - 1, emitterScene, groups) + [CreateEvent(maps, n - 1, emitterScene, groups)]
  }

  /** The merging dispatch that folds map far into map far - 1. */
  function MergeEvent(maps: seq<RadianceMap>, far: nat, groups: Vec3): Dispatch
    requires 1 <= far < |maps|
  {
    Merge(far, far - 1,
          PackedMerge(maps[far].probeSpacing, maps[far - 1].probeSpacing, maps[far].angularRes, maps[far - 1].angularRes),
          groups)
  }

  /** What the merging loop has issued after visiting far = |maps| - 1 down to lo. */
  function MergePhase(maps: seq<RadianceMap>, lo: nat, groups: Vec3): seq<Dispatch>
    requires lo >= 1
    decreases |maps| - lo
  {
    if lo >= |maps| then [] else MergePhase(maps, lo + 1, groups) + [MergeEvent(maps, lo, groups)]
  }

  /** One call of OnRenderImage: create, merge, finalize. */
  function Frame(maps: seq<RadianceMap>, emitterScene: nat, groups: Vec3, finalMap: nat, finalGroups: Vec3): seq<Dispatch>
  {
    CreatePhase(maps, |maps|, emitterScene, groups) + MergePhase(maps, 1, groups) + [Finalize(finalMap, finalGroups)]
  }

  /** The creation loop visits maps 0, 1, ..., n-1, each with its own uniforms. */
  lemma {:induction false} CreatePhaseAt(maps: seq<RadianceMap>, n: nat, emitterScene: nat, groups: Vec3)
    requires n <= |maps|
    ensures |CreatePhase(maps, n, emitterScene, groups)| == n
    ensures forall k :: 0 <= k < n ==> CreatePhase(maps, n, emitterScene, groups)[k] == CreateEvent(maps, k, emitterScene, groups)
  {
    if n > 0 {
      CreatePhaseAt(maps, n - 1, emitterScene, groups);
    }
  }

  /** The merging loop visits the pairs (far, far - 1) for far = |maps| - 1 down to lo. */
  lemma {:induction false} MergePhaseAt(maps: seq<RadianceMap>, lo: nat, groups: Vec3)
    requires 1 <= lo <= |maps|
    ensures |MergePhase(maps, lo, groups)| == |maps| - lo
    ensures forall k :: 0 <= k < |maps| - lo ==> MergePhase(maps, lo, groups)[k] == MergeEvent(maps, |maps| - 1 - k, groups)
    decreases |maps| - lo
  {
    if lo < |maps| {
      MergePhaseAt(maps, lo + 1, groups);
    }
  }

  /** One frame over n >= 1 maps: exactly n creations (map k at position k, with its own
      uniforms), then exactly n - 1 merges (the pair (2n-1-k, 2n-2-k) at position k), then
      one finalization. */
  lemma FrameSchedule(maps: seq<RadianceMap>, emitterScene: nat, groups: Vec3, finalMap: nat, finalGroups: Vec3)
    requires |maps| >= 1
    ensures var frame := Frame(maps, emitterScene, groups, finalMap, finalGroups);
            |frame| == 2 * |maps|
            && (forall k :: 0 <= k < |maps| ==> frame[k] == CreateEvent(maps, k, emitterScene, groups))
            && (forall k :: |maps| <= k < 2 * |maps| - 1 ==> frame[k] == MergeEvent(maps, 2 * |maps| - 1 - k, groups))
            && frame[2 * |maps| - 1] == Finalize(finalMap, finalGroups)
  {
    var n := |maps|;
    var creates := CreatePhase(maps, n, emitterScene, groups);
    var merges := MergePhase(maps, 1, groups);
    var frame := Frame(maps, emitterScene, groups, finalMap, finalGroups);
    CreatePhaseAt(maps, n, emitterScene, groups);
    MergePhaseAt(maps, 1, groups);
    forall k | n <= k < 2 * n - 1
      ensures frame[k] == MergeEvent(maps, 2 * n - 1 - k, groups)
    {
      assert frame[k] == merges[k - n];
    }
  }

  /** With map 0 bound for finalization, every frame satisfies the cascade's dependency order. */
  lemma FrameIsCascadeOrdered(maps: seq<RadianceMap>, emitterScene: nat, groups: Vec3, finalGroups: Vec3)
    requires |maps| >= 1
    ensures FrameShape(Frame(maps, emitterScene, groups, 0, finalGroups), |maps|)
    ensures CascadeOrdered(Frame(maps, emitterScene, groups, 0, finalGroups), |maps|)
  {
    FrameSchedule(maps, emitterScene, groups, 0, finalGroups);
    FrameShapeIsCascadeOrdered(Frame(maps, emitterScene, groups, 0, finalGroups), |maps|);
  }

  // ---------------------------------------------------------------------------
  // The component

  /** RayCasterT2D with the state of its base class. Kernels are not loaded objects here:
      their declared thread-group sizes are configuration, and shader calls are recorded
      in dispatches together with what each dispatch reads. */
  class RayCasterT2D {
    const renderScale: nat
    const baseRayOffset: real
    const baseRayLength: real
    const creationThreads: Vec3
    const finalizationThreads: Vec3

    var litSceneRes: Vec2
    var finalizationThreadGroupCount: Vec3
    var radianceGroupCount: Vec3
    var radianceMaps: array<RadianceMap>
    /** The creation kernel's renderScale uniform. */
    var creationRenderScale: int
    /** The map bound to the finalization kernel's radianceMap, if any. */
    var finalizationRadianceMap: Option<nat>
    /** The creation kernel's emitterScene binding. */
    var emitterScene: nat
    var dispatches: seq<Dispatch>

    /** The descriptors the maps were built from. */
    ghost var layerInfos: seq<RadianceLayerInfo>

    /** What Start's first two steps establish. */
    ghost predicate Configured()
      reads this
    {
      renderScale >= 1 && baseRayLength > 0.0
      && Positive(creationThreads) && Positive(finalizationThreads)
      && finalizationThreadGroupCount == CalcWorkingGroupSize(Vec3(litSceneRes.x, litSceneRes.y, 1), finalizationThreads)
    }

    /** The footprint all maps share. */
    ghost function Footprint(): Vec2
      reads this
    {
      RadianceMapRes(litSceneRes, |layerInfos|)
    }

    /** The maps mirror the descriptors, all over one footprint and one group count. */
    ghost predicate Valid()
      reads this, radianceMaps
    {
      Configured()
      && 1 <= |layerInfos| == radianceMaps.Length
      && (forall i :: 0 <= i < radianceMaps.Length ==> radianceMaps[i] == MapFor(layerInfos[i], Footprint()))
      && radianceGroupCount == CalcWorkingGroupSize(Vec3(Footprint().x, Footprint().y, 1), creationThreads)
      && creationRenderScale == renderScale / 2
      && finalizationRadianceMap == Some(0)
    }

    /** Start's SetupRenderTexture and LoadShaders: the lit-scene size and the
        finalization kernel's group count over it. */
    constructor (pixelWidth: nat, pixelHeight: nat, renderScale: nat, baseRayOffset: real, baseRayLength: real,
                 creationThreads: Vec3, finalizationThreads: Vec3)
      requires renderScale >= 1 && baseRayLength > 0.0
      requires Positive(creationThreads) && Positive(finalizationThreads)
      ensures Configured()
      ensures this.renderScale == renderScale && this.baseRayOffset == baseRayOffset && this.baseRayLength == baseRayLength
      ensures this.creationThreads == creationThreads && this.finalizationThreads == finalizationThreads
      ensures litSceneRes == LitSceneResolution(pixelWidth, pixelHeight, renderScale)
      ensures finalizationRadianceMap == None && dispatches == []
    {
      this.renderScale := renderScale;
      this.baseRayOffset := baseRayOffset;
      this.baseRayLength := baseRayLength;
      this.creationThreads := creationThreads;
      this.finalizationThreads := finalizationThreads;
      var res := LitSceneResolution(pixelWidth, pixelHeight, renderScale);
      litSceneRes := res;
      finalizationThreadGroupCount := CalcWorkingGroupSize(Vec3(res.x, res.y, 1), finalizationThreads);
      radianceGroupCount := Vec3(0, 0, 0);
      radianceMaps := new RadianceMap[0];
      creationRenderScale := 0;
      finalizationRadianceMap := None;
      emitterScene := 0;
      dispatches := [];
      layerInfos := [];
    }

    /** Start's SetupRadianceMaps: plan the layers for the lit scene and build the maps.
        A lit scene of zero size has no layer count and setup fails. */
    method SetupRadianceMaps() returns (ok: bool)
      requires Configured()
      modifies this
      ensures ok <==> litSceneRes.x * litSceneRes.x + litSceneRes.y * litSceneRes.y > 0
      ensures ok ==> Valid() && fresh(radianceMaps)
      ensures ok ==> LayerCountFor(litSceneRes.x, litSceneRes.y) == Some(|layerInfos|)
      ensures ok ==> forall i :: 0 <= i < |layerInfos| ==>
        layerInfos[i] == PlannedLayer(litSceneRes.x, litSceneRes.y, baseRayOffset, baseRayLength, i)
      ensures !ok ==> unchanged(this)
      ensures litSceneRes == old(litSceneRes) && finalizationThreadGroupCount == old(finalizationThreadGroupCount)
      ensures dispatches == old(dispatches) && emitterScene == old(emitterScene)
    {
      var layerCount := LayerCountFor(litSceneRes.x, litSceneRes.y);
      if layerCount.None? {
        return false;
      }
      var infos := RayCaster.SetupRadianceMaps(litSceneRes.x, litSceneRes.y, layerCount.value, baseRayOffset, baseRayLength);
      InitializeRadianceMaps(infos);
      ok := true;
    }

    /** InitializeRadianceMaps: one map per descriptor, in order, over the shared padded
        footprint; one group count for all; the creation kernel's renderScale is
        renderScale / 2; map 0 is bound for finalization. */
    method InitializeRadianceMaps(infos: seq<RadianceLayerInfo>)
      requires Configured() && |infos| >= 1
      modifies this
      ensures Valid() && fresh(radianceMaps)
      ensures layerInfos == infos
      ensures litSceneRes == old(litSceneRes) && finalizationThreadGroupCount == old(finalizationThreadGroupCount)
      ensures dispatches == old(dispatches) && emitterScene == old(emitterScene)
    {
      layerInfos := infos;
      var maps := new RadianceMap[|infos|];
      var maxProbeSpacing := MaxProbeSpacing(|infos|);
      var radianceMapRes := Vec2(
        (litSceneRes.x * 2 + maxProbeSpacing - 1) / maxProbeSpacing * maxProbeSpacing,
        (litSceneRes.y * 2 + maxProbeSpacing - 1) / maxProbeSpacing * maxProbeSpacing);
      assert radianceMapRes == RadianceMapRes(litSceneRes, |infos|);
      radianceGroupCount := CalcWorkingGroupSize(Vec3(radianceMapRes.x, radianceMapRes.y, 1), creationThreads);
      var i := 0;
      while i != |infos|
        modifies maps
        invariant 0 <= i <= |infos|
        invariant forall j :: 0 <= j < i ==> maps[j] == MapFor(infos[j], radianceMapRes)
      {
        var info := infos[i];
        maps[i] := RadianceMap(radianceMapRes, info.probeSpacing, info.resolution.z, info.rayOffset, info.stepSize, info.quarterSampleCount);
        i := i + 1;
      }
      radianceMaps := maps;
      creationRenderScale := renderScale / 2;
      finalizationRadianceMap := Some(0);
    }

    /** CreateRadianceCascade: one creation dispatch per map, map 0 first. */
    method CreateRadianceCascade()
      requires Valid()
      modifies this`dispatches
      ensures dispatches == old(dispatches) + CreatePhase(radianceMaps[..], radianceMaps.Length, emitterScene, radianceGroupCount)
    {
      var i := 0;
      while i != radianceMaps.Length
        invariant 0 <= i <= radianceMaps.Length
        invariant dispatches == old(dispatches) + CreatePhase(radianceMaps[..], i, emitterScene, radianceGroupCount)
      {
        var radianceMap := radianceMaps[i];
        dispatches := dispatches + [Create(emitterScene, i,
          PackedCreate(radianceMap.probeSpacing, radianceMap.angularRes, radianceMap.rayOffset, radianceMap.stepSize, radianceMap.quarterSampleCount),
          Vec3(radianceGroupCount.x, radianceGroupCount.y, 1))];
        i := i + 1;
      }
    }

    /** MergeRadianceCascade: fold map i into map i - 1 for i from the farthest down to 1. */
    method MergeRadianceCascade()
      requires Valid()
      modifies this`dispatches
      ensures dispatches == old(dispatches) + MergePhase(radianceMaps[..], 1, radianceGroupCount)
    {
      var i := radianceMaps.Length - 1;
      while i > 0
        invariant 0 <= i < radianceMaps.Length
        invariant dispatches == old(dispatches) + MergePhase(radianceMaps[..], i + 1, radianceGroupCount)
      {
        var farRadianceMap := radianceMaps[i];
        var nearRadianceMap := radianceMaps[i - 1];
        dispatches := dispatches + [Merge(i, i - 1,
          PackedMerge(farRadianceMap.probeSpacing, nearRadianceMap.probeSpacing, farRadianceMap.angularRes, nearRadianceMap.angularRes),
          radianceGroupCount)];
        i := i - 1;
      }
    }

    /** FinalizeRadiance: one finalization dispatch over the lit scene. */
    method FinalizeRadiance()
      requires finalizationRadianceMap.Some?
      modifies this`dispatches
      ensures dispatches == old(dispatches) + [Finalize(finalizationRadianceMap.value, finalizationThreadGroupCount)]
    {
      dispatches := dispatches + [Finalize(finalizationRadianceMap.value, finalizationThreadGroupCount)];
    }

    /** OnRenderImage: bind this frame's source, then create, merge and finalize. */
    method OnRenderImage(src: nat)
      requires Valid()
      modifies this`dispatches, this`emitterScene
      ensures Valid() && emitterScene == src
      ensures dispatches == old(dispatches)
        + Frame(radianceMaps[..], src, radianceGroupCount, 0, finalizationThreadGroupCount)
      ensures CascadeOrdered(dispatches[|old(dispatches)|..], radianceMaps.Length)
    {
      emitterScene := src;
      ghost var before := dispatches;
      CreateRadianceCascade();
      MergeRadianceCascade();
      FinalizeRadiance();
      ghost var frame := Frame(radianceMaps[..], src, radianceGroupCount, 0, finalizationThreadGroupCount);
      assert dispatches == before + frame;
      assert dispatches[|before|..] == frame;
      FrameIsCascadeOrdered(radianceMaps[..], src, radianceGroupCount, finalizationThreadGroupCount);
    }
  }
}
