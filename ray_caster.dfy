/** The part of the radiance cascade shared by both layouts (Assets/Scripts/RayCaster.cs):
    the layer planner, the work-group arithmetic, the lit-scene resolution, and the
    dispatch events one frame submits together with the order the cascade relies on. */
module RayCaster {

  datatype Option<T> = None | Some(value: T)

  /** Unity's Vector2Int and Vector3Int, restricted to the non-negative sizes and counts
      that flow through the core. */
  datatype Vec2 = Vec2(x: nat, y: nat)
  datatype Vec3 = Vec3(x: nat, y: nat, z: nat)

  /** A kernel's declared thread-group size: every axis at least one thread. */
  predicate Positive(v: Vec3) { v.x >= 1 && v.y >= 1 && v.z >= 1 }

  /** RadianceLayerInfo: the planner's descriptor of one cascade layer. */
  datatype RadianceLayerInfo = RadianceLayerInfo(
    resolution: Vec3,
    probeSpacing: nat,
    rayOffset: real,
    stepSize: real,
    quarterSampleCount: int)

  // ---------------------------------------------------------------------------
  // Integer helpers

  function Pow2(n: nat): (r: nat)
    ensures r >= 1
  {
    if n == 0 then 1 else 2 * Pow2(n - 1)
  }

  function Pow4(n: nat): (r: nat)
    ensures r >= 1
  {
    if n == 0 then 1 else 4 * Pow4(n - 1)
  }

  /** g is the ceiling of w / t: enough groups of t to cover w, and one fewer is not. */
  predicate IsCeilDiv(g: int, w: int, t: int) { g * t >= w && (g - 1) * t < w }

  /** A multiple of m leaves no remainder. */
  lemma MulMod(c: nat, m: nat)
    requires m >= 1
    ensures (c * m) % m == 0
  {
    var q, rem := (c * m) / m, (c * m) % m;
    assert c * m == q * m + rem;
    assert (c - q) * m == rem;
    MulBounds(c - q, m);
  }

  lemma MulBounds(a: int, m: int)
    requires m >= 1
    ensures a >= 1 ==> a * m >= m
    ensures a <= -1 ==> a * m <= -m
  {
  }

  /** Math.Ceiling followed by the cast to int. */
  function Ceiling(x: real): (n: int)
    ensures n as real - 1.0 < x <= n as real
  {
    if x.Floor as real == x then x.Floor else x.Floor + 1
  }

  // ---------------------------------------------------------------------------
  // Work groups and the lit-scene resolution

  /** One axis of CalcWorkingGroupSize: (w + t - 1) / t. */
  function GroupsFor(w: nat, t: nat): (g: nat)
    requires t >= 1
    ensures IsCeilDiv(g, w, t)
    ensures w == 0 ==> g == 0
  {
    var g := (w + t - 1) / t;
    assert w + t - 1 == g * t + (w + t - 1) % t;
    g
  }

  /** CalcWorkingGroupSize, with the kernel's declared thread-group size passed in. */
  function CalcWorkingGroupSize(workSize: Vec3, threads: Vec3): (g: Vec3)
    requires Positive(threads)
    ensures IsCeilDiv(g.x, workSize.x, threads.x)
    ensures IsCeilDiv(g.y, workSize.y, threads.y)
    ensures IsCeilDiv(g.z, workSize.z, threads.z)
  {
    Vec3(GroupsFor(workSize.x, threads.x), GroupsFor(workSize.y, threads.y), GroupsFor(workSize.z, threads.z))
  }

  /** The lit scene is the camera's pixel size divided (integer division) by renderScale. */
  function LitSceneResolution(pixelWidth: nat, pixelHeight: nat, renderScale: nat): (res: Vec2)
    requires renderScale >= 1
    ensures res.x * renderScale <= pixelWidth < (res.x + 1) * renderScale
    ensures res.y * renderScale <= pixelHeight < (res.y + 1) * renderScale
  {
    var x, y := pixelWidth / renderScale, pixelHeight / renderScale;
    assert pixelWidth == x * renderScale + pixelWidth % renderScale;
    assert pixelHeight == y * renderScale + pixelHeight % renderScale;
    Vec2(x, y)
  }

  // ---------------------------------------------------------------------------
  // The layer planner

  /** A resolution axis after i halvings that round up: (x + 1) / 2, i times. */
  function Halved(x: nat, i: nat): nat
  {
    if i == 0 then x else (Halved(x, i - 1) + 1) / 2
  }

  /** The ray length of layer i: the base length, quadrupled once per layer. */
  function RayLength(baseRayLength: real, i: nat): (r: real)
    ensures baseRayLength > 0.0 ==> r >= baseRayLength
  {
    if i == 0 then baseRayLength else 4.0 * RayLength(baseRayLength, i - 1)
  }

  /** The ray offset of layer i: the base offset plus the lengths of all nearer layers. */
  function RayOffset(baseRayOffset: real, baseRayLength: real, i: nat): real
  {
    if i == 0 then baseRayOffset
    else RayOffset(baseRayOffset, baseRayLength, i - 1) + RayLength(baseRayLength, i - 1)
  }

  /** Math.Min((int)Math.Ceiling(rayLength / 4), 64). */
  function QuarterSampleCount(rayLength: real): (q: int)
    ensures q <= 64
    ensures rayLength > 0.0 ==> q >= 1
    ensures rayLength > 0.0 && rayLength <= 256.0 ==> (4 * (q - 1)) as real < rayLength <= (4 * q) as real
    ensures rayLength > 256.0 ==> q == 64
  {
    var c := Ceiling(rayLength / 4.0);
    if c < 64 then c else 64
  }

  /** rayLength / (quarterSampleCount * 4): the samples split the ray into equal steps. */
  function StepSize(rayLength: real): (s: real)
    requires rayLength > 0.0
    ensures s > 0.0
    ensures s * (QuarterSampleCount(rayLength) * 4) as real == rayLength
  {
    rayLength / (QuarterSampleCount(rayLength) * 4) as real
  }

  /** The descriptor the planner emits for layer i of a lit scene of size w x h. */
  function PlannedLayer(w: nat, h: nat, baseRayOffset: real, baseRayLength: real, i: nat): RadianceLayerInfo
    requires baseRayLength > 0.0
  {
    var rayLength := RayLength(baseRayLength, i);
    RadianceLayerInfo(
      Vec3(Halved(w, i), Halved(h, i), Pow4(i + 1)),
      Pow2(i + 1),
      RayOffset(baseRayOffset, baseRayLength, i),
      StepSize(rayLength),
      QuarterSampleCount(rayLength))
  }

  /** The rolling loop of SetupRadianceMaps: fills one descriptor per layer, nearest first. */
  method SetupRadianceMaps(litWidth: nat, litHeight: nat, layerCount: nat, baseRayOffset: real, baseRayLength: real)
    returns (layerInfos: seq<RadianceLayerInfo>)
    requires baseRayLength > 0.0
    ensures |layerInfos| == layerCount
    ensures forall i :: 0 <= i < layerCount ==>
      layerInfos[i] == PlannedLayer(litWidth, litHeight, baseRayOffset, baseRayLength, i)
  {
    var infos := new RadianceLayerInfo[layerCount];
    var layerInfo := RadianceLayerInfo(Vec3(litWidth, litHeight, 4), 2, baseRayOffset, 0.0, 0);
    var rayLength := baseRayLength;
    var i := 0;
    while i != layerCount
      invariant 0 <= i <= layerCount
      invariant rayLength == RayLength(baseRayLength, i)
      invariant layerInfo.resolution == Vec3(Halved(litWidth, i), Halved(litHeight, i), Pow4(i + 1))
      invariant layerInfo.probeSpacing == Pow2(i + 1)
      invariant layerInfo.rayOffset == RayOffset(baseRayOffset, baseRayLength, i)
      invariant forall j :: 0 <= j < i ==>
        infos[j] == PlannedLayer(litWidth, litHeight, baseRayOffset, baseRayLength, j)
    {
      layerInfo := layerInfo.(quarterSampleCount := QuarterSampleCount(rayLength));
      layerInfo := layerInfo.(stepSize := rayLength / (layerInfo.quarterSampleCount * 4) as real);
      infos[i] := layerInfo;
      layerInfo := layerInfo.(
        resolution := Vec3((layerInfo.resolution.x + 1) / 2, (layerInfo.resolution.y + 1) / 2, layerInfo.resolution.z * 4),
        probeSpacing := layerInfo.probeSpacing * 2,
        rayOffset := layerInfo.rayOffset + rayLength);
      rayLength := rayLength * 4.0;
      i := i + 1;
    }
    layerInfos := infos[..];
  }

  /** Every resolution axis of layer i is the ceiling of the lit-scene axis over 2^i,
      so a positive axis never shrinks to zero. */
  lemma {:induction false} HalvedIsCeilDiv(x: nat, i: nat)
    ensures IsCeilDiv(Halved(x, i), x, Pow2(i))
    ensures x >= 1 ==> Halved(x, i) >= 1
    ensures x == 0 ==> Halved(x, i) == 0
  {
    if i > 0 {
      HalvedIsCeilDiv(x, i - 1);
      CeilDivHalves(Halved(x, i - 1), x, Pow2(i - 1));
    }
  }

  /** Rounding up twice is rounding up once: halving the ceiling of x / t, rounding up,
      gives the ceiling of x / 2t. */
  lemma CeilDivHalves(g: nat, x: nat, t: nat)
    requires t >= 1 && IsCeilDiv(g, x, t)
    ensures IsCeilDiv((g + 1) / 2, x, 2 * t)
  {
    var h: int := (g + 1) / 2;
    if g % 2 == 0 {
      assert 2 * h == g;
      assert h * (2 * t) == g * t by { assert h * (2 * t) == (2 * h) * t; }
      assert (h - 1) * (2 * t) == (g - 1) * t - t by { assert (h - 1) * (2 * t) == (2 * h - 2) * t; }
    } else {
      assert 2 * h == g + 1;
      assert h * (2 * t) == g * t + t by { assert h * (2 * t) == (2 * h) * t; }
      assert (h - 1) * (2 * t) == (g - 1) * t by { assert (h - 1) * (2 * t) == (2 * h - 2) * t; }
    }
  }

  /** Closed form of the ray length: baseRayLength * 4^i. */
  lemma {:induction false} RayLengthClosedForm(baseRayLength: real, i: nat)
    ensures RayLength(baseRayLength, i) == baseRayLength * Pow4(i) as real
  {
    if i > 0 {
      RayLengthClosedForm(baseRayLength, i - 1);
      assert Pow4(i) as real == 4.0 * Pow4(i - 1) as real;
    }
  }

  /** Closed form of the ray offset: baseRayOffset + (rayLength_i - baseRayLength) / 3,
      that is baseRayOffset + baseRayLength * (4^i - 1) / 3. */
  lemma {:induction false} RayOffsetClosedForm(baseRayOffset: real, baseRayLength: real, i: nat)
    ensures 3.0 * RayOffset(baseRayOffset, baseRayLength, i)
         == 3.0 * baseRayOffset + RayLength(baseRayLength, i) - baseRayLength
  {
    if i > 0 {
      RayOffsetClosedForm(baseRayOffset, baseRayLength, i - 1);
    }
  }

  /** With a positive base length the ray offsets strictly increase from layer to layer. */
  lemma {:induction false} RayOffsetsIncrease(baseRayOffset: real, baseRayLength: real, i: nat, j: nat)
    requires baseRayLength > 0.0 && i < j
    ensures RayOffset(baseRayOffset, baseRayLength, i) < RayOffset(baseRayOffset, baseRayLength, j)
  {
    if i < j - 1 {
      RayOffsetsIncrease(baseRayOffset, baseRayLength, i, j - 1);
    }
  }

  // ---------------------------------------------------------------------------
  // The layer count

  lemma Pow4SquareStep(n: nat)
    ensures Pow4(n + 1) * Pow4(n + 1) == 16 * (Pow4(n) * Pow4(n))
  {
    var p := Pow4(n);
    assert Pow4(n + 1) == 4 * p;
    assert (4 * p) * (4 * p) == 16 * (p * p);
  }

  /** The smallest n with 16^n >= d2: the integer form of ceil(log_4(sqrt d2)). */
  function CoveringExponent(d2: nat): (n: nat)
    ensures Pow4(n) * Pow4(n) >= d2
    ensures n >= 1 ==> Pow4(n - 1) * Pow4(n - 1) < d2
    decreases d2
  {
    if d2 <= 1 then 0
    else
      var m := CoveringExponent((d2 + 15) / 16);
      Pow4SquareStep(m);
      if m >= 1 then Pow4SquareStep(m - 1); 1 + m else 1 + m
  }

  /** The layer count of lines 137-138, ceil(log_4(|(w, h)|)) + 1, over the integers.
      A zero diagonal makes the source cast -infinity to int and then allocate an array
      of negative length, so there is no count. */
  function LayerCountFor(w: nat, h: nat): (count: Option<nat>)
    ensures count.Some? <==> w * w + h * h > 0
    ensures count.Some? ==>
              count.value >= 1
              && Pow4(count.value - 1) * Pow4(count.value - 1) >= w * w + h * h
              && (count.value >= 2 ==> Pow4(count.value - 2) * Pow4(count.value - 2) < w * w + h * h)
  {
    if w * w + h * h == 0 then None else Some(CoveringExponent(w * w + h * h) + 1)
  }

  /** A 1920 x 1080 camera at renderScale 2 gives a 960 x 540 lit scene whose diagonal,
      about 1101.5 texels, has ceil(log_4) = 6, so the planner builds seven layers; the
      coarsest is 15 x 9 probes with probe spacing 128. */
  lemma FullHdAtHalfScale()
    ensures LitSceneResolution(1920, 1080, 2) == Vec2(960, 540)
    ensures LayerCountFor(960, 540) == Some(7)
    ensures PlannedLayer(960, 540, 0.5, 2.0, 6).resolution == Vec3(15, 9, 16384)
    ensures PlannedLayer(960, 540, 0.5, 2.0, 6).probeSpacing == 128
  {
  }

  lemma {:induction false} RayLengthAtLeastPow4(baseRayLength: real, i: nat)
    requires baseRayLength >= 1.0
    ensures RayLength(baseRayLength, i) >= Pow4(i) as real
  {
    if i > 0 {
      RayLengthAtLeastPow4(baseRayLength, i - 1);
    }
  }

  lemma {:induction false} RayOffsetNonNegative(baseRayOffset: real, baseRayLength: real, i: nat)
    requires baseRayOffset >= 0.0 && baseRayLength > 0.0
    ensures RayOffset(baseRayOffset, baseRayLength, i) >= 0.0
  {
    if i > 0 {
      RayOffsetNonNegative(baseRayOffset, baseRayLength, i - 1);
    }
  }

  /** With that layer count, a non-negative base offset and a base length of at least one
      texel, the farthest layer reaches past the lit scene's diagonal. */
  lemma CascadeCoversDiagonal(w: nat, h: nat, layerCount: nat, baseRayOffset: real, baseRayLength: real)
    requires LayerCountFor(w, h) == Some(layerCount)
    requires baseRayOffset >= 0.0 && baseRayLength >= 1.0
    ensures var reach := RayOffset(baseRayOffset, baseRayLength, layerCount - 1)
                       + RayLength(baseRayLength, layerCount - 1);
            reach * reach >= (w * w + h * h) as real
  {
    var n := layerCount - 1;
    RayLengthAtLeastPow4(baseRayLength, n);
    RayOffsetNonNegative(baseRayOffset, baseRayLength, n);
    var reach := RayOffset(baseRayOffset, baseRayLength, n) + RayLength(baseRayLength, n);
    var d2 := w * w + h * h;
    var big := Pow4(n);
    assert big * big >= d2;
    var p := big as real;
    SquareMonotone(reach, p);
    assert p * p == (big * big) as real;
  }

  lemma SquareMonotone(a: real, b: real)
    requires a >= b >= 0.0
    ensures a * a >= b * b
  {
    assert a * a >= a * b;
    assert a * b >= b * b;
  }

  // ---------------------------------------------------------------------------
  // Dispatch events

  /** The uniforms the creation kernel reads, per layout. */
  datatype CreateParams =
    | PackedCreate(probeSpacing: nat, angularRes: nat, rayOffset: real, stepSize: real, quarterSampleCount: int)
    | VolumetricCreate(scale: int, rayOffset: real, stepSize: real, quarterSampleCount: int)

  /** The uniforms the merging kernel reads, per layout. */
  datatype MergeParams =
    | PackedMerge(farProbeSpacing: nat, nearProbeSpacing: nat, farAngularRes: nat, nearAngularRes: nat)
    | VolumetricMerge

  /** One kernel dispatch with what is bound to it. Radiance maps and the
      emitter scene are identified by handles (a map by its index). */
  datatype Dispatch =
    | Create(emitterScene: nat, radianceMap: nat, createParams: CreateParams, groups: Vec3)
    | Merge(farRadianceMap: nat, nearRadianceMap: nat, mergeParams: MergeParams, groups: Vec3)
    | Finalize(radianceMap: nat, groups: Vec3)

  /** The positional shape of OnRenderImage over n maps: create 0 .. n-1, merge (i, i-1)
      for i = n-1 down to 1, then finalize map 0. */
  predicate FrameShape(frame: seq<Dispatch>, n: nat)
  {
    n >= 1 && |frame| == 2 * n
    && (forall k :: 0 <= k < n ==> frame[k].Create? && frame[k].radianceMap == k)
    && (forall k :: n <= k < 2 * n - 1 ==>
          frame[k].Merge? && frame[k].farRadianceMap == 2 * n - 1 - k && frame[k].nearRadianceMap == 2 * n - 2 - k)
    && frame[2 * n - 1].Finalize? && frame[2 * n - 1].radianceMap == 0
  }

  predicate CreatedBefore(frame: seq<Dispatch>, layer: nat, p: int)
  {
    exists q :: 0 <= q < p && q < |frame| && frame[q].Create? && frame[q].radianceMap == layer
  }

  predicate FoldedBefore(frame: seq<Dispatch>, far: nat, p: int)
  {
    exists q :: 0 <= q < p && q < |frame| && frame[q].Merge? && frame[q].farRadianceMap == far
  }

  /** Finalization runs exactly once, last, and resolves layer 0. */
  predicate FinalizesLast(frame: seq<Dispatch>)
  {
    |frame| >= 1
    && frame[|frame| - 1].Finalize? && frame[|frame| - 1].radianceMap == 0
    && (forall p :: 0 <= p < |frame| - 1 ==> !frame[p].Finalize?)
  }

  /** Layer j is traced before finalization. */
  predicate TracedBeforeFinal(frame: seq<Dispatch>, j: nat)
  {
    CreatedBefore(frame, j, |frame| - 1)
  }

  /** Layer j is folded into layer j - 1 before finalization. */
  predicate FoldedBeforeFinal(frame: seq<Dispatch>, j: nat)
  {
    FoldedBefore(frame, j, |frame| - 1)
  }

  /** Every one of the n layers is traced, and every far layer folded in, before finalization. */
  predicate Complete(frame: seq<Dispatch>, n: nat)
  {
    (forall j :: 0 <= j < n ==> TracedBeforeFinal(frame, j))
    && (forall j :: 1 <= j < n ==> FoldedBeforeFinal(frame, j))
  }

  /** The merge at position p pairs adjacent layers that are both traced already, and its
      far layer has received everything beyond it. */
  predicate MergeReady(frame: seq<Dispatch>, p: nat, n: nat)
    requires p < |frame| && frame[p].Merge?
  {
    var far, near := frame[p].farRadianceMap, frame[p].nearRadianceMap;
    near + 1 == far < n
    && CreatedBefore(frame, far, p)
    && CreatedBefore(frame, near, p)
    && (far + 1 < n ==> FoldedBefore(frame, far + 1, p))
  }

  /** No layer is traced twice or folded twice, and no trace follows a merge. */
  predicate NoRepeats(frame: seq<Dispatch>)
  {
    (forall p, q :: 0 <= p < q < |frame| && frame[p].Create? && frame[q].Create? ==>
       frame[p].radianceMap != frame[q].radianceMap)
    && (forall p, q :: 0 <= p < q < |frame| && frame[p].Merge? && frame[q].Merge? ==>
       frame[p].farRadianceMap != frame[q].farRadianceMap)
    && (forall p, q :: 0 <= p < q < |frame| && frame[p].Merge? ==> !frame[q].Create?)
  }

  /** What the cascade needs of one frame over n layers, independent of positions. */
  predicate CascadeOrdered(frame: seq<Dispatch>, n: nat)
  {
    FinalizesLast(frame)
    && Complete(frame, n)
    && (forall p :: 0 <= p < |frame| && frame[p].Create? ==> frame[p].radianceMap < n)
    && (forall p :: 0 <= p < |frame| && frame[p].Merge? ==> MergeReady(frame, p, n))
    && NoRepeats(frame)
  }

  lemma ShapeIsComplete(frame: seq<Dispatch>, n: nat)
    requires FrameShape(frame, n)
    ensures Complete(frame, n)
  {
    forall j | 0 <= j < n
      ensures TracedBeforeFinal(frame, j)
    {
      assert frame[j].radianceMap == j;
    }
    forall j | 1 <= j < n
      ensures FoldedBeforeFinal(frame, j)
    {
      assert frame[2 * n - 1 - j].farRadianceMap == j;
    }
  }

  lemma ShapeMergesReady(frame: seq<Dispatch>, n: nat, p: nat)
    requires FrameShape(frame, n)
    requires p < |frame| && frame[p].Merge?
    ensures MergeReady(frame, p, n)
  {
    assert n <= p < 2 * n - 1;
    var far := 2 * n - 1 - p;
    assert frame[far].radianceMap == far;
    assert frame[far - 1].radianceMap == far - 1;
    if far + 1 < n {
      assert frame[p - 1].farRadianceMap == far + 1;
    }
  }

  lemma ShapeFinalizesLast(frame: seq<Dispatch>, n: nat)
    requires FrameShape(frame, n)
    ensures FinalizesLast(frame)
    ensures forall p :: 0 <= p < |frame| && frame[p].Create? ==> frame[p].radianceMap < n
  {
  }

  lemma ShapeHasNoRepeats(frame: seq<Dispatch>, n: nat)
    requires FrameShape(frame, n)
    ensures NoRepeats(frame)
  {
  }

  /** The create-merge-finalize order of OnRenderImage satisfies the cascade's dependencies. */
  lemma FrameShapeIsCascadeOrdered(frame: seq<Dispatch>, n: nat)
    requires FrameShape(frame, n)
    ensures CascadeOrdered(frame, n)
  {
    ShapeFinalizesLast(frame, n);
    ShapeIsComplete(frame, n);
    ShapeHasNoRepeats(frame, n);
    forall p | 0 <= p < |frame| && frame[p].Merge?
      ensures MergeReady(frame, p, n)
    {
      ShapeMergesReady(frame, n, p);
    }
  }
}
