/** Assembly of the ControlNet conditioning images and their scales for one
    image (`process/pose.py`). The detectors (OpenPose, MiDaS, MediaPipe,
    Canny) are opaque: a detection is recorded as the detector kind, the
    reference image it ran on and the file it was saved to. */
module Pose {
  import opened Base
  import opened Enums
  import opened Schemas

  /** A conditioning image handed to the pipeline. */
  datatype CondImage =
    | Detected(kind: ControlNetType, reference: string, savedAs: string)  // a detector's output, saved beside the reference
    | Loaded(path: string)                                                // a control image file used as it is

  /** The two parallel lists the assembly returns. */
  datatype Poses = Poses(images: seq<CondImage>, scales: seq<Option<real>>)

  const NoControlNetType: string := "no-contron-net-type-in-model"

  /** The suffix of the file a detector's output is saved to. */
  function SavedSuffix(kind: ControlNetType): string
  {
    match kind
    case OpenPose => "_openpose.png"
    case Midas => "_midas.png"
    case MediaPipe => "_mediapipe.png"
    case Canny => "_canny.png"
  }

  /** The scale `poses_from_reference_image` applies to every detection:
      the control image's own scale when truthy, else the engine's. */
  function ReferenceScale(engine: Engine, ci: ControlNetImage): (r: Option<real>)
    ensures TruthyReal(ci.controlnetConditioningScale) ==> r == ci.controlnetConditioningScale
    ensures !TruthyReal(ci.controlnetConditioningScale) ==> r == engine.settings.controlnetConditioningScale
  {
    OrOptReal(ci.controlnetConditioningScale, engine.settings.controlnetConditioningScale)
  }

  /** One engine control-net model applied to the reference image. */
  function Detect(model: AIModel, ci: ControlNetImage): (r: Result<CondImage>)
    ensures r.Ok? <==> model.controlNetType.Some?
                       && (model.controlNetType.value == Canny ==>
                             ci.cannyLowThreshold.Some? && ci.cannyHighThreshold.Some?)
    ensures model.controlNetType.None? ==> r == Err(Raise(NoControlNetType, None))
    ensures r.Err? && model.controlNetType.Some? ==> r.error == AssertionFailed
    ensures r.Ok? ==> r.value.Detected? && r.value.kind == model.controlNetType.value
                      && r.value.reference == ci.imageFilePath
  {
    match model.controlNetType
    case None => Err(Raise(NoControlNetType, None))
    case Some(kind) =>
      if kind == Canny && (ci.cannyLowThreshold.None? || ci.cannyHighThreshold.None?) then
        Err(AssertionFailed)
      else
        Ok(Detected(kind, ci.imageFilePath, ci.imageFilePath + SavedSuffix(kind)))
  }

  /** The detections of `models`, in order, each with scale `scale`; the
      first model that fails ends the run with its error. */
  function DetectAll(models: seq<AIModel>, ci: ControlNetImage, scale: real): Result<Poses>
    decreases |models|
  {
    if models == [] then Ok(Poses([], []))
    else
      match DetectAll(models[..|models| - 1], ci, scale)
      case Err(e) => Err(e)
      case Ok(p) =>
        match Detect(models[|models| - 1], ci)
        case Err(e) => Err(e)
        case Ok(img) => Ok(Poses(p.images + [img], p.scales + [Some(scale)]))
  }

  /** `poses_from_reference_image`: the scale is chosen (and asserted
      present) before any model is looked at. */
  function PosesFromReference(engine: Engine, ci: ControlNetImage): (r: Result<Poses>)
    ensures ReferenceScale(engine, ci).None? ==> r == Err(AssertionFailed)
  {
    match ReferenceScale(engine, ci)
    case None => Err(AssertionFailed)
    case Some(s) => DetectAll(engine.controlNets, ci, s)
  }

  /** Once a prefix of the models fails, the whole run fails the same way. */
  lemma {:induction false} DetectAllKeepsError(models: seq<AIModel>, n: nat, ci: ControlNetImage, scale: real)
    requires n <= |models|
    requires DetectAll(models[..n], ci, scale).Err?
    ensures DetectAll(models, ci, scale) == DetectAll(models[..n], ci, scale)
  {
    if n < |models| {
      var init := models[..|models| - 1];
      assert init[..n] == models[..n];
      DetectAllKeepsError(init, n, ci, scale);
    } else {
      assert models[..n] == models;
    }
  }

  /** A successful run yields one image and one scale per model, in model
      order; it succeeds exactly when every model can be applied. */
  lemma DetectAllShape(models: seq<AIModel>, ci: ControlNetImage, scale: real)
    ensures DetectAll(models, ci, scale).Ok? <==> forall k :: 0 <= k < |models| ==> Detect(models[k], ci).Ok?
    ensures DetectAll(models, ci, scale).Ok? ==>
      var p := DetectAll(models, ci, scale).value;
      |p.images| == |models| && |p.scales| == |models|
      && (forall k :: 0 <= k < |models| ==> p.images[k] == Detect(models[k], ci).value)
      && (forall k :: 0 <= k < |models| ==> p.scales[k] == Some(scale))
  {
    DetectAllOk(models, ci, scale);
    if DetectAll(models, ci, scale).Ok? {
      DetectAllValues(models, ci, scale);
    }
  }

  /** A run succeeds exactly when every model can be applied. */
  lemma DetectAllOk(models: seq<AIModel>, ci: ControlNetImage, scale: real)
    ensures DetectAll(models, ci, scale).Ok? <==> forall k :: 0 <= k < |models| ==> Detect(models[k], ci).Ok?
  {
    if DetectAll(models, ci, scale).Ok? {
      OkEachApplies(models, ci, scale);
    }
    if forall k :: 0 <= k < |models| ==> Detect(models[k], ci).Ok? {
      EachAppliesOk(models, ci, scale);
    }
  }

  /** A successful run applied every model. */
  lemma {:induction false} OkEachApplies(models: seq<AIModel>, ci: ControlNetImage, scale: real)
    requires DetectAll(models, ci, scale).Ok?
    ensures forall k :: 0 <= k < |models| ==> Detect(models[k], ci).Ok?
  {
    if models != [] {
      var init, last := models[..|models| - 1], models[|models| - 1];
      assert DetectAll(init, ci, scale).Ok? && Detect(last, ci).Ok?;
      OkEachApplies(init, ci, scale);
      forall k | 0 <= k < |models|
        ensures Detect(models[k], ci).Ok?
      {
        if k < |init| {
          assert init[k] == models[k];
        } else {
          assert models[k] == last;
        }
      }
    }
  }

  /** When every model can be applied the run succeeds. */
  lemma {:induction false} EachAppliesOk(models: seq<AIModel>, ci: ControlNetImage, scale: real)
    requires forall k :: 0 <= k < |models| ==> Detect(models[k], ci).Ok?
    ensures DetectAll(models, ci, scale).Ok?
  {
    if models != [] {
      var init, last := models[..|models| - 1], models[|models| - 1];
      forall k | 0 <= k < |init|
        ensures Detect(init[k], ci).Ok?
      {
        assert init[k] == models[k];
      }
      EachAppliesOk(init, ci, scale);
      assert Detect(last, ci).Ok?;
    }
  }

  /** A successful run yields one image and one scale per model, in model order. */
  lemma {:induction false} DetectAllValues(models: seq<AIModel>, ci: ControlNetImage, scale: real)
    requires DetectAll(models, ci, scale).Ok?
    requires forall k :: 0 <= k < |models| ==> Detect(models[k], ci).Ok?
    ensures var p := DetectAll(models, ci, scale).value;
      |p.images| == |models| && |p.scales| == |models|
      && (forall k :: 0 <= k < |models| ==> p.images[k] == Detect(models[k], ci).value)
      && (forall k :: 0 <= k < |models| ==> p.scales[k] == Some(scale))
  {
    if models != [] {
      var init, last := models[..|models| - 1], models[|models| - 1];
      var r := DetectAll(init, ci, scale);
      assert Detect(last, ci).Ok? by {
        assert last == models[|models| - 1];
      }
      assert r.Ok?;
      assert forall k :: 0 <= k < |init| ==> Detect(init[k], ci).Ok? by {
        forall k | 0 <= k < |init| ensures Detect(init[k], ci).Ok? {
          assert init[k] == models[k];
        }
      }
      DetectAllValues(init, ci, scale);
      var q := r.value;
      var p := Poses(q.images + [Detect(last, ci).value], q.scales + [Some(scale)]);
      assert DetectAll(models, ci, scale) == Ok(p);
      forall k | 0 <= k < |models|
        ensures p.images[k] == Detect(models[k], ci).value && p.scales[k] == Some(scale)
      {
        if k < |init| {
          assert init[k] == models[k];
          assert p.images[k] == q.images[k] && p.scales[k] == q.scales[k];
        }
      }
    }
  }

  /** The error of a failing run is that of the first model that cannot be applied. */
  lemma {:induction false} DetectAllFirstFailure(models: seq<AIModel>, ci: ControlNetImage, scale: real, k: nat)
    requires k < |models| && Detect(models[k], ci).Err?
    requires forall j :: 0 <= j < k ==> Detect(models[j], ci).Ok?
    ensures DetectAll(models, ci, scale) == Err(Detect(models[k], ci).error)
  {
    var pre := models[..k];
    DetectAllShape(pre, ci, scale);
    assert models[..k + 1][..k] == pre;
    assert DetectAll(models[..k + 1], ci, scale) == Err(Detect(models[k], ci).error);
    DetectAllKeepsError(models, k + 1, ci, scale);
  }

  /** What `poses_from_reference_image` promises: it fails (with an
      AssertionError) when neither the control image nor the engine has a
      scale, even for an engine without control nets; otherwise it returns
      one detection and one copy of the chosen scale per engine control-net
      model, in engine order, or the error of the first model it cannot
      apply. */
  lemma ReferencePoses(engine: Engine, ci: ControlNetImage)
    ensures ReferenceScale(engine, ci).None? ==> PosesFromReference(engine, ci) == Err(AssertionFailed)
    ensures PosesFromReference(engine, ci).Ok? <==>
      ReferenceScale(engine, ci).Some?
      && forall k :: 0 <= k < |engine.controlNets| ==> Detect(engine.controlNets[k], ci).Ok?
    ensures PosesFromReference(engine, ci).Ok? ==>
      var p := PosesFromReference(engine, ci).value;
      var n := |engine.controlNets|;
      |p.images| == n && |p.scales| == n
      && (forall k :: 0 <= k < n ==>
            p.images[k].Detected? && p.images[k].kind == engine.controlNets[k].controlNetType.value)
      && (forall k :: 0 <= k < n ==> p.scales[k] == ReferenceScale(engine, ci))
  {
    if ReferenceScale(engine, ci).Some? {
      DetectAllShape(engine.controlNets, ci, ReferenceScale(engine, ci).value);
    }
  }

  /** A model without a control-net type, reached before any other failing
      model, raises "no-contron-net-type-in-model". */
  lemma MissingTypeRaises(engine: Engine, ci: ControlNetImage, k: nat)
    requires ReferenceScale(engine, ci).Some?
    requires k < |engine.controlNets| && engine.controlNets[k].controlNetType.None?
    requires forall j :: 0 <= j < k ==> Detect(engine.controlNets[j], ci).Ok?
    ensures PosesFromReference(engine, ci) == Err(Raise(NoControlNetType, None))
  {
    DetectAllFirstFailure(engine.controlNets, ci, ReferenceScale(engine, ci).value, k);
  }

  /** The loop of `poses_from_reference_image`. */
  method PosesFromReferenceImage(engine: Engine, ci: ControlNetImage) returns (r: Result<Poses>)
    ensures r == PosesFromReference(engine, ci)
  {
    var scale := engine.settings.controlnetConditioningScale;
    if TruthyReal(ci.controlnetConditioningScale) {
      scale := ci.controlnetConditioningScale;
    }
    if scale.None? {
      return Err(AssertionFailed);
    }
    var models := engine.controlNets;
    var images: seq<CondImage> := [];
    var scales: seq<Option<real>> := [];
    for i := 0 to |models|
      invariant DetectAll(models[..i], ci, scale.value) == Ok(Poses(images, scales))
    {
      var model := models[i];
      assert models[..i + 1][..i] == models[..i];
      if model.controlNetType.None? {
        DetectAllKeepsError(models, i + 1, ci, scale.value);
        return Err(Raise(NoControlNetType, None));
      }
      var kind := model.controlNetType.value;
      if kind == Canny && (ci.cannyLowThreshold.None? || ci.cannyHighThreshold.None?) {
        DetectAllKeepsError(models, i + 1, ci, scale.value);
        return Err(AssertionFailed);
      }
      images := images + [Detected(kind, ci.imageFilePath, ci.imageFilePath + SavedSuffix(kind))];
      scales := scales + [scale];
    }
    assert models[..|models|] == models;
    return Ok(Poses(images, scales));
  }

  /** What one control image adds: a control image that names an AI model
      is loaded as it is, with its own scale (which may be None); one
      without is run through every engine control-net model. */
  function Contribution(engine: Engine, ci: ControlNetImage): Result<Poses>
  {
    if ci.aimodel.None? then PosesFromReference(engine, ci)
    else Ok(Poses([Loaded(ci.imageFilePath)], [ci.controlnetConditioningScale]))
  }

  /** The contributions of `cis`, concatenated in order; the first failing
      control image ends the assembly with its error. */
  function PrepareAll(engine: Engine, cis: seq<ControlNetImage>): Result<Poses>
    decreases |cis|
  {
    if cis == [] then Ok(Poses([], []))
    else
      match PrepareAll(engine, cis[..|cis| - 1])
      case Err(e) => Err(e)
      case Ok(p) =>
        match Contribution(engine, cis[|cis| - 1])
        case Err(e) => Err(e)
        case Ok(q) => Ok(Poses(p.images + q.images, p.scales + q.scales))
  }

  /** How many images a control image contributes when it succeeds. */
  function Width(engine: Engine, ci: ControlNetImage): nat
  {
    if ci.aimodel.Some? then 1 else |engine.controlNets|
  }

  /** The number of images the control images `cis` contribute together. */
  function Offset(engine: Engine, cis: seq<ControlNetImage>): nat
    decreases |cis|
  {
    if cis == [] then 0 else Offset(engine, cis[..|cis| - 1]) + Width(engine, cis[|cis| - 1])
  }

  lemma ContributionShape(engine: Engine, ci: ControlNetImage)
    ensures Contribution(engine, ci).Ok? ==>
      |Contribution(engine, ci).value.images| == Width(engine, ci)
      && |Contribution(engine, ci).value.scales| == Width(engine, ci)
  {
    if ci.aimodel.None? {
      ReferencePoses(engine, ci);
    }
  }

  lemma {:induction false} PrepareAllKeepsError(engine: Engine, cis: seq<ControlNetImage>, n: nat)
    requires n <= |cis|
    requires PrepareAll(engine, cis[..n]).Err?
    ensures PrepareAll(engine, cis) == PrepareAll(engine, cis[..n])
  {
    if n < |cis| {
      var init := cis[..|cis| - 1];
      assert init[..n] == cis[..n];
      PrepareAllKeepsError(engine, init, n);
    } else {
      assert cis[..n] == cis;
    }
  }

  /** `prepare_pose_images` returns image and scale lists of equal length:
      the sum of what each control image contributes. */
  lemma {:induction false} PrepareAllLength(engine: Engine, cis: seq<ControlNetImage>)
    ensures PrepareAll(engine, cis).Ok? ==>
      |PrepareAll(engine, cis).value.images| == Offset(engine, cis)
      && |PrepareAll(engine, cis).value.scales| == Offset(engine, cis)
  {
    if cis != [] && PrepareAll(engine, cis).Ok? {
      PrepareAllLength(engine, cis[..|cis| - 1]);
      ContributionShape(engine, cis[|cis| - 1]);
    }
  }

  /** The output follows the order of the control images: the contribution
      of the k-th control image sits at positions Offset(cis[..k]) up to
      Offset(cis[..k+1]) of both lists. */
  lemma {:induction false} PrepareAllSegment(engine: Engine, cis: seq<ControlNetImage>, k: nat)
    requires k < |cis| && PrepareAll(engine, cis).Ok?
    ensures Contribution(engine, cis[k]).Ok?
    ensures Offset(engine, cis[..k]) + Width(engine, cis[k]) == Offset(engine, cis[..k + 1]) <= Offset(engine, cis)
    ensures |PrepareAll(engine, cis).value.images| == Offset(engine, cis)
            && |PrepareAll(engine, cis).value.scales| == Offset(engine, cis)
    ensures var p := PrepareAll(engine, cis).value;
      p.images[Offset(engine, cis[..k])..Offset(engine, cis[..k + 1])] == Contribution(engine, cis[k]).value.images
      && p.scales[Offset(engine, cis[..k])..Offset(engine, cis[..k + 1])] == Contribution(engine, cis[k]).value.scales
  {
    var n := |cis| - 1;
    var init := cis[..n];
    PrepareAllLength(engine, init);
    PrepareAllLength(engine, cis);
    ContributionShape(engine, cis[n]);
    assert cis[..k + 1][..k] == cis[..k];
    var p := PrepareAll(engine, init).value;
    var q := Contribution(engine, cis[n]).value;
    if k < n {
      PrepareAllSegment(engine, init, k);
      assert init[k] == cis[k];
      assert init[..k] == cis[..k] && init[..k + 1] == cis[..k + 1];
      SliceOfFront(p.images, q.images, Offset(engine, cis[..k]), Offset(engine, cis[..k + 1]));
      SliceOfFront(p.scales, q.scales, Offset(engine, cis[..k]), Offset(engine, cis[..k + 1]));
    } else {
      assert cis[..k] == init && cis[..k + 1] == cis;
      assert (p.images + q.images)[|p.images|..] == q.images;
      assert (p.scales + q.scales)[|p.scales|..] == q.scales;
    }
  }

  lemma SliceOfFront<T>(a: seq<T>, b: seq<T>, i: nat, j: nat)
    requires i <= j <= |a|
    ensures (a + b)[i..j] == a[i..j]
  {
  }

  /** The loop of `prepare_pose_images`. */
  method PreparePoseImages(engine: Engine, img: Image) returns (r: Result<Poses>)
    ensures r == PrepareAll(engine, img.controlImages)
  {
    var cis := img.controlImages;
    var images: seq<CondImage> := [];
    var scales: seq<Option<real>> := [];
    for i := 0 to |cis|
      invariant PrepareAll(engine, cis[..i]) == Ok(Poses(images, scales))
    {
      var ci := cis[i];
      assert cis[..i + 1][..i] == cis[..i];
      if ci.aimodel.None? {
        var poses := PosesFromReferenceImage(engine, ci);
        if poses.Err? {
          PrepareAllKeepsError(engine, cis, i + 1);
          return Err(poses.error);
        }
        images := images + poses.value.images;
        scales := scales + poses.value.scales;
      } else {
        images := images + [Loaded(ci.imageFilePath)];
        scales := scales + [ci.controlnetConditioningScale];
      }
    }
    assert cis[..|cis|] == cis;
    return Ok(Poses(images, scales));
  }
}
