/**
 * The configuration record of the diffusion policy and the validation that
 * runs when one is constructed (`DiffusionConfig.__post_init__`).
 *
 * The dataclass constructor stores its arguments and then runs three
 * checks in a fixed order, raising on the first one that fails. The checks
 * rewrite no field, so the model is a datatype,
 * a function `Validate` giving the outcome of the checks, a function
 * `Construct` giving the outcome of construction, and lemmas about them.
 */
module DiffusionConfiguration {

  datatype Option<+T> = None | Some(value: T)

  datatype Result<+T, +E> = Success(value: T) | Failure(error: E)

  /** An (H, W) pair, as used for `image_size` and `crop_shape`. */
  type HeightWidth = (int, int)

  /**
   * Every field of the record, in declaration order. Python integers are
   * unbounded, so `int` is exact; Python floats are carried as `real`
   * values that the validation never reads.
   */
  datatype DiffusionConfig = DiffusionConfig(
    // Environment.
    stateDim: int,
    actionDim: int,
    imageSize: HeightWidth,
    // Inputs / output structure.
    nObsSteps: int,
    horizon: int,
    nActionSteps: int,
    inputShapes: map<string, seq<int>>,
    outputShapes: map<string, seq<int>>,
    // Normalization / unnormalization.
    normalizeInputModes: map<string, string>,
    unnormalizeOutputModes: map<string, string>,
    // Vision backbone.
    visionBackbone: string,
    cropShape: Option<HeightWidth>,
    cropIsRandom: bool,
    usePretrainedBackbone: bool,
    useGroupNorm: bool,
    spatialSoftmaxNumKeypoints: int,
    // Unet.
    downDims: seq<int>,
    kernelSize: int,
    nGroups: int,
    diffusionStepEmbedDim: int,
    useFilmScaleModulation: bool,
    // Noise scheduler.
    numTrainTimesteps: int,
    betaSchedule: string,
    betaStart: real,
    betaEnd: real,
    predictionType: string,
    clipSample: bool,
    clipSampleRange: real,
    // Inference.
    numInferenceSteps: Option<int>,
    // Training.
    batchSize: int,
    gradClipNorm: int,
    lr: real,
    lrScheduler: string,
    lrWarmupSteps: int,
    adamBetas: (real, real),
    adamEps: real,
    adamWeightDecay: real,
    utd: int,
    useEma: bool,
    emaUpdateAfterStep: int,
    emaMinAlpha: real,
    emaMaxAlpha: real,
    emaInvGamma: real,
    emaPower: real
  )

  /** The record built with no arguments: every field at its declared default. */
  function Default(): DiffusionConfig {
    DiffusionConfig(
      stateDim := 2,
      actionDim := 2,
      imageSize := (96, 96),
      nObsSteps := 2,
      horizon := 16,
      nActionSteps := 8,
      inputShapes := map["observation.image" := [3, 96, 96], "observation.state" := [2]],
      outputShapes := map["action" := [2]],
      normalizeInputModes := map["observation.image" := "mean_std", "observation.state" := "min_max"],
      unnormalizeOutputModes := map["action" := "min_max"],
      visionBackbone := "resnet18",
      cropShape := Some((84, 84)),
      cropIsRandom := true,
      usePretrainedBackbone := false,
      useGroupNorm := true,
      spatialSoftmaxNumKeypoints := 32,
      downDims := [512, 1024, 2048],
      kernelSize := 5,
      nGroups := 8,
      diffusionStepEmbedDim := 128,
      useFilmScaleModulation := true,
      numTrainTimesteps := 100,
      betaSchedule := "squaredcos_cap_v2",
      betaStart := 0.0001,
      betaEnd := 0.02,
      predictionType := "epsilon",
      clipSample := true,
      clipSampleRange := 1.0,
      numInferenceSteps := None,
      batchSize := 64,
      gradClipNorm := 10,
      lr := 1.0e-4,
      lrScheduler := "cosine",
      lrWarmupSteps := 500,
      adamBetas := (0.95, 0.999),
      adamEps := 1.0e-8,
      adamWeightDecay := 1.0e-6,
      utd := 1,
      useEma := true,
      emaUpdateAfterStep := 0,
      emaMinAlpha := 0.0,
      emaMaxAlpha := 0.9999,
      emaInvGamma := 1.0,
      emaPower := 0.75
    )
  }

  /** The three checks, in the order the validation makes them. */
  datatype Check = VisionBackbone | CropShape | PredictionType

  /**
   * What construction can raise: a `ValueError` naming the check that
   * failed, or the `TypeError` Python raises when `crop_shape` is `None`
   * and the crop check subscripts it.
   */
  datatype Error = ValueError(failed: Check) | TypeError

  /** The outcome of the validation: fall through, or raise. */
  datatype Outcome = Pass | Fail(error: Error)

  const ResNetPrefix: string := "resnet"

  const SupportedPredictionTypes: seq<string> := ["epsilon", "sample"]

  /** Python's `str.startswith`, character by character. */
  function StartsWith(s: string, prefix: string): (b: bool)
    ensures b <==> prefix <= s
  {
    if prefix == [] then true
    else if s == [] then false
    else s[0] == prefix[0] && StartsWith(s[1..], prefix[1..])
  }

  /** List membership in the supported prediction types. */
  function IsSupportedPredictionType(p: string): (b: bool)
    ensures b <==> p == "epsilon" || p == "sample"
  {
    p in SupportedPredictionTypes
  }

  /**
   * The configurations construction accepts, stated field by field and
   * independently of the order of the checks. A `None` crop is not among
   * them: the crop check subscripts `crop_shape` unconditionally.
   */
  predicate Valid(c: DiffusionConfig) {
    && HasResNetBackbone(c)
    && CropFitsImage(c)
    && IsSupportedPredictionType(c.predictionType)
  }

  predicate HasResNetBackbone(c: DiffusionConfig) {
    ResNetPrefix <= c.visionBackbone
  }

  /** A crop is present and is no larger than the image in either dimension. */
  predicate CropFitsImage(c: DiffusionConfig) {
    && c.cropShape.Some?
    && c.cropShape.value.0 <= c.imageSize.0
    && c.cropShape.value.1 <= c.imageSize.1
  }

  /**
   * The validation run after the fields are stored. Its contract pins the
   * outcome for every configuration: it passes exactly on `Valid`, and
   * otherwise the first failing check, in the order backbone, crop,
   * prediction type, decides the error.
   */
  function Validate(c: DiffusionConfig): (r: Outcome)
    ensures r.Pass? <==> Valid(c)
    ensures !HasResNetBackbone(c) ==> r == Fail(ValueError(VisionBackbone))
    ensures HasResNetBackbone(c) && c.cropShape.None? ==> r == Fail(TypeError)
    ensures (HasResNetBackbone(c) && c.cropShape.Some? && !CropFitsImage(c))
              ==> r == Fail(ValueError(CropShape))
    ensures (HasResNetBackbone(c) && CropFitsImage(c) && !Valid(c))
              ==> r == Fail(ValueError(PredictionType))
  {
    if !StartsWith(c.visionBackbone, ResNetPrefix) then
      Fail(ValueError(VisionBackbone))
    else if c.cropShape.None? then
      // `self.crop_shape[0]` on None
      Fail(TypeError)
    else if c.cropShape.value.0 > c.imageSize.0 || c.cropShape.value.1 > c.imageSize.1 then
      Fail(ValueError(CropShape))
    else if !IsSupportedPredictionType(c.predictionType) then
      Fail(ValueError(PredictionType))
    else
      Pass
  }

  /**
   * Construction from a full set of field values: the record is stored as
   * given and validated. A record that passes comes back unchanged; one
   * that fails yields the error of the first failing check.
   */
  function Construct(fields: DiffusionConfig): (r: Result<DiffusionConfig, Error>)
    ensures r.Success? <==> Valid(fields)
    ensures r.Success? ==> r.value == fields
    ensures r.Failure? ==> Validate(fields) == Fail(r.error)
  {
    match Validate(fields)
    case Pass => Success(fields)
    case Fail(e) => Failure(e)
  }

  /** The defaults pass every check, so the record built with no arguments exists. */
  lemma DefaultIsValid()
    ensures Valid(Default())
    ensures Construct(Default()) == Success(Default())
  {
  }

  /**
   * The backbone check fails with a value error exactly when the name does
   * not start with "resnet", whatever the other fields hold.
   */
  lemma BackboneErrorIffNotResNet(c: DiffusionConfig)
    ensures Validate(c) == Fail(ValueError(VisionBackbone)) <==> !(ResNetPrefix <= c.visionBackbone)
  {
  }

  /** Every name that extends "resnet" passes the backbone check. */
  lemma ResNetVariantsAccepted(c: DiffusionConfig, suffix: string)
    requires c.visionBackbone == ResNetPrefix + suffix
    ensures Validate(c) != Fail(ValueError(VisionBackbone))
  {
  }

  /**
   * The crop comparison is strict, so a crop equal to the image size is
   * accepted, and a crop one larger in either dimension is rejected.
   */
  lemma CropBoundIsInclusive(c: DiffusionConfig)
    requires HasResNetBackbone(c) && IsSupportedPredictionType(c.predictionType)
    ensures Validate(c.(cropShape := Some(c.imageSize))) == Pass
    ensures Validate(c.(cropShape := Some((c.imageSize.0 + 1, c.imageSize.1))))
              == Fail(ValueError(CropShape))
    ensures Validate(c.(cropShape := Some((c.imageSize.0, c.imageSize.1 + 1))))
              == Fail(ValueError(CropShape))
  {
  }

  /**
   * Once the backbone and crop checks pass, the outcome is decided by the
   * prediction type alone: it passes exactly for "epsilon" and "sample".
   */
  lemma PredictionTypeDecides(c: DiffusionConfig)
    requires HasResNetBackbone(c) && CropFitsImage(c)
    ensures Validate(c) == (if IsSupportedPredictionType(c.predictionType) then Pass
                            else Fail(ValueError(PredictionType)))
  {
  }

  /**
   * The order of the checks: a bad backbone is reported even when the crop
   * is missing or too large and the prediction type is unsupported, and a
   * bad crop is reported even when the prediction type is unsupported.
   */
  lemma FirstFailingCheckDecides(c: DiffusionConfig)
    ensures !HasResNetBackbone(c) ==>
              Validate(c.(cropShape := None, predictionType := "v_prediction"))
                == Fail(ValueError(VisionBackbone))
    ensures !HasResNetBackbone(c) ==>
              Validate(c.(cropShape := Some((c.imageSize.0 + 1, c.imageSize.1 + 1)),
                          predictionType := "v_prediction"))
                == Fail(ValueError(VisionBackbone))
    ensures HasResNetBackbone(c) ==>
              Validate(c.(cropShape := Some((c.imageSize.0 + 1, c.imageSize.1)),
                          predictionType := "v_prediction"))
                == Fail(ValueError(CropShape))
  {
  }

  /**
   * The validation looks at four fields only: two records that agree on
   * the backbone, the crop, the image size and the prediction type have
   * the same outcome, however the rest differs.
   */
  lemma ValidateReadsOnlyCheckedFields(c: DiffusionConfig, d: DiffusionConfig)
    requires c.visionBackbone == d.visionBackbone
    requires c.cropShape == d.cropShape
    requires c.imageSize == d.imageSize
    requires c.predictionType == d.predictionType
    ensures Validate(c) == Validate(d)
    ensures Construct(c).Success? <==> Construct(d).Success?
  {
  }

  /**
   * The validation is not exhaustive: with the defaults' four checked
   * fields, a record passes however inconsistent the rest is, for instance
   * more action steps than the horizon, no inputs at all, an empty Unet
   * and a negative number of diffusion steps; a crop with negative
   * dimensions passes as well.
   */
  lemma ValidationIsNotExhaustive(c: DiffusionConfig)
    requires c.visionBackbone == Default().visionBackbone
    requires c.cropShape == Default().cropShape
    requires c.imageSize == Default().imageSize
    requires c.predictionType == Default().predictionType
    ensures Construct(c) == Success(c)
    ensures Construct(Default().(nActionSteps := 32, horizon := 16)).Success?
    ensures Construct(Default().(inputShapes := map[], outputShapes := map[])).Success?
    ensures Construct(Default().(downDims := [], numTrainTimesteps := -1)).Success?
    ensures Construct(Default().(cropShape := Some((-1, -1)))).Success?
  {
  }

  /**
   * The reading of `crop_shape` its documentation gives: `None` means "no
   * cropping" and is acceptable, and a crop that is given must fit.
   */
  predicate DocumentedValid(c: DiffusionConfig) {
    && HasResNetBackbone(c)
    && (c.cropShape.None? || CropFitsImage(c))
    && IsSupportedPredictionType(c.predictionType)
  }

  /**
   * A `None` crop does not mean "no cropping" to the validation: once the
   * backbone passes, construction raises a `TypeError` (not a
   * `ValueError`), although the documented reading accepts the record.
   * The two readings agree on every record with a crop.
   */
  lemma NoneCropRaisesTypeError(c: DiffusionConfig)
    requires c.cropShape.None?
    ensures HasResNetBackbone(c) ==> Construct(c) == Failure(TypeError)
    ensures (DocumentedValid(c) && !Valid(c))
              <==> (HasResNetBackbone(c) && IsSupportedPredictionType(c.predictionType))
    ensures DocumentedValid(Default().(cropShape := None))
    ensures Construct(Default().(cropShape := None)) == Failure(TypeError)
  {
  }

  lemma DocumentedAgreesWithCrop(c: DiffusionConfig)
    requires c.cropShape.Some?
    ensures DocumentedValid(c) <==> Valid(c)
  {
  }
}
