# Diffusion policy configuration, modelled in Dafny

This project models `DiffusionConfig`, the configuration record of the
diffusion-based robot-control policy. The record holds the settings consumed
by the policy: the shapes of observations and actions, the normalization mode
of each modality, the vision backbone and its crop, the denoising Unet, the
noise schedule and the training hyperparameters. It has one piece of logic,
the validation that runs when a record is constructed (`__post_init__`). That
validation makes three checks in a fixed order and raises on the first one
that fails:

1. the vision backbone's name must start with `"resnet"`;
2. the crop must fit inside the image, in height and in width (a crop equal to
   the image is accepted, because the comparison is a strict `>`);
3. the prediction type must be `"epsilon"` or `"sample"`.

Everything lives in one module, `DiffusionConfiguration`, in
`configuration_diffusion.dfy`:

- `DiffusionConfig` is a datatype with one field per field of the record,
  and `Default()` is the record built with no arguments.
- `Validate` gives the outcome of the three checks. `Construct` gives the
  outcome of construction: the record unchanged, or the error raised.
- `Valid` states the accepted records field by field, without reference to
  the order of the checks. `Validate` is proved to pass exactly on `Valid`.
  Each failure is proved to carry the error of the first check that fails.

The validation only reads fields and rewrites none of them. The model
therefore gives the record as a value and the validation as a pure function
of it.

A `None` crop differs from the documentation. The docstring
(`configuration_diffusion.py:37-38`) says that a `None` crop means "no
cropping". The crop check (`configuration_diffusion.py:158`) subscripts
`crop_shape` without testing for `None`. So once the backbone check passes,
constructing a record with no crop raises a `TypeError`, not a `ValueError`.
The model keeps this behaviour as written: `Valid` excludes a `None` crop.
`DocumentedValid` states the documented reading instead, and
`NoneCropRaisesTypeError` proves where the two disagree. The two readings
agree on every record that has a crop.

## Model

| member | source | states |
|---|---|---|
| `DiffusionConfiguration.StartsWith` | lerobot/common/policies/diffusion/configuration_diffusion.py:154 | `str.startswith` holds exactly when the prefix is a prefix of the string, in the sense of Dafny's sequence-prefix relation |
| `DiffusionConfiguration.IsSupportedPredictionType` | lerobot/common/policies/diffusion/configuration_diffusion.py:163-164 | membership in the supported list holds exactly for `"epsilon"` and `"sample"` |
| `DiffusionConfiguration.Validate` | lerobot/common/policies/diffusion/configuration_diffusion.py:152-167 | passes exactly on `Valid` records. Otherwise the first failing check decides the error, in the order backbone, then crop, then prediction type. A bad backbone gives a `ValueError(VisionBackbone)` whatever the other fields hold. A `None` crop behind a good backbone gives a `TypeError`. A crop larger in either dimension gives `ValueError(CropShape)`. An unsupported prediction type gives `ValueError(PredictionType)` |
| `DiffusionConfiguration.Construct` | lerobot/common/policies/diffusion/configuration_diffusion.py:152-167 | construction succeeds exactly on `Valid` records and then returns the record unchanged. On failure it returns the error of the first failing check |
| `DiffusionConfiguration.Default` | lerobot/common/policies/diffusion/configuration_diffusion.py:74-150 | the record built with no arguments: every field at its declared default |
| `DiffusionConfiguration.DefaultIsValid` | lerobot/common/policies/diffusion/configuration_diffusion.py:74-167 | the defaults pass every check: `"resnet18"` starts with `"resnet"`, crop (84, 84) fits image (96, 96), and `"epsilon"` is supported. So the record built with no arguments is constructed unchanged |
| `DiffusionConfiguration.BackboneErrorIffNotResNet` | lerobot/common/policies/diffusion/configuration_diffusion.py:154-157 | the backbone value error is raised if and only if the name does not start with `"resnet"`, for every record |
| `DiffusionConfiguration.ResNetVariantsAccepted` | lerobot/common/policies/diffusion/configuration_diffusion.py:154-157 | every name of the form `"resnet"` followed by anything passes the backbone check |
| `DiffusionConfiguration.CropBoundIsInclusive` | lerobot/common/policies/diffusion/configuration_diffusion.py:158-162 | with the other checks passing, a crop equal to the image size is accepted. A crop one larger in height alone, or in width alone, is rejected with the crop value error |
| `DiffusionConfiguration.PredictionTypeDecides` | lerobot/common/policies/diffusion/configuration_diffusion.py:163-167 | once the backbone and crop checks pass, the outcome is a pass for `"epsilon"` or `"sample"` and the prediction-type value error for anything else |
| `DiffusionConfiguration.FirstFailingCheckDecides` | lerobot/common/policies/diffusion/configuration_diffusion.py:154-167 | a bad backbone is reported even when the crop is missing or too large and the prediction type is unsupported. A too-large crop is reported even when the prediction type is unsupported |
| `DiffusionConfiguration.ValidateReadsOnlyCheckedFields` | lerobot/common/policies/diffusion/configuration_diffusion.py:152-167 | two records that agree on backbone, crop, image size and prediction type get the same outcome, whatever their other fields hold |
| `DiffusionConfiguration.ValidationIsNotExhaustive` | lerobot/common/policies/diffusion/configuration_diffusion.py:153-167 | any record with the defaults' four checked fields is constructed unchanged. This includes a record with more action steps than the horizon, one with empty shape maps, and one with empty `down_dims` and a negative step count. Separately, a crop with negative dimensions is also accepted |
| `DiffusionConfiguration.NoneCropRaisesTypeError` | lerobot/common/policies/diffusion/configuration_diffusion.py:158-162 | with a good backbone, a `None` crop makes construction raise a `TypeError`. The documented reading of lines 37-38 accepts exactly those `None`-crop records that have a good backbone and a supported prediction type, and the validation rejects all of them. The defaults with no crop are one example |
| `DiffusionConfiguration.DocumentedAgreesWithCrop` | lerobot/common/policies/diffusion/configuration_diffusion.py:36-38 | on records that have a crop, the documented reading and the validation accept the same records |

## Left out

- Assigning a field after construction is not modelled. The record is a plain
  (not frozen) dataclass, so its fields can be reassigned, and such an
  assignment skips validation. `Valid` therefore holds only at construction
  time.
- Float fields (`beta_start`, `beta_end`, `clip_sample_range`, `lr`,
  `adam_betas`, `adam_eps`, `adam_weight_decay`, `ema_*`) are carried as exact
  `real` values. Binary floating-point rounding of their defaults is not
  modelled. The validation never reads them.
- Exception messages: an error records the exception kind and which check
  failed, not the formatted message text.
- Runtime types: Python does not enforce the annotations. The model gives
  every field its annotated type, so failures that come from a wrongly typed
  argument are out of scope. Examples are a non-string backbone (an
  `AttributeError`) and a crop tuple of the wrong length.
- `input_shapes` and `output_shapes` are annotated `dict[str, list[str]]`, but
  their default values are lists of integers. They are modelled as
  `map<string, seq<int>>`, following the values.
- Dataclass machinery: `default_factory` gives each record fresh dictionaries.
  Only their contents are modelled, because values have no identity in Dafny.
- What the settings mean to the policy is not part of this model, because it
  is implemented elsewhere. This covers the diffusion sampling loop, the
  noise-scheduler beta schedules, backbone loading, normalization arithmetic,
  the optimizer and EMA, and the rule that `num_inference_steps` defaults to
  `num_train_timesteps`.
