# Neural style transfer (`vgg_gan.py`): pipeline assembly and optimisation loop

This project models in Dafny the discrete core of a PyTorch neural style
transfer script:

- **The loss taps.** `ContentLoss` and `StyleLoss` hold a target fixed at
  construction and a `loss` field that every forward call overwrites.
  Their forward hands its input back unchanged.
- **The pipeline assembly**, `get_style_model_and_losses`:
  - It walks the pretrained extractor's children in order.
  - It names each child by kind, with a counter that only convolutions advance.
  - It rejects unknown layer classes with a `RuntimeError`.
  - It replaces every ReLU with a non-in-place one.
  - After each requested layer it splices in a content tap, a style tap, or both.
    Each tap captures what the pipeline built so far makes of the content
    or style image.
  - Finally it scans backwards and cuts the pipeline after the last tap.
- **The optimisation loop**, `run_style_transfer`:
  - It runs `while step_i <= num_steps` passes.
  - Each pass clamps the image to [0, 1] in place, runs it through the pipeline,
    adds up the tap losses and weighs them.
  - It then lets the optimiser update the image.
  - It prints a report whenever the incremented counter is a multiple of 50.
  - After the loop it clamps once more and returns the image.

Library numerics are uninterpreted function values in `Pipeline.Numerics`:
normalisation, a borrowed layer's forward pass, `gram_matrix` and `F.mse_loss`.
Autograd with Adam is one opaque update `step: (S, Tensor, real) -> (S, Tensor)`
over an optimiser state of any type `S`.

Layout:

- `tensors.dfy`: pixels as exact reals, the clamp, and the `Image` class that
  is updated in place.
- `loss_taps.dfy`: the two tap classes.
- `pipeline.dfy`: stages, module names and the forward pass `model(x)`.
- `assembly.dfy`: `get_style_model_and_losses`.
  - `Walk` and `Trim` specify its two loops over values.
  - `GetStyleModelAndLosses` is the imperative procedure proved against them.
- `style_transfer.dfy`: `run_style_transfer`.
  - `Trajectory`, `Reports` and `Outcome` specify the loop.
  - `Optimize` and `RunStyleTransfer` are the imperative procedures proved against them.

The pipeline appears at two types:

- `Model` holds the tap objects themselves, which is what the Python function returns.
- `Plan` holds each tap's frozen target in its place.
- `Pipeline.Targets` maps the first to the second. The specification
  functions work on plans.

Two Python failure modes follow from the code and are modelled as errors:

- If no tap was inserted (no requested name matched any layer), both
  scores stay the plain number `0`. The loss `0*style_weight +
  0*content_weight` is then a number, and `loss.backward()` raises
  `AttributeError` on the first pass. The error names `int` when both
  weights are Python ints, as the defaults are, and `float` otherwise.
- If only one tap list is empty, that score stays the integer `0`.
  `.item()` then raises `AttributeError` at the first report, after pass
  50, before any report is printed.

The code clamps the image only before each forward pass and once after the
loop; `optimizer.step()` may leave pixels outside [0, 1] between passes. So
the range is proved for the image each forward pass sees
(`StyleTransfer.Seen`) and for the returned image (`StyleTransfer.Outcome`),
not for the image after every pass.

## Model

| member | source | states |
|---|---|---|
| Tensors.Clamp01 | vgg_gan.py:186 | one clamped pixel lies in [0, 1], is unchanged when already in range, and becomes 0 below and 1 above |
| Tensors.Clamped | vgg_gan.py:186 | the clamped tensor keeps its length and has every pixel in [0, 1]; an in-range pixel is kept, one below 0 becomes 0 and one above 1 becomes 1 |
| Tensors.ClampedFixesExactlyUnitRange | vgg_gan.py:186 | clamping leaves a tensor unchanged if and only if all its pixels are already in [0, 1] |
| Tensors.ClampedIdempotent | vgg_gan.py:212 | clamping again after the loop's last clamp changes nothing |
| Tensors.Image.ClampInPlace | vgg_gan.py:186 | `input_img.data.clamp_(0, 1)` replaces the image's data by its clamp, leaving every pixel in [0, 1] |
| LossTaps.ContentLoss.constructor | vgg_gan.py:66-68 | a content tap stores the given target, which is a constant field, and has no loss yet |
| LossTaps.ContentLoss.Forward | vgg_gan.py:70-73 | forward stores `mse(input, target)` as the loss and returns its input unchanged |
| LossTaps.StyleLoss.constructor | vgg_gan.py:77-79 | a style tap's constant target is the Gram matrix of the given feature map |
| LossTaps.StyleLoss.Forward | vgg_gan.py:81-85 | forward stores `mse(gram(input), target)` as the loss and returns its input unchanged |
| Pipeline.Decimal | vgg_gan.py:130 | `str(i)` is a non-empty string of decimal digits that starts with '0' only for 0 and has one digit exactly below 10 |
| Pipeline.DecimalRoundTrip | vgg_gan.py:130 | reading the digits of `str(n)` back gives `n` |
| Pipeline.LayerNameParses | vgg_gan.py:128-137 | a layer name is its kind's prefix (`conv_`, `relu_`, `pool_`, `bn_`) followed by decimal digits that read as the conv counter |
| Pipeline.LayerNameInjective | vgg_gan.py:128-137 | two layer names are equal only for the same kind and the same counter value |
| Pipeline.TapNameIsNoLayerName | vgg_gan.py:141-156 | the name `content_loss_{i}` or `style_loss_{i}` of a tap is never the name of a layer |
| Pipeline.ModuleNamesSeparateKinds | vgg_gan.py:124-156 | a tap shares its registered name with another stage exactly when that stage is a tap of the same kind with the same counter; never with a layer or with the normalization module `"0"` |
| Pipeline.RunSkipsTaps | vgg_gan.py:70-85 | `Run`, the value `model(x)` computes, equals the run of the pipeline with its taps removed: taps hand their input on unchanged |
| Pipeline.ForwardStage | vgg_gan.py:189 | one stage of `model(x)` extends the run by that stage, and a tap stage records its loss |
| Pipeline.Forward | vgg_gan.py:189 | `model(x)` returns the fold of all stages over `x`, and afterwards every content and style tap holds the loss of what reached it, in pipeline order |
| Assembly.NextCounter | vgg_gan.py:129-130 | the counter `i` grows by one on a convolution and stays put on every other kind |
| Assembly.Substitute | vgg_gan.py:131-133 | a ReLU is replaced by a non-in-place ReLU, and every other child is kept as it is |
| Assembly.Splice | vgg_gan.py:143-157 | the taps spliced after a layer extend the pipeline by at most two stages, all taps, and leave the prefix intact |
| Assembly.AddLayerStep | vgg_gan.py:127-157 | `AddLayer`, one pass of the first loop: it raises `RuntimeError` naming the class exactly for an unknown kind; otherwise it advances the counter by `NextCounter` and appends the child's named layer followed only by at most two taps |
| Assembly.Walk | vgg_gan.py:124-157 | the walk over all children, when it succeeds, yields a pipeline that starts with the normalization stage |
| Assembly.LastTap | vgg_gan.py:161-163 | the backward scan stops at the last tap, or at 0 when nothing after the first stage is a tap |
| Assembly.TrimCutsAfterLastTap | vgg_gan.py:160-164 | `Trim`, the cut pipeline, is a prefix that drops only non-taps, ends in a tap whenever one exists, is the first stage alone otherwise, and keeps both tap lists |
| Assembly.WalkRejectsFirstUnknownLayer | vgg_gan.py:127-139 | the walk fails if and only if some child has an unknown class, and the error names the class of the first such child |
| Assembly.AssembleRejectsUnknownLayer | vgg_gan.py:127-139 | `Assemble` raises exactly when some child has an unknown class, and the error names the class of the first such child |
| Assembly.WalkErrPersists | vgg_gan.py:138-139 | once a prefix of the children raises, the whole walk raises the same error |
| Assembly.ExpectedLayerAt | vgg_gan.py:126-137 | child k is named by its kind and the number of convolutions among children 0..k, so a layer before any convolution gets 0 |
| Assembly.WalkNamesLayers | vgg_gan.py:126-141 | a successful walk knows every child, ends with the counter equal to the number of convolutions, and lists exactly one layer per child, in order, under its computed name with ReLUs substituted |
| Assembly.SplicePlaced | vgg_gan.py:141-157 | a child's layer is followed by the taps its name requests, content before style, each carrying the layer's counter and the target computed from the prefix before it |
| Assembly.WalkPlacesTaps | vgg_gan.py:127-157 | after the first loop every stage obeys the placement rule: normalization first, each requested tap right after its layer with the right target |
| Assembly.TrimPlacesTaps | vgg_gan.py:160-164 | cutting after the last tap keeps every surviving stage placed |
| Assembly.TrimEndsInTap | vgg_gan.py:160-164 | when the cut pipeline holds any tap it ends in one; when it holds none it is the first stage alone |
| Assembly.TrimKeepsLayerPrefix | vgg_gan.py:164 | the layers surviving the cut are the first layers of the uncut pipeline |
| Assembly.AssembledPipeline | vgg_gan.py:106-165 | successful assembly returns the normalization stage, then the expected layers in order up to the cut, with every tap placed; the tap lists equal those before the cut, and the pipeline ends in a tap or is the normalization stage alone |
| Assembly.NameLayer | vgg_gan.py:128-139 | the name, the substituted module and the new counter for one child are `LayerName`, `Substitute` and `NextCounter` of it, or `RuntimeError` for an unknown class |
| Assembly.AddContentTap | vgg_gan.py:143-149 | appends a content tap whose target is the run of the pipeline so far on the content image, and appends a fresh tap object to `content_losses` |
| Assembly.AddStyleTap | vgg_gan.py:151-157 | appends a style tap whose target is the Gram matrix of the run so far on the style image, and appends a fresh tap object to `style_losses` |
| Assembly.SpliceTaps | vgg_gan.py:143-157 | the taps added after a layer are exactly those of `Splice`, and the two lists stay the pipeline's taps in order, distinct and fresh |
| Assembly.AddChild | vgg_gan.py:127-157 | one loop pass extends the pipeline exactly as one step of `Walk`, or yields the error the whole assembly raises |
| Assembly.TrimModel | vgg_gan.py:160-164 | the backward scan and slice return `Trim` of the pipeline |
| Assembly.GetStyleModelAndLosses | vgg_gan.py:106-165 | returns the error of `Assemble`, or a pipeline whose targets are `Assemble`'s result together with its style and content taps in order, distinct and newly created |
| StyleTransfer.PassesFromCount | vgg_gan.py:184-185 | `while step_i <= num_steps` starting at `s` runs `num_steps - s + 1` passes, or none when `s > num_steps` |
| StyleTransfer.PassesIsBudgetPlusOne | vgg_gan.py:184-185 | the loop runs `num_steps + 1` passes for a budget of 0 or more, and none for a negative budget |
| StyleTransfer.DefaultBudget | vgg_gan.py:171 | the default budget of 300 gives 301 passes, and the report schedule has six entries, after passes 50, 100, ..., 300; when both tap lists are non-empty the loop's `Outcome` is success with exactly those six reports printed |
| StyleTransfer.TotalLoss | vgg_gan.py:199 | the weighted loss of a forward pass; a term whose tap list is empty adds nothing, so with one list empty the loss is the other score times its weight |
| StyleTransfer.AddScores | vgg_gan.py:192-197 | the summing loop yields the sum of the stored losses, and the score stays the integer 0 exactly when the list is empty |
| StyleTransfer.PassSeesOnlyClampedImage | vgg_gan.py:186-202 | `Pass`, one clamp-forward-backward-step pass, depends only on the clamped image: clamping before it changes nothing |
| StyleTransfer.TrajectoryCompose | vgg_gan.py:185-202 | `Trajectory`: the state after `m + n` passes is the state after `n` passes started from the state after `m` passes |
| StyleTransfer.Seen | vgg_gan.py:186 | the image every forward pass sees has all pixels in [0, 1] |
| StyleTransfer.Reports | vgg_gan.py:204-209 | every report printed during `n` passes carries a counter between 1 and `n` that is a multiple of 50 |
| StyleTransfer.ReportsAtMultiples | vgg_gan.py:204-209 | there are `n / 50` reports after `n` passes; report j is printed after pass (j+1)·50 and shows the scores of that pass's forward run |
| StyleTransfer.ReportedExactlyAtMultiples | vgg_gan.py:204-205 | a report with counter m exists if and only if 1 ≤ m ≤ n and m is a multiple of 50 |
| StyleTransfer.ForwardScores | vgg_gan.py:189-197 | the two scores after `model(x)` are the sums of the style and content losses of the run on `x`, and each is a tensor exactly when its tap list is non-empty |
| StyleTransfer.ClampForwardStep | vgg_gan.py:186-202 | a pass clamps, scores the clamped image, and either fails at `backward` when there is no tap or moves the state to the next point of the trajectory |
| StyleTransfer.OnePass | vgg_gan.py:185-209 | one pass of the loop body yields `AfterPass`: the backward error, the `.item()` error at a report, or the next state and reports; it keeps the loop invariant or ends with the promised outcome |
| StyleTransfer.PassKeepsProgress | vgg_gan.py:184-209 | a pass taken while `step_i <= num_steps` either keeps the loop invariant one pass further or ends with the outcome promised for the whole loop |
| StyleTransfer.Outcome | vgg_gan.py:185-214 | the loop's result: on success the same image object, with every returned pixel in [0, 1] and one report per multiple of 50 among the passes; on failure an `AttributeError` and no report printed |
| StyleTransfer.Optimize | vgg_gan.py:180-214 | the loop returns exactly `Outcome`: the backward error, the `.item()` error at the first report, after pass 50 and with no report printed, or the same image object clamped after `Passes(num_steps)` passes (`num_steps + 1` for a budget of 0 or more, none otherwise) with one report per multiple of 50 among them |
| StyleTransfer.RunStyleTransfer | vgg_gan.py:167-214 | with the Python defaults for the budget (300), the weights (the ints 1000000 and 1) and the layer lists, an assembly error is passed on with the image untouched; otherwise the result is the loop's `Outcome` over the assembled pipeline |

## Left out

- Tensor numerics are uninterpreted functions in `Numerics`: normalisation `(img - mean) / std`, each borrowed layer's forward pass, `gram_matrix` (from a module that is not part of this model) and `F.mse_loss`. Pixels are exact reals, with no floating point, shapes or devices.
- Autograd and Adam (`requires_grad_`, `zero_grad`, `loss.backward()`, `optimizer.step()`, learning rate 0.1, eps 0.1) are one opaque update function of the optimiser state, the clamped image and the weighted loss. Only the `backward` failure on a loss that is a plain number is modelled.
- `print` output is not modelled, beyond the report's counter and two scores. The `"run {}:"` line printed just before a failing `.item()` is not modelled.
- The VGG19 download, `copy.deepcopy(cnn)`, device placement, image loading and display are not modelled. These are I/O and library state; the extractor's children arrive as a sequence of `Child` values.
- `nn.Sequential.add_module` replaces an entry when a name repeats. `GetStyleModelAndLosses` and `RunStyleTransfer` instead require, through `Assembly.UniqueModuleNames`, that no module name is registered twice.
- Assembly runs `model(content_img)` and `model(style_img)` to compute targets, which overwrites the `loss` field of taps already inserted. `Assembly.GetStyleModelAndLosses` does not state those intermediate loss values; the loop's forward pass overwrites them all before they are read.
- Python's `isinstance` also matches subclasses of `Conv2d`, `ReLU`, `MaxPool2d` and `BatchNorm2d`. The model classifies each child by its `LayerKind` alone.
