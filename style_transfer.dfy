/**
  The optimisation loop of `run_style_transfer` (vgg_gan.py:167-214): the
  defaults, the summing of the tap losses, the clamp/forward/backward/step
  pass, the progress reports and the final clamp. Autograd and Adam are one
  opaque update function `step`.
*/
module StyleTransfer {
  import opened Wrappers
  import opened Tensors
  import opened LossTaps
  import opened Pipeline
  import opened Assembly

  // ---------------------------------------------------------------- defaults

  /** A number as Python passes it: `1000000` is an `int`, `1e6` a `float`. */
  datatype Number = PyInt(i: int) | PyFloat(f: real)
  {
    function Value(): real {
      match this
      case PyInt(i) => i as real
      case PyFloat(f) => f
    }
  }

  const DefaultNumSteps: int := 300
  const DefaultStyleWeight: Number := PyInt(1000000)
  const DefaultContentWeight: Number := PyInt(1)
  const ContentLayersSelected: seq<string> := ["conv_4"]
  const StyleLayersSelected: seq<string> := ["conv_1", "conv_2", "conv_3", "conv_4", "conv_5"]

  /** A progress report is printed whenever the incremented step counter is a multiple of this. */
  const ReportEvery: nat := 50

  /** What one progress report shows: the step counter and the two scores. */
  datatype Report = Report(step: nat, styleScore: real, contentScore: real)

  /** Everything a pass depends on besides the optimiser state and the image:
      the numerics, the assembled pipeline, the two weights, and the update
      that `loss.backward()` followed by `optimizer.step()` performs. */
  datatype Config<!S> = Config(num: Numerics, plan: Plan, styleWeight: Number, contentWeight: Number,
                              step: (S, Tensor, real) -> (S, Tensor))

  // ---------------------------------------------------------------- loop count

  /** How many times `while step_i <= num_steps` runs its body when `step_i` starts at `stepI`. */
  function PassesFrom(stepI: int, numSteps: int): nat
    decreases numSteps - stepI + 1
  {
    if stepI <= numSteps then 1 + PassesFrom(stepI + 1, numSteps) else 0
  }

  function Passes(numSteps: int): nat {
    PassesFrom(0, numSteps)
  }

  /** The loop runs one pass more than the budget (none for a negative budget). */
  lemma {:induction false} PassesFromCount(stepI: int, numSteps: int)
    ensures PassesFrom(stepI, numSteps) == if stepI <= numSteps then numSteps - stepI + 1 else 0
    decreases numSteps - stepI + 1
  {
    if stepI <= numSteps {
      PassesFromCount(stepI + 1, numSteps);
    }
  }

  lemma PassesIsBudgetPlusOne(numSteps: int)
    ensures numSteps >= 0 ==> Passes(numSteps) == numSteps + 1
    ensures numSteps < 0 ==> Passes(numSteps) == 0
  {
    PassesFromCount(0, numSteps);
  }

  // ---------------------------------------------------------------- scores

  function Sum(xs: seq<real>): real {
    if xs == [] then 0.0 else Sum(xs[..|xs| - 1]) + xs[|xs| - 1]
  }

  /** The values of a list of present losses. */
  function Values(losses: seq<Option<real>>): (vs: seq<real>)
    requires forall j :: 0 <= j < |losses| ==> losses[j].Some?
    ensures |vs| == |losses| && forall j :: 0 <= j < |vs| ==> losses[j] == Some(vs[j])
  {
    seq(|losses|, j requires 0 <= j < |losses| => losses[j].value)
  }

  lemma ValuesOfSomes(xs: seq<real>)
    ensures forall j :: 0 <= j < |Somes(xs)| ==> Somes(xs)[j].Some?
    ensures Values(Somes(xs)) == xs
  {
  }

  /** `score = 0; for l in losses: score += l.loss`. The score stays the integer 0
      (`isTensor` false) when the list is empty; otherwise it is the sum. */
  method AddScores(losses: seq<Option<real>>) returns (score: real, isTensor: bool)
    requires forall j :: 0 <= j < |losses| ==> losses[j].Some?
    ensures score == Sum(Values(losses))
    ensures isTensor <==> losses != []
  {
    score, isTensor := 0.0, false;
    for k := 0 to |losses|
      invariant score == Sum(Values(losses)[..k])
      invariant isTensor <==> k > 0
    {
      assert Values(losses)[..k + 1][..k] == Values(losses)[..k];
      score := score + losses[k].value;
      isTensor := true;
    }
    assert Values(losses)[..|losses|] == Values(losses);
  }

  function StyleScore<S>(cfg: Config<S>, x: Tensor): real {
    Sum(StyleLossValues(cfg.num, cfg.plan, x))
  }

  function ContentScore<S>(cfg: Config<S>, x: Tensor): real {
    Sum(ContentLossValues(cfg.num, cfg.plan, x))
  }

  /** `style_score*style_weight + content_score*content_weight` */
  function Weighted(styleScore: real, styleWeight: real, contentScore: real, contentWeight: real): real {
    styleScore * styleWeight + contentScore * contentWeight
  }

  /** The loss a forward pass of `x` yields; a term whose tap list is empty adds nothing. */
  function TotalLoss<S>(cfg: Config<S>, x: Tensor): (r: real)
    ensures StyleTaps(cfg.plan) == [] ==> r == ContentScore(cfg, x) * cfg.contentWeight.Value()
    ensures ContentTaps(cfg.plan) == [] ==> r == StyleScore(cfg, x) * cfg.styleWeight.Value()
  {
    Weighted(StyleScore(cfg, x), cfg.styleWeight.Value(), ContentScore(cfg, x), cfg.contentWeight.Value())
  }

  /** The type of `style_score*style_weight + content_score*content_weight`
      when both scores are still the integer 0: `int` when both weights are
      Python ints, `float` otherwise. */
  function ZeroLossType(styleWeight: Number, contentWeight: Number): string {
    if styleWeight.PyInt? && contentWeight.PyInt? then "int" else "float"
  }

  // ---------------------------------------------------------------- trajectory

  /** One pass of the loop body on (optimiser state, image): clamp, forward, backward and step. */
  function Pass<S>(cfg: Config<S>, st: (S, Tensor)): (S, Tensor) {
    var x := Clamped(st.1);
    cfg.step(st.0, x, TotalLoss(cfg, x))
  }

  /** The optimiser state and the image after `n` passes. */
  function Trajectory<S>(cfg: Config<S>, st0: (S, Tensor), n: nat): (S, Tensor) {
    if n == 0 then st0 else Pass(cfg, Trajectory(cfg, st0, n - 1))
  }

  /** A pass depends only on the clamped image: clamping first changes nothing. */
  lemma PassSeesOnlyClampedImage<S>(cfg: Config<S>, st: (S, Tensor))
    ensures Pass(cfg, st) == Pass(cfg, (st.0, Clamped(st.1)))
  {
    ClampedIdempotent(st.1);
  }

  /** `m + n` passes are `m` passes followed by `n` passes from where they end. */
  lemma {:induction false} TrajectoryCompose<S>(cfg: Config<S>, st0: (S, Tensor), m: nat, n: nat)
    ensures Trajectory(cfg, st0, m + n) == Trajectory(cfg, Trajectory(cfg, st0, m), n)
  {
    if n > 0 {
      TrajectoryCompose(cfg, st0, m, n - 1);
      var a := Trajectory(cfg, st0, m + (n - 1));
      var b := Trajectory(cfg, Trajectory(cfg, st0, m), n - 1);
      assert a == b;
      assert Trajectory(cfg, st0, m + n) == Pass(cfg, a);
      assert Trajectory(cfg, Trajectory(cfg, st0, m), n) == Pass(cfg, b);
    }
  }

  /** The image the forward pass of pass `k` (counting from 0) sees. */
  function Seen<S>(cfg: Config<S>, st0: (S, Tensor), k: nat): (x: Tensor)
    ensures InUnitRange(x)
  {
    Clamped(Trajectory(cfg, st0, k).1)
  }

  /** The report printed after pass `m` (counting from 1): the scores of its forward pass. */
  function ReportAfter<S>(cfg: Config<S>, st0: (S, Tensor), m: nat): Report
    requires 1 <= m
  {
    Report(m, StyleScore(cfg, Seen(cfg, st0, m - 1)), ContentScore(cfg, Seen(cfg, st0, m - 1)))
  }

  /** The reports printed during the first `n` passes: after pass `m` (counting
      from 1) when `m` is a multiple of 50. */
  function Reports<S>(cfg: Config<S>, st0: (S, Tensor), n: nat): (r: seq<Report>)
    ensures forall j :: 0 <= j < |r| ==> 1 <= r[j].step <= n && r[j].step % ReportEvery == 0
  {
    if n == 0 then []
    else Reports(cfg, st0, n - 1) + (if n % ReportEvery == 0 then [ReportAfter(cfg, st0, n)] else [])
  }

  lemma DivStep(n: nat)
    requires 1 <= n
    ensures n % ReportEvery == 0 ==> n / ReportEvery == (n - 1) / ReportEvery + 1 && n == (n / ReportEvery) * ReportEvery
    ensures n % ReportEvery != 0 ==> n / ReportEvery == (n - 1) / ReportEvery
  {
  }

  /** Report `j` is the one printed after pass `(j + 1) * 50`, and there are
      as many reports as multiples of 50 among the passes run. */
  lemma {:induction false} ReportsAtMultiples<S>(cfg: Config<S>, st0: (S, Tensor), n: nat)
    ensures |Reports(cfg, st0, n)| == n / ReportEvery
    ensures forall j :: 0 <= j < |Reports(cfg, st0, n)| ==>
      (j + 1) * ReportEvery <= n && Reports(cfg, st0, n)[j] == ReportAfter(cfg, st0, (j + 1) * ReportEvery)
  {
    if n > 0 {
      ReportsAtMultiples(cfg, st0, n - 1);
      DivStep(n);
      var prev := Reports(cfg, st0, n - 1);
      var rs := Reports(cfg, st0, n);
      if n % ReportEvery == 0 {
        assert rs == prev + [ReportAfter(cfg, st0, n)];
        forall j | 0 <= j < |rs|
          ensures (j + 1) * ReportEvery <= n && rs[j] == ReportAfter(cfg, st0, (j + 1) * ReportEvery)
        {
          if j < |prev| {
            assert rs[j] == prev[j];
          } else {
            assert j + 1 == n / ReportEvery;
          }
        }
      } else {
        assert rs == prev;
      }
    }
  }

  /** With the default budget of 300 the body is scheduled 301 times, with
      six reports, after passes 50, 100, ..., 300; when both tap lists are
      non-empty the loop completes and prints all six. */
  lemma DefaultBudget<S>(cfg: Config<S>, st0: (S, Tensor), img: Image)
    ensures Passes(DefaultNumSteps) == 301
    ensures |Reports(cfg, st0, Passes(DefaultNumSteps))| == 6
    ensures forall j :: 0 <= j < 6 ==> Reports(cfg, st0, 301)[j].step == (j + 1) * 50
    ensures ContentTaps(cfg.plan) != [] && StyleTaps(cfg.plan) != [] ==>
      Outcome(cfg, st0, Passes(DefaultNumSteps), img).0 == Ok(img)
      && Outcome(cfg, st0, Passes(DefaultNumSteps), img).1 == Reports(cfg, st0, 301)
  {
    PassesIsBudgetPlusOne(DefaultNumSteps);
    ReportsAtMultiples(cfg, st0, 301);
  }

  /** A report is printed exactly when the incremented counter is a multiple of 50. */
  lemma ReportedExactlyAtMultiples<S>(cfg: Config<S>, st0: (S, Tensor), n: nat, m: nat)
    ensures (exists j :: 0 <= j < |Reports(cfg, st0, n)| && Reports(cfg, st0, n)[j].step == m)
        <==> 1 <= m <= n && m % ReportEvery == 0
  {
    ReportsAtMultiples(cfg, st0, n);
    var rs := Reports(cfg, st0, n);
    if 1 <= m <= n && m % ReportEvery == 0 {
      var j := m / ReportEvery - 1;
      assert m / ReportEvery <= n / ReportEvery;
      assert rs[j].step == m;
    }
  }

  /** `model(input_img)` followed by the two summing loops: the scores of a
      forward pass of `x`, and whether each is a tensor (its tap list is non-empty). */
  method ForwardScores(num: Numerics, model: Model, styleLosses: seq<StyleLoss>,
                       contentLosses: seq<ContentLoss>, x: Tensor)
    returns (styleScore: real, styleIsTensor: bool, contentScore: real, contentIsTensor: bool)
    requires styleLosses == StyleTaps(model) && contentLosses == ContentTaps(model)
    requires Distinct(styleLosses) && Distinct(contentLosses)
    modifies TapObjects(model)
    ensures styleScore == Sum(StyleLossValues(num, Targets(model), x))
    ensures contentScore == Sum(ContentLossValues(num, Targets(model), x))
    ensures styleIsTensor <==> StyleTaps(Targets(model)) != []
    ensures contentIsTensor <==> ContentTaps(Targets(model)) != []
  {
    var _ := Forward(num, model, x);
    ValuesOfSomes(StyleLossValues(num, Targets(model), x));
    ValuesOfSomes(ContentLossValues(num, Targets(model), x));
    styleScore, styleIsTensor := AddScores(StyleLossesOf(styleLosses));
    contentScore, contentIsTensor := AddScores(ContentLossesOf(contentLosses));
  }

  /** One more pass extends the trajectory by a pass on the clamped image. */
  lemma TrajectorySnoc<S>(cfg: Config<S>, st0: (S, Tensor), k: nat)
    ensures Trajectory(cfg, st0, k + 1)
      == cfg.step(Trajectory(cfg, st0, k).0, Seen(cfg, st0, k), TotalLoss(cfg, Seen(cfg, st0, k)))
  {
  }

  /** Pass `k + 1` adds the report due after it, with the scores of its forward pass. */
  lemma ReportsSnoc<S>(cfg: Config<S>, st0: (S, Tensor), k: nat, styleScore: real, contentScore: real)
    requires styleScore == StyleScore(cfg, Seen(cfg, st0, k)) && contentScore == ContentScore(cfg, Seen(cfg, st0, k))
    ensures (k + 1) % ReportEvery == 0 ==>
      Reports(cfg, st0, k + 1) == Reports(cfg, st0, k) + [Report(k + 1, styleScore, contentScore)]
      && ReportAfter(cfg, st0, k + 1) == Report(k + 1, styleScore, contentScore)
    ensures (k + 1) % ReportEvery != 0 ==> Reports(cfg, st0, k + 1) == Reports(cfg, st0, k)
  {
  }

  lemma FirstMultiple(m: nat)
    requires 0 < m <= ReportEvery && m % ReportEvery == 0
    ensures m == ReportEvery
  {
  }

  /** Pass `k` of the loop up to `optimizer.step()`: clamp the image in
      place, run it through the pipeline, add up the tap losses and weigh
      them; then either `loss.backward()` fails because the loss is the
      plain number 0 (no tap at all), or the optimiser updates the image to the
      one after pass `k`. */
  method ClampForwardStep<S>(ghost cfg: Config<S>, ghost st0: (S, Tensor), ghost k: nat,
                             num: Numerics, model: Model, styleLosses: seq<StyleLoss>,
                             contentLosses: seq<ContentLoss>, inputImg: Image, opt: S,
                             styleWeight: Number, contentWeight: Number, step: (S, Tensor, real) -> (S, Tensor))
    returns (opt': S, failed: bool, styleScore: real, styleIsTensor: bool, contentScore: real, contentIsTensor: bool)
    requires cfg == Config(num, Targets(model), styleWeight, contentWeight, step)
    requires (opt, inputImg.data) == Trajectory(cfg, st0, k)
    requires styleLosses == StyleTaps(model) && contentLosses == ContentTaps(model)
    requires Distinct(styleLosses) && Distinct(contentLosses)
    modifies inputImg, TapObjects(model)
    ensures styleScore == StyleScore(cfg, Seen(cfg, st0, k)) && contentScore == ContentScore(cfg, Seen(cfg, st0, k))
    ensures styleIsTensor <==> StyleTaps(cfg.plan) != []
    ensures contentIsTensor <==> ContentTaps(cfg.plan) != []
    ensures failed <==> !styleIsTensor && !contentIsTensor
    ensures failed ==> opt' == opt && inputImg.data == Seen(cfg, st0, k)
    ensures !failed ==> (opt', inputImg.data) == Trajectory(cfg, st0, k + 1)
  {
    inputImg.ClampInPlace();
    ghost var x := inputImg.data;
    assert x == Seen(cfg, st0, k);
    styleScore, styleIsTensor, contentScore, contentIsTensor :=
      ForwardScores(num, model, styleLosses, contentLosses, inputImg.data);
    assert inputImg.data == x;
    opt', failed := opt, !styleIsTensor && !contentIsTensor;
    if !failed {
      var loss := Weighted(styleScore, styleWeight.Value(), contentScore, contentWeight.Value());
      var (o, data) := step(opt, inputImg.data, loss);
      opt', inputImg.data := o, data;
      TrajectorySnoc(cfg, st0, k);
    }
  }

  /** What one pass of the `while` body (vgg_gan.py:185-209) leaves when `k`
      passes are done, as the optimiser state, the image, the reports
      printed so far and the error raised, if any: the backward error when
      there is no tap at all; the `.item()` error when the incremented
      counter reaches a multiple of 50 and one tap list is empty; otherwise
      the state after pass `k + 1` and the report printed after it, if any. */
  ghost function AfterPass<S>(cfg: Config<S>, st0: (S, Tensor), k: nat): (S, Tensor, seq<Report>, Option<Error>) {
    var noStyle := StyleTaps(cfg.plan) == [];
    var noContent := ContentTaps(cfg.plan) == [];
    var next := Trajectory(cfg, st0, k + 1);
    if noStyle && noContent then
      (Trajectory(cfg, st0, k).0, Seen(cfg, st0, k), Reports(cfg, st0, k), Some(NoAttribute(ZeroLossType(cfg.styleWeight, cfg.contentWeight), "backward")))
    else if (noStyle || noContent) && (k + 1) % ReportEvery == 0 then
      (next.0, next.1, Reports(cfg, st0, k), Some(NoAttribute("int", "item")))
    else
      (next.0, next.1, Reports(cfg, st0, k + 1), None)
  }

  /** One pass of the `while` body (vgg_gan.py:185-209) when `k` passes are done. */
  method OnePass<S>(ghost cfg: Config<S>, ghost st0: (S, Tensor), ghost numSteps: int, k: nat,
                    num: Numerics, model: Model, styleLosses: seq<StyleLoss>,
                    contentLosses: seq<ContentLoss>, inputImg: Image, opt: S,
                    styleWeight: Number, contentWeight: Number, step: (S, Tensor, real) -> (S, Tensor),
                    reports: seq<Report>)
    returns (opt': S, reports': seq<Report>, stop: Option<Error>)
    requires cfg == Config(num, Targets(model), styleWeight, contentWeight, step)
    requires Progress(cfg, st0, numSteps, k, opt, inputImg.data, reports) && k <= numSteps
    requires styleLosses == StyleTaps(model) && contentLosses == ContentTaps(model)
    requires Distinct(styleLosses) && Distinct(contentLosses)
    modifies inputImg, TapObjects(model)
    ensures (opt', inputImg.data, reports', stop) == AfterPass(cfg, st0, k)
    ensures stop.None? ==> Progress(cfg, st0, numSteps, k + 1, opt', inputImg.data, reports')
    ensures stop.Some? ==> (Err(stop.value), reports', inputImg.data) == Outcome(cfg, st0, Passes(numSteps), inputImg)
  {
    ghost var data := inputImg.data;
    var failed, styleScore, styleIsTensor, contentScore, contentIsTensor;
    opt', failed, styleScore, styleIsTensor, contentScore, contentIsTensor :=
      ClampForwardStep(cfg, st0, k, num, model, styleLosses, contentLosses, inputImg, opt,
                       styleWeight, contentWeight, step);
    reports', stop := reports, None;
    if failed {
      stop := Some(NoAttribute(ZeroLossType(styleWeight, contentWeight), "backward"));
    } else {
      ReportsSnoc(cfg, st0, k, styleScore, contentScore);
      if (k + 1) % ReportEvery == 0 {
        if !styleIsTensor || !contentIsTensor {
          stop := Some(NoAttribute("int", "item"));
        } else {
          reports' := reports + [Report(k + 1, styleScore, contentScore)];
        }
      }
    }
    PassKeepsProgress(cfg, st0, numSteps, k, opt, data, reports, inputImg, opt', inputImg.data, reports', stop);
  }

  // ---------------------------------------------------------------- the loop

  /** The result of the optimisation loop for `n` passes: it fails at the
      first pass when there is no tap at all (the loss is the plain number 0 and
      has no `backward`), fails at the first report when one of the two tap
      lists is empty (that score is the integer 0 and has no `item`), and
      otherwise returns the image after `n` passes, clamped once more. */
  ghost function Outcome<S>(cfg: Config<S>, st0: (S, Tensor), n: nat, img: Image)
    : (r: (Result<Image, Error>, seq<Report>, Tensor))
    ensures r.0.Ok? ==> r.0.value == img && InUnitRange(r.2) && |r.1| == n / ReportEvery
    ensures r.0.Err? ==> r.0.error.NoAttribute? && r.1 == []
  {
    ReportsAtMultiples(cfg, st0, n);
    ReportsAtMultiples(cfg, st0, ReportEvery - 1);
    var noStyle := StyleTaps(cfg.plan) == [];
    var noContent := ContentTaps(cfg.plan) == [];
    if noStyle && noContent && 1 <= n then
      (Err(NoAttribute(ZeroLossType(cfg.styleWeight, cfg.contentWeight), "backward")), [], Clamped(st0.1))
    else if (noStyle || noContent) && ReportEvery <= n then
      (Err(NoAttribute("int", "item")), Reports(cfg, st0, ReportEvery - 1), Trajectory(cfg, st0, ReportEvery).1)
    else
      (Ok(img), Reports(cfg, st0, n), Clamped(Trajectory(cfg, st0, n).1))
  }

  /** The loop invariant of `while step_i <= num_steps` after `k` passes:
      the state and the reports are those after `k` passes, and the passes
      survived show which tap lists are non-empty. */
  ghost predicate Progress<S>(cfg: Config<S>, st0: (S, Tensor), numSteps: int, k: nat,
                              opt: S, data: Tensor, reports: seq<Report>)
  {
    && k <= Passes(numSteps) && (k <= numSteps || k == Passes(numSteps))
    && (opt, data) == Trajectory(cfg, st0, k)
    && reports == Reports(cfg, st0, k)
    && (k >= 1 ==> ContentTaps(cfg.plan) != [] || StyleTaps(cfg.plan) != [])
    && (k >= ReportEvery ==> ContentTaps(cfg.plan) != [] && StyleTaps(cfg.plan) != [])
  }

  /** Before the first pass. */
  lemma ProgressStart<S>(cfg: Config<S>, st0: (S, Tensor), numSteps: int)
    ensures Progress(cfg, st0, numSteps, 0, st0.0, st0.1, [])
  {
    PassesIsBudgetPlusOne(numSteps);
  }

  /** A pass taken while the loop condition holds either keeps the invariant
      one pass further or ends the loop with the outcome promised. */
  lemma PassKeepsProgress<S>(cfg: Config<S>, st0: (S, Tensor), numSteps: int, k: nat, opt: S, data: Tensor,
                             reports: seq<Report>, img: Image, opt': S, data': Tensor, reports': seq<Report>,
                             stop: Option<Error>)
    requires Progress(cfg, st0, numSteps, k, opt, data, reports) && k <= numSteps
    requires (opt', data', reports', stop) == AfterPass(cfg, st0, k)
    ensures stop.None? ==> Progress(cfg, st0, numSteps, k + 1, opt', data', reports')
    ensures stop.Some? ==> (Err(stop.value), reports', data') == Outcome(cfg, st0, Passes(numSteps), img)
  {
    PassesIsBudgetPlusOne(numSteps);
    var noStyle := StyleTaps(cfg.plan) == [];
    var noContent := ContentTaps(cfg.plan) == [];
    if noStyle && noContent {
      assert k == 0;
    } else if (noStyle || noContent) && (k + 1) % ReportEvery == 0 {
      FirstMultiple(k + 1);
    } else if k + 1 == ReportEvery {
      assert (k + 1) % ReportEvery == 0;
    }
  }

  /** Leaving the loop: the image after every pass, clamped once more. */
  lemma ProgressDone<S>(cfg: Config<S>, st0: (S, Tensor), numSteps: int, k: nat, opt: S, data: Tensor,
                        reports: seq<Report>, img: Image)
    requires Progress(cfg, st0, numSteps, k, opt, data, reports) && k > numSteps
    ensures (Ok(img), reports, Clamped(data)) == Outcome(cfg, st0, Passes(numSteps), img)
  {
    PassesIsBudgetPlusOne(numSteps);
  }

  /** vgg_gan.py:180-214, in `run_style_transfer`: the loop over an assembled pipeline. */
  method Optimize<S>(num: Numerics, model: Model, styleLosses: seq<StyleLoss>, contentLosses: seq<ContentLoss>,
                     inputImg: Image, numSteps: int, styleWeight: Number, contentWeight: Number,
                     opt0: S, step: (S, Tensor, real) -> (S, Tensor))
    returns (r: Result<Image, Error>, reports: seq<Report>)
    requires styleLosses == StyleTaps(model) && contentLosses == ContentTaps(model)
    requires Distinct(styleLosses) && Distinct(contentLosses)
    modifies inputImg, TapObjects(model)
    ensures (r, reports, inputImg.data)
      == Outcome(Config(num, Targets(model), styleWeight, contentWeight, step), (opt0, old(inputImg.data)),
                 Passes(numSteps), inputImg)
  {
    ghost var cfg := Config(num, Targets(model), styleWeight, contentWeight, step);
    ghost var st0 := (opt0, inputImg.data);
    var opt := opt0;
    reports := [];
    var stepI := 0;
    ProgressStart(cfg, st0, numSteps);
    while stepI <= numSteps
      invariant Progress(cfg, st0, numSteps, stepI, opt, inputImg.data, reports)
      decreases numSteps - stepI
    {
      var stop;
      opt, reports, stop := OnePass(cfg, st0, numSteps, stepI, num, model, styleLosses, contentLosses, inputImg, opt,
                                    styleWeight, contentWeight, step, reports);
      if stop.Some? {
        return Err(stop.value), reports;
      }
      stepI := stepI + 1;
    }
    ProgressDone(cfg, st0, numSteps, stepI, opt, inputImg.data, reports, inputImg);
    inputImg.ClampInPlace();
    return Ok(inputImg), reports;
  }

  /** `run_style_transfer`: assembles the pipeline, then repeatedly clamps the
      image, runs it through the pipeline, adds up the tap losses and lets the
      optimiser update the image; finally clamps once more and returns the
      image object it was given. */
  method RunStyleTransfer<S>(num: Numerics, cnn: seq<Child>, mean: Tensor, std: Tensor,
                             contentImg: Tensor, styleImg: Tensor, inputImg: Image,
                             opt0: S, step: (S, Tensor, real) -> (S, Tensor),
                             numSteps: int := DefaultNumSteps,
                             styleWeight: Number := DefaultStyleWeight,
                             contentWeight: Number := DefaultContentWeight,
                             contentLayers: seq<string> := ContentLayersSelected,
                             styleLayers: seq<string> := StyleLayersSelected)
    returns (r: Result<Image, Error>, reports: seq<Report>)
    requires UniqueModuleNames(num, Inputs(mean, std, styleImg, contentImg, contentLayers, styleLayers), cnn)
    modifies inputImg
    ensures var built := Assemble(num, Inputs(mean, std, styleImg, contentImg, contentLayers, styleLayers), cnn);
      built.Err? ==> r == Err(built.error) && reports == [] && inputImg.data == old(inputImg.data)
    ensures var built := Assemble(num, Inputs(mean, std, styleImg, contentImg, contentLayers, styleLayers), cnn);
      built.Ok? ==>
        (r, reports, inputImg.data)
          == Outcome(Config(num, built.value, styleWeight, contentWeight, step),
                     (opt0, old(inputImg.data)), Passes(numSteps), inputImg)
  {
    var inp := Inputs(mean, std, styleImg, contentImg, contentLayers, styleLayers);
    var built := GetStyleModelAndLosses(num, cnn, inp);
    if built.Err? {
      return Err(built.error), [];
    }
    var (model, styleLosses, contentLosses) := built.value;
    r, reports := Optimize(num, model, styleLosses, contentLosses, inputImg, numSteps, styleWeight, contentWeight, opt0, step);
  }
}
