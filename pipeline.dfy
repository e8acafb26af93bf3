/**
  The feature pipeline that `get_style_model_and_losses` assembles: an
  `nn.Sequential` modelled as a sequence of stages. `Stage<C, S>` is used at
  two types: `Model` holds the tap objects themselves (what the Python code
  returns), `Plan` holds each tap's frozen target in its place (the value
  the specification reasons about). `Targets` maps the first to the second.
*/
module Pipeline {
  import opened Wrappers
  import opened Tensors
  import opened LossTaps

  /** The layer classes the assembly recognises, and any other class by name. */
  datatype LayerKind = Conv | ReLU | MaxPool | BatchNorm | Other(className: string)

  /** One child of the pretrained feature extractor. */
  datatype Child = Child(kind: LayerKind, inplace: bool, weights: Tensor)

  datatype Stage<C, S> =
    | Normalization(mean: Tensor, std: Tensor)
    | Layer(name: string, child: Child)
    | ContentTap(index: nat, content: C)
    | StyleTap(index: nat, style: S)
  {
    predicate IsTap() {
      ContentTap? || StyleTap?
    }
  }

  type Plan = seq<Stage<Tensor, Tensor>>
  type Model = seq<Stage<ContentLoss, StyleLoss>>

  /** The library numerics, left uninterpreted: `(img - mean) / std`, a
      borrowed layer's forward pass, `gram_matrix` and `F.mse_loss`. */
  datatype Numerics = Numerics(
    normalize: (Tensor, Tensor, Tensor) -> Tensor,
    apply: (Child, Tensor) -> Tensor,
    gram: Tensor -> Tensor,
    mse: (Tensor, Tensor) -> real)

  datatype Error =
    | UnrecognizedLayer(className: string)   // RuntimeError raised by the assembly
    | NoAttribute(typeName: string, attribute: string)  // AttributeError on a score or loss that is a plain number

  // ---------------------------------------------------------------- names

  function Digit(d: nat): (c: char)
    requires d < 10
    ensures '0' <= c <= '9' && c as int - '0' as int == d
  {
    ('0' as int + d) as char
  }

  /** `str(n)` for a natural number: decimal digits, no leading zero. */
  function Decimal(n: nat): (s: string)
    ensures 1 <= |s|
    ensures forall k :: 0 <= k < |s| ==> '0' <= s[k] <= '9'
    ensures s[0] == '0' <==> n == 0
    ensures n < 10 <==> |s| == 1
  {
    if n < 10 then [Digit(n)] else Decimal(n / 10) + [Digit(n % 10)]
  }

  /** The number a string of decimal digits denotes. */
  function DigitsValue(s: string): nat
    requires forall k :: 0 <= k < |s| ==> '0' <= s[k] <= '9'
    decreases |s|
  {
    if s == [] then 0 else DigitsValue(s[..|s| - 1]) * 10 + (s[|s| - 1] as int - '0' as int)
  }

  /** Reading the digits back gives the number: `int(str(n)) == n`. */
  lemma {:induction false} DecimalRoundTrip(n: nat)
    ensures DigitsValue(Decimal(n)) == n
  {
    var s := Decimal(n);
    if n >= 10 {
      DecimalRoundTrip(n / 10);
      assert s[..|s| - 1] == Decimal(n / 10);
    } else {
      assert s[..0] == [];
    }
  }

  function KindPrefix(kind: LayerKind): string
    requires !kind.Other?
  {
    match kind
    case Conv => "conv_"
    case ReLU => "relu_"
    case MaxPool => "pool_"
    case BatchNorm => "bn_"
  }

  /** `'conv_{}'.format(i)`, `'relu_{}'.format(i)`, `'pool_{}'.format(i)`, `'bn_{}'.format(i)` */
  function LayerName(kind: LayerKind, i: nat): string
    requires !kind.Other?
  {
    KindPrefix(kind) + Decimal(i)
  }

  /** A layer name parses back: the kind's prefix, then digits that read as the counter. */
  lemma LayerNameParses(kind: LayerKind, i: nat)
    requires !kind.Other?
    ensures var r, p := LayerName(kind, i), KindPrefix(kind);
      && |p| < |r| && r[..|p|] == p
      && (forall k :: |p| <= k < |r| ==> '0' <= r[k] <= '9')
      && DigitsValue(r[|p|..]) == i
  {
    var p := KindPrefix(kind);
    DecimalRoundTrip(i);
    assert LayerName(kind, i)[|p|..] == Decimal(i);
  }

  /** A layer's name determines its kind and the conv counter it carries. */
  lemma LayerNameInjective(k1: LayerKind, i: nat, k2: LayerKind, j: nat)
    requires !k1.Other? && !k2.Other? && LayerName(k1, i) == LayerName(k2, j)
    ensures k1 == k2 && i == j
  {
    var n1, n2 := LayerName(k1, i), LayerName(k2, j);
    assert n1[0] == KindPrefix(k1)[0] && n2[0] == KindPrefix(k2)[0];
    var p := KindPrefix(k1);
    assert Decimal(i) == n1[|p|..] && Decimal(j) == n2[|p|..];
    DecimalRoundTrip(i);
    DecimalRoundTrip(j);
  }

  /** The name each stage is registered under in the `nn.Sequential`. */
  function ModuleName<C, S>(s: Stage<C, S>): string {
    match s
    case Normalization(_, _) => "0"
    case Layer(name, _) => name
    case ContentTap(i, _) => "content_loss_" + Decimal(i)
    case StyleTap(i, _) => "style_loss_" + Decimal(i)
  }

  /** A tap's name is never a layer's name: the prefixes differ. */
  lemma TapNameIsNoLayerName<C, S>(s: Stage<C, S>, kind: LayerKind, i: nat)
    requires s.IsTap() && !kind.Other?
    ensures ModuleName(s) != LayerName(kind, i)
  {
    var n, p := LayerName(kind, i), KindPrefix(kind);
    assert n[..|p|] == p;
    if s.ContentTap? {
      assert ModuleName(s)[3] == 't' && n[3] != 't';
    } else {
      assert ModuleName(s)[0] == 's' && n[0] != 's';
    }
  }

  /** Module names tell the stages apart: a tap shares its name with
      another stage exactly when that stage is a tap of the same kind
      carrying the same conv counter; never with a layer or with the
      normalization's `"0"`. */
  lemma ModuleNamesSeparateKinds<C, S>(s: Stage<C, S>, t: Stage<C, S>)
    requires s.IsTap() && (t.Layer? ==> exists kind: LayerKind, i: nat :: !kind.Other? && t.name == LayerName(kind, i))
    ensures ModuleName(s) == ModuleName(t) <==> t.IsTap() && s.ContentTap? == t.ContentTap? && s.index == t.index
  {
    var n := ModuleName(s);
    if t.IsTap() && n == ModuleName(t) {
      var a := if s.ContentTap? then "content_loss_" else "style_loss_";
      var b := if t.ContentTap? then "content_loss_" else "style_loss_";
      assert n == a + Decimal(s.index) && n == b + Decimal(t.index);
      assert n[0] == a[0] && n[0] == b[0];
      assert a == b;
      assert Decimal(s.index) == n[|a|..] == Decimal(t.index);
      DecimalRoundTrip(s.index);
      DecimalRoundTrip(t.index);
    } else if t.Layer? {
      var kind: LayerKind, i: nat :| !kind.Other? && t.name == LayerName(kind, i);
      TapNameIsNoLayerName(s, kind, i);
    } else if t.Normalization? {
      assert |n| > 1;
    }
  }

  ghost predicate Distinct<T>(xs: seq<T>) {
    forall i, j :: 0 <= i < j < |xs| ==> xs[i] != xs[j]
  }

  // ---------------------------------------------------------------- selection

  /** Concatenation of `f` over the stages, in pipeline order. */
  function Pick<C, S, T>(p: seq<Stage<C, S>>, f: Stage<C, S> -> seq<T>): seq<T>
    decreases |p|
  {
    if p == [] then [] else Pick(p[..|p| - 1], f) + f(p[|p| - 1])
  }

  lemma {:induction false} PickAppend<C, S, T>(a: seq<Stage<C, S>>, b: seq<Stage<C, S>>, f: Stage<C, S> -> seq<T>)
    ensures Pick(a + b, f) == Pick(a, f) + Pick(b, f)
    decreases |b|
  {
    if b == [] {
      assert a + b == a;
    } else {
      var b' := b[..|b| - 1];
      assert (a + b)[..|a + b| - 1] == a + b';
      PickAppend(a, b', f);
    }
  }

  function ContentOf<C, S>(s: Stage<C, S>): seq<C> {
    if s.ContentTap? then [s.content] else []
  }

  function StyleOf<C, S>(s: Stage<C, S>): seq<S> {
    if s.StyleTap? then [s.style] else []
  }

  function LayerOf<C, S>(s: Stage<C, S>): seq<Stage<C, S>> {
    if s.Layer? then [s] else []
  }

  /** The content taps, in pipeline order. */
  function ContentTaps<C, S>(p: seq<Stage<C, S>>): seq<C> {
    Pick(p, ContentOf)
  }

  /** The style taps, in pipeline order. */
  function StyleTaps<C, S>(p: seq<Stage<C, S>>): seq<S> {
    Pick(p, StyleOf)
  }

  /** The borrowed layers, in pipeline order. */
  function Layers<C, S>(p: seq<Stage<C, S>>): seq<Stage<C, S>> {
    Pick(p, LayerOf)
  }

  /** A stage with its tap object replaced by the tap's frozen target. */
  function TargetOf(s: Stage<ContentLoss, StyleLoss>): (r: Stage<Tensor, Tensor>)
    ensures r.IsTap() == s.IsTap()
  {
    match s
    case Normalization(mean, std) => Normalization(mean, std)
    case Layer(name, child) => Layer(name, child)
    case ContentTap(i, t) => ContentTap(i, t.target)
    case StyleTap(i, t) => StyleTap(i, t.target)
  }

  function Targets(m: Model): (p: Plan)
    ensures |p| == |m|
  {
    seq(|m|, k requires 0 <= k < |m| => TargetOf(m[k]))
  }

  // ---------------------------------------------------------------- forward

  function ApplyStage(num: Numerics, s: Stage<Tensor, Tensor>, x: Tensor): Tensor {
    match s
    case Normalization(mean, std) => num.normalize(mean, std, x)
    case Layer(_, child) => num.apply(child, x)
    case ContentTap(_, _) => x
    case StyleTap(_, _) => x
  }

  /** The value `model(x)` returns: every stage applied in order, taps passing through. */
  function Run(num: Numerics, p: Plan, x: Tensor): Tensor
    decreases |p|
  {
    if p == [] then x else ApplyStage(num, p[|p| - 1], Run(num, p[..|p| - 1], x))
  }

  /** The pipeline without its taps. */
  function Untapped(p: Plan): Plan {
    Pick(p, (s: Stage<Tensor, Tensor>) => if s.IsTap() then [] else [s])
  }

  /** Taps hand their input on unchanged, so `model(x)` computes what the
      pipeline without its taps computes. */
  lemma {:induction false} RunSkipsTaps(num: Numerics, p: Plan, x: Tensor)
    ensures Run(num, p, x) == Run(num, Untapped(p), x)
    decreases |p|
  {
    if p != [] {
      var q, s := p[..|p| - 1], p[|p| - 1];
      RunSkipsTaps(num, q, x);
      if s.IsTap() {
        assert Untapped(p) == Untapped(q) + [];
        assert Untapped(p) == Untapped(q);
        assert Run(num, p, x) == Run(num, q, x);
      } else {
        var u := Untapped(p);
        assert u == Untapped(q) + [s];
        assert u[..|u| - 1] == Untapped(q) && u[|u| - 1] == s;
        assert Run(num, u, x) == ApplyStage(num, s, Run(num, Untapped(q), x));
      }
    }
  }

  /** The loss each content tap records when `x` is run through the pipeline, in order. */
  function ContentLossValues(num: Numerics, p: Plan, x: Tensor): (r: seq<real>)
    ensures |r| == |ContentTaps(p)|
    decreases |p|
  {
    if p == [] then []
    else
      var q := p[..|p| - 1];
      ContentLossValues(num, q, x)
        + match p[|p| - 1]
          case ContentTap(_, target) => [num.mse(Run(num, q, x), target)]
          case _ => []
  }

  /** The loss each style tap records when `x` is run through the pipeline, in order. */
  function StyleLossValues(num: Numerics, p: Plan, x: Tensor): (r: seq<real>)
    ensures |r| == |StyleTaps(p)|
    decreases |p|
  {
    if p == [] then []
    else
      var q := p[..|p| - 1];
      StyleLossValues(num, q, x)
        + match p[|p| - 1]
          case StyleTap(_, target) => [num.mse(num.gram(Run(num, q, x)), target)]
          case _ => []
  }

  function Somes<T>(xs: seq<T>): (r: seq<Option<T>>)
    ensures |r| == |xs| && forall k :: 0 <= k < |xs| ==> r[k] == Some(xs[k])
  {
    seq(|xs|, k requires 0 <= k < |xs| => Some(xs[k]))
  }

  function ContentLossesOf(ts: seq<ContentLoss>): seq<Option<real>>
    reads ts
  {
    seq(|ts|, k requires 0 <= k < |ts| reads ts => ts[k].loss)
  }

  function StyleLossesOf(ts: seq<StyleLoss>): seq<Option<real>>
    reads ts
  {
    seq(|ts|, k requires 0 <= k < |ts| reads ts => ts[k].loss)
  }

  function TapObjects(m: Model): set<object> {
    (set t | t in ContentTaps(m) :: t as object) + (set t | t in StyleTaps(m) :: t as object)
  }

  /** Appending one stage extends the run, the tap lists and the loss values by that stage alone. */
  lemma SnocStage(num: Numerics, m: Model, k: nat, x: Tensor)
    requires k < |m|
    ensures Targets(m[..k + 1]) == Targets(m[..k]) + [TargetOf(m[k])]
    ensures Run(num, Targets(m[..k + 1]), x) == ApplyStage(num, TargetOf(m[k]), Run(num, Targets(m[..k]), x))
    ensures ContentTaps(m[..k + 1]) == ContentTaps(m[..k]) + ContentOf(m[k])
    ensures StyleTaps(m[..k + 1]) == StyleTaps(m[..k]) + StyleOf(m[k])
    ensures !m[k].ContentTap? ==> ContentTaps(m[..k + 1]) == ContentTaps(m[..k])
    ensures !m[k].StyleTap? ==> StyleTaps(m[..k + 1]) == StyleTaps(m[..k])
    ensures !m[k].ContentTap? ==>
      ContentLossValues(num, Targets(m[..k + 1]), x) == ContentLossValues(num, Targets(m[..k]), x)
    ensures !m[k].StyleTap? ==>
      StyleLossValues(num, Targets(m[..k + 1]), x) == StyleLossValues(num, Targets(m[..k]), x)
    ensures m[k].ContentTap? ==>
      ContentLossValues(num, Targets(m[..k + 1]), x) == ContentLossValues(num, Targets(m[..k]), x)
        + [num.mse(Run(num, Targets(m[..k]), x), m[k].content.target)]
    ensures m[k].StyleTap? ==>
      StyleLossValues(num, Targets(m[..k + 1]), x) == StyleLossValues(num, Targets(m[..k]), x)
        + [num.mse(num.gram(Run(num, Targets(m[..k]), x)), m[k].style.target)]
  {
    var p := Targets(m[..k + 1]);
    assert p[..k] == Targets(m[..k]);
    assert p == Targets(m[..k]) + [TargetOf(m[k])];
    assert m[..k + 1][..k] == m[..k];
    assert ContentTaps(m[..k]) + [] == ContentTaps(m[..k]);
    assert StyleTaps(m[..k]) + [] == StyleTaps(m[..k]);
    assert ContentLossValues(num, Targets(m[..k]), x) + [] == ContentLossValues(num, Targets(m[..k]), x);
    assert StyleLossValues(num, Targets(m[..k]), x) + [] == StyleLossValues(num, Targets(m[..k]), x);
  }

  lemma SomesSnoc<T>(xs: seq<T>, v: T)
    ensures Somes(xs + [v]) == Somes(xs) + [Some(v)]
  {
  }

  /** With distinct tap objects, the tap at position k is not among the taps before it. */
  lemma TapIsNew(m: Model, k: nat)
    requires k < |m|
    requires Distinct(ContentTaps(m)) && Distinct(StyleTaps(m))
    ensures m[k].ContentTap? ==> m[k].content in ContentTaps(m) && m[k].content !in ContentTaps(m[..k])
    ensures m[k].StyleTap? ==> m[k].style in StyleTaps(m) && m[k].style !in StyleTaps(m[..k])
  {
    assert m[..k + 1] + m[k + 1..] == m;
    assert m[..k + 1][..k] == m[..k];
    PickAppend(m[..k + 1], m[k + 1..], ContentOf);
    PickAppend(m[..k + 1], m[k + 1..], StyleOf);
    var cs, ss := ContentTaps(m[..k]), StyleTaps(m[..k]);
    if m[k].ContentTap? {
      assert ContentTaps(m)[|cs|] == m[k].content;
      forall j | 0 <= j < |cs| ensures cs[j] != m[k].content {
        assert ContentTaps(m)[j] == cs[j];
      }
    }
    if m[k].StyleTap? {
      assert StyleTaps(m)[|ss|] == m[k].style;
      forall j | 0 <= j < |ss| ensures ss[j] != m[k].style {
        assert StyleTaps(m)[j] == ss[j];
      }
    }
  }

  /** A content tap's forward call, seen from the tap lists of the stages before it. */
  method ContentTapForward(num: Numerics, t: ContentLoss, ghost cs: seq<ContentLoss>, ghost ss: seq<StyleLoss>, y: Tensor)
    returns (out: Tensor)
    requires t !in cs
    modifies t
    ensures out == y
    ensures ContentLossesOf(cs + [t]) == old(ContentLossesOf(cs)) + [Some(num.mse(y, t.target))]
    ensures StyleLossesOf(ss) == old(StyleLossesOf(ss))
  {
    out := t.Forward(num.mse, y);
  }

  /** A style tap's forward call, seen from the tap lists of the stages before it. */
  method StyleTapForward(num: Numerics, t: StyleLoss, ghost cs: seq<ContentLoss>, ghost ss: seq<StyleLoss>, y: Tensor)
    returns (out: Tensor)
    requires t !in ss
    modifies t
    ensures out == y
    ensures StyleLossesOf(ss + [t]) == old(StyleLossesOf(ss)) + [Some(num.mse(num.gram(y), t.target))]
    ensures ContentLossesOf(cs) == old(ContentLossesOf(cs))
  {
    out := t.Forward(num.gram, num.mse, y);
  }

  /** What the forward pass has done after the first `k` stages: `y` is
      their output and every tap among them stores its loss. */
  ghost predicate ForwardedUpTo(num: Numerics, model: Model, k: nat, x: Tensor, y: Tensor)
    requires k <= |model|
    reads ContentTaps(model[..k]), StyleTaps(model[..k])
  {
    && y == Run(num, Targets(model[..k]), x)
    && ContentLossesOf(ContentTaps(model[..k])) == Somes(ContentLossValues(num, Targets(model[..k]), x))
    && StyleLossesOf(StyleTaps(model[..k])) == Somes(StyleLossValues(num, Targets(model[..k]), x))
  }

  /** Stage `k` of `model(x)`: applies the stage to `y`; a tap also stores its loss. */
  method ForwardStage(num: Numerics, model: Model, k: nat, x: Tensor, y: Tensor) returns (y': Tensor)
    requires k < |model| && Distinct(ContentTaps(model)) && Distinct(StyleTaps(model))
    requires ForwardedUpTo(num, model, k, x, y)
    modifies TapObjects(model)
    ensures ForwardedUpTo(num, model, k + 1, x, y')
  {
    SnocStage(num, model, k, x);
    TapIsNew(model, k);
    ghost var cs, ss := ContentTaps(model[..k]), StyleTaps(model[..k]);
    match model[k] {
      case Normalization(mean, std) =>
        y' := num.normalize(mean, std, y);
      case Layer(_, child) =>
        y' := num.apply(child, y);
      case ContentTap(_, t) =>
        y' := ContentTapForward(num, t, cs, ss, y);
        SomesSnoc(ContentLossValues(num, Targets(model[..k]), x), num.mse(y, t.target));
      case StyleTap(_, t) =>
        y' := StyleTapForward(num, t, cs, ss, y);
        SomesSnoc(StyleLossValues(num, Targets(model[..k]), x), num.mse(num.gram(y), t.target));
    }
  }

  /** `model(x)`: runs `x` through every stage; each tap stores its loss. */
  method Forward(num: Numerics, model: Model, x: Tensor) returns (y: Tensor)
    requires Distinct(ContentTaps(model)) && Distinct(StyleTaps(model))
    modifies TapObjects(model)
    ensures y == Run(num, Targets(model), x)
    ensures ContentLossesOf(ContentTaps(model)) == Somes(ContentLossValues(num, Targets(model), x))
    ensures StyleLossesOf(StyleTaps(model)) == Somes(StyleLossValues(num, Targets(model), x))
  {
    y := x;
    var k := 0;
    assert model[..0] == [];
    while k < |model|
      invariant 0 <= k <= |model|
      invariant ForwardedUpTo(num, model, k, x, y)
    {
      y := ForwardStage(num, model, k, x, y);
      k := k + 1;
    }
    assert model[..k] == model;
  }
}
