/**
  `get_style_model_and_losses`: walks the extractor's children in order,
  names each one by kind with a counter that advances only on convolutions,
  rejects unknown kinds, swaps every ReLU for a non-in-place one, splices a
  content and/or style tap after each requested layer, and finally cuts the
  pipeline off after the last tap.

  `Walk` and `Trim` specify the two loops of the Python function over values;
  `GetStyleModelAndLosses` is the imperative procedure proved against them.
*/
module Assembly {
  import opened Wrappers
  import opened Tensors
  import opened LossTaps
  import opened Pipeline

  /** Everything besides the extractor that the Python function receives. */
  datatype Inputs = Inputs(
    mean: Tensor, std: Tensor,
    styleImg: Tensor, contentImg: Tensor,
    contentLayers: seq<string>, styleLayers: seq<string>)

  /** The loop state: the pipeline so far and the conv counter `i`. */
  datatype Built = Built(stages: Plan, counter: nat)

  /** What the assembly puts in the pipeline for a ReLU: a fresh `nn.ReLU(inplace=False)`. */
  function Substitute(c: Child): (r: Child)
    ensures r.kind == c.kind
    ensures c.kind.ReLU? ==> !r.inplace
    ensures !c.kind.ReLU? ==> r == c
  {
    if c.kind.ReLU? then Child(ReLU, false, []) else c
  }

  /** The conv counter after a child of the given kind: `i += 1` on a convolution only. */
  function NextCounter(kind: LayerKind, i: nat): (r: nat)
    ensures i <= r <= i + 1 && (r == i + 1 <==> kind.Conv?)
  {
    if kind.Conv? then i + 1 else i
  }

  /** vgg_gan.py:143-149: a content tap after the layer that ends `p`, when its
      name is requested for content; the target is what `p` makes of the
      content image. */
  function WithContentTap(num: Numerics, inp: Inputs, p: Plan, name: string, i: nat): Plan {
    if name in inp.contentLayers then p + [ContentTap(i, Run(num, p, inp.contentImg))] else p
  }

  /** vgg_gan.py:151-157: a style tap at the end of `p`, when the layer's name is
      requested for style; the target is the Gram matrix of what `p` makes
      of the style image. */
  function WithStyleTap(num: Numerics, inp: Inputs, p: Plan, name: string, i: nat): Plan {
    if name in inp.styleLayers then p + [StyleTap(i, num.gram(Run(num, p, inp.styleImg)))] else p
  }

  /** The taps spliced in after a layer registered under `name` ends the
      pipeline `p`: a content tap if `name` is requested for content, then a
      style tap if it is requested for style. */
  function Splice(num: Numerics, inp: Inputs, p: Plan, name: string, i: nat): (r: Plan)
    ensures |p| <= |r| <= |p| + 2 && r[..|p|] == p
    ensures forall j :: |p| <= j < |r| ==> r[j].IsTap()
  {
    WithStyleTap(num, inp, WithContentTap(num, inp, p, name, i), name, i)
  }

  /** The layer stage a known child becomes: its (substituted) module under its name. */
  function LayerFor(c: Child, i: nat): Stage<Tensor, Tensor>
    requires !c.kind.Other?
  {
    Layer(LayerName(c.kind, i), Substitute(c))
  }

  /** One iteration of the `for layer in cnn.children()` loop. */
  function AddLayer(num: Numerics, inp: Inputs, b: Built, c: Child): Result<Built, Error> {
    if c.kind.Other? then Err(UnrecognizedLayer(c.kind.className))
    else
      var i := NextCounter(c.kind, b.counter);
      Ok(Built(Splice(num, inp, b.stages + [LayerFor(c, i)], LayerName(c.kind, i), i), i))
  }

  /** The pipeline and counter after the first loop has consumed `cnn`. */
  function Walk(num: Numerics, inp: Inputs, cnn: seq<Child>): (r: Result<Built, Error>)
    ensures r.Ok? ==> 1 <= |r.value.stages| && r.value.stages[0] == Normalization(inp.mean, inp.std)
    decreases |cnn|
  {
    if cnn == [] then Ok(Built([Normalization(inp.mean, inp.std)], 0))
    else
      match Walk(num, inp, cnn[..|cnn| - 1])
      case Err(e) => Err(e)
      case Ok(b) => AddLayer(num, inp, b, cnn[|cnn| - 1])
  }

  /** Where the backward scan `for i in range(len(model) - 1, -1, -1)` stops:
      the last tap, or 0 when the scan runs out without a `break`. */
  function LastTap<C, S>(p: seq<Stage<C, S>>): (k: nat)
    requires p != []
    ensures k < |p|
    ensures forall j :: k < j < |p| ==> !p[j].IsTap()
    ensures 0 < k ==> p[k].IsTap()
    decreases |p|
  {
    if |p| == 1 || p[|p| - 1].IsTap() then |p| - 1 else LastTap(p[..|p| - 1])
  }

  /** `model[:(i + 1)]` after the backward scan. */
  function Trim<C, S>(p: seq<Stage<C, S>>): seq<Stage<C, S>>
    requires p != []
  {
    p[..LastTap(p) + 1]
  }

  /** The whole assembly as a value: the trimmed pipeline, or the error raised. */
  function Assemble(num: Numerics, inp: Inputs, cnn: seq<Child>): Result<Plan, Error> {
    match Walk(num, inp, cnn)
    case Err(e) => Err(e)
    case Ok(b) => Ok(Trim(b.stages))
  }

  /** `add_module` replaces an entry whose name is already taken; the model
      requires that no name is registered twice. Tap names never clash with
      layer names (`ModuleNamesSeparateKinds`), so this asks that no two
      children of one kind share a counter value, and that no two requested
      layers with the same counter get a tap of the same kind. */
  ghost predicate UniqueModuleNames(num: Numerics, inp: Inputs, cnn: seq<Child>) {
    Walk(num, inp, cnn).Ok? ==>
      Distinct(seq(|Walk(num, inp, cnn).value.stages|,
                   k requires 0 <= k < |Walk(num, inp, cnn).value.stages| =>
                     ModuleName(Walk(num, inp, cnn).value.stages[k])))
  }

  // ---------------------------------------------------------------- truncation

  lemma {:induction false} NoTapsPicksNone<C, S>(q: seq<Stage<C, S>>)
    requires forall j :: 0 <= j < |q| ==> !q[j].IsTap()
    ensures ContentTaps(q) == [] && StyleTaps(q) == []
    decreases |q|
  {
    if q != [] {
      NoTapsPicksNone(q[..|q| - 1]);
    }
  }

  /** The backward scan keeps the pipeline up to and including its last tap:
      a prefix that still starts with the same stage, that ends in a tap
      whenever a tap exists past the first stage, that is the first stage
      alone otherwise, and that loses no tap. */
  lemma TrimCutsAfterLastTap<C, S>(p: seq<Stage<C, S>>)
    requires p != []
    ensures 1 <= |Trim(p)| <= |p| && Trim(p) == p[..|Trim(p)|]
    ensures forall j :: |Trim(p)| <= j < |p| ==> !p[j].IsTap()
    ensures (exists j :: 0 < j < |p| && p[j].IsTap()) ==> Trim(p)[|Trim(p)| - 1].IsTap()
    ensures (forall j :: 0 < j < |p| ==> !p[j].IsTap()) ==> Trim(p) == p[..1]
    ensures ContentTaps(Trim(p)) == ContentTaps(p) && StyleTaps(Trim(p)) == StyleTaps(p)
  {
    var k := LastTap(p);
    assert p == p[..k + 1] + p[k + 1..];
    PickAppend(p[..k + 1], p[k + 1..], ContentOf);
    PickAppend(p[..k + 1], p[k + 1..], StyleOf);
    NoTapsPicksNone(p[k + 1..]);
    assert ContentTaps(p[..k + 1]) + [] == ContentTaps(p[..k + 1]);
    assert StyleTaps(p[..k + 1]) + [] == StyleTaps(p[..k + 1]);
  }

  // ---------------------------------------------------------------- validation

  ghost predicate AllKnown(cnn: seq<Child>) {
    forall k :: 0 <= k < |cnn| ==> !cnn[k].kind.Other?
  }

  /** The position of the first child of unknown kind, if there is one. */
  function FirstUnknown(cnn: seq<Child>): (r: Option<nat>)
    ensures r.Some? ==> r.value < |cnn| && cnn[r.value].kind.Other?
    ensures r.Some? ==> forall j :: 0 <= j < r.value ==> !cnn[j].kind.Other?
    ensures r.None? <==> AllKnown(cnn)
    decreases |cnn|
  {
    if cnn == [] then None
    else
      var n := |cnn| - 1;
      match FirstUnknown(cnn[..n])
      case Some(k) => assert cnn[..n][k] == cnn[k]; Some(k)
      case None =>
        assert forall j :: 0 <= j < n ==> cnn[..n][j] == cnn[j];
        if cnn[n].kind.Other? then Some(n) else None
  }

  /** Assembly fails exactly when some child has an unknown kind, and the
      error names the class of the first such child. */
  lemma {:induction false} WalkRejectsFirstUnknownLayer(num: Numerics, inp: Inputs, cnn: seq<Child>)
    ensures Walk(num, inp, cnn).Err? <==> FirstUnknown(cnn).Some?
    ensures Walk(num, inp, cnn).Err? ==>
      Walk(num, inp, cnn).error == UnrecognizedLayer(cnn[FirstUnknown(cnn).value].kind.className)
    decreases |cnn|
  {
    if cnn != [] {
      var n := |cnn| - 1;
      var q := cnn[..n];
      WalkRejectsFirstUnknownLayer(num, inp, q);
      match Walk(num, inp, q)
      case Err(e) =>
        assert q[FirstUnknown(q).value] == cnn[FirstUnknown(q).value];
      case Ok(b) =>
    }
  }

  /** The whole assembly raises exactly when some child has an unknown
      kind, and the `RuntimeError` names the first such child's class. */
  lemma AssembleRejectsUnknownLayer(num: Numerics, inp: Inputs, cnn: seq<Child>)
    ensures Assemble(num, inp, cnn).Err? <==> !AllKnown(cnn)
    ensures Assemble(num, inp, cnn).Err? ==>
      Assemble(num, inp, cnn).error == UnrecognizedLayer(cnn[FirstUnknown(cnn).value].kind.className)
  {
    WalkRejectsFirstUnknownLayer(num, inp, cnn);
  }

  // ---------------------------------------------------------------- naming

  /** How many convolutions `cnn` holds: the conv counter after it. */
  function ConvCount(cnn: seq<Child>): nat
    decreases |cnn|
  {
    if cnn == [] then 0 else ConvCount(cnn[..|cnn| - 1]) + if cnn[|cnn| - 1].kind.Conv? then 1 else 0
  }

  /** The layer stages the assembly should produce for `cnn`, in order: each
      child under its kind's prefix and the conv counter after it, with ReLUs
      substituted. */
  function ExpectedLayers(cnn: seq<Child>): (r: Plan)
    requires AllKnown(cnn)
    ensures |r| == |cnn|
    decreases |cnn|
  {
    if cnn == [] then []
    else
      var c := cnn[|cnn| - 1];
      ExpectedLayers(cnn[..|cnn| - 1]) + [Layer(LayerName(c.kind, ConvCount(cnn)), Substitute(c))]
  }

  /** Child k is named by the number of convolutions among children 0..k. */
  lemma {:induction false} ExpectedLayerAt(cnn: seq<Child>, k: nat)
    requires AllKnown(cnn) && k < |cnn|
    ensures ExpectedLayers(cnn)[k]
      == Layer(LayerName(cnn[k].kind, ConvCount(cnn[..k + 1])), Substitute(cnn[k]))
    decreases |cnn|
  {
    var n := |cnn| - 1;
    if k < n {
      var q := cnn[..n];
      assert q[k] == cnn[k] && q[..k + 1] == cnn[..k + 1];
      ExpectedLayerAt(q, k);
    } else {
      assert cnn[..k + 1] == cnn;
    }
  }

  /** A successful walk over `cnn` is a successful walk over all but its last
      child, followed by that child's layer and the taps spliced after it. */
  lemma WalkSnoc(num: Numerics, inp: Inputs, cnn: seq<Child>)
    requires cnn != [] && Walk(num, inp, cnn).Ok?
    ensures Walk(num, inp, cnn[..|cnn| - 1]).Ok? && !cnn[|cnn| - 1].kind.Other?
    ensures var b := Walk(num, inp, cnn[..|cnn| - 1]).value;
      var c := cnn[|cnn| - 1];
      var i := NextCounter(c.kind, b.counter);
      Walk(num, inp, cnn).value == Built(Splice(num, inp, b.stages + [LayerFor(c, i)], LayerName(c.kind, i), i), i)
  {
  }

  /** One pass of the first loop: an unknown kind raises; a known child
      advances the counter on a convolution only, and is appended as its
      layer followed by at most two taps. */
  lemma AddLayerStep(num: Numerics, inp: Inputs, b: Built, c: Child)
    ensures AddLayer(num, inp, b, c).Err? <==> c.kind.Other?
    ensures AddLayer(num, inp, b, c).Err? ==> AddLayer(num, inp, b, c).error == UnrecognizedLayer(c.kind.className)
    ensures AddLayer(num, inp, b, c).Ok? ==>
      var r := AddLayer(num, inp, b, c).value;
      && r.counter == NextCounter(c.kind, b.counter)
      && |b.stages| < |r.stages| <= |b.stages| + 3
      && r.stages[..|b.stages| + 1] == b.stages + [LayerFor(c, r.counter)]
      && forall j :: |b.stages| < j < |r.stages| ==> r.stages[j].IsTap()
  {
  }

  lemma {:induction false} TapsHoldNoLayer(q: Plan)
    requires forall j :: 0 <= j < |q| ==> q[j].IsTap()
    ensures Layers(q) == []
    decreases |q|
  {
    if q != [] {
      TapsHoldNoLayer(q[..|q| - 1]);
      assert LayerOf(q[|q| - 1]) == [];
    }
  }

  /** Splicing taps in adds no layer. */
  lemma SpliceAddsNoLayer(num: Numerics, inp: Inputs, p: Plan, name: string, i: nat)
    ensures Layers(Splice(num, inp, p, name, i)) == Layers(p)
  {
    var r := Splice(num, inp, p, name, i);
    assert r == p + r[|p|..];
    TapsHoldNoLayer(r[|p|..]);
    PickAppend(p, r[|p|..], LayerOf);
  }

  /** Each child becomes one layer stage, in order, named by its kind and the
      conv counter (advanced only by convolutions), with ReLUs substituted. */
  lemma {:induction false} WalkNamesLayers(num: Numerics, inp: Inputs, cnn: seq<Child>)
    requires Walk(num, inp, cnn).Ok?
    ensures AllKnown(cnn)
    ensures Walk(num, inp, cnn).value.counter == ConvCount(cnn)
    ensures Layers(Walk(num, inp, cnn).value.stages) == ExpectedLayers(cnn)
    decreases |cnn|
  {
    var stages := Walk(num, inp, cnn).value.stages;
    if cnn == [] {
      assert stages == [Normalization(inp.mean, inp.std)];
      assert Layers(stages) == Layers(stages[..0]) + LayerOf(stages[0]);
    } else {
      var n := |cnn| - 1;
      var q := cnn[..n];
      WalkSnoc(num, inp, cnn);
      var b := Walk(num, inp, q).value;
      WalkNamesLayers(num, inp, q);
      var c := cnn[n];
      WalkRejectsFirstUnknownLayer(num, inp, cnn);
      assert AllKnown(cnn);
      var i := NextCounter(c.kind, b.counter);
      assert i == ConvCount(cnn);
      assert ExpectedLayers(cnn) == ExpectedLayers(q) + [LayerFor(c, i)];
      SpliceAddsNoLayer(num, inp, b.stages + [LayerFor(c, i)], LayerName(c.kind, i), i);
      PickAppend(b.stages, [LayerFor(c, i)], LayerOf);
      assert [LayerFor(c, i)][..0] == [];
    }
  }

  // ---------------------------------------------------------------- tap insertion

  /** Stage `s` is a borrowed layer whose name carries the counter value `i`. */
  ghost predicate NamedWith(s: Stage<Tensor, Tensor>, i: nat) {
    s.Layer? && !s.child.kind.Other? && s.name == LayerName(s.child.kind, i)
  }

  /** The rule stage `q` of a pipeline obeys. A layer requested for content is
      followed by a content tap, and one requested for style by a style tap
      (after the content tap when it is requested for both). A tap follows
      the layer that requested it, carries that layer's counter, and holds
      what the stages before it make of the content image (content tap) or
      the Gram matrix of what they make of the style image (style tap). The
      normalization stage comes first and only first. */
  ghost predicate StagePlaced(num: Numerics, inp: Inputs, p: Plan, q: nat)
    requires q < |p|
  {
    match p[q]
    case Normalization(_, _) => q == 0
    case Layer(name, _) =>
      && (name in inp.contentLayers ==> q + 1 < |p| && p[q + 1].ContentTap?)
      && (name in inp.styleLayers ==>
            var r := if name in inp.contentLayers then q + 2 else q + 1;
            r < |p| && p[r].StyleTap?)
    case ContentTap(i, target) =>
      && 1 <= q && NamedWith(p[q - 1], i) && p[q - 1].name in inp.contentLayers
      && target == Run(num, p[..q], inp.contentImg)
    case StyleTap(i, target) =>
      && 1 <= q
      && target == num.gram(Run(num, p[..q], inp.styleImg))
      && if p[q - 1].ContentTap? then
           && 2 <= q && p[q - 1].index == i && NamedWith(p[q - 2], i)
           && p[q - 2].name in inp.contentLayers && p[q - 2].name in inp.styleLayers
         else
           && NamedWith(p[q - 1], i)
           && p[q - 1].name !in inp.contentLayers && p[q - 1].name in inp.styleLayers
  }

  ghost predicate TapsPlaced(num: Numerics, inp: Inputs, p: Plan) {
    forall q :: 0 <= q < |p| ==> StagePlaced(num, inp, p, q)
  }

  /** Appending stages keeps every earlier stage placed. */
  lemma PlacedExtends(num: Numerics, inp: Inputs, prior: Plan, block: Plan, q: nat)
    requires q < |prior| && StagePlaced(num, inp, prior, q)
    ensures StagePlaced(num, inp, prior + block, q)
  {
    var p := prior + block;
    assert p[..q] == prior[..q];
    assert p[q] == prior[q];
    if q >= 1 { assert p[q - 1] == prior[q - 1]; }
    if q >= 2 { assert p[q - 2] == prior[q - 2]; }
    if q + 1 < |prior| { assert p[q + 1] == prior[q + 1]; }
    if q + 2 < |prior| { assert p[q + 2] == prior[q + 2]; }
  }

  /** The layer that ends `p` is followed by the taps its name requests. */
  lemma LayerPlaced(num: Numerics, inp: Inputs, p: Plan, name: string, i: nat)
    requires 1 <= |p| && p[|p| - 1].Layer? && p[|p| - 1].name == name
    ensures StagePlaced(num, inp, Splice(num, inp, p, name, i), |p| - 1)
  {
    var s2 := WithContentTap(num, inp, p, name, i);
    var r := Splice(num, inp, p, name, i);
    assert r[|p| - 1] == p[|p| - 1];
    if name in inp.contentLayers {
      assert r[|p|] == s2[|p|];
    }
  }

  /** A content tap spliced after a layer requested for content is placed. */
  lemma ContentTapPlaced(num: Numerics, inp: Inputs, p: Plan, name: string, i: nat)
    requires 1 <= |p| && NamedWith(p[|p| - 1], i) && p[|p| - 1].name == name
    requires name in inp.contentLayers
    ensures |p| < |WithContentTap(num, inp, p, name, i)|
    ensures StagePlaced(num, inp, WithContentTap(num, inp, p, name, i), |p|)
  {
    var r := WithContentTap(num, inp, p, name, i);
    assert r[..|p|] == p;
    assert r[|p| - 1] == p[|p| - 1];
  }

  /** A style tap appended right after its anchor (the requesting layer, or
      that layer's content tap) is placed. */
  lemma StyleTapPlacedAtEnd(num: Numerics, inp: Inputs, pre: Plan, i: nat)
    requires 1 <= |pre|
    requires pre[|pre| - 1].ContentTap? ==>
      && 2 <= |pre| && pre[|pre| - 1].index == i && NamedWith(pre[|pre| - 2], i)
      && pre[|pre| - 2].name in inp.contentLayers && pre[|pre| - 2].name in inp.styleLayers
    requires !pre[|pre| - 1].ContentTap? ==>
      NamedWith(pre[|pre| - 1], i) && pre[|pre| - 1].name !in inp.contentLayers && pre[|pre| - 1].name in inp.styleLayers
    ensures StagePlaced(num, inp, pre + [StyleTap(i, num.gram(Run(num, pre, inp.styleImg)))], |pre|)
  {
    var p := pre + [StyleTap(i, num.gram(Run(num, pre, inp.styleImg)))];
    assert p[..|pre|] == pre;
    assert p[|pre| - 1] == pre[|pre| - 1];
    if 2 <= |pre| {
      assert p[|pre| - 2] == pre[|pre| - 2];
    }
  }

  /** A style tap spliced after a layer requested for style is placed. */
  lemma StyleTapPlaced(num: Numerics, inp: Inputs, p: Plan, name: string, i: nat)
    requires 1 <= |p| && NamedWith(p[|p| - 1], i) && p[|p| - 1].name == name
    requires name in inp.styleLayers
    ensures StagePlaced(num, inp, Splice(num, inp, p, name, i), |Splice(num, inp, p, name, i)| - 1)
  {
    var pre := WithContentTap(num, inp, p, name, i);
    assert name in inp.contentLayers ==> pre[|pre| - 1].ContentTap? && pre[|pre| - 2] == p[|p| - 1];
    assert name !in inp.contentLayers ==> pre[|pre| - 1] == p[|p| - 1];
    StyleTapPlacedAtEnd(num, inp, pre, i);
  }

  /** The stages one child adds, its layer and the taps after it, are placed. */
  lemma SplicePlaced(num: Numerics, inp: Inputs, prior: Plan, c: Child, i: nat, q: nat)
    requires !c.kind.Other?
    requires |prior| <= q < |Splice(num, inp, prior + [LayerFor(c, i)], LayerName(c.kind, i), i)|
    ensures StagePlaced(num, inp, Splice(num, inp, prior + [LayerFor(c, i)], LayerName(c.kind, i), i), q)
  {
    var name := LayerName(c.kind, i);
    var p := prior + [LayerFor(c, i)];
    var r := Splice(num, inp, p, name, i);
    assert NamedWith(p[|p| - 1], i);
    if q == |prior| {
      LayerPlaced(num, inp, p, name, i);
    } else if q == |p| && name in inp.contentLayers {
      var s2 := WithContentTap(num, inp, p, name, i);
      ContentTapPlaced(num, inp, p, name, i);
      if name in inp.styleLayers {
        PlacedExtends(num, inp, s2, [StyleTap(i, num.gram(Run(num, s2, inp.styleImg)))], q);
      }
    } else {
      StyleTapPlaced(num, inp, p, name, i);
    }
  }

  /** The first loop leaves every stage placed. */
  lemma {:induction false} WalkPlacesTaps(num: Numerics, inp: Inputs, cnn: seq<Child>)
    requires Walk(num, inp, cnn).Ok?
    ensures TapsPlaced(num, inp, Walk(num, inp, cnn).value.stages)
    decreases |cnn|
  {
    var p := Walk(num, inp, cnn).value.stages;
    if cnn == [] {
      assert p == [Normalization(inp.mean, inp.std)];
    } else {
      var q := cnn[..|cnn| - 1];
      WalkSnoc(num, inp, cnn);
      WalkPlacesTaps(num, inp, q);
      var b := Walk(num, inp, q).value;
      var c := cnn[|cnn| - 1];
      var i := NextCounter(c.kind, b.counter);
      assert p == b.stages + p[|b.stages|..];
      forall j | 0 <= j < |p| ensures StagePlaced(num, inp, p, j) {
        if j < |b.stages| {
          PlacedExtends(num, inp, b.stages, p[|b.stages|..], j);
        } else {
          SplicePlaced(num, inp, b.stages, c, i, j);
        }
      }
    }
  }

  /** Cutting after the last tap keeps every surviving stage placed. */
  lemma TrimPlacesTaps(num: Numerics, inp: Inputs, p: Plan)
    requires p != [] && TapsPlaced(num, inp, p)
    ensures TapsPlaced(num, inp, Trim(p))
  {
    var t := Trim(p);
    TrimCutsAfterLastTap(p);
    forall q | 0 <= q < |t| ensures StagePlaced(num, inp, t, q) {
      assert StagePlaced(num, inp, p, q);
      assert t[..q] == p[..q];
      assert t[q] == p[q];
      if q >= 1 { assert t[q - 1] == p[q - 1]; }
      if q >= 2 { assert t[q - 2] == p[q - 2]; }
      if q + 1 < |t| { assert t[q + 1] == p[q + 1]; }
      if q + 2 < |t| { assert t[q + 2] == p[q + 2]; }
    }
  }

  // ---------------------------------------------------------------- the returned pipeline

  /** A tap anywhere shows up in one of the two tap lists. */
  lemma TapIsListed<C, S>(p: seq<Stage<C, S>>, j: nat)
    requires j < |p| && p[j].IsTap()
    ensures ContentTaps(p) != [] || StyleTaps(p) != []
  {
    assert p == p[..j] + [p[j]] + p[j + 1..];
    PickAppend(p[..j] + [p[j]], p[j + 1..], ContentOf);
    PickAppend(p[..j] + [p[j]], p[j + 1..], StyleOf);
    PickAppend(p[..j], [p[j]], ContentOf);
    PickAppend(p[..j], [p[j]], StyleOf);
    assert [p[j]][..0] == [];
  }

  /** When the first stage is not a tap, the cut pipeline ends in a tap
      exactly when some tap was inserted, and is the first stage alone otherwise. */
  lemma TrimEndsInTap<C, S>(w: seq<Stage<C, S>>)
    requires w != [] && !w[0].IsTap()
    ensures ContentTaps(Trim(w)) == [] && StyleTaps(Trim(w)) == [] ==> Trim(w) == w[..1]
    ensures ContentTaps(Trim(w)) != [] || StyleTaps(Trim(w)) != [] ==> Trim(w)[|Trim(w)| - 1].IsTap()
  {
    var p := Trim(w);
    TrimCutsAfterLastTap(w);
    if exists j :: 0 < j < |w| && w[j].IsTap() {
      var j :| 0 < j < |w| && w[j].IsTap();
      TapIsListed(w, j);
    } else {
      assert p == w[..1];
      assert |p| == 1 && p[..0] == [];
      assert ContentTaps(p) == Pick(p[..0], ContentOf) + ContentOf(p[0]);
      assert StyleTaps(p) == Pick(p[..0], StyleOf) + StyleOf(p[0]);
    }
  }

  /** Successful assembly returns the normalization stage followed by the
      extractor's layers in order under their computed names (those before
      the cut), with every requested tap in place; the tap lists are those
      of the untrimmed pipeline; the pipeline ends in a tap, or is the
      normalization stage alone when no tap was inserted. */
  lemma AssembledPipeline(num: Numerics, inp: Inputs, cnn: seq<Child>)
    requires Assemble(num, inp, cnn).Ok?
    ensures AllKnown(cnn)
    ensures var p := Assemble(num, inp, cnn).value;
      && 1 <= |p| && p[0] == Normalization(inp.mean, inp.std)
      && TapsPlaced(num, inp, p)
      && |Layers(p)| <= |cnn| && Layers(p) == ExpectedLayers(cnn)[..|Layers(p)|]
      && ContentTaps(p) == ContentTaps(Walk(num, inp, cnn).value.stages)
      && StyleTaps(p) == StyleTaps(Walk(num, inp, cnn).value.stages)
      && (ContentTaps(p) == [] && StyleTaps(p) == [] ==> p == [Normalization(inp.mean, inp.std)])
      && (ContentTaps(p) != [] || StyleTaps(p) != [] ==> p[|p| - 1].IsTap())
  {
    var w := Walk(num, inp, cnn).value.stages;
    WalkNamesLayers(num, inp, cnn);
    WalkPlacesTaps(num, inp, cnn);
    TrimPlacesTaps(num, inp, w);
    TrimCutsAfterLastTap(w);
    TrimEndsInTap(w);
    TrimKeepsLayerPrefix(w);
  }

  /** The layers that survive the cut are the first ones of the uncut pipeline. */
  lemma TrimKeepsLayerPrefix<C, S>(w: seq<Stage<C, S>>)
    requires w != []
    ensures |Layers(Trim(w))| <= |Layers(w)| && Layers(Trim(w)) == Layers(w)[..|Layers(Trim(w))|]
  {
    var p := Trim(w);
    assert w == p + w[|p|..];
    PickAppend(p, w[|p|..], LayerOf);
  }

  // ---------------------------------------------------------------- the procedure

  /** Once a prefix of the children fails, the whole walk fails the same way. */
  lemma {:induction false} WalkErrPersists(num: Numerics, inp: Inputs, cnn: seq<Child>, k: nat)
    requires k <= |cnn| && Walk(num, inp, cnn[..k]).Err?
    ensures Walk(num, inp, cnn) == Walk(num, inp, cnn[..k])
    decreases |cnn|
  {
    if k < |cnn| {
      var q := cnn[..|cnn| - 1];
      assert q[..k] == cnn[..k];
      WalkErrPersists(num, inp, q, k);
    } else {
      assert cnn[..k] == cnn;
    }
  }

  /** The backward scan's stopping point is the one `LastTap` describes. */
  lemma LastTapUnique<C, S>(p: seq<Stage<C, S>>, k: nat)
    requires k < |p|
    requires forall j :: k < j < |p| ==> !p[j].IsTap()
    requires 0 < k ==> p[k].IsTap()
    ensures k == LastTap(p)
  {
  }

  lemma SnocModel(m: Model, s: Stage<ContentLoss, StyleLoss>)
    ensures Targets(m + [s]) == Targets(m) + [TargetOf(s)]
    ensures ContentTaps(m + [s]) == ContentTaps(m) + ContentOf(s)
    ensures StyleTaps(m + [s]) == StyleTaps(m) + StyleOf(s)
  {
    assert (m + [s])[..|m|] == m;
  }

  /** One more known child extends a successful walk by its layer and the taps spliced after it. */
  lemma WalkStep(num: Numerics, inp: Inputs, cnn: seq<Child>, k: nat, b: Built)
    requires k < |cnn| && !cnn[k].kind.Other? && Walk(num, inp, cnn[..k]) == Ok(b)
    ensures var i := NextCounter(cnn[k].kind, b.counter);
      var name := LayerName(cnn[k].kind, i);
      Walk(num, inp, cnn[..k + 1])
        == Ok(Built(Splice(num, inp, b.stages + [Layer(name, Substitute(cnn[k]))], name, i), i))
  {
    assert cnn[..k + 1][..k] == cnn[..k];
  }

  /** An unknown child after a successful prefix makes the whole assembly fail, naming its class. */
  lemma WalkStepErr(num: Numerics, inp: Inputs, cnn: seq<Child>, k: nat)
    requires k < |cnn| && cnn[k].kind.Other? && Walk(num, inp, cnn[..k]).Ok?
    ensures Assemble(num, inp, cnn) == Err(UnrecognizedLayer(cnn[k].kind.className))
  {
    assert cnn[..k + 1][..k] == cnn[..k];
    WalkErrPersists(num, inp, cnn, k + 1);
  }

  /** The loop body at vgg_gan.py:128-139: the name a child is registered under,
      the module put in the pipeline for it, and the conv counter after it;
      or the error raised for an unknown kind. */
  method NameLayer(layer: Child, i: nat) returns (r: Result<(string, Child, nat), Error>)
    ensures r.Err? <==> layer.kind.Other?
    ensures r.Err? ==> r.error == UnrecognizedLayer(layer.kind.className)
    ensures r.Ok? ==> r.value == (LayerName(layer.kind, NextCounter(layer.kind, i)), Substitute(layer), NextCounter(layer.kind, i))
  {
    var counter := i;
    var name: string;
    var substituted := layer;
    if layer.kind.Conv? {
      counter := counter + 1;
      name := "conv_" + Decimal(counter);
    } else if layer.kind.ReLU? {
      name := "relu_" + Decimal(counter);
      substituted := Child(ReLU, false, []);
    } else if layer.kind.MaxPool? {
      name := "pool_" + Decimal(counter);
    } else if layer.kind.BatchNorm? {
      name := "bn_" + Decimal(counter);
    } else {
      return Err(UnrecognizedLayer(layer.kind.className));
    }
    return Ok((name, substituted, counter));
  }

  /** The loop body at vgg_gan.py:143-157: after the layer just registered under
      `name`, run the content (style) image through the pipeline built so far
      and splice in a tap holding the result, recording the tap in its list. */
  method SpliceTaps(num: Numerics, inp: Inputs, model: Model, name: string, i: nat,
                    contentLosses: seq<ContentLoss>, styleLosses: seq<StyleLoss>)
    returns (model': Model, contentLosses': seq<ContentLoss>, styleLosses': seq<StyleLoss>)
    requires contentLosses == ContentTaps(model) && styleLosses == StyleTaps(model)
    requires Distinct(contentLosses) && Distinct(styleLosses)
    modifies TapObjects(model)
    ensures Targets(model') == Splice(num, inp, Targets(model), name, i)
    ensures contentLosses' == ContentTaps(model') && styleLosses' == StyleTaps(model')
    ensures Distinct(contentLosses') && Distinct(styleLosses')
    ensures forall t :: t in contentLosses' ==> t in contentLosses || fresh(t)
    ensures forall t :: t in styleLosses' ==> t in styleLosses || fresh(t)
  {
    model', contentLosses', styleLosses' := model, contentLosses, styleLosses;
    if name in inp.contentLayers {
      model', contentLosses' := AddContentTap(num, model', i, inp.contentImg, contentLosses', styleLosses');
    }
    if name in inp.styleLayers {
      model', styleLosses' := AddStyleTap(num, model', i, inp.styleImg, contentLosses', styleLosses');
    }
  }

  /** vgg_gan.py:144-149: the target is what the pipeline so far makes of the
      content image; the new tap is added to the pipeline and to `content_losses`. */
  method AddContentTap(num: Numerics, model: Model, i: nat, img: Tensor,
                       contentLosses: seq<ContentLoss>, styleLosses: seq<StyleLoss>)
    returns (model': Model, contentLosses': seq<ContentLoss>)
    requires contentLosses == ContentTaps(model) && styleLosses == StyleTaps(model)
    requires Distinct(contentLosses) && Distinct(styleLosses)
    modifies TapObjects(model)
    ensures Targets(model') == Targets(model) + [ContentTap(i, Run(num, Targets(model), img))]
    ensures contentLosses' == ContentTaps(model') && styleLosses == StyleTaps(model')
    ensures Distinct(contentLosses')
    ensures forall t :: t in contentLosses' ==> t in contentLosses || fresh(t)
  {
    var target := Forward(num, model, img);
    var contentLoss := new ContentLoss(target);
    SnocModel(model, ContentTap(i, contentLoss));
    model' := model + [ContentTap(i, contentLoss)];
    contentLosses' := contentLosses + [contentLoss];
  }

  /** vgg_gan.py:152-157: the target is the Gram matrix of what the pipeline so far
      makes of the style image; the new tap is added to the pipeline and to `style_losses`. */
  method AddStyleTap(num: Numerics, model: Model, i: nat, img: Tensor,
                     contentLosses: seq<ContentLoss>, styleLosses: seq<StyleLoss>)
    returns (model': Model, styleLosses': seq<StyleLoss>)
    requires contentLosses == ContentTaps(model) && styleLosses == StyleTaps(model)
    requires Distinct(contentLosses) && Distinct(styleLosses)
    modifies TapObjects(model)
    ensures Targets(model') == Targets(model) + [StyleTap(i, num.gram(Run(num, Targets(model), img)))]
    ensures contentLosses == ContentTaps(model') && styleLosses' == StyleTaps(model')
    ensures Distinct(styleLosses')
    ensures forall t :: t in styleLosses' ==> t in styleLosses || fresh(t)
  {
    var targetFeature := Forward(num, model, img);
    var styleLoss := new StyleLoss(targetFeature, num.gram);
    SnocModel(model, StyleTap(i, styleLoss));
    model' := model + [StyleTap(i, styleLoss)];
    styleLosses' := styleLosses + [styleLoss];
  }

  /** vgg_gan.py:160-164: the backward scan for the last tap, then the cut after it. */
  method TrimModel(model: Model) returns (trimmed: Model)
    requires model != []
    ensures trimmed == Trim(model) && Targets(trimmed) == Trim(Targets(model))
  {
    var last := |model| - 1;
    while last > 0 && !model[last].IsTap()
      invariant 0 <= last < |model|
      invariant forall j :: last < j < |model| ==> !model[j].IsTap()
    {
      last := last - 1;
    }
    LastTapUnique(model, last);
    LastTapUnique(Targets(model), last);
    assert Targets(model[..last + 1]) == Targets(model)[..last + 1];
    trimmed := model[..last + 1];
  }

  /** One pass of the `for layer in cnn.children()` loop (vgg_gan.py:127-157) over
      child `k`: the pipeline, counter and tap lists after it, or the error
      the whole assembly then raises. */
  method AddChild(num: Numerics, inp: Inputs, cnn: seq<Child>, k: nat, model: Model, i: nat,
                  contentLosses: seq<ContentLoss>, styleLosses: seq<StyleLoss>)
    returns (r: Result<(Model, nat, seq<ContentLoss>, seq<StyleLoss>), Error>)
    requires k < |cnn| && Walk(num, inp, cnn[..k]) == Ok(Built(Targets(model), i))
    requires contentLosses == ContentTaps(model) && styleLosses == StyleTaps(model)
    requires Distinct(contentLosses) && Distinct(styleLosses)
    modifies TapObjects(model)
    ensures r.Err? ==> Assemble(num, inp, cnn) == Err(r.error)
    ensures r.Ok? ==> Walk(num, inp, cnn[..k + 1]) == Ok(Built(Targets(r.value.0), r.value.1))
    ensures r.Ok? ==> r.value.2 == ContentTaps(r.value.0) && r.value.3 == StyleTaps(r.value.0)
    ensures r.Ok? ==> Distinct(r.value.2) && Distinct(r.value.3)
    ensures r.Ok? ==> forall t :: t in r.value.2 ==> t in contentLosses || fresh(t)
    ensures r.Ok? ==> forall t :: t in r.value.3 ==> t in styleLosses || fresh(t)
  {
    var named := NameLayer(cnn[k], i);
    if named.Err? {
      WalkStepErr(num, inp, cnn, k);
      return Err(named.error);
    }
    var (name, layer, next) := named.value;
    WalkStep(num, inp, cnn, k, Built(Targets(model), i));
    SnocModel(model, Layer(name, layer));
    var model' := model + [Layer(name, layer)];
    assert contentLosses == ContentTaps(model') && styleLosses == StyleTaps(model');
    assert TapObjects(model') == TapObjects(model);
    var contentLosses', styleLosses';
    model', contentLosses', styleLosses' := SpliceTaps(num, inp, model', name, next, contentLosses, styleLosses);
    return Ok((model', next, contentLosses', styleLosses'));
  }

  /** `get_style_model_and_losses`: returns the trimmed pipeline together
      with the style and the content tap objects in pipeline order, or the
      error raised for an unrecognised layer. */
  method GetStyleModelAndLosses(num: Numerics, cnn: seq<Child>, inp: Inputs)
    returns (r: Result<(Model, seq<StyleLoss>, seq<ContentLoss>), Error>)
    requires UniqueModuleNames(num, inp, cnn)
    ensures r.Err? <==> Assemble(num, inp, cnn).Err?
    ensures r.Err? ==> r.error == Assemble(num, inp, cnn).error
    ensures r.Ok? ==>
      && Targets(r.value.0) == Assemble(num, inp, cnn).value
      && r.value.1 == StyleTaps(r.value.0) && r.value.2 == ContentTaps(r.value.0)
      && Distinct(r.value.1) && Distinct(r.value.2)
      && (forall t :: t in r.value.1 ==> fresh(t))
      && (forall t :: t in r.value.2 ==> fresh(t))
  {
    var model: Model := [Normalization(inp.mean, inp.std)];
    var contentLosses: seq<ContentLoss> := [];
    var styleLosses: seq<StyleLoss> := [];
    assert Targets(model) == [Normalization(inp.mean, inp.std)];
    assert model[..0] == [];
    assert ContentTaps(model) == Pick(model[..0], ContentOf) + ContentOf(model[0]);
    assert StyleTaps(model) == Pick(model[..0], StyleOf) + StyleOf(model[0]);
    var i: nat := 0;
    for k := 0 to |cnn|
      invariant Walk(num, inp, cnn[..k]) == Ok(Built(Targets(model), i))
      invariant contentLosses == ContentTaps(model) && styleLosses == StyleTaps(model)
      invariant Distinct(contentLosses) && Distinct(styleLosses)
      invariant forall t :: t in contentLosses ==> fresh(t)
      invariant forall t :: t in styleLosses ==> fresh(t)
    {
      var added := AddChild(num, inp, cnn, k, model, i, contentLosses, styleLosses);
      if added.Err? {
        return Err(added.error);
      }
      model, i, contentLosses, styleLosses := added.value.0, added.value.1, added.value.2, added.value.3;
    }
    assert cnn[..|cnn|] == cnn;
    TrimCutsAfterLastTap(model);
    model := TrimModel(model);
    return Ok((model, styleLosses, contentLosses));
  }
}
