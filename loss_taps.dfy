/**
  The two measurement modules that assembly splices into the pipeline
  (`ContentLoss` and `StyleLoss`). Each holds a target fixed at construction
  and a loss that every forward call overwrites; forward hands its input back
  unchanged. Mean-squared error and the Gram matrix are library numerics and
  arrive as function values.
*/
module LossTaps {
  import opened Wrappers
  import opened Tensors

  class ContentLoss {
    /** The detached content feature map; never reassigned. */
    const target: Tensor
    /** Unset (None) until the first forward call. */
    var loss: Option<real>

    constructor (target: Tensor)
      ensures this.target == target && loss == None
    {
      this.target := target;
      loss := None;
    }

    method Forward(mse: (Tensor, Tensor) -> real, input: Tensor) returns (output: Tensor)
      modifies this
      ensures output == input
      ensures loss == Some(mse(input, target))
    {
      loss := Some(mse(input, target));
      output := input;
    }
  }

  class StyleLoss {
    /** The Gram matrix of the style feature map, computed once and detached. */
    const target: Tensor
    /** Unset (None) until the first forward call. */
    var loss: Option<real>

    constructor (feature: Tensor, gram: Tensor -> Tensor)
      ensures target == gram(feature) && loss == None
    {
      target := gram(feature);
      loss := None;
    }

    method Forward(gram: Tensor -> Tensor, mse: (Tensor, Tensor) -> real, input: Tensor)
      returns (output: Tensor)
      modifies this
      ensures output == input
      ensures loss == Some(mse(gram(input), target))
    {
      var g := gram(input);
      loss := Some(mse(g, target));
      output := input;
    }
  }
}
