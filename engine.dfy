/**
 * The CNTK engine as the pipeline sees it. Loading a graph, building a batch
 * and running the forward pass are foreign calls; here a loaded model is its
 * list of argument variables, its number of outputs (`Function.Output` throws
 * unless there is exactly one), and a total function from the flattened input
 * tensor to what `Function.Evaluate` followed by `GetDenseData` produces.
 */
module Engine {
  import opened Wrappers

  /** An input variable of the graph, reduced to `Shape.Dimensions`. */
  datatype Variable = Variable(dimensions: seq<int>)

  /** The outcome of one forward pass. */
  datatype EngineOutcome =
    | Raised                        // the engine threw
    | Dense(batch: seq<seq<real>>)  // one dense output vector per batch item

  /**
   * A loaded computation graph (`Function`): its argument variables, how many
   * outputs it has (`Function.Output` throws unless there is exactly one), and
   * its forward pass.
   */
  datatype Model = Model(arguments: seq<Variable>, outputCount: nat, forward: seq<real> -> EngineOutcome)

  /**
   * `GetDenseData(output).Single()`: the one output vector of the batch, or
   * None when the engine threw or the batch did not hold exactly one item
   * (`Single` throws then).
   */
  function SingleOutput(outcome: EngineOutcome): (r: Option<seq<real>>)
    ensures r.Some? <==> outcome.Dense? && |outcome.batch| == 1
    ensures r.Some? ==> r.value == outcome.batch[0]
  {
    match outcome
    case Raised => None
    case Dense(batch) => if |batch| == 1 then Some(batch[0]) else None
  }
}
