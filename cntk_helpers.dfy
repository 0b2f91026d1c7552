/**
 * `CntkHelpers` of Predict4Cntk.cs: a second copy of the preprocessing and a
 * stand-alone `Evaluate` that returns the model's raw output vector.
 */
module CntkHelpers {
  import opened Wrappers
  import opened Engine
  import opened TensorLayout
  import ImageTensor
  import ModelPrediction

  /**
   * This file's `NormalizeRGB`: the same affine map as the classifier's. Its
   * ensures proves the two copies equal on every value, which is why
   * ConvertImageToTensorData below may delegate to the classifier's
   * conversion, whose writes use `ImageTensor.NormalizeRGB`.
   */
  function NormalizeRGB(value: real): (r: real)
    ensures r == ImageTensor.NormalizeRGB(value)
    ensures 0.0 <= value <= 255.0 ==> -1.0 <= r <= 1.0
  {
    var maxValue := 255.0;
    var mean := 2.0 / maxValue;
    mean * (value - maxValue) + 1.0
  }

  /**
   * This file's `ConvertImageToTensorData(Bitmap, Variable)`: the same code
   * as the classifier's, so it produces the same tensor with the same writes.
   * The cells it writes hold `ImageTensor.NormalizeRGB` of the channel bytes,
   * which equals this file's NormalizeRGB by that function's ensures.
   */
  method ConvertImageToTensorData(image: ImageTensor.Bitmap, input: Variable)
      returns (r: Result<array<real>, ImageTensor.TensorError>, ghost writes: seq<nat>)
    requires ImageTensor.FitsShape(image, input.dimensions)
    ensures r.Failure? ==>
      ImageTensor.ReadShape(input.dimensions).Failure? && r.error == ImageTensor.ReadShape(input.dimensions).error
    ensures r.Success? ==> ImageTensor.ReadShape(input.dimensions).Success?
    ensures r.Success? ==>
      var s := ImageTensor.ReadShape(input.dimensions).value;
      && fresh(r.value)
      && r.value[..] == ImageTensor.ExpectedTensor(image, s)
      && ImageTensor.Increasing(writes)
      && forall k: nat :: k in writes <==> k < Size(s) && k % s.channels < 3
  {
    r, writes := ImageTensor.ConvertImageToTensorData(image, input.dimensions);
  }

  /**
   * `Evaluate`: the output vector of the single batch item, unchanged; the
   * empty sequence when anything inside the `try` throws (the model has not
   * exactly one output or one argument, the engine fails, or the batch is
   * not one item).
   */
  function Evaluate(imageData: seq<real>, modelFunction: Model): (outputData: seq<real>)
    ensures (modelFunction.outputCount == 1 && |modelFunction.arguments| == 1
             && SingleOutput(modelFunction.forward(imageData)).Some?) ==>
      outputData == modelFunction.forward(imageData).batch[0]
    ensures (modelFunction.outputCount != 1 || |modelFunction.arguments| != 1
             || SingleOutput(modelFunction.forward(imageData)).None?) ==>
      outputData == []
  {
    if modelFunction.outputCount != 1 || |modelFunction.arguments| != 1 then []
    else match SingleOutput(modelFunction.forward(imageData))
      case None => []
      case Some(output) => output
  }

  /**
   * Both files read the engine the same way: pairing labels with what
   * `Evaluate` returns gives what the classifier's `Eval` returns.
   */
  lemma EvaluateAgreesWithEval(imageData: seq<real>, modelFunction: Model, labels: seq<string>)
    requires modelFunction.outputCount == 1 && |modelFunction.arguments| == 1
    ensures var output := Evaluate(imageData, modelFunction);
      ModelPrediction.EvalResult(SingleOutput(modelFunction.forward(imageData)), labels)
        == if |labels| <= |output| then ModelPrediction.Pair(labels, output) else []
  {
  }

  /** A failing engine and an engine that scores nothing give the same result. */
  lemma EvaluateConflatesFailure(imageData: seq<real>, arguments: seq<Variable>, outputCount: nat)
    ensures Evaluate(imageData, Model(arguments, outputCount, _ => Raised))
         == Evaluate(imageData, Model(arguments, outputCount, _ => Dense([[]])))
  {
  }
}
