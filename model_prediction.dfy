/**
 * `CNTKModelPrediction`: the classifier's settings, label cleaning, the
 * pairing of labels with the engine's scores (`Eval`) and the threshold
 * filter and descending order applied to them (`Process`).
 */
module ModelPrediction {
  import opened Wrappers
  import opened Engine
  import opened Linq
  import opened TensorLayout
  import opened ImageTensor

  /** A label with the score the model gave it. */
  datatype LabelConfidence = LabelConfidence(Probability: real, Label: string)

  datatype Settings = Settings(BinFolder: string, ModelFilename: string, LabelsFilename: string, Threshold: real)

  /** The settings the classifier's constructor builds for a root folder. */
  function DefaultSettings(rootFolder: string): (s: Settings)
    ensures s.BinFolder == rootFolder && s.Threshold == 0.9
    ensures s.ModelFilename == @"Resources\models\model_cntk.pb"
    ensures s.LabelsFilename == @"Resources\models\labels.txt"
  {
    Settings(rootFolder, @"Resources\models\model_cntk.pb", @"Resources\models\labels.txt", 0.9)
  }

  /** `Char.IsWhiteSpace`: the Unicode separators and the control characters it counts as white space. */
  predicate IsWhiteSpace(c: char)
  {
    || '\U{0009}' <= c <= '\U{000D}'
    || c == ' ' || c == '\U{0085}' || c == '\U{00A0}' || c == '\U{1680}'
    || '\U{2000}' <= c <= '\U{200A}'
    || c == '\U{2028}' || c == '\U{2029}' || c == '\U{202F}' || c == '\U{205F}' || c == '\U{3000}'
  }

  /** `String.IsNullOrWhiteSpace` on a line (a line read from a file is never null). */
  predicate IsNullOrWhiteSpace(line: string)
  {
    forall i :: 0 <= i < |line| ==> IsWhiteSpace(line[i])
  }

  predicate IsLabel(line: string)
  {
    !IsNullOrWhiteSpace(line)
  }

  /** `LoadLabels` after the file is read: keeps the lines that are not blank, untrimmed. */
  function LoadLabels(lines: seq<string>): (labels: seq<string>)
    ensures forall i :: 0 <= i < |labels| ==> !IsNullOrWhiteSpace(labels[i]) && labels[i] in lines
    ensures forall i :: 0 <= i < |lines| && !IsNullOrWhiteSpace(lines[i]) ==> lines[i] in labels
  {
    Where(lines, IsLabel)
  }

  /** Cleaning works line by line and keeps the file order. */
  lemma LoadLabelsAppend(a: seq<string>, b: seq<string>)
    ensures LoadLabels(a + b) == LoadLabels(a) + LoadLabels(b)
  {
    WhereAppend(a, b, IsLabel);
  }

  /** Each line is kept exactly as it is, or dropped when it is blank. */
  lemma LoadLabelsLine(line: string)
    ensures LoadLabels([line]) == if IsNullOrWhiteSpace(line) then [] else [line]
  {
  }

  /** A label keeps as many occurrences as the file has, blank lines none. */
  lemma LoadLabelsCount(lines: seq<string>, line: string)
    ensures multiset(LoadLabels(lines))[line] == if IsNullOrWhiteSpace(line) then 0 else multiset(lines)[line]
  {
    WhereCount(lines, IsLabel, line);
  }

  /** The label query of `Eval` when every score index is in range: label i meets score i. */
  function Pair(labels: seq<string>, probabilities: seq<real>): (items: seq<LabelConfidence>)
    requires |labels| <= |probabilities|
    ensures |items| == |labels|
    ensures forall i :: 0 <= i < |labels| ==> items[i] == LabelConfidence(probabilities[i], labels[i])
  {
    if labels == [] then []
    else [LabelConfidence(probabilities[0], labels[0])] + Pair(labels[1..], probabilities[1..])
  }

  /** What `Eval` returns for the engine's output: the pairs, or nothing when anything threw. */
  function EvalResult(probabilities: Option<seq<real>>, labels: seq<string>): seq<LabelConfidence>
  {
    if probabilities.Some? && |labels| <= |probabilities.value| then Pair(labels, probabilities.value) else []
  }

  /**
   * `Eval`: runs the model on the tensor and pairs label i with score i,
   * counting with `idx`. An engine failure, a batch that is not a single
   * item, or a label without a score throws inside the `try`, and the
   * `catch` returns the empty sequence; `ToArray` is inside the `try`, so no
   * partial list escapes.
   */
  method Eval(model: Model, imageData: seq<real>, labels: seq<string>) returns (items: seq<LabelConfidence>)
    ensures items == EvalResult(SingleOutput(model.forward(imageData)), labels)
    ensures var probabilities := SingleOutput(model.forward(imageData));
      if probabilities.Some? && |labels| <= |probabilities.value| then
        && |items| == |labels|
        && forall i :: 0 <= i < |labels| ==>
             items[i].Label == labels[i] && items[i].Probability == probabilities.value[i]
      else items == []
  {
    var dense := SingleOutput(model.forward(imageData));
    if dense.None? {
      return [];
    }
    var probabilities := dense.value;
    var idx := 0;
    var selected := [];
    while idx < |labels|
      invariant 0 <= idx <= |labels| && idx <= |probabilities|
      invariant |selected| == idx
      invariant forall i :: 0 <= i < idx ==> selected[i] == LabelConfidence(probabilities[i], labels[i])
    {
      if idx >= |probabilities| {
        return [];
      }
      selected := selected + [LabelConfidence(probabilities[idx], labels[idx])];
      idx := idx + 1;
    }
    items := selected;
  }

  /** The tail of `Process`: keep the items whose probability reaches the threshold, highest probability first. */
  function Rank(items: seq<LabelConfidence>, threshold: real): (ranked: seq<LabelConfidence>)
    ensures forall i :: 0 <= i < |ranked| ==> ranked[i].Probability >= threshold
    ensures forall i, j :: 0 <= i < j < |ranked| ==> ranked[i].Probability >= ranked[j].Probability
    ensures forall c :: multiset(ranked)[c] == if c.Probability >= threshold then multiset(items)[c] else 0
  {
    var clears := (c: LabelConfidence) => c.Probability >= threshold;
    var kept := Where(items, clears);
    var ranked := OrderByDescending(kept, (c: LabelConfidence) => c.Probability);
    assert forall i :: 0 <= i < |ranked| ==> ranked[i] in multiset(kept);
    assert forall c :: multiset(kept)[c] == if c.Probability >= threshold then multiset(items)[c] else 0 by {
      forall c ensures multiset(kept)[c] == if c.Probability >= threshold then multiset(items)[c] else 0 {
        WhereCount(items, clears, c);
      }
    }
    ranked
  }

  /** Why classification stops before any score exists. */
  datatype ProcessError =
    | ArgumentNotSingle           // `model.Arguments.Single()` threw: the graph has not exactly one input
    | OutputNotSingle             // `model.Output` threw: the graph has not exactly one output
    | TensorFailed(TensorError)   // the conversion of the image threw

  /**
   * `Process`: loads labels, takes the model's single input and single
   * output (both outside any `try`, so a graph without exactly one of each
   * makes it fail), converts the
   * resized image for it, evaluates and ranks. `labelLines` are the lines of
   * the labels file; `resized` is the image after the resize to the input's
   * width and height.
   */
  method Process(resized: Bitmap, labelLines: seq<string>, model: Model, settings: Settings)
      returns (r: Result<seq<LabelConfidence>, ProcessError>)
    requires |model.arguments| == 1 ==> FitsShape(resized, model.arguments[0].dimensions)
    ensures |model.arguments| != 1 ==> r == Failure(ArgumentNotSingle)
    ensures |model.arguments| == 1 && model.outputCount != 1 ==> r == Failure(OutputNotSingle)
    ensures |model.arguments| == 1 && model.outputCount == 1 && ReadShape(model.arguments[0].dimensions).Failure? ==>
      r == Failure(TensorFailed(ReadShape(model.arguments[0].dimensions).error))
    ensures |model.arguments| == 1 && model.outputCount == 1 && ReadShape(model.arguments[0].dimensions).Success? ==>
      var tensor := ExpectedTensor(resized, ReadShape(model.arguments[0].dimensions).value);
      r == Success(Rank(EvalResult(SingleOutput(model.forward(tensor)), LoadLabels(labelLines)), settings.Threshold))
  {
    var labels := LoadLabels(labelLines);
    if |model.arguments| != 1 {
      return Failure(ArgumentNotSingle);
    }
    var input := model.arguments[0];
    if model.outputCount != 1 {
      return Failure(OutputNotSingle);
    }
    var imageTensor, _ := ConvertImageToTensorData(resized, input.dimensions);
    if imageTensor.Failure? {
      return Failure(TensorFailed(imageTensor.error));
    }
    var items := Eval(model, imageTensor.value[..], labels);
    r := Success(Rank(items, settings.Threshold));
  }

  /** Labels [cat, dog] scored [0.95, 0.05] at threshold 0.9 yield exactly (cat, 0.95). */
  lemma CatAtDefaultThreshold(rootFolder: string)
    ensures Rank(EvalResult(Some([0.95, 0.05]), ["cat", "dog"]), DefaultSettings(rootFolder).Threshold)
         == [LabelConfidence(0.95, "cat")]
  {
  }

  /** The same scores at threshold 0.99 yield nothing. */
  lemma NothingAtHighThreshold()
    ensures Rank(EvalResult(Some([0.95, 0.05]), ["cat", "dog"]), 0.99) == []
  {
  }
}
