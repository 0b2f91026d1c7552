# CNTK image classification pipeline, modelled in Dafny

This project models the deterministic core of an image classifier built on
the CNTK engine. It turns a resized bitmap into the model's input tensor,
reads the engine's single output vector, pairs its scores with the labels
file, and keeps the labels whose score reaches the threshold, highest first.

Module layout:

- `Engine` (engine.dfy): the CNTK engine, abstracted. A `Model` is its
  argument variables, its number of outputs (`Function.Output` throws unless
  there is exactly one), and a total `forward` function. That function maps
  the flattened tensor to `Raised` or to a dense batch. `SingleOutput` models
  `GetDenseData(...).Single()`.
- `Linq` (linq.dfy): `Where` and `OrderByDescending` on sequences. The sort
  is modelled as a stable insertion sort.
- `TensorLayout` (tensor_layout.dfy): the row-major layout of the
  `(width, height, channels)` dense tensor. Flat offset `(x*height + y)*channels + c`.
- `ImageTensor` (image_tensor.dfy): `NormalizeRGB`, how the input shape is
  read and refused, the tensor the conversion must produce (`ExpectedTensor`),
  and `ConvertImageToTensorData` as an in-place fill of a fresh array.
  Nested loops, as in the source.
- `ModelPrediction` (model_prediction.dfy): `CNTKModelPrediction` with
  default settings, label cleaning, `Eval`'s `idx++` loop with its
  catch-to-empty path, the threshold filter and order, and `Process`.
- `CntkHelpers` (cntk_helpers.dfy): the second copy of the preprocessing in
  Predict4Cntk.cs and its stand-alone `Evaluate`.

Inputs that stand in for I/O and foreign calls:

- The lines of the labels file.
- The bitmap after the bicubic resize. It must be `width x height` whenever
  the shape is accepted.
- The `Model` value.

Scores and normalized pixels are reals.

The model follows the code on three points:

- Label lines are kept untrimmed. Only lines that are empty or all white
  space are dropped.
- With more labels than scores, `Eval` does not truncate. It throws inside
  its `try` and returns the empty sequence. Surplus scores are ignored.
- The tensor uses the row-major flag of the allocation. The comment on that
  line says CNTK uses column-major; that comment is not modelled.

## Model

| member | source | states |
|---|---|---|
| `Engine.SingleOutput` | ArtificialIntelligence.API.CNTK/Services/ComputerVision/Model/CNTKModelPrediction.cs:193 | a vector is read exactly when the engine did not throw and the batch holds one item, and it is that item |
| `Linq.Where` | ArtificialIntelligence.API.CNTK/Services/ComputerVision/Model/CNTKModelPrediction.cs:168 | every kept element satisfies the predicate and comes from the input; every input element that satisfies it is kept |
| `Linq.WhereAppend` | ArtificialIntelligence.API.CNTK/Services/ComputerVision/Model/CNTKModelPrediction.cs:168 | filtering a concatenation is the concatenation of the filtered parts (relative order is kept) |
| `Linq.WhereCount` | ArtificialIntelligence.API.CNTK/Services/ComputerVision/Model/CNTKModelPrediction.cs:88 | each element keeps all its occurrences if it passes and none if it fails |
| `Linq.OrderByDescending` | ArtificialIntelligence.API.CNTK/Services/ComputerVision/Model/CNTKModelPrediction.cs:89 | the result is non-increasing in the key and a permutation of the input |
| `TensorLayout.FlatIndexInRange` | ArtificialIntelligence.API.CNTK/Predict4Cntk.cs:73 | every (x, y, c) in the index box maps into [0, width*height*channels) |
| `TensorLayout.UnflattenFlatIndex` | ArtificialIntelligence.API.CNTK/Predict4Cntk.cs:73 | the row-major offset of a box position decodes back to that position |
| `TensorLayout.FlatIndexUnflatten` | ArtificialIntelligence.API.CNTK/Predict4Cntk.cs:73 | every offset below the size decodes to a box position whose offset is that offset |
| `TensorLayout.FlatIndexInjective` | ArtificialIntelligence.API.CNTK/Predict4Cntk.cs:73 | two box positions with the same offset are the same position |
| `TensorLayout.FlatIndexSurjective` | ArtificialIntelligence.API.CNTK/Predict4Cntk.cs:73 | every offset of the tensor is the offset of some box position |
| `TensorLayout.NextPixel` | ArtificialIntelligence.API.CNTK/Predict4Cntk.cs:77 | the next y starts one pixel's worth of channels later, so the loops write in increasing offset order |
| `TensorLayout.NextColumn` | ArtificialIntelligence.API.CNTK/Predict4Cntk.cs:75 | the pixel after the last one of column x is the first one of column x + 1 |
| `ImageTensor.NormalizeRGB` | ArtificialIntelligence.API.CNTK/Services/ComputerVision/Model/CNTKModelPrediction.cs:124-129 | values in [0, 255] are sent into [-1, 1] |
| `ImageTensor.NormalizeRGBEndpoints` | ArtificialIntelligence.API.CNTK/Services/ComputerVision/Model/CNTKModelPrediction.cs:124-129 | 0 maps to -1 and 255 maps to 1 |
| `ImageTensor.NormalizeRGBStrictlyIncreasing` | ArtificialIntelligence.API.CNTK/Services/ComputerVision/Model/CNTKModelPrediction.cs:124-129 | the map is strictly increasing |
| `ImageTensor.NormalizeRGBIsLinearRescale` | ArtificialIntelligence.API.CNTK/Services/ComputerVision/Model/CNTKModelPrediction.cs:126-128 | the map equals the linear rescale (2/255)*v - 1 |
| `ImageTensor.NormalizeRGBInverse` | ArtificialIntelligence.API.CNTK/Services/ComputerVision/Model/CNTKModelPrediction.cs:126-128 | the channel value is recovered from its normalized value |
| `ImageTensor.ReadShape` | ArtificialIntelligence.API.CNTK/Services/ComputerVision/Model/CNTKModelPrediction.cs:102-117 | the shape is accepted exactly when there are 3 dimensions or more, width and height are positive and channels is at least 3; then channels = dims[0], width = dims[1], height = dims[2]; each refused shape gives the error of the first throw point: too few dimensions, a non-positive width or height, negative channels, or 0 to 2 channels |
| `ImageTensor.ExpectedTensorAt` | ArtificialIntelligence.API.CNTK/Services/ComputerVision/Model/CNTKModelPrediction.cs:108-119 | cell (x, y, c) holds the normalized channel c of pixel (x, y) for c < 3; channels 3 and up keep their initial 0 |
| `ImageTensor.ExpectedTensorPixel` | ArtificialIntelligence.API.CNTK/Services/ComputerVision/Model/CNTKModelPrediction.cs:114-117 | cells (x, y, 0), (x, y, 1), (x, y, 2) hold the normalized R, G, B of pixel (x, y) |
| `ImageTensor.PixelBlock` | ArtificialIntelligence.API.CNTK/Services/ComputerVision/Model/CNTKModelPrediction.cs:114-117 | the cells of one pixel are consecutive: R, G, B first, then zeros |
| `ImageTensor.FillBlock` | ArtificialIntelligence.API.CNTK/Services/ComputerVision/Model/CNTKModelPrediction.cs:115-117 | writing one pixel's three channels extends the finished prefix of the tensor by one pixel |
| `ImageTensor.FillPixel` | ArtificialIntelligence.API.CNTK/Services/ComputerVision/Model/CNTKModelPrediction.cs:112-118 | after pixel (x, y) is written, every cell before pixel (x, y + 1) holds its final value and every later cell still holds 0 |
| `ImageTensor.LogPixel` | ArtificialIntelligence.API.CNTK/Services/ComputerVision/Model/CNTKModelPrediction.cs:115-117 | after one pixel's writes, the write log still holds each written cell once and only channels 0 to 2 |
| `ImageTensor.ConvertImageToTensorData` | ArtificialIntelligence.API.CNTK/Services/ComputerVision/Model/CNTKModelPrediction.cs:100-122 | fails exactly when the shape is refused, with that error; otherwise a fresh tensor of shape (width, height, channels) equal to the expected tensor; every cell with channel 0 to 2 is written exactly once and no other cell is written |
| `ModelPrediction.DefaultSettings` | ArtificialIntelligence.API.CNTK/Services/ComputerVision/Model/CNTKModelPrediction.cs:56-64 | the constructor's settings: the given root folder, the fixed model and labels file names, threshold 0.9 |
| `ModelPrediction.LoadLabels` | ArtificialIntelligence.API.CNTK/Services/ComputerVision/Model/CNTKModelPrediction.cs:160-169 | every label is a non-blank line of the file; every non-blank line becomes a label |
| `ModelPrediction.LoadLabelsAppend` | ArtificialIntelligence.API.CNTK/Services/ComputerVision/Model/CNTKModelPrediction.cs:168 | cleaning is line by line and preserves file order |
| `ModelPrediction.LoadLabelsLine` | ArtificialIntelligence.API.CNTK/Services/ComputerVision/Model/CNTKModelPrediction.cs:168 | a single line is dropped when blank and otherwise kept with its text unchanged |
| `ModelPrediction.LoadLabelsCount` | ArtificialIntelligence.API.CNTK/Services/ComputerVision/Model/CNTKModelPrediction.cs:168 | a non-blank line keeps all of its occurrences (no deduplication); a blank one keeps none |
| `ModelPrediction.Pair` | ArtificialIntelligence.API.CNTK/Services/ComputerVision/Model/CNTKModelPrediction.cs:195-197 | one item per label, in label order, item i = (probabilities[i], labels[i]) |
| `ModelPrediction.Eval` | ArtificialIntelligence.API.CNTK/Services/ComputerVision/Model/CNTKModelPrediction.cs:171-204 | with a single output vector at least as long as the labels: one item per label in order with label i and score i, surplus scores ignored; otherwise (engine threw, batch not one item, or more labels than scores) the empty sequence |
| `ModelPrediction.Rank` | ArtificialIntelligence.API.CNTK/Services/ComputerVision/Model/CNTKModelPrediction.cs:87-89 | every item has probability >= threshold; the sequence is non-increasing in probability; each item occurs exactly as often as in the input if it clears the threshold and never otherwise |
| `ModelPrediction.Process` | ArtificialIntelligence.API.CNTK/Services/ComputerVision/Model/CNTKModelPrediction.cs:78-90 | fails when the model has not exactly one argument, then when it has not exactly one output, then when the shape is refused; otherwise returns the ranked Eval items of the converted image and the cleaned labels |
| `ModelPrediction.CatAtDefaultThreshold` | ArtificialIntelligence.API.CNTK/Services/ComputerVision/Model/CNTKModelPrediction.cs:87-89 | labels [cat, dog] scored [0.95, 0.05] at the constructor's default threshold give exactly [(0.95, cat)] |
| `ModelPrediction.NothingAtHighThreshold` | ArtificialIntelligence.API.CNTK/Services/ComputerVision/Model/CNTKModelPrediction.cs:87-89 | the same scores at threshold 0.99 give nothing |
| `CntkHelpers.NormalizeRGB` | ArtificialIntelligence.API.CNTK/Predict4Cntk.cs:90-95 | the same affine map as the classifier's copy, hence into [-1, 1] on [0, 255] |
| `CntkHelpers.ConvertImageToTensorData` | ArtificialIntelligence.API.CNTK/Predict4Cntk.cs:64-88 | the same outcomes, tensor and write log as the classifier's conversion |
| `CntkHelpers.Evaluate` | ArtificialIntelligence.API.CNTK/Predict4Cntk.cs:108-143 | the single output vector unchanged on success; the empty sequence when the model has not one output or not one argument, the engine threw or the batch was not one item |
| `CntkHelpers.EvaluateAgreesWithEval` | ArtificialIntelligence.API.CNTK/Predict4Cntk.cs:134-136 | pairing labels with Evaluate's vector gives exactly the classifier's Eval result |
| `CntkHelpers.EvaluateConflatesFailure` | ArtificialIntelligence.API.CNTK/Predict4Cntk.cs:138-142 | an engine that throws and one that returns an empty vector give the same result |

## Left out

- File access: `File.Exists`, `File.ReadAllLines`, `Path.Combine` and the `FileNotFoundException` paths of `LoadLabels` and `LoadModel`. `LoadLabels` is modelled on the lines already read.
- `LoadModel` and `CntkHelpers.LoadModel`: `Function.Load` is a foreign engine call; the model is an input value.
- Image decoding (`Image.FromStream`, `Image.FromFile`), `LoadImageTensor`, the file-name overload of `ConvertImageToTensorData`, and the bicubic `ResizeImage`. These belong to the image library; the resized bitmap is an input.
- The engine's numerical work: `Value.CreateBatch`, `Function.Evaluate` and `GetDenseData`, including a batch refused for its shape. All of it sits behind `Model.forward`.
- `EvaluateAsync`: it only moves the evaluation onto a task.
- `CreateLogisticModel`: graph construction through the engine library.
- `Predict4Cntk.AnalyzeImageWithTensor`: it only throws `NotImplementedException`.
- `ClassifyImage`: it is `Process` applied to the constructor's settings (`DefaultSettings`). It has no member of its own.
- 32-bit floats: scores, thresholds and tensor cells are reals. The default threshold `0.9f` is modelled as exactly 0.9.
- 32-bit overflow of `width * height * channels` when the dense tensor is allocated is not modelled.
- Null lines: a line read from a file is never null, so `IsNullOrWhiteSpace` only tests for empty or all-white-space text.
- The HTTP controller and the console driver: request plumbing and output, outside the pipeline.
- ModelPrediction.Rank: does not state that items with equal scores keep their `Eval` order. LINQ's `OrderByDescending` is stable and so is the modelled sort, but the pipeline does not rely on it.
