/** Tensor bookkeeping of the Robust Video Matting model: which session inputs
    and outputs are used, the shapes of the four ConvGRU recurrent states, and
    which tensors each per-frame step overwrites.

    The inference session is abstracted by what it reports: its input and
    output names and shapes, in session order. The vectors the C++ methods fill
    or update through references are values here: each method takes the old
    value and returns the new one.
 */
module ModelRvm {

  const InputWidth: int := 1920
  const InputHeight: int := 1080

  /** The downsample ratio 0.25 is exact in binary floating point, so the
      truncated products `(int)(1080 * 0.25f)` and `(int)(1920 * 0.25f)` are
      exactly a quarter of the input size. */
  const DownsampleRatio: real := 0.25
  const InternalHeight: nat := InputHeight / 4
  const InternalWidth: nat := InputWidth / 4

  /** Channel counts of the four recurrent states. */
  const RecChannels: seq<int> := [16, 20, 40, 64]

  /** Index of the downsample-ratio input tensor. */
  const RatioInput: nat := 5

  type Shape = seq<int>
  type Tensor = seq<real>

  /** RVM's pha output is a continuous alpha matte. */
  function OutputsAlphaMatte(): (matte: bool)
    ensures matte
  {
    true
  }

  /** One stride-2 convolution: `(x + 1) / 2`, which for a non-negative `x` is
      the same under C++ truncating and Dafny's Euclidean division. */
  function CeilHalf(x: nat): nat {
    (x + 1) / 2
  }

  /** `x` after `k` stride-2 stages. */
  function CeilHalvings(x: nat, k: nat): nat {
    if k == 0 then x else CeilHalf(CeilHalvings(x, k - 1))
  }

  function Pow2(k: nat): (p: nat)
    ensures p >= 1
  {
    if k == 0 then 1 else 2 * Pow2(k - 1)
  }

  /** The quotient of `n / d` lies between `n - d` and `n`, in units of `d`. */
  lemma DivBounds(n: int, d: int)
    requires d >= 1
    ensures d * (n / d) <= n < d * (n / d) + d
  {
  }

  /** A quotient is the unique `a` with `a * d <= n < a * d + d`. */
  lemma DivUnique(n: int, d: int, a: int)
    requires d >= 1 && a * d <= n < a * d + d
    ensures n / d == a
  {
    var q := n / d;
    DivBounds(n, d);
    if q > a {
      assert (q - a) * d >= d by { MulAtLeast(q - a, d); }
    } else if q < a {
      assert (a - q) * d >= d by { MulAtLeast(a - q, d); }
    }
  }

  lemma MulAtLeast(m: int, d: int)
    requires m >= 1 && d >= 0
    ensures m * d >= d
  {
  }

  /** One more ceil-halving of a ceiling quotient by `p` is the ceiling
      quotient by `2 * p`. */
  lemma CeilHalfOfCeilDiv(x: nat, p: nat)
    requires p >= 1
    ensures ((x + p - 1) / p + 1) / 2 == (x + 2 * p - 1) / (2 * p)
  {
    var c := (x + 2 * p - 1) / (2 * p);
    DivBounds(x + 2 * p - 1, 2 * p);
    var m := c * p;
    assert (2 * p) * c == 2 * m;
    if x <= 2 * m - p {
      assert (2 * c - 1) * p == 2 * m - p;
      DivUnique(x + p - 1, p, 2 * c - 1);
    } else {
      assert (2 * c) * p == 2 * m;
      DivUnique(x + p - 1, p, 2 * c);
    }
  }

  /** Rounding up at every stage loses nothing against rounding up once at the
      end: `k` ceil-halvings are the ceiling of `x / 2^k`. */
  lemma {:induction false} CeilHalvingsIsCeilDiv(x: nat, k: nat)
    ensures CeilHalvings(x, k) == (x + Pow2(k) - 1) / Pow2(k)
  {
    if k > 0 {
      var p := Pow2(k - 1);
      CeilHalvingsIsCeilDiv(x, k - 1);
      assert CeilHalvings(x, k) == ((x + p - 1) / p + 1) / 2;
      CeilHalfOfCeilDiv(x, p);
      assert Pow2(k) == 2 * p;
    }
  }

  /** Height of recurrent state `i` (0 .. 3): the internal height after `i + 1` stages. */
  function StateHeight(i: nat): nat {
    CeilHalvings(InternalHeight, i + 1)
  }

  function StateWidth(i: nat): nat {
    CeilHalvings(InternalWidth, i + 1)
  }

  /** The internal resolution is 270 x 480, and the four recurrent states are
      135 x 240, 68 x 120, 34 x 60 and 17 x 30. */
  lemma RecurrentStateSizes()
    ensures InternalHeight == 270 && InternalWidth == 480
    ensures [StateHeight(0), StateHeight(1), StateHeight(2), StateHeight(3)] == [135, 68, 34, 17]
    ensures [StateWidth(0), StateWidth(1), StateWidth(2), StateWidth(3)] == [240, 120, 60, 30]
  {
  }

  /** The shape of the source input and of the pha output: batch 1 at the full
      model resolution, channels as the session reports them. */
  function FullResolutionShape(reported: Shape): Shape
    requires |reported| >= 4
  {
    reported[0 := 1][2 := InputHeight][3 := InputWidth]
  }

  /** The shape of recurrent input state `i`: batch, channel count and both
      spatial sizes are fixed, further dimensions stay as reported. */
  function RecurrentInputShape(reported: Shape, i: nat): Shape
    requires |reported| >= 4 && i < 4
  {
    reported[0 := 1][1 := RecChannels[i]][2 := StateHeight(i)][3 := StateWidth(i)]
  }

  /** The shape of recurrent output state `i`: as the input, but the channel
      count stays as the session reports it. */
  function RecurrentOutputShape(reported: Shape, i: nat): Shape
    requires |reported| >= 4 && i < 4
  {
    reported[0 := 1][2 := StateHeight(i)][3 := StateWidth(i)]
  }

  /** Lists the session's input names in order and its output names from the
      second on: output 0 (the foreground) is never fetched, so entry `k` of
      `outputNames` is session output `k + 1`. */
  method PopulateInputOutputNames(sessionInputNames: seq<string>, sessionOutputNames: seq<string>)
    returns (inputNames: seq<string>, outputNames: seq<string>)
    ensures inputNames == sessionInputNames
    ensures |outputNames| == if |sessionOutputNames| == 0 then 0 else |sessionOutputNames| - 1
    ensures forall k :: 0 <= k < |outputNames| ==> outputNames[k] == sessionOutputNames[k + 1]
  {
    inputNames := [];
    outputNames := [];
    for i := 0 to |sessionInputNames|
      invariant inputNames == sessionInputNames[..i]
    {
      inputNames := inputNames + [sessionInputNames[i]];
    }
    var i := 1;
    while i < |sessionOutputNames|
      invariant 1 <= i <= if |sessionOutputNames| == 0 then 1 else |sessionOutputNames|
      invariant |outputNames| == i - 1
      invariant forall k :: 0 <= k < i - 1 ==> outputNames[k] == sessionOutputNames[k + 1]
    {
      outputNames := outputNames + [sessionOutputNames[i]];
      i := i + 1;
    }
  }

  /** Fetches the session's input shapes and its output shapes from the second
      on, then fixes the source input, the pha output and the four recurrent
      states. The session must have the five image inputs and six outputs
      that are written to, each with at least four dimensions. */
  method PopulateInputOutputShapes(sessionInputShapes: seq<Shape>, sessionOutputShapes: seq<Shape>)
    returns (ok: bool, inputDims: seq<Shape>, outputDims: seq<Shape>)
    requires |sessionInputShapes| >= 5 && forall j :: 0 <= j < 5 ==> |sessionInputShapes[j]| >= 4
    requires |sessionOutputShapes| >= 6 && forall j :: 1 <= j < 6 ==> |sessionOutputShapes[j]| >= 4
    ensures ok
    ensures |inputDims| == |sessionInputShapes| && |outputDims| == |sessionOutputShapes| - 1
    ensures inputDims[0] == FullResolutionShape(sessionInputShapes[0])
    ensures forall j :: 1 <= j < 5 ==> inputDims[j] == RecurrentInputShape(sessionInputShapes[j], j - 1)
    ensures forall j :: 5 <= j < |inputDims| ==> inputDims[j] == sessionInputShapes[j]
    ensures outputDims[0] == FullResolutionShape(sessionOutputShapes[1])
    ensures forall j :: 1 <= j < 5 ==> outputDims[j] == RecurrentOutputShape(sessionOutputShapes[j + 1], j - 1)
    ensures forall j :: 5 <= j < |outputDims| ==> outputDims[j] == sessionOutputShapes[j + 1]
  {
    inputDims := [];
    outputDims := [];
    for i := 0 to |sessionInputShapes|
      invariant inputDims == sessionInputShapes[..i]
    {
      inputDims := inputDims + [sessionInputShapes[i]];
    }
    for i := 1 to |sessionOutputShapes|
      invariant outputDims == sessionOutputShapes[1..i]
    {
      outputDims := outputDims + [sessionOutputShapes[i]];
    }

    inputDims := inputDims[0 := inputDims[0][0 := 1]];
    inputDims := inputDims[0 := inputDims[0][2 := InputHeight]];
    inputDims := inputDims[0 := inputDims[0][3 := InputWidth]];

    var internalH, internalW := InputHeight / 4, InputWidth / 4;
    var h, w := internalH, internalW;
    for i := 0 to 4
      invariant h == CeilHalvings(InternalHeight, i) && w == CeilHalvings(InternalWidth, i)
      invariant |inputDims| == |sessionInputShapes|
      invariant inputDims[0] == FullResolutionShape(sessionInputShapes[0])
      invariant forall j :: 1 <= j <= i ==> inputDims[j] == RecurrentInputShape(sessionInputShapes[j], j - 1)
      invariant forall j :: i + 1 <= j < |inputDims| ==> inputDims[j] == sessionInputShapes[j]
    {
      h := (h + 1) / 2;
      w := (w + 1) / 2;
      inputDims := inputDims[i + 1 := inputDims[i + 1][0 := 1]];
      inputDims := inputDims[i + 1 := inputDims[i + 1][1 := RecChannels[i]]];
      inputDims := inputDims[i + 1 := inputDims[i + 1][2 := h]];
      inputDims := inputDims[i + 1 := inputDims[i + 1][3 := w]];
    }

    outputDims := outputDims[0 := outputDims[0][0 := 1]];
    outputDims := outputDims[0 := outputDims[0][2 := InputHeight]];
    outputDims := outputDims[0 := outputDims[0][3 := InputWidth]];

    h, w := internalH, internalW;
    for i := 0 to 4
      invariant h == CeilHalvings(InternalHeight, i) && w == CeilHalvings(InternalWidth, i)
      invariant |outputDims| == |sessionOutputShapes| - 1
      invariant outputDims[0] == FullResolutionShape(sessionOutputShapes[1])
      invariant forall j :: 1 <= j <= i ==> outputDims[j] == RecurrentOutputShape(sessionOutputShapes[j + 1], j - 1)
      invariant forall j :: i + 1 <= j < |outputDims| ==> outputDims[j] == sessionOutputShapes[j + 1]
    {
      h := (h + 1) / 2;
      w := (w + 1) / 2;
      outputDims := outputDims[i + 1 := outputDims[i + 1][0 := 1]];
      outputDims := outputDims[i + 1 := outputDims[i + 1][2 := h]];
      outputDims := outputDims[i + 1 := outputDims[i + 1][3 := w]];
    }
    ok := true;
  }

  /** Sets the downsample-ratio scalar (first element of input tensor 5) and
      nothing else. */
  method SetExtraTensorInputs(inputTensorValues: seq<Tensor>) returns (updated: seq<Tensor>)
    requires |inputTensorValues| > RatioInput && |inputTensorValues[RatioInput]| > 0
    ensures |updated| == |inputTensorValues|
    ensures forall t :: 0 <= t < |updated| && t != RatioInput ==> updated[t] == inputTensorValues[t]
    ensures |updated[RatioInput]| == |inputTensorValues[RatioInput]|
    ensures updated[RatioInput][0] == DownsampleRatio
    ensures updated[RatioInput][1..] == inputTensorValues[RatioInput][1..]
  {
    updated := inputTensorValues[RatioInput := inputTensorValues[RatioInput][0 := DownsampleRatio]];
  }

  /** Replaces input tensor 0 with the preprocessed image and sets the
      downsample-ratio scalar; the recurrent state tensors are left alone. */
  method LoadInputToTensor(preprocessedImage: Tensor, inputTensorValues: seq<Tensor>) returns (updated: seq<Tensor>)
    requires |inputTensorValues| > RatioInput && |inputTensorValues[RatioInput]| > 0
    ensures |updated| == |inputTensorValues|
    ensures updated[0] == preprocessedImage
    ensures forall t :: 0 < t < |updated| && t != RatioInput ==> updated[t] == inputTensorValues[t]
    ensures |updated[RatioInput]| == |inputTensorValues[RatioInput]|
    ensures updated[RatioInput][0] == DownsampleRatio
    ensures updated[RatioInput][1..] == inputTensorValues[RatioInput][1..]
  {
    updated := inputTensorValues[0 := preprocessedImage];
    updated := updated[RatioInput := updated[RatioInput][0 := DownsampleRatio]];
  }

  /** Feeds the recurrent state outputs of one frame back as the recurrent state
      inputs of the next: input tensors 1 .. 4 become copies of output tensors
      1 .. 4, which (outputs being listed from session output 1) are the
      session's r1o .. r4o. The source input, the ratio and the outputs are
      left alone. */
  method AssignOutputToInput(outputTensorValues: seq<Tensor>, inputTensorValues: seq<Tensor>)
    returns (updatedInputs: seq<Tensor>)
    requires |outputTensorValues| >= 5 && |inputTensorValues| >= 5
    ensures |updatedInputs| == |inputTensorValues|
    ensures forall t :: 1 <= t < 5 ==> updatedInputs[t] == outputTensorValues[t]
    ensures forall t :: 0 <= t < |updatedInputs| && !(1 <= t < 5) ==> updatedInputs[t] == inputTensorValues[t]
  {
    updatedInputs := inputTensorValues;
    for i := 1 to 5
      invariant |updatedInputs| == |inputTensorValues|
      invariant forall t :: 1 <= t < i ==> updatedInputs[t] == outputTensorValues[t]
      invariant forall t :: 0 <= t < |updatedInputs| && !(1 <= t < i) ==> updatedInputs[t] == inputTensorValues[t]
    {
      updatedInputs := updatedInputs[i := outputTensorValues[i]];
    }
  }

  /** After the shapes are fixed, every recurrent output state has the batch and
      spatial size of the input state it is fed back into. */
  lemma RecurrentShapesAgree(reportedInput: Shape, reportedOutput: Shape, i: nat)
    requires |reportedInput| >= 4 && |reportedOutput| >= 4 && i < 4
    ensures RecurrentOutputShape(reportedOutput, i)[0] == RecurrentInputShape(reportedInput, i)[0] == 1
    ensures RecurrentOutputShape(reportedOutput, i)[2] == RecurrentInputShape(reportedInput, i)[2]
    ensures RecurrentOutputShape(reportedOutput, i)[3] == RecurrentInputShape(reportedInput, i)[3]
    ensures RecurrentOutputShape(reportedOutput, i)[1] == reportedOutput[1]
  {
  }
}
