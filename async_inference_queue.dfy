/** The latest-frame inference queue: one input slot and one output slot, each
    with a presence flag, a running flag and two statistics counters.

    Every locked region of the C++ class is one atomic step here. The worker
    thread's loop body is split into its two atomic parts, `WorkerTake` (the
    region under the input lock) and `WorkerInfer` (the inference call and the
    publication under the output lock); a scheduler may interleave producer and
    consumer calls between them, as the threads do.
 */
module InferenceQueue {
  import opened Gpu

  datatype Option<T> = None | Some(value: T)

  /** An image buffer; its contents are opaque, only emptiness matters here. */
  datatype Mat = Mat(pixels: seq<int>) {
    predicate Empty() {
      |pixels| == 0
    }
  }

  const EmptyMat := Mat([])

  /** The injected inference call: given the input frame and the worker's output
      buffer, it reports success and the output buffer it leaves behind. */
  type InferenceFunc = (Mat, Mat) -> (bool, Mat)

  /** What the locked region of one worker iteration did. */
  datatype TakeOutcome =
    | Exited   // running was false: the loop ends
    | Waiting  // running and no new input: the worker stays blocked
    | Took     // the input slot was exchanged with the worker's local input

  class AsyncInferenceQueue {
    var inferenceFunc: Option<InferenceFunc>
    var bufferingMode: BufferingMode
    var running: bool

    // input slot
    var inputBuffer: Mat
    var hasNewInput: bool

    // output slot
    var outputBuffer: Mat
    var hasOutput: bool

    var framesProcessed: nat
    var framesDropped: nat

    // the worker loop's two local buffers, which live as long as its thread
    var localInput: Mat
    var localOutput: Mat
    // where the worker thread is: between its take and the end of that iteration
    var workerBusy: bool

    /** Frames pushed since the last start. */
    ghost var pushes: nat
    /** Frames the worker took out of the input slot since the last start. */
    ghost var taken: nat

    /** Every frame pushed since the last start was either dropped, taken by the
        worker, or is the one waiting in the input slot; a frame is processed
        only after it was taken, and at most once. */
    ghost predicate Valid()
      reads this
    {
      && framesDropped + taken + (if hasNewInput then 1 else 0) == pushes
      && framesProcessed + (if workerBusy then 1 else 0) <= taken
      && (workerBusy ==> running)
    }

    constructor ()
      ensures Valid()
      ensures !running && !hasNewInput && !hasOutput
      ensures framesProcessed == 0 && framesDropped == 0
      ensures bufferingMode == Double && inferenceFunc == None
      ensures inputBuffer.Empty() && outputBuffer.Empty()
      ensures pushes == 0 && taken == 0 && !workerBusy
    {
      inferenceFunc := None;
      bufferingMode := Double;
      running := false;
      inputBuffer := EmptyMat;
      hasNewInput := false;
      outputBuffer := EmptyMat;
      hasOutput := false;
      framesProcessed := 0;
      framesDropped := 0;
      localInput := EmptyMat;
      localOutput := EmptyMat;
      pushes := 0;
      taken := 0;
      workerBusy := false;
    }

    function IsRunning(): (r: bool)
      reads this
      ensures r <==> running
    {
      running
    }

    function FramesProcessed(): (n: nat)
      reads this
      ensures n == framesProcessed
    {
      framesProcessed
    }

    function FramesDropped(): (n: nat)
      reads this
      ensures n == framesDropped
    {
      framesDropped
    }

    /** Pushes a frame. The previous frame is dropped (and counted) when the
        worker has not taken it yet. Never waits for the worker. */
    method PushFrame(frame: Mat)
      requires Valid()
      modifies this
      ensures Valid()
      ensures framesDropped == old(framesDropped) + (if old(hasNewInput) then 1 else 0)
      ensures inputBuffer == frame && hasNewInput
      ensures pushes == old(pushes) + 1
      ensures running == old(running) && inferenceFunc == old(inferenceFunc) && bufferingMode == old(bufferingMode)
      ensures outputBuffer == old(outputBuffer) && hasOutput == old(hasOutput)
      ensures framesProcessed == old(framesProcessed)
      ensures localInput == old(localInput) && localOutput == old(localOutput)
      ensures taken == old(taken) && workerBusy == old(workerBusy)
    {
      if hasNewInput {
        framesDropped := framesDropped + 1;
      }
      inputBuffer := frame;
      hasNewInput := true;
      pushes := pushes + 1;
    }

    /** Hands the latest completed result over to the caller by exchanging it
        with the caller's buffer `mask`; `result` is the caller's buffer after
        the call. Without an unread, non-empty result nothing changes. */
    method GetLatestMask(mask: Mat) returns (ok: bool, result: Mat)
      requires Valid()
      modifies this
      ensures Valid()
      ensures ok <==> old(hasOutput) && !old(outputBuffer).Empty()
      ensures !ok ==> result == mask && outputBuffer == old(outputBuffer) && hasOutput == old(hasOutput)
      ensures ok ==> result == old(outputBuffer) && outputBuffer == mask && !hasOutput
      ensures running == old(running) && inferenceFunc == old(inferenceFunc) && bufferingMode == old(bufferingMode)
      ensures inputBuffer == old(inputBuffer) && hasNewInput == old(hasNewInput)
      ensures framesProcessed == old(framesProcessed) && framesDropped == old(framesDropped)
      ensures localInput == old(localInput) && localOutput == old(localOutput)
      ensures pushes == old(pushes) && taken == old(taken) && workerBusy == old(workerBusy)
    {
      if !hasOutput || outputBuffer.Empty() {
        return false, mask;
      }
      result, outputBuffer := outputBuffer, mask;
      hasOutput := false;
      ok := true;
    }

    /** The locked region of one worker iteration: unless the queue is stopped
        or has no new input, exchange the input slot with the local input.
        The worker reaches it only after finishing its previous iteration. */
    method WorkerTake() returns (outcome: TakeOutcome)
      requires Valid()
      requires !workerBusy
      modifies this
      ensures Valid()
      ensures outcome == (if !old(running) then Exited else if !old(hasNewInput) then Waiting else Took)
      ensures outcome == Took ==> localInput == old(inputBuffer) && inputBuffer == old(localInput)
      ensures outcome == Took ==> !hasNewInput && taken == old(taken) + 1 && workerBusy
      ensures outcome != Took ==> localInput == old(localInput) && inputBuffer == old(inputBuffer)
      ensures outcome != Took ==> hasNewInput == old(hasNewInput) && taken == old(taken) && !workerBusy
      ensures running == old(running) && inferenceFunc == old(inferenceFunc) && bufferingMode == old(bufferingMode)
      ensures outputBuffer == old(outputBuffer) && hasOutput == old(hasOutput)
      ensures framesProcessed == old(framesProcessed) && framesDropped == old(framesDropped)
      ensures localOutput == old(localOutput) && pushes == old(pushes)
    {
      if !running {
        return Exited;
      }
      if !hasNewInput {
        return Waiting;
      }
      inputBuffer, localInput := localInput, inputBuffer;
      hasNewInput := false;
      taken := taken + 1;
      workerBusy := true;
      outcome := Took;
    }

    /** Whether the inference step on the worker's local input publishes: the
        input is non-empty and the callback is present and succeeds. */
    predicate InferencePublishes()
      reads this
    {
      !localInput.Empty() && inferenceFunc.Some? && inferenceFunc.value(localInput, localOutput).0
    }

    /** The worker's output buffer once the callback, if it is called, has run. */
    function OutputAfterInference(): Mat
      reads this
    {
      if !localInput.Empty() && inferenceFunc.Some? then inferenceFunc.value(localInput, localOutput).1
      else localOutput
    }

    /** The rest of the worker iteration: an empty local input is skipped;
        otherwise the callback runs, and only on its success is its output
        exchanged into the output slot and the frame counted as processed.
        It follows a take that exchanged a frame. */
    method WorkerInfer() returns (published: bool)
      requires Valid()
      requires workerBusy
      modifies this
      ensures Valid()
      ensures published <==> old(InferencePublishes())
      ensures published ==> outputBuffer == old(OutputAfterInference()) && localOutput == old(outputBuffer)
      ensures published ==> hasOutput && framesProcessed == old(framesProcessed) + 1
      ensures !published ==> outputBuffer == old(outputBuffer) && hasOutput == old(hasOutput)
      ensures !published ==> framesProcessed == old(framesProcessed) && localOutput == old(OutputAfterInference())
      ensures !workerBusy
      ensures running == old(running) && inferenceFunc == old(inferenceFunc) && bufferingMode == old(bufferingMode)
      ensures inputBuffer == old(inputBuffer) && hasNewInput == old(hasNewInput)
      ensures framesDropped == old(framesDropped) && localInput == old(localInput)
      ensures pushes == old(pushes) && taken == old(taken)
    {
      workerBusy := false;
      published := false;
      if localInput.Empty() {
        return;
      }
      if inferenceFunc.Some? {
        var success, produced := inferenceFunc.value(localInput, localOutput).0, inferenceFunc.value(localInput, localOutput).1;
        localOutput := produced;
        if success {
          localOutput, outputBuffer := outputBuffer, localOutput;
          hasOutput := true;
          framesProcessed := framesProcessed + 1;
          published := true;
        }
      }
    }

    /** Stops the worker. Joining it lets an inference already under way finish
        (and publish, when it succeeds) first. Does nothing when not running. */
    method Stop()
      requires Valid()
      modifies this
      ensures Valid()
      ensures !running && !workerBusy
      ensures old(running) && old(workerBusy) && old(InferencePublishes())
              ==> outputBuffer == old(OutputAfterInference()) && localOutput == old(outputBuffer)
                  && hasOutput && framesProcessed == old(framesProcessed) + 1
      ensures !(old(running) && old(workerBusy) && old(InferencePublishes()))
              ==> outputBuffer == old(outputBuffer) && hasOutput == old(hasOutput)
                  && framesProcessed == old(framesProcessed)
      ensures old(running) && old(workerBusy) && !old(InferencePublishes())
              ==> localOutput == old(OutputAfterInference())
      ensures !(old(running) && old(workerBusy)) ==> localOutput == old(localOutput)
      ensures !old(running) ==> workerBusy == old(workerBusy)
      ensures inferenceFunc == old(inferenceFunc) && bufferingMode == old(bufferingMode)
      ensures inputBuffer == old(inputBuffer) && hasNewInput == old(hasNewInput)
      ensures framesDropped == old(framesDropped) && localInput == old(localInput)
      ensures pushes == old(pushes) && taken == old(taken)
    {
      if !running {
        return;
      }
      // the inference under way does not look at the running flag, so letting
      // it finish before clearing the flag is the same as the join after it
      if workerBusy {
        var _ := WorkerInfer();
      }
      running := false;
    }

    /** (Re)starts the worker with a callback and a buffering mode. A running
        worker is stopped first; the slot flags and both counters are reset and
        the new worker starts with empty local buffers. The mode, Double unless
        given, is only stored: there is one input and one output slot whatever
        it is. */
    method Start(func: Option<InferenceFunc>, mode: BufferingMode := Double)
      requires Valid()
      modifies this
      ensures Valid()
      ensures running && inferenceFunc == func && bufferingMode == mode
      ensures inputBuffer == old(inputBuffer)
      ensures old(running) && old(workerBusy) && old(InferencePublishes())
              ==> outputBuffer == old(OutputAfterInference())
      ensures !(old(running) && old(workerBusy) && old(InferencePublishes())) ==> outputBuffer == old(outputBuffer)
      ensures !hasNewInput && !hasOutput
      ensures framesProcessed == 0 && framesDropped == 0
      ensures localInput.Empty() && localOutput.Empty()
      ensures pushes == 0 && taken == 0 && !workerBusy
    {
      if running {
        Stop();
      }
      Reset(func, mode);
    }

    /** The part of a start after the old worker is gone: store the callback
        and mode, set the running flag, clear both slot flags and both counters,
        and give the new worker empty local buffers. Both slot buffers stay. */
    method Reset(func: Option<InferenceFunc>, mode: BufferingMode)
      requires !workerBusy
      modifies this
      ensures Valid()
      ensures running && inferenceFunc == func && bufferingMode == mode
      ensures inputBuffer == old(inputBuffer) && outputBuffer == old(outputBuffer)
      ensures !hasNewInput && !hasOutput
      ensures framesProcessed == 0 && framesDropped == 0
      ensures localInput.Empty() && localOutput.Empty()
      ensures pushes == 0 && taken == 0 && !workerBusy
    {
      inferenceFunc := func;
      bufferingMode := mode;
      running := true;
      hasNewInput := false;
      hasOutput := false;
      framesProcessed := 0;
      framesDropped := 0;
      localInput := EmptyMat;
      localOutput := EmptyMat;
      pushes := 0;
      taken := 0;
    }
  }
  /** A started queue that receives five frames before its worker runs counts
      four of them as dropped; the worker then takes the last one. */
  method FivePushesBeforeTheWorkerRuns(f1: Mat, f2: Mat, f3: Mat, f4: Mat, f5: Mat, func: Option<InferenceFunc>)
    returns (dropped: nat, outcome: TakeOutcome, workerInput: Mat)
    ensures dropped == 4
    ensures outcome == Took && workerInput == f5
  {
    var q := new AsyncInferenceQueue();
    q.Start(func, Double);
    q.PushFrame(f1);
    q.PushFrame(f2);
    q.PushFrame(f3);
    q.PushFrame(f4);
    q.PushFrame(f5);
    dropped := q.FramesDropped();
    outcome := q.WorkerTake();
    workerInput := q.localInput;
  }

  /** Right after a start, before anything was processed, no mask is handed out
      and the caller's buffer is left as it was. */
  method NoMaskBeforeTheFirstResult(func: Option<InferenceFunc>, mode: BufferingMode, mask: Mat)
    returns (ok: bool, result: Mat)
    ensures !ok && result == mask
  {
    var q := new AsyncInferenceQueue();
    q.Start(func, mode);
    ok, result := q.GetLatestMask(mask);
  }

  /** One frame, one successful inference: the first poll returns the result,
      an immediate second poll returns nothing. */
  method OneResultIsDeliveredOnce(frame: Mat, produced: Mat, mask: Mat)
    returns (first: bool, firstMask: Mat, second: bool, processed: nat)
    requires !frame.Empty() && !produced.Empty()
    ensures first && firstMask == produced
    ensures !second
    ensures processed == 1
  {
    var q := new AsyncInferenceQueue();
    q.Start(Some((input: Mat, output: Mat) => (true, produced)), Double);
    q.PushFrame(frame);
    var outcome := q.WorkerTake();
    var published := q.WorkerInfer();
    processed := q.FramesProcessed();
    first, firstMask := q.GetLatestMask(mask);
    var leftover;
    second, leftover := q.GetLatestMask(firstMask);
  }

  /** A failing callback publishes nothing: the frame is taken, but the output
      slot stays empty and no frame is counted as processed. */
  method FailedInferencePublishesNothing(frame: Mat, mask: Mat)
    returns (published: bool, ok: bool, processed: nat)
    requires !frame.Empty()
    ensures !published && !ok && processed == 0
  {
    var q := new AsyncInferenceQueue();
    q.Start(Some((input: Mat, output: Mat) => (false, input)), Double);
    q.PushFrame(frame);
    var outcome := q.WorkerTake();
    published := q.WorkerInfer();
    processed := q.FramesProcessed();
    var result;
    ok, result := q.GetLatestMask(mask);
  }

  /** Stopping twice is harmless: the second stop changes nothing, and a
      restart begins with clear slots and zero counters. */
  method StopTwiceThenRestart(frame: Mat, func: Option<InferenceFunc>)
    returns (runningAfterStops: bool, droppedAfterStops: nat, runningAfterRestart: bool, droppedAfterRestart: nat)
    ensures !runningAfterStops && droppedAfterStops == 1
    ensures runningAfterRestart && droppedAfterRestart == 0
  {
    var q := new AsyncInferenceQueue();
    q.Start(func, Triple);
    q.PushFrame(frame);
    q.PushFrame(frame);
    q.Stop();
    q.Stop();
    runningAfterStops := q.IsRunning();
    droppedAfterStops := q.FramesDropped();
    q.Start(func, Triple);
    runningAfterRestart := q.IsRunning();
    droppedAfterRestart := q.FramesDropped();
  }
  /** Stopping while the worker is inside an inference lets that inference
      finish: a successful result is published and counted, and can be polled
      after the stop. */
  method StopLetsTheInferenceUnderWayPublish(frame: Mat, produced: Mat, mask: Mat)
    returns (processed: nat, ok: bool, result: Mat)
    requires !frame.Empty() && !produced.Empty()
    ensures processed == 1
    ensures ok && result == produced
  {
    var q := new AsyncInferenceQueue();
    q.Start(Some((input: Mat, output: Mat) => (true, produced)));
    q.PushFrame(frame);
    var outcome := q.WorkerTake();
    q.Stop();
    processed := q.FramesProcessed();
    ok, result := q.GetLatestMask(mask);
  }

  /** Starting without a mode selects Double buffering. */
  method StartDefaultsToDoubleBuffering(func: Option<InferenceFunc>) returns (mode: BufferingMode, running: bool)
    ensures mode == Double && running
  {
    var q := new AsyncInferenceQueue();
    q.Start(func, Triple);
    q.Start(func);
    mode := q.bufferingMode;
    running := q.IsRunning();
  }
}
