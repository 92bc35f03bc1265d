# GPU detection, latest-frame inference queue and RVM tensor bookkeeping

A Dafny model of three sequential parts of the OBS background-removal plugin's
GPU inference path:

- **GPU capability detection** (`gpu_info.dfy`, module `Gpu`). The first CUDA
  device's compute capability is combined into the score `sm = major * 10 + minor`.
  A descending threshold ladder (89, 80, 75) turns that score into an
  architecture tier (Ada Lovelace, Ampere, Turing, Unknown), a default
  buffering mode (Triple only for Ada Lovelace) and a default precision (FP16
  from Ampere up). `Classify` is that ladder as a pure function. `DetectGpu`
  takes the results of the two CUDA queries as inputs. It leaves the caller's
  record alone on any failure. Otherwise it fills the record in, with the
  memory in whole mebibytes.
- **Async inference queue** (`async_inference_queue.dfy`, class
  `InferenceQueue.AsyncInferenceQueue`). The queue has one input slot and one
  output slot, each with a presence flag, plus a running flag and two counters.
  `PushFrame` overwrites the input slot and counts a drop when the previous
  frame was still unread. `GetLatestMask` hands the latest result over once.
  The worker thread's loop body is two atomic steps. `WorkerTake` is the
  region under the input lock. `WorkerInfer` runs the callback and, only on
  success, publishes under the output lock. Ghost counters of pushed and taken
  frames give the invariant `Valid()`: every frame pushed since the last start
  is dropped, taken, or still waiting in the slot. A frame is processed only
  after it is taken, and at most once. The scenario methods at the end of the
  file are clients that show the end-to-end behaviour: five quick pushes give
  four drops, and one result is delivered once.
- **RVM tensor bookkeeping** (`model_rvm.dfy`, module `ModelRvm`). Input names
  are listed in full. Output names skip the foreground output. The shapes of
  the source input, the alpha output and the four ConvGRU recurrent states are
  fixed. The recurrent states are the 270 x 480 internal resolution
  ceil-halved one to four times: 135 x 240, 68 x 120, 34 x 60 and 17 x 30.
  Each per-frame step overwrites exactly the tensors it should:
  the image, the downsample ratio and the fed-back recurrent states.

The C++ methods change vectors and the `GpuInfo` record through references.
Here the vectors and the record are values: each method takes the old value
and returns the new one. Neither the vectors nor the record are aliased in
the source.

Points where the code is easy to misread, and what the model follows:

- `gpu-info.h` line 16 calls Triple the default for Ampere, but `detectGpu`
  gives Ampere Double buffering.
- The other hand-overs of a buffer are exchanges, but `pushFrame` copies the
  frame into the input slot. The model overwrites the slot with the new frame.
- `getLatestMask` returns false not only when no result is unread, but also
  when the output buffer is empty. The model keeps both conditions.

## Model

| member | source | states |
|---|---|---|
| `Gpu.Classify` | src/ort-utils/gpu-info.cpp:29-47 | Triple buffering is chosen iff sm >= 89, FP16 iff sm >= 80, and the Unknown tier iff sm < 75 |
| `Gpu.ClassifyBands` | src/ort-utils/gpu-info.cpp:31-47 | each of the four (tier, buffering, precision) triples is chosen exactly on its band: [89, inf), [80, 89), [75, 80), (-inf, 75) |
| `Gpu.ClassifyExamples` | src/ort-utils/gpu-info.cpp:29-47 | capabilities 9.0, 8.6, 7.5 and 6.1 give Ada Lovelace/Triple/FP16, Ampere/Double/FP16, Turing/Double/FP32 and Unknown/Double/FP32 |
| `Gpu.ClassifyIsHighestThresholdMet` | src/ort-utils/gpu-info.cpp:31-47 | a device reaches a tier or a higher one exactly when its score reaches that tier's threshold (75, 80, 89) |
| `Gpu.ClassifyMonotone` | src/ort-utils/gpu-info.cpp:31-47 | a higher score never gives a lower tier, in ladder order and in enum code |
| `Gpu.ClassifyDependsOnTierOnly` | src/ort-utils/gpu-info.cpp:31-47 | two scores that give the same tier give the same buffering and precision defaults |
| `Gpu.ArchitectureCodes` | src/ort-utils/gpu-info.h:7-22 | tier codes 0, 75, 86, 89 are pairwise distinct; Ampere's code 86 is not its threshold 80; Double = 2, Triple = 3, FP32 = 0, FP16 = 1 |
| `Gpu.DefaultIsLowestBandPolicy` | src/ort-utils/gpu-info.h:24-33 | a default record has device 0, zero capability and memory, and the tier, buffering and precision of every score below 75 |
| `Gpu.GpuArchitectureName` | src/ort-utils/gpu-info.cpp:55-67 | the name is "Unknown" exactly for the Unknown tier |
| `Gpu.GpuArchitectureNameInjective` | src/ort-utils/gpu-info.cpp:55-67 | distinct tiers have distinct names |
| `Gpu.DetectGpu` | src/ort-utils/gpu-info.cpp:7-53 | succeeds iff both queries succeed and the device count is non-zero; on failure the record is unchanged; on success it holds device 0, the name and capability, the memory in MiB rounded down, and the ladder's policy for major * 10 + minor |
| `InferenceQueue.AsyncInferenceQueue.constructor` | src/ort-utils/async-inference-queue.h:45-64 | a new queue is not running, has no pending input or output, zero counters, Double mode and no callback |
| `InferenceQueue.AsyncInferenceQueue.IsRunning` | src/ort-utils/async-inference-queue.h:36 | reports the running flag and changes nothing |
| `InferenceQueue.AsyncInferenceQueue.FramesProcessed` | src/ort-utils/async-inference-queue.h:39 | reports the processed counter and changes nothing |
| `InferenceQueue.AsyncInferenceQueue.FramesDropped` | src/ort-utils/async-inference-queue.h:40 | reports the drop counter and changes nothing |
| `InferenceQueue.AsyncInferenceQueue.PushFrame` | src/ort-utils/async-inference-queue.cpp:50-64 | the drop counter grows by one exactly when an unread frame was pending; the slot then holds the new frame and is flagged; drop accounting is kept; nothing else changes |
| `InferenceQueue.AsyncInferenceQueue.GetLatestMask` | src/ort-utils/async-inference-queue.cpp:66-76 | succeeds iff an unread non-empty result is present; then the caller gets it, the slot gets the caller's buffer and the flag is cleared; otherwise the caller's buffer and the queue are unchanged |
| `InferenceQueue.AsyncInferenceQueue.WorkerTake` | src/ort-utils/async-inference-queue.cpp:83-97 | exits when stopped, waits when no input is pending, otherwise exchanges the input slot with the local input and clears the flag, counting the frame as taken |
| `InferenceQueue.AsyncInferenceQueue.WorkerInfer` | src/ort-utils/async-inference-queue.cpp:99-113 | publishes iff the local input is non-empty and the callback exists and succeeds; then the output is exchanged into the slot, flagged, and processed grows by one; otherwise the slot, its flag and the counter are unchanged |
| `InferenceQueue.AsyncInferenceQueue.Stop` | src/ort-utils/async-inference-queue.cpp:33-48 | a no-op when not running, so a second stop changes nothing; otherwise the queue is left not running after the inference under way finishes: it publishes its output and counts one processed frame exactly when the local input is non-empty and the callback exists and succeeds, and otherwise leaves the slot, its flag and the counter unchanged |
| `InferenceQueue.AsyncInferenceQueue.Start` | src/ort-utils/async-inference-queue.cpp:13-31 | stops a running worker first (publishing an inference under way as `Stop` does), stores the callback and the mode (Double when none is given), sets running, clears both flags and both counters, keeps the input slot's buffer; the new worker has empty local buffers |
| `InferenceQueue.AsyncInferenceQueue.Reset` | src/ort-utils/async-inference-queue.cpp:19-25 | after the old worker is gone: callback and mode stored, running set, both flags and counters cleared, both slot buffers kept, drop accounting restarted |
| `InferenceQueue.FivePushesBeforeTheWorkerRuns` | src/ort-utils/async-inference-queue.cpp:56-96 | five pushes before the worker runs give exactly four drops, and the worker then takes the fifth frame |
| `InferenceQueue.NoMaskBeforeTheFirstResult` | src/ort-utils/async-inference-queue.cpp:66-71 | right after a start no mask is returned and the caller's buffer is untouched |
| `InferenceQueue.OneResultIsDeliveredOnce` | src/ort-utils/async-inference-queue.cpp:69-75 | after one successful inference the first poll returns that result and an immediate second poll returns false |
| `InferenceQueue.FailedInferencePublishesNothing` | src/ort-utils/async-inference-queue.cpp:107-113 | a failing callback publishes nothing: no result can be polled and no frame is counted as processed |
| `InferenceQueue.StopTwiceThenRestart` | src/ort-utils/async-inference-queue.cpp:13-39 | stopping twice leaves the queue stopped with its counters; restarting runs it again with zero counters |
| `InferenceQueue.StopLetsTheInferenceUnderWayPublish` | src/ort-utils/async-inference-queue.cpp:39-44 | a stop issued after the worker took a frame waits for its successful inference: one frame is processed and its result can be polled afterwards |
| `InferenceQueue.StartDefaultsToDoubleBuffering` | src/ort-utils/async-inference-queue.h:24 | a start without a mode runs the queue in Double buffering mode, even after a Triple start |
| `ModelRvm.OutputsAlphaMatte` | src/models/ModelRVM.h:24 | RVM always reports a continuous alpha matte |
| `ModelRvm.CeilHalvingsIsCeilDiv` | src/models/ModelRVM.h:76-78 | k stride-2 ceil-halvings of x are the ceiling of x / 2^k |
| `ModelRvm.RecurrentStateSizes` | src/models/ModelRVM.h:71-84 | the internal resolution is 270 x 480 and the recurrent state heights are 135, 68, 34, 17 and widths 240, 120, 60, 30 |
| `ModelRvm.PopulateInputOutputNames` | src/models/ModelRVM.h:26-42 | input names are the session's inputs in order; output names have one entry fewer, entry k being session output k + 1 (none for an empty output list) |
| `ModelRvm.PopulateInputOutputShapes` | src/models/ModelRVM.h:44-104 | returns true; input 0 and output 0 get batch 1 at 1080 x 1920; recurrent inputs 1..4 get batch 1, channels 16/20/40/64 and the ceil-halved sizes; recurrent outputs get the same batch and sizes with the reported channels; all other dims and shapes are as the session reports them |
| `ModelRvm.SetExtraTensorInputs` | src/models/ModelRVM.h:106-109 | only element 0 of input tensor 5 changes, to the downsample ratio |
| `ModelRvm.LoadInputToTensor` | src/models/ModelRVM.h:111-116 | input tensor 0 becomes the image, element 0 of tensor 5 the ratio; all other tensors and elements are unchanged |
| `ModelRvm.AssignOutputToInput` | src/models/ModelRVM.h:118-124 | input tensors 1..4 become copies of output tensors 1..4; every other input tensor is unchanged |
| `ModelRvm.RecurrentShapesAgree` | src/models/ModelRVM.h:92-101 | each recurrent output state has the batch and spatial size of the input state it is fed back into, and keeps its reported channel count |

## Left out

- Threads, mutexes, the condition variable, atomics and thread joining. Each locked region is one atomic step, and the caller decides the order of the steps. Stop's join is modelled by finishing an inference that is already under way.
- The destructor of the queue. It only calls `stop`.
- Frame and mask contents. A `cv::Mat` is an opaque value of which only emptiness is observed.
- The inference callback is modelled as a pure function of the input frame and the worker's output buffer. The real callback's side effects on the inference session are not modelled.
- The buffering mode's effect. The queue only stores the mode and logs it, so there is one input slot and one output slot in every mode.
- The 64-bit counters are unbounded naturals. Wrap-around after 2^64 frames is not modelled.
- The CUDA runtime calls (`cudaGetDeviceCount`, `cudaGetDeviceProperties`) become inputs of `DetectGpu`. The log lines are left out.
- Out-of-range values of the architecture enum. Only the four enumerators exist in the model, so the name switch's default branch is reached only by Unknown.
- The ONNX Runtime session handle and name allocator. They become the lists of names and shapes the session reports.
- Floating-point tensor contents and the float arithmetic of `(int)(1080 * 0.25f)`. Tensors are sequences of reals, and the internal resolution is a quarter of the input size. That is exact for the ratio 0.25.
- `ort-session-utils.cpp`, `cuda-preprocess.h`, `profiler.h`, `ModelSINET.h` and `ModelTCMonoDepth.h` are not part of this model. They are session construction, floating-point preprocessing and OpenCV plumbing, the preprocessing kernel bodies are not available, and the profiling ranges are no-ops.
