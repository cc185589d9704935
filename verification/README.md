# GoEdgeInfer in Dafny

GoEdgeInfer serves model predictions from one process. This project models its six stateful or
arithmetic kernels and proves what they promise, over every input, every run and every interleaving.

| component | repository files | modules |
|---|---|---|
| token bucket | `internal/middleware/rate_limit.go` | `RateLimit` |
| durable queue and recovery | `internal/persistence/queue.go`, `internal/worker/pool.go` | `ByteKeys`, `Queue`, `Recovery` |
| processing pipeline | `internal/processing/pipeline.go` | `Pipeline`, `PipelineLaws`, `PipelineMeaning` |
| registries, top-N selection | `internal/model/model.go`, `internal/inference/onnx_runtime.go`, `internal/inference/tflite_engine_mock.go` | `ModelKeys`, `Registry`, `LoadRefinement`, `TopN` |
| session slots of the ONNX engine | `internal/inference/onnx_runtime.go` | `Inference`, `InferenceLaws`, `Slots`, `SessionPool`, `SessionPoolInvariant`, `SessionPoolLinearization`, `SessionPoolTheorems`, `SessionPoolLoading`, `SessionPoolUnloading`, `SessionPoolRuns` |
| worker pool over the engine | `internal/worker/pool.go` | `WorkerPool`, `WorkerPoolInvariant`, `WorkerPoolTheorems`, `Draining`, `Shutdown`, `WorkerPoolRuns` |

`Values` holds the shared vocabulary and `Counting` facts about the size of sets and sequences.

## How the code is represented

- Objects that change their fields are classes (`RateLimiter`, `PersistentQueue`, `ModelManager`,
  `OnnxEngine`, `SessionSlot`, `OnnxModel`), and buffers written in place are arrays. Each method is
  proved equal to a function of the old state, and the theorems are about that function.
- Those functions are pinned in their turn: `InferenceLaws.OutcomeIs` and `PipelineMeaning.StepIs` and
  `RunIs` state what a prediction and a pipeline do without them, in terms that hold of exactly one answer,
  and the lemmas `EngineLoadsIff`, `LoadRegistersIff`, `TurnSubmits` and their neighbours do the same for one
  request to the registries and one turn of recovery.
- What several goroutines do at once is a step machine. `Next` performs one shared action (one channel
  operation, one locked section, one tensor overwritten) or is `None` when that action is blocked;
  `Run` is any finite interleaving. A Go panic (a send on a closed channel, the use of a nil slot, a
  second close) sets `fault`, after which nothing moves. Every receive on a slot channel, in a call, an
  unload, `Close` or the cleanup of a failed load, is the one function `SessionPool.Receive`. `SessionPool`
  has any number of callers, loads slot by slot, unloads and `Close`; `WorkerPool` embeds it unchanged and adds submitters, workers and `Shutdown`.
- The methods of `Slots` show, on real tensor buffers, that one slot computes `Inference.Predict` whatever
  it held before; the step machine of `SessionPool` uses the same functions, interleaved.
- `session.Run` is a partial function of the filled inputs (`net.run`), different for each model and
  otherwise unknown; when it fails, the output buffers hold anything (`junk`).
- Storage, disk and decoding outcomes are flags of a request. Times are arguments. The store iterates in
  byte order of its keys, the fact `Queue.Least` is built on. Item encoding is the identity.
- Numbers are reals, and `exp` is a parameter. `Pipeline.Positive` (exp is positive) is assumed
  throughout; `Pipeline.IsExp` (also increasing, with exp(a+b) = exp(a)·exp(b)) only where a theorem
  needs it.

## What the proofs show about the code

- Concurrent `Predict` calls never mix data. Each takes effect at one moment, its lookup in the registry:
  whatever loads, unloads, `Close` and other calls do, it is answered what a sequential `Predict` on the
  registry of that moment returns for its own input, or the context error if its context ended
  (`ConcurrentCallsAreSequential`). After `UnloadModel` or `Close` begins
  a panic can follow exactly when some call is then between its lookup and its return on an instance they
  close (`UnloadPanicsIff`, `ClosePanicsIff`); it need not follow, since a waiting call may still give up
  with its context. `NilSlotRun` and `ClosedReturnRun` are two runs that do panic.
- A load that fails while creating a slot is meant to return its error. It destroys the slots it had
  created, each once, and then waits on their channel, which nobody closes, while it holds the engine
  lock. A load can still release the lock if and only if none of its slot creations has failed
  (`LoadReturnsIff`); after a failure no call whose key is accepted ever gets past its lookup
  (`CleanupNeverReturns`), even when it was the very first slot (`FailedFirstSlotRun`). Calls with a
  refused key are answered before they need the lock.
- `docs/api_worker_integration.md:37` and `docs/persistence.md:11` promise that unprocessed tasks are
  recovered after a restart. `Submit` persists the task again inside the recovery loop, so a loop that
  starts on a non-empty store never ends while storage works; it submits only the oldest task, over
  and over, and the restarted counter overwrites the others (`RestartSubmitsTheOldest`, `RestartLosesTheRest`). Workers
  never dequeue, so the store also keeps tasks that were answered. The persisted record has no model
  version, so recovery asks for the version-less key.
- The queue is FIFO from an empty store for fewer than 2^64 enqueues, and an enqueue keeps FIFO order
  exactly when every stored key is below the new one; a reopened store fails that until it is empty
  (`RewoundLosesOrder`), because the counter restarts at 0.
- An ONNX prediction's output is a map, which every non-empty pipeline rejects
  (`MapsPassOnlyTheEmptyPipeline`); a pool
  configured with one never answers a task with a prediction (`ConfiguredPoolNeverPredicts`).
- `UnloadModelWithTracing("a:b", "")` splits the two registries for a model loaded as ("a", "b"), and
  that shape of call is the only one that ever does (`CoverageBrokenIff`).
- `Shutdown` waits for no worker: its last select can end by the context it has itself cancelled
  (`ShutdownNeedNotWait`), and in `HastyRun` it does while a worker holds a task. A task can be left
  without an answer if and only if, when the shutdown begins, it is in the task channel, or its submitter
  is at a channel that has room or that a worker may empty (`StrandedIff`); a task that a worker has taken
  is always answered (`HeldIsAnswered`).
- `getTopNResults` panics on a count that is negative or beyond the runtime's limit for a slice, unless one
  of its lists is empty.

## Model

| member | source | states |
|---|---|---|
| RateLimit.ClosedForm | internal/middleware/rate_limit.go:35-42 | the lazily refilled token count at any call is the least, over all earlier calls i, of capacity plus rate times elapsed time minus the admissions since i; for every rate, sequence of times and decisions |
| RateLimit.AdmissionIsWindowTest | internal/middleware/rate_limit.go:44-53 | a token is there exactly when the admissions of every window ending now, plus this one, stay within capacity plus the window's refill |
| RateLimit.AdmissionIsDurationTest | internal/middleware/rate_limit.go:44-53 | the same test with the refill spelled out as rate times the window's duration |
| RateLimit.LegalIffWindowsBounded | internal/middleware/rate_limit.go:44-53 | a policy never overdraws the bucket exactly when each window ending at an admission is within its bound |
| RateLimit.WindowBound | internal/middleware/rate_limit.go:31-54 | with a non-negative rate and ordered times, every window that admits anything admits at most capacity plus rate times duration |
| RateLimit.GreedyIsOptimal | internal/middleware/rate_limit.go:31-54 | at every prefix, Allow's decisions admit at least as many calls as any policy that never overdraws; a rival's token lead is at most the admissions it gave up |
| RateLimit.GreedyIsUnique | internal/middleware/rate_limit.go:44-53 | admitting exactly when a token is there determines the whole run: decisions and token levels |
| RateLimit.GainIsRateTimesDuration | internal/middleware/rate_limit.go:36-38 | the refill between two calls is the elapsed time times the rate |
| RateLimit.RateLimiter.constructor | internal/middleware/rate_limit.go:21-28 | a new limiter holds a full bucket, its clock set to the creation time, with no call admitted |
| RateLimit.RateLimiter.Earned | internal/middleware/rate_limit.go:36-38 | elapsed time times rate is the gain between the last call and this one |
| RateLimit.RateLimiter.Allow | internal/middleware/rate_limit.go:31-54 | the verdict is the window test over every call made since creation, although only a level and a time are stored; the history grows by this call and verdict |
| ByteKeys.EncodeKey | internal/persistence/queue.go:30-34 | the byte-shift loop writes the fixed-width big-endian key of the number |
| ByteKeys.ByteAt | internal/persistence/queue.go:32-34 | the byte i places from the right is the number shifted by i bytes, modulo 256 |
| ByteKeys.RoundTrip | internal/persistence/queue.go:31-34 | the key of a number that fits its width reads back as that number |
| ByteKeys.OrderIsNumeric | internal/persistence/queue.go:31-34 | byte order on keys of any width is numeric order, both ways |
| ByteKeys.KeyOrder | internal/persistence/queue.go:31-34 | eight-byte keys below 2^64 compare as their numbers do and are equal only for equal numbers |
| Queue.StoredBehind | internal/persistence/queue.go:39-41 | an item stored under a key above all others becomes the last one served, all others unmoved |
| Queue.EnqueueAppendsIff | internal/persistence/queue.go:30-41 | an enqueue of a new value puts it last exactly when every stored key is below the key it uses |
| Queue.RewoundLosesOrder | internal/persistence/queue.go:24-41 | when the next key is not above any stored one, an enqueue keeps FIFO order only if the store is empty |
| Queue.ReopenRewinds | internal/persistence/queue.go:24 | reopening a store whose keys came from a counter that has not wrapped puts it in that state |
| Queue.WrapRewinds | internal/persistence/queue.go:30 | so does the enqueue that wraps the 64-bit counter |
| Queue.StepRefines | internal/persistence/queue.go:27-85 | each operation on a store whose keys are at most the counter does what a plain sequence would do, failures included, and leaves the keys at most the counter |
| Queue.RunRefines | internal/persistence/queue.go:27-85 | so does every run of operations before the counter wraps: same final contents, same replies, the counter ahead by the number of enqueues |
| Queue.FreshQueueIsFifo | internal/persistence/queue.go:19-85 | from an empty store every run with fewer than 2^64 enqueues is a FIFO queue |
| Queue.PersistentQueue.constructor | internal/persistence/queue.go:19-25 | opening keeps what is on disk and sets the counter to 0 |
| Queue.PersistentQueue.Enqueue | internal/persistence/queue.go:27-42 | the counter advances modulo 2^64 even when encoding or the transaction fails, and then nothing else changes; otherwise the item is stored under the key of the new counter |
| Queue.PersistentQueue.Dequeue | internal/persistence/queue.go:44-67 | the first item in key order is removed and returned; it is removed even when decoding it fails, and nothing changes when the store is empty or reading or the transaction fails, with the error of each case |
| Queue.PersistentQueue.Len | internal/persistence/queue.go:69-85 | the counting loop returns the number of items still to be served, or -1 on a failed view |
| Recovery.ExitsIffEmpty | internal/worker/pool.go:185-193 | while storage works, the recovery loop ends exactly when the store began empty; otherwise it submits one task a turn and the store never empties |
| Recovery.TurnExitsIff | internal/worker/pool.go:185-191 | whatever fails in a turn: the loop exits exactly when nothing is stored or the dequeue fails; nothing has changed then, except that a task taken but not decoded is gone unsubmitted |
| Recovery.TurnSubmits | internal/worker/pool.go:144-153 | any other turn submits the oldest task; if its second write fails the task is no longer stored, the counter moved all the same |
| Recovery.OnceEachIfRewritesFail | internal/worker/pool.go:144-153 | as long as its second write fails, the loop as coded submits every stored task exactly once, oldest first, and ends |
| Recovery.OnlyTheOldestIsSubmitted | internal/worker/pool.go:144-153 | after a reopening, the loop submits the oldest task on every turn and no other task on any |
| Recovery.TheRestIsOverwritten | internal/worker/pool.go:144-153 | once the restarted counter has passed the old keys, the oldest task is the only item left in the store |
| Recovery.RestartSubmitsTheOldest | internal/worker/pool.go:181-194 | the whole story: after any run of fewer than 2^64 enqueues from an empty store and a reopening, the loop submits the oldest item of the plain FIFO on every turn and does not exit |
| Recovery.RestartLosesTheRest | internal/worker/pool.go:181-194 | and after as many turns as there were enqueues that item is all that is stored |
| Recovery.SecondTaskIsLost | internal/worker/pool.go:185-193 | with two stored tasks, after as many turns as the second one's number, the first has been submitted on every turn and the second is gone unsubmitted |
| Recovery.WithoutRepersisting | internal/worker/pool.go:185-193 | a loop that did not persist again would end after as many turns as tasks, each submitted once in key order, store empty |
| Recovery.TakesInOrder | internal/worker/pool.go:185-193 | stopped early, that loop has submitted the oldest tasks in order and still stores the others in order |
| Recovery.RecoverFromPersistentQueue | internal/worker/pool.go:181-194 | the loop with its break, on the queue object, submits and leaves what the turn-by-turn specification says |
| TopN.ExchangeStep | internal/inference/tflite_engine_mock.go:153-159 | exchanging a pair found out of order keeps the indices a permutation, keeps the finished prefix in place and settles one more comparison |
| TopN.SortIndices | internal/inference/tflite_engine_mock.go:146-159 | the nested exchange loops leave a permutation of the indices with scores in descending order |
| TopN.DecimalReads | internal/inference/tflite_engine_mock.go:168 | the digits in a stand-in label read back as the index |
| TopN.ReportTop | internal/inference/tflite_engine_mock.go:161-176 | the reporting loop: entry i has the score of the i-th chosen index and its label, or the word Class and the digits of the index where there is no label |
| TopN.PrefixIsTop | internal/inference/tflite_engine_mock.go:162-176 | any prefix of such a permutation has distinct indices, descending scores, and no omitted score above a chosen one |
| TopN.GetTopNResults | internal/inference/tflite_engine_mock.go:141-179 | for non-empty inputs and a count from 0 to the runtime's limit, min(topN, len) entries; entry i has the score of the i-th chosen index and as title the label of that index, or the word Class and digits that read back as the index; empty inputs give nothing; it panics exactly on non-empty inputs with a count outside that range |
| TopN.ScoresAreDetermined | internal/inference/tflite_engine_mock.go:146-176 | any two top selections of the same length have the same scores place by place, however ties were broken |
| Pipeline.FindPeak | internal/processing/pipeline.go:46-53 | the running maximum, which starts at 0 |
| Pipeline.NormalizeInPlace | internal/processing/pipeline.go:45-60 | unless cut, every element is divided by one positive element that is the greatest; the run is cut, and the array left alone, exactly when no element is positive |
| Pipeline.SoftmaxStep | internal/processing/pipeline.go:61-81 | a fresh array with the shifted exponentials over their sum; the input array is untouched |
| Pipeline.ThresholdStep | internal/processing/pipeline.go:82-99 | one bit per element, 1 where the element reaches the number under "threshold", or a half when there is none |
| Pipeline.MapLabelsStep | internal/processing/pipeline.go:100-121 | each index in range becomes its label, an index out of range or a label that is not a string gives "" |
| Pipeline.RunStep | internal/processing/pipeline.go:40-125 | one step of the interpreter, error cases included; only normalize writes the array it was given, every other floats result is fresh |
| Pipeline.Run | internal/processing/pipeline.go:38-128 | the whole interpreter returns what the fold of step meanings with a cut returns; the caller's array ends normalized exactly when the first step normalizes |
| Pipeline.NewPipelineFromConfig | internal/processing/pipeline.go:21-35 | fails exactly when some entry has no type string, else one step per entry in order, with that type and the entry's settings |
| Pipeline.NormalizeIdempotent | internal/processing/pipeline.go:42-60 | normalizing twice is normalizing once; the maximum becomes 1 exactly when some element is positive; without positive elements nothing changes |
| PipelineMeaning.SoftmaxIs | internal/processing/pipeline.go:61-81 | the only result of softmax: for the greatest element or 0 as p, every exp(x_i - p) over what adding them one by one comes to |
| PipelineMeaning.StepIs | internal/processing/pipeline.go:40-125 | what each of the steps does, errors and early return included, said without the functions that compute it; exactly one outcome fits |
| PipelineMeaning.RunIs | internal/processing/pipeline.go:38-128 | an outcome is the run's if and only if the steps hand values on in order, each as just said, up to the end or to one that cuts or fails; the last value, the cut's value or the error is returned |
| PipelineMeaning.OnlyNormalize | internal/processing/pipeline.go:42-60 | a pipeline of one normalize returns floats with every element divided by the greatest, or as they were when none is positive |
| PipelineLaws.Compose | internal/processing/pipeline.go:38-128 | running p followed by q is running q on p's result, unless p was cut or failed, and then q is skipped |
| PipelineLaws.CutIff | internal/processing/pipeline.go:54-56 | a run is cut exactly when its first k steps complete uncut for some k, step k is normalize, and the floats it gets have peak 0 |
| PipelineLaws.CheckPredicts | internal/processing/pipeline.go:40-125 | a checker that sees only the input's type and the steps' parameters predicts success and result type of every uncut run, and a pipeline it accepts never fails |
| PipelineLaws.MapsPassOnlyTheEmptyPipeline | internal/processing/pipeline.go:38-128 | a map, which is what the ONNX engine returns, fails in every pipeline that has a step |
| PipelineLaws.RerunIsTheSame | internal/processing/pipeline.go:57-60 | running a pipeline again on the array an earlier run has normalized in place gives the same outcome |
| PipelineLaws.SoftmaxKeepsRanking | internal/processing/pipeline.go:61-81 | softmax orders its outputs as its inputs were ordered, both ways |
| PipelineLaws.ChainKeepsRanking | internal/processing/pipeline.go:42-81 | any chain of normalize and softmax steps, cut or not, keeps the ranking of the elements |
| PipelineLaws.SoftmaxIsDistribution | internal/processing/pipeline.go:61-81 | softmax outputs are positive and sum to 1 |
| PipelineLaws.SoftmaxIsUnshifted | internal/processing/pipeline.go:63-79 | the shift by a maximum that starts at 0 cancels: the result is the unshifted definition |
| PipelineLaws.TextbookAt | internal/processing/pipeline.go:70-79 | the unshifted definition at i: exp(x_i) over the sum of the exponentials |
| PipelineLaws.ThresholdedSoftmax | internal/processing/pipeline.go:61-99 | softmax then apply_threshold at t gives k ones with k·t at most 1, hence at most one when t exceeds 0.5 |
| PipelineLaws.TimesIsProduct | internal/processing/pipeline.go:82-99 | the repeated sum k·t in that bound is the product |
| ModelKeys.AcceptedKey | internal/inference/onnx_runtime.go:123-137 | a key is built exactly for non-empty ':'-free ids with ':'-free versions, and is the manager's key |
| ModelKeys.KeySays | internal/inference/onnx_runtime.go:121-137 | which of the three refusals a pair gets, if and only if; a key is the id alone, or the id, a colon and the version |
| ModelKeys.KeyInjective | internal/inference/onnx_runtime.go:121-137 | two accepted pairs have the same key only if they are the same pair, empty versions included |
| ModelKeys.RejectedCollision | internal/model/model.go:187-196 | the manager, which rejects no pair, gives a pair refused by the engine the key of an accepted one exactly when the pair is that key with no version |
| Registry.PairStep | internal/inference/onnx_runtime.go:195-208 | each engine load, lookup and unload answers and changes what a map keyed by (id, version) would |
| Registry.EngineIsPairMap | internal/inference/onnx_runtime.go:357-435 | in every run the string-keyed engine is indistinguishable from the pair map, so requests about one pair never affect another |
| Registry.EngineLoadsIff | internal/inference/onnx_runtime.go:356-435 | a load adds its model exactly when the lock is free, the pair accepted and new, the file and all its slots good; any other leaves the map as it was, hangs if and only if the lock is stuck or gets stuck, and else names the first fault |
| Registry.EngineFindsIff | internal/inference/onnx_runtime.go:820-838 | a lookup changes nothing and finds a model exactly when it is loaded under the key; refused keys are answered even when the lock is stuck |
| Registry.EngineUnloadsIff | internal/inference/onnx_runtime.go:195-208 | an unload succeeds exactly when the key is accepted and there, and removes that key only |
| Registry.LoadRegistersIff | internal/inference/onnx_runtime.go:437-444 | a traced load makes its key new in the manager exactly when it was not there and the file is readable, whatever the signature check and the engine then say; a duplicate or an unreadable file leaves both registries equal, a bad signature leaves the model in the manager |
| Registry.LoadReachesEngine | internal/inference/onnx_runtime.go:437-444 | once the manager has let it through the engine adds the model exactly when it would have done so alone, and the manager keeps the model even if the engine refuses or hangs |
| Registry.TracedUnloadIff | internal/inference/onnx_runtime.go:446-453 | the manager always loses the key; the engine loses it exactly when the manager had it and the engine would have unloaded it alone |
| Registry.CloseEmptiesEngine | internal/inference/onnx_runtime.go:161-176 | Close empties the engine's map and leaves the manager's, unless the lock is stuck |
| Registry.CoverageBrokenIff | internal/inference/onnx_runtime.go:437-453 | a traced load, traced unload or Close keeps the engine's keys among the manager's, unless it unloads, with no version, an id holding ':' that is a loaded key, and then it does not |
| Registry.ColonUnloadSplitsRegistries | internal/inference/onnx_runtime.go:446-453 | the concrete run: load ("a", "b"), unload ("a:b", ""); the engine keeps the model the manager dropped |
| Registry.OrphansHaveCulprits | internal/inference/onnx_runtime.go:437-453 | over every serial run with accepted ids, engine keys stay manager keys; a key that only the manager has at the end was so at the start, or comes from a traced load of it that did not succeed or a Close that dropped it, and since then nobody has loaded it successfully or unloaded it |
| Registry.UnloadClearsForRetry | internal/model/model.go:200-227 | such a key makes a retried load a duplicate, and one traced unload clears it so that the retry succeeds |
| Registry.ModelManager.LoadModel | internal/model/model.go:77-159 | a duplicate or an unreadable file changes nothing; otherwise the model is inserted before the signature check, so a bad signature fails and leaves it registered |
| Registry.OnnxEngine.LoadModel | internal/inference/onnx_runtime.go:356-435 | the exact order of refusals, slots created one by one, the insertion last, and the load that hangs with the lock held at the first slot that fails |
| LoadRefinement.LoadRefines | internal/inference/onnx_runtime.go:406-434 | for every outcome of every slot creation, the slot-by-slot machine reaches the state the one-step load of the registry gives: loaded, or stuck in a cleanup with an empty channel |
| LoadRefinement.CreationRun | internal/inference/onnx_runtime.go:408-417 | following the outcomes slot by slot leads to the loaded model when all succeed, else to the cleanup that has emptied its channel |
| Registry.OnnxEngine.LoadModelWithTracing | internal/inference/onnx_runtime.go:437-444 | the manager first, the engine only if it accepted, no rollback |
| Registry.OnnxEngine.UnloadModelWithTracing | internal/inference/onnx_runtime.go:446-453 | the manager first, the engine only if it had the model |
| Inference.FillFailsFirst | internal/inference/onnx_runtime.go:735-740 | filling succeeds exactly when every flat input has its tensor's size, and then fully determines every input; otherwise the first wrong size is reported |
| Inference.WholeNumbersAreExact | internal/inference/onnx_runtime.go:517-610 | a flat input of whole numbers within the range of an integer element type fills the tensor unchanged |
| InferenceLaws.FlattenSays | internal/inference/onnx_runtime.go:455-515 | what flattening gives, without its functions: the slice itself, booleans as 0 and 1, rows laid end to end; what it refuses is what has no such form |
| InferenceLaws.ResolveSays | internal/inference/onnx_runtime.go:675-702 | input i is the flattened field of its own name, or the single plain value; an error names the first name, in the model's order, that is missing or unusable |
| InferenceLaws.AllHoldMeans | internal/inference/onnx_runtime.go:517-610 | floating-point tensors hold the numbers asked for, boolean ones 1 where the number is not 0, integer ones the number without its fraction when that fits the type |
| InferenceLaws.TruncationIsUnique | internal/inference/onnx_runtime.go:534-600 | there is only one whole number without the fraction |
| InferenceLaws.OutputSays | internal/inference/onnx_runtime.go:742-786 | the report: data and shape of the first output, the model id, and with several outputs each one under its own name |
| InferenceLaws.RunFlatSays | internal/inference/onnx_runtime.go:735-786 | a slot answers with the report of a run on tensors that hold the flat inputs, the first wrong size, or the failure of the run |
| InferenceLaws.PredictSays | internal/inference/onnx_runtime.go:704-733 | the whole answer in those terms |
| InferenceLaws.OutcomeIs | internal/inference/onnx_runtime.go:704-786 | those terms hold of exactly one answer, the one the model function computes, for every model, request and result |
| Slots.FlattenInput | internal/inference/onnx_runtime.go:455-515 | numeric slices as they are, rows of floats laid end to end, booleans as 0 and 1, everything else refused |
| Slots.NamedInputs | internal/inference/onnx_runtime.go:675-697 | the loop over the model's input names: each gets its own field, the first missing or unusable one is the error |
| Slots.ResolveInputs | internal/inference/onnx_runtime.go:675-702 | by name in model order with the first missing or unusable name reported; a plain value only for a model with one input |
| Slots.FillTensor | internal/inference/onnx_runtime.go:517-610 | refuses a wrong length without writing; else a floating-point tensor equals the flat input, element i of a boolean one is 1 exactly when flat input i is not 0, and element i of an integer one is flat input i without its fraction when that fits the type |
| Slots.ReadTensor | internal/inference/onnx_runtime.go:612-673 | a fresh copy of the buffer |
| Slots.SessionSlot.FillInputs | internal/inference/onnx_runtime.go:735-740 | every input tensor overwritten, or the first size error |
| Slots.SessionSlot.FillOne | internal/inference/onnx_runtime.go:735-740 | one turn of the filling loop overwrites its own input tensor, or reports its size, and no other |
| Slots.SessionSlot.ReadOutputs | internal/inference/onnx_runtime.go:746-755 | one fresh copy per output, in order |
| Slots.SessionSlot.RunSlot | internal/inference/onnx_runtime.go:735-786 | whatever earlier or half-failed calls left in the slot, the result is the model function of these flat inputs, and the outputs handed out are fresh arrays |
| Slots.Destroy | internal/inference/onnx_runtime.go:27-43 | the session is released; a nil slot, or one already destroyed, is left alone |
| Slots.OnnxModel.UseSlot | internal/inference/onnx_runtime.go:726-732 | the oldest free slot is taken, used and put back last |
| Slots.OnnxModel.Predict | internal/inference/onnx_runtime.go:704-733 | the answer is what the session makes of the request alone, in the plain terms of InferenceLaws; no slot is touched when the input does not resolve; with no free slot the context ends the wait |
| Slots.OnnxModel.Unload | internal/inference/onnx_runtime.go:178-188 | closes the pool, empties it and releases every slot that was in it |
| Slots.PredictMany | internal/inference/onnx_runtime.go:704-786 | any number of calls in a row each get the answer to their own input, in those terms too, and at the end all arrays handed out still hold the outputs reported with them |
| SessionPool.SessionPoolSize | internal/inference/onnx_runtime.go:107-119 | the configured size when positive, else the worker count when positive, else 4; never 0 |
| SessionPoolInvariant.CheckoutStep | internal/inference/onnx_runtime.go:726-728 | a checkout moves the slot from the pool to the caller, with nothing yet assumed of its contents |
| SessionPoolInvariant.FillStep | internal/inference/onnx_runtime.go:736-740 | filling one input advances, or fails with the error the model function gives |
| SessionPoolInvariant.RunStep | internal/inference/onnx_runtime.go:742-744 | the session sees exactly this caller's inputs, and a failed run changes only this slot's outputs |
| SessionPoolInvariant.ReadStep | internal/inference/onnx_runtime.go:746-755 | reading one output at a time collects the outputs of this caller's run |
| SessionPoolInvariant.ReturnStep | internal/inference/onnx_runtime.go:726-729 | a return to an open pool finds room, even though the pool is bounded |
| SessionPoolInvariant.CreateNeverBlocks | internal/inference/onnx_runtime.go:416 | a load always finds room in its channel for the slot it has created |
| SessionPoolInvariant.MoveKeepsSlots | internal/inference/onnx_runtime.go:726-732 | a step that only moves a slot between the pool and its own caller keeps the partition of the slots of every instance |
| SessionPoolInvariant.MoveKeepsCalls | internal/inference/onnx_runtime.go:735-786 | a step that writes only slots its caller holds keeps what every other call in progress knows |
| SessionPoolInvariant.StepKeepsInv | internal/inference/onnx_runtime.go:161-208 | every step of any caller, load, unload or Close keeps the invariant, steps that panic included; loaded models have at least one slot |
| SessionPoolInvariant.RunKeepsInv | internal/inference/onnx_runtime.go:704-786 | so does every interleaving |
| SessionPoolLinearization.LookupBinds | internal/inference/onnx_runtime.go:713-724 | a lookup binds the call to the answer that a sequential Predict on the registry of that moment gives for its own input |
| SessionPoolLinearization.StepStaysBound | internal/inference/onnx_runtime.go:704-786 | no later step of any caller, load, unload or Close changes the answer a call is bound to |
| SessionPoolLinearization.ConcurrentCallsAreSequential | internal/inference/onnx_runtime.go:704-786 | in every run in which a call has its lookup still to come and ends, some step is that lookup and the result is what a sequential Predict on the registry of that moment returns, or the context error if its context ended; a refused key is the answer itself |
| SessionPoolLinearization.OneLookup | internal/inference/onnx_runtime.go:713-715 | a run holds at most one lookup of a call |
| SessionPoolLinearization.AnswerSays | internal/inference/onnx_runtime.go:704-733 | the answer a registry owes to a request, in plain terms: the first fault of the key, no such model, or what the network loaded under exactly that key makes of the request |
| SessionPoolTheorems.SlotLifecycle | internal/inference/onnx_runtime.go:406-430 | in every reachable state each created slot is in exactly one of the pool, the hands of one call, and the destroyed |
| SessionPoolTheorems.ReturnNeverBlocks | internal/inference/onnx_runtime.go:726-729 | the deferred return is always enabled, and panics exactly when its instance was closed |
| SessionPoolTheorems.CheckoutTakesHead | internal/inference/onnx_runtime.go:726-728 | a checkout gets the slot that has been free longest and changes nothing else |
| SessionPoolTheorems.ReturnGoesLast | internal/inference/onnx_runtime.go:729 | a return puts the slot behind all others and changes nothing else |
| SessionPoolTheorems.EmptyPoolWaits | internal/inference/onnx_runtime.go:726-732 | at an empty channel a caller stays where it is if it is open, and receives nil and panics if it is closed |
| SessionPoolTheorems.GivesUpIff | internal/inference/onnx_runtime.go:730-732 | a call can give up exactly when it is waiting for a slot and its context is done, and then ends with the context error, leaving slots and registry alone |
| SessionPoolTheorems.WaitingCallCanLeave | internal/inference/onnx_runtime.go:726-732 | from any state a waiting call can leave in two steps: its context ends, it gives up |
| SessionPoolTheorems.ConsiderateRunsAreSafe | internal/inference/onnx_runtime.go:162-188 | if instances are closed only while no call is between lookup and return on them, no interleaving ever panics |
| SessionPoolTheorems.EachSlotDestroyedOnce | internal/inference/onnx_runtime.go:162-188 | then a finished unload or Close has destroyed each created slot exactly once |
| SessionPoolTheorems.PathToPanic | internal/inference/onnx_runtime.go:726-729 | from any state with a live call on an instance being drained, the call's own steps reach a panic |
| SessionPoolTheorems.UnloadPanicsIff | internal/inference/onnx_runtime.go:178-208 | starting an unload makes a panic reachable exactly when some call is live on the instance |
| SessionPoolTheorems.ClosePanicsIff | internal/inference/onnx_runtime.go:161-176 | starting Close makes a panic reachable exactly when some call is live on some loaded instance |
| SessionPoolLoading.LoadCompletes | internal/inference/onnx_runtime.go:408-434 | while no creation has failed, creating the rest leads to the model registered with its own network and as many slots as the load set out to create, all earlier instances unchanged, and the lock released |
| SessionPoolLoading.LoadBeginsIff | internal/inference/onnx_runtime.go:357-380 | loading begins exactly when the lock is free, the key accepted and not loaded, and it wants as many slots as the configuration says |
| SessionPoolLoading.LoadThenAsk | internal/inference/onnx_runtime.go:356-435 | after such a load requests for its id and version are answered by its own network, and those for any other accepted pair as before |
| SessionPoolUnloading.DrainsOut | internal/inference/onnx_runtime.go:178-188 | the range loop over a closed channel destroys its slots in order and ends after as many turns as there were, touching no other model |
| SessionPoolUnloading.UnloadCompletes | internal/inference/onnx_runtime.go:195-208 | an unload can run to its end: the key is gone and no other, its free slots destroyed in order, the lock free, and requests for it find no model |
| SessionPoolUnloading.CloseCompletes | internal/inference/onnx_runtime.go:161-176 | Close can run to its end, in whatever order it picks the models: none is registered, every channel closed and empty, every free slot destroyed, the lock free |
| SessionPoolLoading.CleanupWaits | internal/inference/onnx_runtime.go:411-413 | the cleanup's receive on its empty channel is blocked, because the channel is open |
| SessionPoolLoading.CleanupEmptiesChannel | internal/inference/onnx_runtime.go:411-413 | from any cleanup, as many turns as there are slots in the channel lead there |
| SessionPoolLoading.CleanupDestroysEachOnce | internal/inference/onnx_runtime.go:411-413 | there, exactly the slots that had been created have been destroyed, each once |
| SessionPoolLoading.CleanupNeverReturns | internal/inference/onnx_runtime.go:408-416 | in every run after a failed creation the lock stays with the cleanup, the registry does not change and every call that has its key and not looked up its model still waits |
| SessionPoolLoading.RefusedKeyNeedsNoLock | internal/inference/onnx_runtime.go:708-711 | a call whose key is refused is over as it begins, whoever holds the lock; any other goes on to its lookup |
| SessionPoolLoading.LoadReturnsIff | internal/inference/onnx_runtime.go:357-416 | once a load has the lock and while it has not given it back, some continuation releases the lock if and only if none of its slot creations has failed |
| SessionPoolRuns.FailedLoadRun | internal/inference/onnx_runtime.go:408-416 | a run from the start: two slots wanted, the second fails, the first is destroyed, the load hangs |
| SessionPoolRuns.FailedFirstSlotRun | internal/inference/onnx_runtime.go:408-416 | a run in which the first slot fails and the load hangs at once |
| SessionPoolRuns.NilSlotRun | internal/inference/onnx_runtime.go:178-188 | a run from the start in which a waiting caller receives nil from the drained channel of an unload |
| SessionPoolRuns.ClosedReturnRun | internal/inference/onnx_runtime.go:726-729 | a run from the start in which a caller returns its slot to the channel an unload has closed |
| WorkerPoolInvariant.SendNeverBlocks | internal/worker/pool.go:85-122 | a worker's reply always finds an open, empty one-place channel |
| WorkerPoolInvariant.RefuseNeverBlocks | internal/worker/pool.go:164-167 | the refusal after a shutdown finds the error channel open and empty and the result channel open: its send and two closes neither block nor panic |
| WorkerPoolInvariant.EngineStepKeepsInv | internal/worker/pool.go:97 | engine steps of any caller keep the pool's invariant |
| WorkerPoolInvariant.StepKeepsInv | internal/worker/pool.go:74-216 | every step of submitters, workers, the engine and Shutdown keeps the invariant |
| WorkerPoolInvariant.RunKeepsInv | internal/worker/pool.go:74-216 | so does every run |
| WorkerPoolTheorems.EngineRuns | internal/worker/pool.go:97 | every run of the service holds a run of the engine machine, so its theorems apply to the pool's calls |
| WorkerPoolTheorems.RepliesAreOwn | internal/worker/pool.go:85-122 | in every run, shutdown, loads and unloads included, at most one value is ever sent over a task's two channels; it is the error of the pipeline on the task's own input, or comes from the engine call made for the task's model with what the pipeline made of that input: the registry's error at a lookup within the run, the pipeline's error on the output, or the model's id with the pipelined output; or the context error after a cancel |
| WorkerPoolTheorems.EndToEnd | internal/worker/pool.go:74-122 | with a pipeline f, without shutdown or registry changes, any schedule, any number of workers and slots: f's error on the task's input is its reply; else the engine is asked for the task's model with exactly what f returned, and the reply is the engine's error, f's error on the predicted output, or the model's id with what f returned for that output |
| WorkerPoolTheorems.EndToEndPlain | internal/worker/pool.go:74-122 | without a pipeline the engine is asked with the task's own input and its answer is passed on unchanged |
| WorkerPoolTheorems.TasksAreSubmitted | internal/worker/pool.go:132-142 | every task of a run carries the id, version and input that one Submit of the run gave it |
| WorkerPoolTheorems.QueueIsFifo | internal/worker/pool.go:159-163 | in every run, what was queued and what entered the channel, in order, is what workers received, in order, and what is still queued |
| WorkerPoolTheorems.IdleWorkerMay | internal/worker/pool.go:78-84 | an idle worker can receive exactly when a task is queued, the oldest, and can leave exactly when the pool is cancelled, however many are queued |
| WorkerPoolTheorems.SubmitterMay | internal/worker/pool.go:159-168 | with the channel open a task enters behind all others exactly when fewer than 100 wait, and is turned away with the context error exactly when the pool is cancelled |
| WorkerPoolTheorems.ReceiverMay | internal/worker/pool.go:132-171 | a submitter can receive from one of its channels exactly when its answer was sent there and has not been received |
| WorkerPoolTheorems.ReceivedAtMostOnce | internal/worker/pool.go:132-171 | in every run a submitter receives at most one value over both channels |
| WorkerPoolTheorems.PlacesPartition | internal/worker/pool.go:132-170 | every submitted task is in exactly one place: at the select, in the channel, with a worker, or answered |
| WorkerPoolTheorems.Conservation | internal/worker/pool.go:52-61 | submitted = pending + queued + in flight + answered, with at most 100 queued |
| WorkerPoolTheorems.PoolPanicsIff | internal/worker/pool.go:164-199 | the only steps at which the pool panics are a submission choosing the closed task channel and a second close of it, and both do; no reply and no refusal ever does |
| WorkerPoolTheorems.ShutdownNeedNotWait | internal/worker/pool.go:203-215 | once the task channel is closed, Shutdown can return by its cancelled context whatever the workers hold, and gracefully exactly when all workers have gone |
| WorkerPoolRuns.HastyRun | internal/worker/pool.go:197-215 | a run in which Shutdown has returned while a worker holds a task |
| WorkerPoolTheorems.ConfiguredPoolNeverPredicts | internal/worker/pool.go:86-118 | one pipeline serves inputs and outputs, and engine outputs are maps: with any step configured, in every run, no task is ever answered with a prediction |
| Draining.StepLowersMeasure | internal/worker/pool.go:78-128 | every working step of pool or engine, before or after a shutdown, refusals and leaving workers included, lowers a stage-weighted measure over waiting, queued and in-flight tasks |
| Draining.WaiterIsServed | internal/inference/onnx_runtime.go:726-732 | a call waiting for a slot can go on, or the holder of a slot can: no deadlock even with one slot for many workers |
| Draining.OwnerMoves | internal/inference/onnx_runtime.go:726-786 | a call that holds a slot always has an enabled step |
| Draining.UnansweredMeansProgress | internal/worker/pool.go:78-128 | while a task is unanswered some working step is enabled |
| Draining.EveryScheduleDrains | internal/worker/pool.go:78-128 | no schedule of working steps is longer than the measure, and one that can go no further has answered every task |
| Draining.RunKeepsServing | internal/worker/pool.go:74-171 | runs without shutdown or registry changes, with new submissions and cancelled requests, stay in states where all this holds |
| Draining.ServiceDrains | internal/worker/pool.go:74-171 | put together: after any such run from a fresh pool with at least one worker, once submissions stop every maximal schedule is finite and answers every task |
| Draining.StepKeepsRunning | internal/worker/pool.go:74-216 | every step that changes no registry and does not panic, those of a shutdown included, keeps the service running |
| Shutdown.RunKeepsRunning | internal/worker/pool.go:74-216 | so does every such run, and a cancelled pool stays cancelled |
| Shutdown.EveryScheduleEnds | internal/worker/pool.go:74-216 | no schedule of working steps is longer than the measure, in a cancelled pool either |
| Shutdown.ShutdownLeavesTheQueue | internal/worker/pool.go:123-125 | where a cancelled pool comes to rest, the unanswered tasks are exactly those in the task channel and every worker has gone |
| Shutdown.DriveToRest | internal/worker/pool.go:123-125 | a cancelled pool can be driven to rest with nothing taken from its task channel |
| Shutdown.StrandedIff | internal/worker/pool.go:78-84 | seen when the shutdown begins: some run that comes to rest leaves a task unanswered if and only if it is in the task channel, or its submitter is at a channel that has room or that some worker may empty |
| Shutdown.HeldIsAnswered | internal/worker/pool.go:78-128 | a task held by a worker when the shutdown begins is answered in every run that comes to rest |
| WorkerPoolRuns.StrandedRun | internal/worker/pool.go:78-125 | a run with one worker that chooses to leave: the queued task is never answered |

## Left out

- The ONNX Runtime and TFLite libraries, CUDA options and library search; `session.Run` is an unknown function with an error case.
- Allocating tensors by element type: unsupported element types do not occur, and every model has at least one output.
- BadgerDB, JSON, files, object storage and signature mathematics: only success or failure of each. JSON is taken to give back the item it was given.
- HTTP and gRPC handlers, router, JWT, API keys, roles, configuration, command line, logging, metrics, tracing; the path exemptions of the rate-limit middleware.
- Rounding, NaN, underflow, and integers beyond 2^53 as floats. A float outside the range of an integer element type becomes a value of the parameter `wild`, since Go leaves it to the platform.
- Goroutines, channels and mutexes as objects: they are states and steps of the two machines. Workers that are never scheduled are schedules like any other; the draining theorem is about schedules that go on while they can.
- Concurrent traced loads and unloads of the same key: the two registries take separate locks, and the subset claim is about serial calls.
- Prediction metadata, latency, `Stats`, batch and sequential prediction, the other TFLite engine methods and the base engine's registry: mock results and plain map operations.
- WorkerPoolTheorems.EndToEnd: the pipeline is fixed within a run (no live `UpdatePipeline`) and is a function of the value. Tasks that share one input slice and run one after the other are covered by `PipelineLaws.RerunIsTheSame`; two workers normalizing one slice at the same moment is a data race and is not modelled.
- Recovery.OnlyTheOldestIsSubmitted: is about fewer turns than the counter has left before it wraps at 2^64; so are `Recovery.RestartSubmitsTheOldest` and `Recovery.RestartLosesTheRest`.
- Recovery.RecoverFromPersistentQueue: counts an item as submitted when Submit is called. Submit's select, which comes after the write to the store, can hold the loop in that turn or, after a shutdown, refuse the item or panic on the closed task channel; none of these touches the store.
- Registry.OnnxEngine.LoadModel: the destroying turns of a failed load's cleanup are in `SessionPoolLoading`; here the hang is one reply, which `LoadRefinement.LoadRefines` derives.
- Registry.OnnxEngine.CloseEngine: leaves the registry alone in the class; slots and their destruction are in the session-pool machine.
- Slots.Destroy: one flag stands for the session and the tensors released with it.
- Slots.OnnxModel.Predict: the caller that finds no free slot is answered by its context, since a sequential method cannot wait for another caller; waiting is in the session-pool machine.
