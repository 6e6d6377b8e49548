# Speaker-diarization worker and transcript alignment, modelled in Dafny

This project models two parts of a browser speech-to-text demo. In the demo, a web worker runs a Whisper speech-recognition pipeline and a pyannote segmentation model side by side. The transcript view then groups the recognised words by speaker.

- **Transcript alignment** (`transcript.dfy`, module `Transcript`). This is `postProcessedTranscript` in the transcript view. It walks the speaker segments in order and skips those labelled `NO_SPEAKER`. For each kept segment it collects the words, starting at a shared cursor `prev`, whose end timestamp is `<=` the segment's end. A segment that collected at least one word is emitted as `{...segment, chunks}`. The cursor moves only when the inner loop stops on a word that does not fit. When the loop runs off the end of the words, the cursor stays where it was, and the next kept segment scans the same words again. The model keeps this behaviour exactly. The module also has the half-open highlight predicate `Bolded`.
  - `PostProcessedTranscript` is the loop as written: a `for` over the segments, an inner `while` with `break`, one mutable cursor and one output sequence.
  - It is proved equal to the recursive specification `Align`/`AlignFrom`.
  - The lemmas about that specification state what the scan guarantees.
- **Device table** (`device_config.dfy`, module `DeviceConfig`). This is `PER_DEVICE_CONFIG` and what spreading one of its entries adds to the pipeline options.
- **Model cache** (`pipeline_cache.dfy`, module `PipelineCache`). This is `PipelineSingeton.getInstance`, a class with three optional cells, each set by `??=`.
  - Each cell holds the promise a loader returned.
  - Every loader invocation is recorded in `loads`. A promise's identity (its `ticket`) is the position of its invocation in `loads`.
  - Which invocations reject is fixed in advance by the `rejects` set. That set stands for the network and the runtime.
  - The pure function `Acquire` specifies one call, and `AcquireAll` a sequence of calls. The lemmas state the init-once behaviour.
- **Worker** (`worker.dfy`, module `Worker`). It covers the label loop of `segment`, done in place on an `array`, and the messages posted and inference calls made by `load` and `run`. It also covers the `message` dispatcher.
  - Messages and calls are appended, in order, to a trace of events.
  - Results of foreign calls are parameters, bundled in an `Environment` record: the transcriber's output, the diarization post-processor's segments, the `id2label` table, the loaders' progress events and the elapsed time.
  - The pure functions `LoadStep`, `RunStep` and `Dispatch` specify each handler. The worker's methods are proved to follow them.

Types shared by both sides are in `types.dfy`: words, transcripts and segments. `label` is a Dafny keyword, so a segment's label is the field `speakerLabel`. Its type is `Option<string>`, because the label is `undefined` until the worker attaches it, and stays `undefined` when the id is missing from `id2label`. Timestamps are `real`: the scan only compares them and never does arithmetic on them.

In these places the code behaves as follows, and the model follows the code:

- **The cursor.** It is updated only on `break` (src/components/Transcript.jsx:63-65). A word can therefore belong to several groups, and the total number of chunks can exceed the number of words. `ExhaustedRunIsCollectedAgain` states this for all inputs, and `RescanAfterExhaustion` exhibits it: the total chunk count is not bounded by the word count.
- **Missing device.** `load({})` posts `Loading models (undefined)...` and calls `getInstance(callback, undefined)`, so the default `webgpu` applies to the asr pipeline (src/worker.js:39). The warm-up is skipped, because `device === 'webgpu'` is false (src/worker.js:90). A request's device is therefore an `Option<string>`.
- **Unknown device.** An unknown device key adds no options and raises no error (src/worker.js:45). A key the table does not own yields `undefined` or an inherited member with no own enumerable properties, so spreading it adds nothing.
- **`run` before `load`.** `run` loads the models itself with the default device `webgpu` and no progress callback. There is no not-ready error (src/worker.js:127-128).
- **Rejected load.** The cached value is the promise itself, so a rejected load stays cached and every later call rejects again (src/worker.js:41).
- **No error path.** There are no error responses and no unsupported-device error.

## Model

| member | source | states |
|---|---|---|
| Transcript.PostProcessedTranscript | src/components/Transcript.jsx:48-76 | The loop returns exactly `Align(words, segments)`. Every group is a maximal run from a segment that is not `NO_SPEAKER`. All groups are taken from one cursor that starts at the first word (`FromCursor(words, result, 0)`). The groups' segments are a subsequence of the kept segments, in order, and there are no more groups than kept segments. |
| Transcript.AlignFrom | src/components/Transcript.jsx:48-76 | The specification of the scan from cursor `prev`; `Align` starts it at 0. A `NO_SPEAKER` segment is skipped. A kept segment emits `words[prev..ScanEnd]` when that run is not empty, and the cursor then becomes `Advance`. There is at most one group per segment. |
| Transcript.CollectWords | src/components/Transcript.jsx:58-67 | The inner loop returns exactly the fitting words from the cursor up to `ScanEnd`, and the cursor `Advance` computes: moved only by the `break`. |
| Transcript.IsNoSpeaker | src/components/Transcript.jsx:54-55 | A segment is skipped exactly when its label is `NO_SPEAKER`. |
| Transcript.Fits | src/components/Transcript.jsx:61 | `word.timestamp[1] <= end`: a word fits under a segment when its end is at most the segment's end (inclusive). |
| Transcript.ScanEnd | src/components/Transcript.jsx:58-67 | The end of the collected run, starting at the cursor, is the first word whose end passes the segment's end, or the end of `words`. Every word before it fits. |
| Transcript.Advance | src/components/Transcript.jsx:49-66 | The cursor never decreases. When it moves, it lands on the first word that does not fit, and every word it skipped fits. Conversely, when some word at or after the cursor does not fit, the cursor moves to the first such word. When the scan exhausts `words`, it stays put. |
| Transcript.GroupsAreMaximalRuns | src/components/Transcript.jsx:53-73 | Every emitted group has non-empty chunks and a segment that is not `NO_SPEAKER`, and carries that whole segment. Its chunks are a contiguous `words[a..b]` whose words all end `<=` the segment's end, and the run stops at the first word that does not fit. |
| Transcript.GroupsShareOneCursor | src/components/Transcript.jsx:49-73 | All kept segments share one cursor. The first group starts at the cursor. Each later group starts where the previous run stopped, or at the same place again when the previous run reached the end of `words`. |
| Transcript.ExhaustedRunIsCollectedAgain | src/components/Transcript.jsx:59-66 | For any words, cursor and two kept segments: when the first segment's run reaches the end of `words` and the second ends no earlier, both groups hold the same words `words[prev..]`. |
| Transcript.Coverage | src/components/Transcript.jsx:53-73 | No word is lost. For any cursor, when some kept segment ends no earlier than every word from the cursor on, each of those words lies in some emitted group. |
| Transcript.FirstFittingSegmentTakesRun | src/components/Transcript.jsx:53-73 | For any cursor, the run at the cursor goes to the first kept segment whose end the cursor's word fits under, with ties going to the earlier segment. Every segment before it emits nothing and leaves the cursor in place. The groups after it are the scan of the remaining segments from `Advance`. |
| Transcript.NoSpeakerNeverEmitted | src/components/Transcript.jsx:54-55 | No output group has the label `NO_SPEAKER`. |
| Transcript.GroupsFollowSegmentOrder | src/components/Transcript.jsx:53-73 | The output groups' segments form a subsequence of the segments not labelled `NO_SPEAKER`: same order, at most one group per segment. |
| Transcript.GroupCountBound | src/components/Transcript.jsx:68-73 | The number of groups is at most the number of segments not labelled `NO_SPEAKER`. |
| Transcript.BoundaryWordIncluded | src/components/Transcript.jsx:61-62 | A word at the cursor whose end equals a kept segment's end is the first chunk of that segment's group (inclusive `<=`). |
| Transcript.RescanAfterExhaustion | src/components/Transcript.jsx:59-66 | A concrete instance of `ExhaustedRunIsCollectedAgain`: one word and two kept segments that both end after it give two groups holding that same word, so the total chunk count exceeds the word count. |
| Transcript.TwoSpeakerScenario | src/components/Transcript.jsx:48-76 | Words "hi", "there", "bye" over segments SPEAKER_00 [0,1], NO_SPEAKER [1,1.8] and SPEAKER_01 [1.8,2.5] give two groups: SPEAKER_00 with hi and there, SPEAKER_01 with bye. |
| Transcript.Bolded | src/components/Transcript.jsx:8 | `start <= currentTime && currentTime < end`: half-open. |
| Transcript.HalfOpenHighlight | src/components/Transcript.jsx:8 | For any chunk, with no condition on the other chunks: it is never highlighted at its end, and it is highlighted at its start exactly when it has positive length. |
| Transcript.AtMostOneHighlighted | src/components/Transcript.jsx:6-8 | Highlighting is half-open. A chunk is highlighted at its start when it has positive length, and never at its end. When each chunk ends no later than the next one starts, at most one chunk is highlighted at any time. |
| DeviceConfig.Lookup | src/worker.js:11-23 | Only `webgpu` and `wasm` have an entry. `webgpu` maps to dtype {encoder_model: fp32, decoder_model_merged: q4} with device webgpu, and `wasm` to dtype q8 with device wasm. Each entry's device equals its key, and any other key contributes nothing. |
| PipelineCache.AsrRequest | src/worker.js:41-48 | The speech-recognition pipeline request: task `automatic-speech-recognition`, model `onnx-community/whisper-base_timestamped`, the options `PER_DEVICE_CONFIG[device]` contributes, and the callback. |
| PipelineCache.ProcessorRequest | src/worker.js:50-55 | The segmentation processor request: model `onnx-community/pyannote-segmentation-3.0` and the callback. |
| PipelineCache.ModelRequest | src/worker.js:56-66 | The segmentation model request: the same model id, always device `wasm` and dtype `fp32`, and the callback. |
| PipelineCache.InitOnce | src/worker.js:41-66 | `cell ??= loader(request)`: a set cell is kept and no loader runs. An empty cell gets a fresh promise for the request, identified by its position in the invocation log, which grows by that one invocation; it rejects exactly when `rejects` says so. |
| PipelineCache.Acquire | src/worker.js:37-73 | The specification of `getInstance`. Afterwards all three cells are set. The invocation log only grows, by one invocation per cell that was empty. |
| PipelineCache.AcquireFillsCache | src/worker.js:41-72 | After one call all three cells are set. The call resolves exactly when none of the three cached promises rejects, and it resolves to them in the order [asr, processor, model]. |
| PipelineCache.FirstAcquire | src/worker.js:41-66 | From an empty cache, each loader is invoked exactly once, in the order asr, processor, model. The asr pipeline gets `PER_DEVICE_CONFIG[device]` plus the callback; the segmentation model gets device `wasm` and dtype `fp32`, whatever `device` is. |
| PipelineCache.CachedHandlesStay | src/worker.js:41-66 | Once the cells are set, a call changes nothing and invokes no loader, whatever callback or device it passes. A cached rejected promise makes the call reject again. |
| PipelineCache.AcquireKeepsWf | src/worker.js:37-73 | Every call keeps the cache in one of two states: empty, or full with exactly one loader invocation per handle, in order, and the segmentation model on wasm/fp32. |
| PipelineCache.FullCacheIsFinal | src/worker.js:41-66 | Any sequence of calls leaves a full cache unchanged. |
| PipelineCache.FirstCallDecides | src/worker.js:37-73 | Over any sequence of calls from the start, the state is what the first call produced. There are three loader invocations in all, and the asr pipeline is configured for the first call's device. |
| PipelineCache.PipelineSingleton.GetInstance | src/worker.js:37-73 | The class's cells and load log become `Acquire` of the old state. It returns what `Acquire` returns. The defaults are a null callback and `webgpu`. |
| PipelineCache.PipelineSingleton.Invoke | src/worker.js:41-66 | A loader call is appended to the log. It returns a promise identified by its position in the log. |
| PipelineCache.PipelineSingleton.constructor | src/worker.js:29-35 | All three cells start null and nothing has been loaded. |
| Worker.DeviceArgument | src/worker.js:37-40 | The device `getInstance` uses: the request's device when there is one, else the default `webgpu`, whose table entry is the webgpu configuration. |
| Worker.LoadingMessage | src/worker.js:77-80 | `Loading models (${device})...`: the fixed prefix and suffix around the device's text, which `DeviceText` gives as the device itself or `undefined` when it is missing; the text can be read back from the message. |
| Worker.Finish | src/worker.js:90-101 | What `load` adds once the handles settle: nothing exactly when they rejected; otherwise three events on webgpu (warm-up message, warm-up call, `loaded`) or one elsewhere, ending with `loaded`. |
| Worker.SilentBuffer | src/worker.js:96 | `new Float32Array(16_000)`: 16000 samples, all zero. |
| Worker.WarmupOptions | src/worker.js:96-98 | The warm-up options: language `en` and nothing else. |
| Worker.RunOptions | src/worker.js:134-138 | The options of the transcriber call in `run`: the request's language, word timestamps, 30-second chunks. |
| Worker.ProgressPosts | src/worker.js:84-88 | Each loader progress event is posted as it is, in order. |
| Worker.Forwarded | src/worker.js:84-88 | The progress forwarded by `load`: the loaders' events when this call started them, else none. |
| Worker.LabelOf | src/worker.js:120 | `id2label[id]`: defined exactly when the id is in the table, and then the table's entry. |
| Worker.WithLabels | src/worker.js:118-121 | After the label loop the segments keep their count, order, ids, times and confidences. Each label is `id2label[id]`, or undefined when the id is missing from `id2label`. |
| Worker.AttachLabels | src/worker.js:119-121 | The loop over the array updates each element in place to carry its label; nothing else changes. |
| Worker.Worker.SegmentAudio | src/worker.js:104-124 | Records the diarization call on the audio, then returns the post-processed segments with labels attached. |
| Worker.LoadTrace | src/worker.js:76-101 | What `load` posts and calls. It starts with the first loading message. Its length is one, plus the forwarded progress events when this call started the loaders, plus three events (warm-up message, warm-up call, `loaded`) on webgpu or one (`loaded`) elsewhere when the handles resolved, and nothing more when they rejected. |
| Worker.LoadStep | src/worker.js:37-101 | The specification of `load`: `getInstance` with the host callback and the device, or `webgpu` when the request has none. Afterwards the cache is full and keeps its invariant, and the first event is the loading message for the request's device. |
| Worker.RunTrace | src/worker.js:126-156 | What `run` does once the handles settle: nothing when they rejected, else three events, of which only the last, the result, is a posted message. |
| Worker.RunStep | src/worker.js:126-156 | The specification of `run`: `getInstance()` with its defaults. Afterwards the cache is full and keeps its invariant, and the only message posted is `complete`. |
| Worker.Dispatch | src/worker.js:159-171 | The specification of the `message` listener. Every request keeps the cache invariant, and the invocation log only grows, by at most three. |
| Worker.LoadWithoutDevice | src/worker.js:37-101 | `load` with no device on a fresh worker posts `Loading models (undefined)...`. The asr pipeline is configured with the `webgpu` entry, since `getInstance`'s default applies, and no warm-up call is made, since the device is not `webgpu`. |
| Worker.LoadStartsAndEnds | src/worker.js:76-101 | `load` posts its `Loading models (device)...` message first. On success it posts `loaded` exactly once, as the last event. When the handles reject, it never posts `loaded`. |
| Worker.ProgressOnlyWhenLoading | src/worker.js:84-88 | A `load` that started no loader forwards no progress. |
| Worker.WarmupOnlyOnWebgpu | src/worker.js:90-99 | The warm-up transcriber call happens exactly when the device is `webgpu` and the handles resolved, and there is only one. It is made on 16000 zero samples with language `en`, right after the second loading message and right before `loaded`. |
| Worker.RunBeforeLoad | src/worker.js:126-128 | `run` on a fresh worker raises no not-ready error. It loads the models itself: the asr pipeline with the `webgpu` entry and a null callback, the segmentation model on wasm/fp32. It posts only the `complete` message. When the loads succeed, the trace is the transcriber call, the segmentation call on the same audio, then the labelled result. |
| Worker.SecondLoadReusesHandles | src/worker.js:76-101 | A second `load`, for any device, keeps the first load's handles and forwards no progress. |
| Worker.OtherMessagesIgnored | src/worker.js:162-170 | A message whose type is neither `load` nor `run` changes nothing and posts nothing. |
| Worker.Worker.constructor | src/worker.js:28-35 | A fresh worker holds a fresh, empty cache (all three cells null, nothing loaded) and has posted nothing. |
| Worker.Worker.PostMessage | src/worker.js:77-80 | `self.postMessage(message)` appends exactly that message to the trace. |
| Worker.Worker.Settle | src/worker.js:90-100 | Once the handles settle, the trace grows by `Finish`: nothing on rejection; else the warm-up message and call when the device is `webgpu`, then `loaded`. |
| Worker.Worker.ForwardProgress | src/worker.js:84-88 | The progress callback posts each loader event as it comes, in order. |
| Worker.Worker.Load | src/worker.js:76-101 | The cache becomes that of `getInstance(callback, device)`, with `webgpu` when the request has no device, and the trace grows by `LoadTrace`: the first loading message, the forwarded progress, then the warm-up on webgpu and `loaded`. The cache invariant is kept. |
| Worker.Worker.Run | src/worker.js:126-156 | The cache becomes that of `getInstance()` with its defaults. The trace grows by the transcriber call (language, word timestamps, 30 s chunks), the segmentation call, then `complete` with the transcript, the labelled segments and the elapsed time. Nothing is posted when loading rejects. |
| Worker.Worker.OnMessage | src/worker.js:159-171 | `load` requests go to `Load` and `run` requests to `Run`; any other type leaves the cache and the trace unchanged. |

## Left out

- React rendering: the JSX markup, `useMemo`/`useEffect`, `scrollIntoView` and the click handlers. These are user-interface code. `Bolded` is the only part of `Chunk` modelled.
- JSON export and download (src/components/Transcript.jsx:38-45, 78-86): `JSON.stringify`, the regular-expression reformatting, the Blob and the anchor. These are browser I/O and library behaviour.
- `toFixed` display formatting: float-to-string conversion.
- Model inference itself: `pipeline`, `AutoProcessor`, `AutoModelForAudioFrameClassification`, the processor and model calls, and `post_process_speaker_diarization`. These are foreign library calls. Loaders are recorded invocations whose promises resolve or reject as `rejects` says, and inference results are `Environment` parameters.
- Failure of an inference call: the warm-up or either call in `run` rejecting would end that handler early without a message. The model assumes inference calls return.
- Concurrency: the `Promise.all` fan-out in `run` and the settling order of the three loads. Each handler is modelled as running to completion, although the dispatcher does not await `load` or `run` and two handlers can interleave at their awaits. The synchronous part of `getInstance` (the three `??=`) runs without interruption in JavaScript, so the cache model holds for concurrent callers too. The trace records when each call is made, not when it finishes.
- Timing: `performance.now`. The elapsed time is a parameter.
- Progress arrival: events are assumed to arrive between the first loading message and the moment the handles settle.
- Ordering of loader invocations against messages: the loader invocations are logged in the cache's `loads`, apart from the worker's trace, so their order relative to the messages is not recorded.
- `postMessage` transport, `console.log`/`console.table` and the `env` flags (src/worker.js:8-9): I/O.
- Floating point: timestamps are `real`, so NaN and rounding are not modelled.
- Inputs unchanged: this is not stated as a separate property. The transcript view's words and segments are Dafny sequences (values), so the scan cannot change them.
- A `run` request without `audio` or `language`: the request record always carries both, so `run({})`, which would hand `undefined` to the inference calls, is not modelled.
- Dispatch, Worker.OnMessage: a message without `data` is not represented. In the source, `{type: 'load'}` or `{type: 'run'}` calls `load(undefined)` or `run(undefined)` (src/worker.js:164,168), and destructuring the parameter (src/worker.js:76,126) throws, so the handler rejects before it posts or loads anything. The model's `Request` always carries its fields, so a `load` or `run` request always posts and fills the cache.
