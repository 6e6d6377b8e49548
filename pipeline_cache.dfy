/**
 * `PipelineSingeton`: a process-wide cache of the three model handles (speech-recognition
 * pipeline, segmentation processor, segmentation model). Each handle is the promise a
 * loader returned, stored by `??=` the first time it is needed and never replaced.
 */
module PipelineCache {
  import opened Types
  import opened DeviceConfig

  const ASR_TASK: string := "automatic-speech-recognition"
  const ASR_MODEL_ID: string := "onnx-community/whisper-base_timestamped"
  const SEGMENTATION_MODEL_ID: string := "onnx-community/pyannote-segmentation-3.0"

  /** The `progress_callback` given to a loader: null, or the one `load` installs to post events to the host. */
  datatype Callback = NullCallback | ForwardToHost

  /** The arguments of one loader invocation. */
  datatype LoadRequest =
    | AsrPipeline(task: string, modelId: string, config: Option<Config>, progress: Callback)
    | SegmentationProcessor(modelId: string, progress: Callback)
    | SegmentationModel(modelId: string, device: string, dtype: string, progress: Callback)

  /**
   * The promise a loader returned. `ticket` is the position of its invocation among all
   * loader invocations (its identity); `rejected` says how it settles.
   */
  datatype Promise = Promise(request: LoadRequest, ticket: nat, rejected: bool)

  /** The three cache cells and the log of loader invocations. */
  datatype CacheState = CacheState(
    asr: Option<Promise>,
    processor: Option<Promise>,
    model: Option<Promise>,
    loads: seq<LoadRequest>)

  /** What `Promise.all` resolves to, in the order [asr, segmentation processor, segmentation model]. */
  datatype Handles = Handles(transcriber: Promise, processor: Promise, model: Promise)

  datatype Awaited = Resolved(handles: Handles) | Rejected

  datatype Acquired = Acquired(state: CacheState, result: Awaited)

  /** The state when the worker starts: all three cells null, nothing loaded. */
  const EMPTY: CacheState := CacheState(None, None, None, [])

  /** A call of `getInstance(progress_callback, device)`. */
  datatype Call = Call(progress: Callback, device: string)

  /** The speech-recognition pipeline: the per-device options spread in, plus the callback. */
  function AsrRequest(progress: Callback, device: string): LoadRequest {
    AsrPipeline(ASR_TASK, ASR_MODEL_ID, Lookup(device), progress)
  }

  function ProcessorRequest(progress: Callback): LoadRequest {
    SegmentationProcessor(SEGMENTATION_MODEL_ID, progress)
  }

  /** The segmentation model is always loaded on wasm in fp32, whatever device was asked for. */
  function ModelRequest(progress: Callback): LoadRequest {
    SegmentationModel(SEGMENTATION_MODEL_ID, WASM, "fp32", progress)
  }

  /**
   * `cell ??= loader(request)`: the promise the cell then holds, and the invocation log.
   * A set cell is kept and no loader runs; an empty one gets a fresh promise for `request`,
   * identified by its position in the log, which grows by that one invocation.
   */
  function InitOnce(cell: Option<Promise>, request: LoadRequest, loads: seq<LoadRequest>, rejects: set<nat>)
    : (r: (Promise, seq<LoadRequest>))
    ensures cell.Some? ==> r.0 == cell.value && r.1 == loads
    ensures cell.None? ==>
      r.1 == loads + [request] && r.0.ticket == |loads| &&
      r.1[r.0.ticket] == r.0.request && (r.0.rejected <==> r.0.ticket in rejects)
  {
    if cell.Some? then (cell.value, loads)
    else (Promise(request, |loads|, |loads| in rejects), loads + [request])
  }

  /**
   * `getInstance`: fill the empty cells in the order asr, processor, model, then await all
   * three; the result rejects when any cached promise does. `rejects` names the loader
   * invocations whose promise rejects.
   */
  function Acquire(st: CacheState, progress: Callback, device: string, rejects: set<nat>): (a: Acquired)
    ensures Full(a.state)
    ensures |st.loads| <= |a.state.loads| <= |st.loads| + 3 && a.state.loads[..|st.loads|] == st.loads
    ensures |a.state.loads| - |st.loads| ==
      (if st.asr.None? then 1 else 0) + (if st.processor.None? then 1 else 0) + (if st.model.None? then 1 else 0)
  {
    var (asr, loads1) := InitOnce(st.asr, AsrRequest(progress, device), st.loads, rejects);
    var (processor, loads2) := InitOnce(st.processor, ProcessorRequest(progress), loads1, rejects);
    var (model, loads3) := InitOnce(st.model, ModelRequest(progress), loads2, rejects);
    Acquired(
      CacheState(Some(asr), Some(processor), Some(model), loads3),
      if asr.rejected || processor.rejected || model.rejected then Rejected
      else Resolved(Handles(asr, processor, model)))
  }

  /** The cache after a sequence of `getInstance` calls. */
  function AcquireAll(st: CacheState, calls: seq<Call>, rejects: set<nat>): CacheState
    decreases |calls|
  {
    if calls == [] then st
    else AcquireAll(Acquire(st, calls[0].progress, calls[0].device, rejects).state, calls[1..], rejects)
  }

  predicate Full(st: CacheState) {
    st.asr.Some? && st.processor.Some? && st.model.Some?
  }

  /**
   * The states the cache can be in: nothing loaded, or all three handles cached, each from
   * exactly one loader invocation, invoked in the order asr, processor, model, and the
   * segmentation model on wasm in fp32.
   */
  ghost predicate Wf(st: CacheState) {
    st == EMPTY ||
    (Full(st) &&
     st.loads == [st.asr.value.request, st.processor.value.request, st.model.value.request] &&
     st.asr.value.ticket == 0 && st.processor.value.ticket == 1 && st.model.value.ticket == 2 &&
     st.asr.value.request.AsrPipeline? &&
     st.processor.value.request.SegmentationProcessor? &&
     st.model.value.request == ModelRequest(st.model.value.request.progress))
  }

  // ---------------------------------------------------------------------------------------
  // Properties of the cache

  /**
   * One call fills all three cells; it resolves to the cached handles in the order
   * [asr, processor, model] exactly when none of them rejects.
   */
  lemma AcquireFillsCache(st: CacheState, progress: Callback, device: string, rejects: set<nat>)
    ensures var a := Acquire(st, progress, device, rejects);
      Full(a.state) &&
      (a.result.Resolved? <==>
        !a.state.asr.value.rejected && !a.state.processor.value.rejected && !a.state.model.value.rejected) &&
      (a.result.Resolved? ==>
        a.result.handles == Handles(a.state.asr.value, a.state.processor.value, a.state.model.value))
  {
  }

  /**
   * The first call invokes each loader once, in the order asr, processor, model: the asr
   * pipeline with the device's table entry, the segmentation model on wasm in fp32.
   */
  lemma FirstAcquire(progress: Callback, device: string, rejects: set<nat>)
    ensures Acquire(EMPTY, progress, device, rejects).state.loads ==
      [AsrPipeline(ASR_TASK, ASR_MODEL_ID, Lookup(device), progress),
       SegmentationProcessor(SEGMENTATION_MODEL_ID, progress),
       SegmentationModel(SEGMENTATION_MODEL_ID, WASM, "fp32", progress)]
  {
  }

  /**
   * Once the cells are set, a call returns the same handles and invokes no loader, whatever
   * callback and device it passes; a rejected promise stays cached and the call rejects again.
   */
  lemma CachedHandlesStay(st: CacheState, progress: Callback, device: string, rejects: set<nat>)
    requires Full(st)
    ensures var a := Acquire(st, progress, device, rejects);
      a.state == st &&
      (a.result.Rejected? <==> st.asr.value.rejected || st.processor.value.rejected || st.model.value.rejected)
  {
  }

  /** Every call keeps the cache in one of its reachable states. */
  lemma AcquireKeepsWf(st: CacheState, progress: Callback, device: string, rejects: set<nat>)
    requires Wf(st)
    ensures Wf(Acquire(st, progress, device, rejects).state)
  {
  }

  /** A full cache is left unchanged by any sequence of calls. */
  lemma {:induction false} FullCacheIsFinal(st: CacheState, calls: seq<Call>, rejects: set<nat>)
    requires Full(st)
    ensures AcquireAll(st, calls, rejects) == st
    decreases |calls|
  {
    if calls != [] {
      CachedHandlesStay(st, calls[0].progress, calls[0].device, rejects);
      FullCacheIsFinal(st, calls[1..], rejects);
    }
  }

  /**
   * Over any sequence of calls from the start, the first call alone decides the handles:
   * three loader invocations in all, the asr pipeline configured for the first call's device.
   */
  lemma FirstCallDecides(calls: seq<Call>, rejects: set<nat>)
    requires |calls| > 0
    ensures var st := AcquireAll(EMPTY, calls, rejects);
      st == Acquire(EMPTY, calls[0].progress, calls[0].device, rejects).state &&
      Wf(st) && |st.loads| == 3 &&
      st.loads[0] == AsrRequest(calls[0].progress, calls[0].device)
  {
    var first := Acquire(EMPTY, calls[0].progress, calls[0].device, rejects).state;
    FullCacheIsFinal(first, calls[1..], rejects);
  }

  // ---------------------------------------------------------------------------------------
  // The cache as the worker holds it

  class PipelineSingleton {
    var asrInstance: Option<Promise>
    var segmentationProcessor: Option<Promise>
    var segmentationInstance: Option<Promise>
    /** Every loader invocation so far, in order; a promise's ticket is its index here. */
    var loads: seq<LoadRequest>
    /** The loader invocations, by ticket, whose promise rejects. */
    const rejects: set<nat>

    function State(): CacheState
      reads this
    {
      CacheState(asrInstance, segmentationProcessor, segmentationInstance, loads)
    }

    constructor (rejects: set<nat>)
      ensures State() == EMPTY && this.rejects == rejects
    {
      asrInstance, segmentationProcessor, segmentationInstance := None, None, None;
      loads := [];
      this.rejects := rejects;
    }

    /** A loader call: records the invocation and returns the promise it gives back. */
    method Invoke(request: LoadRequest) returns (p: Promise)
      modifies this`loads
      ensures p == Promise(request, |old(loads)|, |old(loads)| in rejects)
      ensures loads == old(loads) + [request]
    {
      p := Promise(request, |loads|, |loads| in rejects);
      loads := loads + [request];
    }

    /** `getInstance(progress_callback = null, device = 'webgpu')` */
    method GetInstance(progress: Callback := NullCallback, device: string := WEBGPU) returns (r: Awaited)
      modifies this
      ensures var a := Acquire(old(State()), progress, device, rejects);
        State() == a.state && r == a.result
    {
      if asrInstance.None? {
        var p := Invoke(AsrRequest(progress, device));
        asrInstance := Some(p);
      }
      if segmentationProcessor.None? {
        var p := Invoke(ProcessorRequest(progress));
        segmentationProcessor := Some(p);
      }
      if segmentationInstance.None? {
        var p := Invoke(ModelRequest(progress));
        segmentationInstance := Some(p);
      }
      var asr, processor, model := asrInstance.value, segmentationProcessor.value, segmentationInstance.value;
      if asr.rejected || processor.rejected || model.rejected {
        r := Rejected;
      } else {
        r := Resolved(Handles(asr, processor, model));
      }
    }
  }
}
