/**
 * The inference worker's message handling: `load` prepares the models and warms up on
 * webgpu, `run` transcribes and segments one audio buffer, and the `message` listener
 * dispatches between them. What the worker posts and which inference calls it makes are
 * recorded, in order, as a trace of events.
 */
module Worker {
  import opened Types
  import opened DeviceConfig
  import opened PipelineCache

  /** A progress payload from a loader, forwarded to the host as it is. */
  datatype ProgressEvent = ProgressEvent(payload: string)

  /** The messages the worker posts to the host. */
  datatype Message =
    | Loading(data: string)
    | Progress(event: ProgressEvent)
    | Loaded
    | Complete(transcript: Transcript, segments: seq<Segment>, time: real)

  /** The options of a call of the speech-recognition pipeline. */
  datatype TranscribeOptions = TranscribeOptions(language: string, returnTimestamps: Option<string>, chunkLengthS: Option<nat>)

  datatype Event =
    | Post(message: Message)
    | CallTranscriber(transcriber: Promise, audio: seq<real>, options: TranscribeOptions)
    | CallSegmentation(processor: Promise, model: Promise, audio: seq<real>)

  /**
   * What the foreign calls of one request produce: the loaders' progress events, the
   * transcriber's result, the diarization post-processor's segments, the model's id2label
   * table and the measured elapsed time.
   */
  datatype Environment = Environment(
    progress: seq<ProgressEvent>,
    transcript: Transcript,
    segments: seq<Segment>,
    id2label: map<int, string>,
    elapsed: real)

  /** A message from the host: its `type` and the fields of its `data`. */
  datatype Request = Request(kind: string, device: Option<string>, audio: seq<real>, language: string)

  /** The new trace entries and the cache after handling one request. */
  datatype Step = Step(state: CacheState, events: seq<Event>)

  const WARMUP_SAMPLES: nat := 16000
  const WARMUP_MESSAGE: string := "Compiling shaders and warming up model..."

  /** `${device}` in a template string: the text of the device, or "undefined" when it is missing. */
  function DeviceText(device: Option<string>): string {
    match device
    case Some(d) => d
    case None => "undefined"
  }

  /** `Loading models (${device})...`: the device's text is read back between the fixed parts. */
  function LoadingMessage(device: Option<string>): (m: string)
    ensures |m| == |DeviceText(device)| + 20
    ensures m[..16] == "Loading models (" && m[|m| - 4..] == ")..."
    ensures m[16..|m| - 4] == DeviceText(device)
  {
    "Loading models (" + DeviceText(device) + ")..."
  }

  /** The device `getInstance` uses: its default parameter `'webgpu'` replaces a missing one. */
  function DeviceArgument(device: Option<string>): (d: string)
    ensures device.Some? ==> d == device.value
    ensures device.None? ==> d == WEBGPU && Lookup(d) == Some(Config(PerSubModel("fp32", "q4"), WEBGPU))
  {
    match device
    case Some(d) => d
    case None => WEBGPU
  }

  /** `new Float32Array(16_000)`: one second of silence at 16 kHz. */
  function SilentBuffer(): (s: seq<real>)
    ensures |s| == 16000 && forall i :: 0 <= i < |s| ==> s[i] == 0.0
  {
    seq(WARMUP_SAMPLES, _ => 0.0)
  }

  function WarmupOptions(): TranscribeOptions {
    TranscribeOptions("en", None, None)
  }

  function RunOptions(language: string): TranscribeOptions {
    TranscribeOptions(language, Some("word"), Some(30))
  }

  /** `model.config.id2label[segment.id]`: undefined (None) for an id the table lacks. */
  function LabelOf(id2label: map<int, string>, id: int): (r: Option<string>)
    ensures r.Some? <==> id in id2label
    ensures r.Some? ==> r.value == id2label[id]
  {
    if id in id2label then Some(id2label[id]) else None
  }

  /** The segments after the label loop. */
  function WithLabels(segments: seq<Segment>, id2label: map<int, string>): (r: seq<Segment>)
    ensures |r| == |segments|
    ensures forall k :: 0 <= k < |r| ==> r[k].speakerLabel == LabelOf(id2label, segments[k].id)
    ensures forall k :: 0 <= k < |r| ==>
      r[k].id == segments[k].id && r[k].start == segments[k].start &&
      r[k].end == segments[k].end && r[k].confidence == segments[k].confidence
  {
    seq(|segments|, k requires 0 <= k < |segments| => segments[k].(speakerLabel := LabelOf(id2label, segments[k].id)))
  }

  /** The attached label loop, in place: each element gets its label, nothing else changes. */
  method AttachLabels(segments: array<Segment>, id2label: map<int, string>)
    modifies segments
    ensures segments[..] == WithLabels(old(segments[..]), id2label)
  {
    for k := 0 to segments.Length
      invariant forall m :: 0 <= m < k ==>
        segments[m] == old(segments[m]).(speakerLabel := LabelOf(id2label, old(segments[m]).id))
      invariant forall m :: k <= m < segments.Length ==> segments[m] == old(segments[m])
    {
      segments[k] := segments[k].(speakerLabel := LabelOf(id2label, segments[k].id));
    }
  }

  function ProgressPosts(progress: seq<ProgressEvent>): seq<Event> {
    if progress == [] then [] else [Post(Progress(progress[0]))] + ProgressPosts(progress[1..])
  }

  /** The progress `load` forwards: the loaders' events, only when this call started them. */
  function Forwarded(loadedNow: bool, progress: seq<ProgressEvent>): seq<Event> {
    if loadedNow then ProgressPosts(progress) else []
  }

  /** What `load` does once the handles settle: nothing more on rejection; else warm-up on webgpu, then `loaded`. */
  function Finish(device: Option<string>, awaited: Awaited): (f: seq<Event>)
    ensures awaited.Rejected? <==> f == []
    ensures awaited.Resolved? ==>
      |f| == (if device == Some(WEBGPU) then 3 else 1) && f[|f| - 1] == Post(Loaded)
  {
    match awaited
    case Rejected => []
    case Resolved(h) =>
      (if device == Some(WEBGPU)
       then [Post(Loading(WARMUP_MESSAGE)), CallTranscriber(h.transcriber, SilentBuffer(), WarmupOptions())]
       else [])
      + [Post(Loaded)]
  }

  /** What `load` posts and calls: the first loading message, the forwarded progress, then the finish. */
  function LoadTrace(device: Option<string>, loadedNow: bool, progress: seq<ProgressEvent>, awaited: Awaited): (t: seq<Event>)
    ensures |t| > 0 && t[0] == Post(Loading(LoadingMessage(device)))
    ensures |t| == 1 + (if loadedNow then |progress| else 0) +
      (if awaited.Rejected? then 0 else if device == Some(WEBGPU) then 3 else 1)
  {
    ProgressPostsAreProgress(progress);
    [Post(Loading(LoadingMessage(device)))] + Forwarded(loadedNow, progress) + Finish(device, awaited)
  }

  /** What `run` calls and posts: both inference calls on the same audio, then the result. */
  function RunTrace(audio: seq<real>, language: string, awaited: Awaited, env: Environment): (t: seq<Event>)
    ensures |t| == (if awaited.Rejected? then 0 else 3)
    ensures forall i :: 0 <= i < |t| ==> (t[i].Post? <==> i == 2)
  {
    match awaited
    case Rejected => []
    case Resolved(h) =>
      [CallTranscriber(h.transcriber, audio, RunOptions(language)),
       CallSegmentation(h.processor, h.model, audio),
       Post(Complete(env.transcript, WithLabels(env.segments, env.id2label), env.elapsed))]
  }

  /** `load` calls `getInstance(callback, device)`; a missing device takes the default. */
  function LoadStep(st: CacheState, device: Option<string>, env: Environment, rejects: set<nat>): (r: Step)
    ensures Full(r.state) && (Wf(st) ==> Wf(r.state))
    ensures |r.events| > 0 && r.events[0] == Post(Loading(LoadingMessage(device)))
  {
    var a := Acquire(st, ForwardToHost, DeviceArgument(device), rejects);
    Step(a.state, LoadTrace(device, |st.loads| < |a.state.loads|, env.progress, a.result))
  }

  /** `run` calls `getInstance()` with its defaults: no callback, device webgpu. */
  function RunStep(st: CacheState, audio: seq<real>, language: string, env: Environment, rejects: set<nat>): (r: Step)
    ensures Full(r.state) && (Wf(st) ==> Wf(r.state))
    ensures forall i :: 0 <= i < |r.events| ==> (r.events[i].Post? ==> r.events[i].message.Complete?)
  {
    var a := Acquire(st, NullCallback, WEBGPU, rejects);
    Step(a.state, RunTrace(audio, language, a.result, env))
  }

  /** The `message` listener's switch on the request type. */
  function Dispatch(st: CacheState, request: Request, env: Environment, rejects: set<nat>): (r: Step)
    ensures Wf(st) ==> Wf(r.state)
    ensures |st.loads| <= |r.state.loads| <= |st.loads| + 3 && r.state.loads[..|st.loads|] == st.loads
  {
    if request.kind == "load" then LoadStep(st, request.device, env, rejects)
    else if request.kind == "run" then RunStep(st, request.audio, request.language, env, rejects)
    else Step(st, [])
  }

  function CountLoaded(t: seq<Event>): nat {
    if t == [] then 0 else (if t[0] == Post(Loaded) then 1 else 0) + CountLoaded(t[1..])
  }

  predicate IsProgress(e: Event) {
    e.Post? && e.message.Progress?
  }

  // ---------------------------------------------------------------------------------------
  // Properties of the message traces

  lemma {:induction false} CountLoadedAppend(a: seq<Event>, b: seq<Event>)
    ensures CountLoaded(a + b) == CountLoaded(a) + CountLoaded(b)
    decreases |a|
  {
    if a == [] {
      assert a + b == b;
    } else {
      assert (a + b)[0] == a[0] && (a + b)[1..] == a[1..] + b;
      CountLoadedAppend(a[1..], b);
    }
  }

  /** Forwarded progress contains nothing but progress messages. */
  lemma {:induction false} ProgressPostsAreProgress(progress: seq<ProgressEvent>)
    ensures |ProgressPosts(progress)| == |progress|
    ensures forall i :: 0 <= i < |progress| ==> ProgressPosts(progress)[i] == Post(Progress(progress[i]))
    ensures CountLoaded(ProgressPosts(progress)) == 0
    decreases |progress|
  {
    if progress != [] {
      ProgressPostsAreProgress(progress[1..]);
      var t := ProgressPosts(progress);
      assert t[1..] == ProgressPosts(progress[1..]);
    }
  }

  /**
   * `load` posts its first loading message first; on success it posts `loaded` exactly once
   * and last, and on failure never.
   */
  lemma LoadStartsAndEnds(device: Option<string>, loadedNow: bool, progress: seq<ProgressEvent>, awaited: Awaited)
    ensures var t := LoadTrace(device, loadedNow, progress, awaited);
      |t| > 0 && t[0] == Post(Loading(LoadingMessage(device))) &&
      CountLoaded(t) == (if awaited.Resolved? then 1 else 0) &&
      (awaited.Resolved? ==> t[|t| - 1] == Post(Loaded))
  {
    var head := [Post(Loading(LoadingMessage(device)))];
    var forwarded := Forwarded(loadedNow, progress);
    var finish := Finish(device, awaited);
    ProgressPostsAreProgress(progress);
    CountLoadedAppend(head, forwarded);
    CountLoadedAppend(head + forwarded, finish);
    if awaited.Resolved? {
      var warm := if device == Some(WEBGPU)
        then [Post(Loading(WARMUP_MESSAGE)), CallTranscriber(awaited.handles.transcriber, SilentBuffer(), WarmupOptions())]
        else [];
      CountLoadedAppend(warm, [Post(Loaded)]);
      assert CountLoaded(warm) == 0 by {
        if device == Some(WEBGPU) {
          assert warm[1..][1..] == [];
        }
      }
    }
  }

  /** Progress is posted only by a `load` that started the loaders. */
  lemma ProgressOnlyWhenLoading(device: Option<string>, progress: seq<ProgressEvent>, awaited: Awaited)
    ensures var t := LoadTrace(device, false, progress, awaited);
      forall i :: 0 <= i < |t| ==> !IsProgress(t[i])
  {
  }

  /**
   * The warm-up runs on webgpu only, once the handles resolved: the one call of the
   * transcriber, on one second of silence in English, right after the second loading
   * message and right before `loaded`.
   */
  lemma WarmupOnlyOnWebgpu(device: Option<string>, loadedNow: bool, progress: seq<ProgressEvent>, awaited: Awaited)
    ensures var t := LoadTrace(device, loadedNow, progress, awaited);
      (forall i :: 0 <= i < |t| ==>
        (t[i].CallTranscriber? <==> device == Some(WEBGPU) && awaited.Resolved? && i == |t| - 2)) &&
      (device == Some(WEBGPU) && awaited.Resolved? ==>
        t[|t| - 3] == Post(Loading(WARMUP_MESSAGE)) &&
        t[|t| - 2] == CallTranscriber(awaited.handles.transcriber, SilentBuffer(), WarmupOptions()))
  {
    var head := [Post(Loading(LoadingMessage(device)))] + Forwarded(loadedNow, progress);
    var finish := Finish(device, awaited);
    var t := LoadTrace(device, loadedNow, progress, awaited);
    ProgressPostsAreProgress(progress);
    assert t == head + finish;
    assert forall i :: 0 <= i < |head| ==> !t[i].CallTranscriber?;
    assert forall i :: |head| <= i < |t| ==> t[i] == finish[i - |head|];
  }

  /**
   * `run` never reports that the models are not ready: on a fresh worker it loads them
   * itself, the asr pipeline with the webgpu entry and no progress callback, and then makes
   * both inference calls and posts the labelled result.
   */
  lemma RunBeforeLoad(audio: seq<real>, language: string, env: Environment, rejects: set<nat>)
    ensures var s := RunStep(EMPTY, audio, language, env, rejects);
      s.state.loads[0] == AsrPipeline(ASR_TASK, ASR_MODEL_ID, Some(Config(PerSubModel("fp32", "q4"), WEBGPU)), NullCallback) &&
      s.state.loads[2] == SegmentationModel(SEGMENTATION_MODEL_ID, WASM, "fp32", NullCallback) &&
      (forall e :: e in s.events ==> !e.Post? || e.message.Complete?) &&
      (0 !in rejects && 1 !in rejects && 2 !in rejects ==>
        s.events == [CallTranscriber(s.state.asr.value, audio, RunOptions(language)),
                     CallSegmentation(s.state.processor.value, s.state.model.value, audio),
                     Post(Complete(env.transcript, WithLabels(env.segments, env.id2label), env.elapsed))])
  {
    FirstAcquire(NullCallback, WEBGPU, rejects);
  }

  /**
   * A second `load`, whatever its device, starts no loader and forwards no progress; it keeps
   * the handles of the first, so an unknown or different device after the first load changes
   * nothing about them.
   */
  lemma SecondLoadReusesHandles(st: CacheState, d1: Option<string>, d2: Option<string>, env1: Environment, env2: Environment, rejects: set<nat>)
    ensures var first := LoadStep(st, d1, env1, rejects);
      var second := LoadStep(first.state, d2, env2, rejects);
      second.state == first.state &&
      second.events == LoadTrace(d2, false, env2.progress, Acquire(first.state, ForwardToHost, DeviceArgument(d2), rejects).result)
  {
    var first := LoadStep(st, d1, env1, rejects);
    AcquireFillsCache(st, ForwardToHost, DeviceArgument(d1), rejects);
    CachedHandlesStay(first.state, ForwardToHost, DeviceArgument(d2), rejects);
  }

  /**
   * `load` with no device on a fresh worker: the message reads "undefined", `getInstance`
   * falls back to its default and configures the asr pipeline for webgpu, and yet no
   * warm-up runs, because the device itself is not `'webgpu'`.
   */
  lemma LoadWithoutDevice(env: Environment, rejects: set<nat>)
    ensures var s := LoadStep(EMPTY, None, env, rejects);
      s.events[0] == Post(Loading("Loading models (undefined)...")) &&
      s.state.loads[0] == AsrPipeline(ASR_TASK, ASR_MODEL_ID, Some(Config(PerSubModel("fp32", "q4"), WEBGPU)), ForwardToHost) &&
      forall i :: 0 <= i < |s.events| ==> !s.events[i].CallTranscriber?
  {
    FirstAcquire(ForwardToHost, WEBGPU, rejects);
    var a := Acquire(EMPTY, ForwardToHost, WEBGPU, rejects);
    assert LoadStep(EMPTY, None, env, rejects).events == LoadTrace(None, true, env.progress, a.result);
    WarmupOnlyOnWebgpu(None, true, env.progress, a.result);
    LoadStartsAndEnds(None, true, env.progress, a.result);
    assert LoadingMessage(None) == "Loading models (undefined)..." by {
      var m := LoadingMessage(None);
      assert |m| == |"Loading models (undefined)..."|;
      assert forall i :: 0 <= i < |m| ==> m[i] == "Loading models (undefined)..."[i];
    }
  }

  /** A message whose type is neither `load` nor `run` has no effect. */
  lemma OtherMessagesIgnored(st: CacheState, request: Request, env: Environment, rejects: set<nat>)
    requires request.kind != "load" && request.kind != "run"
    ensures Dispatch(st, request, env, rejects) == Step(st, [])
  {
  }

  // ---------------------------------------------------------------------------------------
  // The worker as it runs

  class Worker {
    const pipeline: PipelineSingleton
    /** Everything posted and every inference call made, in order. */
    var trace: seq<Event>

    ghost predicate Valid()
      reads this, pipeline
    {
      Wf(pipeline.State())
    }

    constructor (rejects: set<nat>)
      ensures Valid() && fresh(pipeline)
      ensures pipeline.State() == EMPTY && pipeline.rejects == rejects && trace == []
    {
      pipeline := new PipelineSingleton(rejects);
      trace := [];
    }

    /** `self.postMessage(message)` */
    method PostMessage(message: Message)
      modifies this`trace
      ensures trace == old(trace) + [Post(message)]
    {
      trace := trace + [Post(message)];
    }

    /** `load({ device })` */
    method Load(device: Option<string>, env: Environment)
      requires Valid()
      modifies this, pipeline
      ensures Valid()
      ensures var s := LoadStep(old(pipeline.State()), device, env, pipeline.rejects);
        pipeline.State() == s.state && trace == old(trace) + s.events
    {
      ghost var st := pipeline.State();
      ghost var trace0 := trace;
      PostMessage(Loading(LoadingMessage(device)));
      var before := |pipeline.loads|;
      var arg := DeviceArgument(device);
      var r := pipeline.GetInstance(ForwardToHost, arg);
      ghost var a := Acquire(st, ForwardToHost, arg, pipeline.rejects);
      assert pipeline.State() == a.state && r == a.result;
      AcquireKeepsWf(st, ForwardToHost, arg, pipeline.rejects);
      if before < |pipeline.loads| {
        ForwardProgress(env.progress);
      }
      ghost var head := [Post(Loading(LoadingMessage(device)))] + Forwarded(before < |pipeline.loads|, env.progress);
      assert trace == trace0 + head;
      Settle(device, r);
      assert |st.loads| == before;
      assert trace == trace0 + (head + Finish(device, r));
    }

    /** The end of `load`, once `getInstance` settles: the webgpu warm-up, then `loaded`. */
    method Settle(device: Option<string>, r: Awaited)
      modifies this`trace
      ensures trace == old(trace) + Finish(device, r)
    {
      match r {
        case Rejected =>
        case Resolved(h) =>
          if device == Some(WEBGPU) {
            PostMessage(Loading(WARMUP_MESSAGE));
            trace := trace + [CallTranscriber(h.transcriber, SilentBuffer(), WarmupOptions())];
          }
          PostMessage(Loaded);
      }
    }

    /** The loaders' progress callback, posting each event as it comes. */
    method ForwardProgress(progress: seq<ProgressEvent>)
      modifies this`trace
      ensures trace == old(trace) + ProgressPosts(progress)
    {
      for i := 0 to |progress|
        invariant trace == old(trace) + ProgressPosts(progress[..i])
      {
        ProgressPostsSnoc(progress[..i], progress[i]);
        assert progress[..i + 1] == progress[..i] + [progress[i]];
        PostMessage(Progress(progress[i]));
      }
      assert progress[..|progress|] == progress;
    }

    /** `segment(processor, model, audio)`: the diarization call, then the label loop in place. */
    method SegmentAudio(processor: Promise, model: Promise, audio: seq<real>, env: Environment)
      returns (segments: seq<Segment>)
      modifies this`trace
      ensures trace == old(trace) + [CallSegmentation(processor, model, audio)]
      ensures segments == WithLabels(env.segments, env.id2label)
    {
      trace := trace + [CallSegmentation(processor, model, audio)];
      var raw := new Segment[|env.segments|](k requires 0 <= k < |env.segments| => env.segments[k]);
      assert raw[..] == env.segments;
      AttachLabels(raw, env.id2label);
      segments := raw[..];
    }

    /** `run({ audio, language })` */
    method Run(audio: seq<real>, language: string, env: Environment)
      requires Valid()
      modifies this, pipeline
      ensures Valid()
      ensures var s := RunStep(old(pipeline.State()), audio, language, env, pipeline.rejects);
        pipeline.State() == s.state && trace == old(trace) + s.events
    {
      AcquireKeepsWf(pipeline.State(), NullCallback, WEBGPU, pipeline.rejects);
      var r := pipeline.GetInstance();
      match r {
        case Rejected =>
        case Resolved(h) =>
          trace := trace + [CallTranscriber(h.transcriber, audio, RunOptions(language))];
          var segments := SegmentAudio(h.processor, h.model, audio, env);
          PostMessage(Complete(env.transcript, segments, env.elapsed));
      }
    }

    /** The `message` listener. */
    method OnMessage(request: Request, env: Environment)
      requires Valid()
      modifies this, pipeline
      ensures Valid()
      ensures var s := Dispatch(old(pipeline.State()), request, env, pipeline.rejects);
        pipeline.State() == s.state && trace == old(trace) + s.events
    {
      if request.kind == "load" {
        Load(request.device, env);
      } else if request.kind == "run" {
        Run(request.audio, request.language, env);
      }
    }
  }

  lemma {:induction false} ProgressPostsSnoc(progress: seq<ProgressEvent>, e: ProgressEvent)
    ensures ProgressPosts(progress + [e]) == ProgressPosts(progress) + [Post(Progress(e))]
    decreases |progress|
  {
    if progress != [] {
      assert (progress + [e])[1..] == progress[1..] + [e];
      ProgressPostsSnoc(progress[1..], e);
    }
  }
}
