/** The transcription worker: a module-level model handle created on the
    first INIT, and a PROCESS handler that runs the model, forwards its
    progress, accumulates its output chunks in order and ends every request
    with one RESULT or ERROR.

    The model's `evaluateModel` is a library call whose behaviour is an
    input here: the `Evaluation` lists the callbacks it makes, in order, and
    whether it then rejects. The note post-processing chain
    (`outputToNotesPoly`, `addPitchBendsToNoteEvents`, `noteFramesToTime`)
    is the function parameter `postProcess`, which may throw. */
module PitchWorker {
  import opened Common
  import opened Protocol

  /** The model object; the worker only ever builds it from one URL. */
  datatype ModelHandle = BasicPitch(modelUrl: string)

  const ModelUrl: string := "/model/model.json"
  const NotInitializedMessage: string := "BasicPitch not initialized"
  const UnknownErrorMessage: string := "Unknown error in worker"

  /** Rows of model output (one row per frame). */
  type Matrix = seq<seq<real>>

  /** One invocation of the output callback: `(frames, onsets, contours)`. */
  datatype Chunk = Chunk(frames: Matrix, onsets: Matrix, contours: Matrix)

  /** One callback made by `evaluateModel`. */
  datatype ModelEvent = Output(chunk: Chunk) | Progressed(fraction: real)

  /** A run of `evaluateModel`: its callbacks in order, then resolution
      (`failure == None`) or rejection with an error message. */
  datatype Evaluation = Evaluation(events: seq<ModelEvent>, failure: Option<string>)

  /** The post-processing chain from accumulated frames, onsets and contours
      to timed notes; `Err` is an exception it throws. */
  type PostProcess = (Matrix, Matrix, Matrix) -> Result<seq<NoteEvent>, string>

  /** `err.message || 'Unknown error in worker'`. */
  function ErrorText(message: string): (t: string)
    ensures t != []
    ensures message != [] ==> t == message
  {
    if message == [] then UnknownErrorMessage else message
  }

  // ---------------------------------------------------------------------
  // Specification of one evaluation

  /** Everything the output callbacks pushed, in callback order. */
  function AllOutput(events: seq<ModelEvent>): (c: Chunk)
    decreases |events|
  {
    if events == [] then Chunk([], [], [])
    else
      var rest := AllOutput(events[1..]);
      match events[0]
      case Output(k) => Chunk(k.frames + rest.frames, k.onsets + rest.onsets, k.contours + rest.contours)
      case Progressed(_) => rest
  }

  /** One PROGRESS reply per progress callback, carrying its value unchanged. */
  function ProgressReplies(events: seq<ModelEvent>): (r: seq<WorkerResponse>)
    ensures forall i :: 0 <= i < |r| ==> r[i].Progress?
    ensures |r| <= |events|
    decreases |events|
  {
    if events == [] then []
    else
      match events[0]
      case Progressed(p) => [Progress(p)] + ProgressReplies(events[1..])
      case Output(_) => ProgressReplies(events[1..])
  }

  lemma {:induction false} AllOutputSnoc(events: seq<ModelEvent>, e: ModelEvent)
    ensures var before, after := AllOutput(events), AllOutput(events + [e]);
            match e
            case Output(k) =>
              after == Chunk(before.frames + k.frames, before.onsets + k.onsets, before.contours + k.contours)
            case Progressed(_) => after == before
    decreases |events|
  {
    if events == [] {
      assert [] + [e] == [e];
      assert [e][1..] == [];
    } else {
      assert (events + [e])[1..] == events[1..] + [e];
      AllOutputSnoc(events[1..], e);
    }
  }

  lemma {:induction false} ProgressRepliesSnoc(events: seq<ModelEvent>, e: ModelEvent)
    ensures ProgressReplies(events + [e])
         == ProgressReplies(events) + (if e.Progressed? then [Progress(e.fraction)] else [])
    decreases |events|
  {
    if events == [] {
      assert [] + [e] == [e];
      assert [e][1..] == [];
    } else {
      assert (events + [e])[1..] == events[1..] + [e];
      ProgressRepliesSnoc(events[1..], e);
    }
  }

  /** The callbacks of `evaluateModel` as the worker handles them: output
      chunks are appended to the three accumulators (`push(...rows)`), and
      each progress value is posted at once. */
  method RunModel(events: seq<ModelEvent>) returns (acc: Chunk, posted: seq<WorkerResponse>)
    ensures acc == AllOutput(events)
    ensures posted == ProgressReplies(events)
  {
    var frames, onsets, contours := [], [], [];
    posted := [];
    var i := 0;
    while i < |events|
      invariant 0 <= i <= |events|
      invariant Chunk(frames, onsets, contours) == AllOutput(events[..i])
      invariant posted == ProgressReplies(events[..i])
    {
      assert events[..i + 1] == events[..i] + [events[i]];
      AllOutputSnoc(events[..i], events[i]);
      ProgressRepliesSnoc(events[..i], events[i]);
      match events[i] {
        case Output(k) =>
          frames := frames + k.frames;
          onsets := onsets + k.onsets;
          contours := contours + k.contours;
        case Progressed(p) =>
          posted := posted + [Progress(p)];
      }
      i := i + 1;
    }
    assert events[..|events|] == events;
    acc := Chunk(frames, onsets, contours);
  }

  /** What a PROCESS request posts, given the model handle at that moment. */
  function ProcessReplies(model: Option<ModelHandle>, ev: Evaluation, postProcess: PostProcess): (r: seq<WorkerResponse>)
  {
    if model.None? then [Error(NotInitializedMessage)]
    else
      var acc := AllOutput(ev.events);
      var terminal :=
        if ev.failure.Some? then Error(ErrorText(ev.failure.value))
        else match postProcess(acc.frames, acc.onsets, acc.contours)
          case Ok(notes) => Result(notes)
          case Err(m) => Error(ErrorText(m));
      ProgressReplies(ev.events) + [terminal]
  }

  /** Everything the worker posts in reply to one message. */
  function Replies(model: Option<ModelHandle>, msg: WorkerMessage, ev: Evaluation, postProcess: PostProcess): (r: seq<WorkerResponse>)
  {
    match msg
    case Init => [InitComplete]
    case Process(_, _) => ProcessReplies(model, ev, postProcess)
    case Unrecognised(_) => []
  }

  /** The model handle after one message: created by the first INIT, then kept. */
  function ModelAfter(model: Option<ModelHandle>, msg: WorkerMessage): (m: Option<ModelHandle>)
    ensures model.Some? ==> m == model
    ensures msg.Init? ==> m.Some?
    ensures !msg.Init? ==> m == model
  {
    if msg.Init? && model.None? then Some(BasicPitch(ModelUrl)) else model
  }

  // ---------------------------------------------------------------------
  // Properties of the protocol

  /** INIT is idempotent: the model is built by the first INIT only, and
      every INIT gets exactly one INIT_COMPLETE. */
  lemma InitIdempotent(model: Option<ModelHandle>, ev: Evaluation, postProcess: PostProcess)
    ensures ModelAfter(ModelAfter(model, Init), Init) == ModelAfter(model, Init)
    ensures model.None? ==> ModelAfter(model, Init) == Some(BasicPitch(ModelUrl))
    ensures Replies(model, Init, ev, postProcess) == [InitComplete]
  {
  }

  /** A message of any other type is ignored: no reply, same model. */
  lemma UnrecognisedIgnored(model: Option<ModelHandle>, tag: string, ev: Evaluation, postProcess: PostProcess)
    ensures Replies(model, Unrecognised(tag), ev, postProcess) == []
    ensures ModelAfter(model, Unrecognised(tag)) == model
  {
  }

  /** Every PROCESS ends with exactly one terminal message, the last one,
      and everything before it is a PROGRESS. */
  lemma ProcessEndsOnce(model: Option<ModelHandle>, ev: Evaluation, postProcess: PostProcess)
    ensures var r := ProcessReplies(model, ev, postProcess);
            && |r| >= 1
            && r[|r| - 1].IsTerminal()
            && (forall i :: 0 <= i < |r| - 1 ==> r[i].Progress?)
  {
  }

  /** Before any INIT, PROCESS gets a single ERROR and no RESULT. */
  lemma ProcessBeforeInit(ev: Evaluation, audio: seq<real>, rate: real, postProcess: PostProcess)
    ensures Replies(None, Process(audio, rate), ev, postProcess) == [Error(NotInitializedMessage)]
    ensures ModelAfter(None, Process(audio, rate)) == None
  {
  }

  /** With a model, the PROGRESS replies are the progress callbacks' values,
      unchanged and in order, and the terminal reply is RESULT exactly when
      neither the model nor the post-processing threw. */
  lemma ProcessWithModel(m: ModelHandle, ev: Evaluation, postProcess: PostProcess)
    ensures var r := ProcessReplies(Some(m), ev, postProcess);
            var acc := AllOutput(ev.events);
            && r[..|r| - 1] == ProgressReplies(ev.events)
            && (r[|r| - 1].Result? <==> ev.failure.None? && postProcess(acc.frames, acc.onsets, acc.contours).Ok?)
            && (ev.failure.Some? ==> r[|r| - 1] == Error(ErrorText(ev.failure.value)))
            && (ev.failure.None? && postProcess(acc.frames, acc.onsets, acc.contours).Ok? ==>
                  r[|r| - 1] == Result(postProcess(acc.frames, acc.onsets, acc.contours).value))
            && (ev.failure.None? && postProcess(acc.frames, acc.onsets, acc.contours).Err? ==>
                  r[|r| - 1] == Error(ErrorText(postProcess(acc.frames, acc.onsets, acc.contours).error)))
  {
  }

  /** The accumulated frames, onsets and contours are the in-order
      concatenation of the chunks: splitting the callbacks anywhere splits
      the accumulation there. */
  lemma {:induction false} AllOutputAppend(a: seq<ModelEvent>, b: seq<ModelEvent>)
    ensures AllOutput(a + b).frames == AllOutput(a).frames + AllOutput(b).frames
    ensures AllOutput(a + b).onsets == AllOutput(a).onsets + AllOutput(b).onsets
    ensures AllOutput(a + b).contours == AllOutput(a).contours + AllOutput(b).contours
    decreases |a|
  {
    if a == [] {
      assert a + b == b;
    } else {
      assert (a + b)[1..] == a[1..] + b;
      AllOutputAppend(a[1..], b);
    }
  }

  class Worker {
    /** The module-level `basicPitch` singleton. */
    var model: Option<ModelHandle>
    /** How many model objects were ever constructed. */
    var created: nat
    /** Every message posted to the client, in order. */
    var posted: seq<WorkerResponse>

    ghost predicate Valid()
      reads this
    {
      && created == (if model.Some? then 1 else 0)
      && (model.Some? ==> model.value == BasicPitch(ModelUrl))
    }

    constructor ()
      ensures Valid() && model == None && created == 0 && posted == []
    {
      model := None;
      created := 0;
      posted := [];
    }

    /** `self.onmessage`. The evaluation and post-processing are only
        consulted for a PROCESS request on an initialised worker. */
    method OnMessage(msg: WorkerMessage, ev: Evaluation, postProcess: PostProcess)
      requires Valid()
      modifies this
      ensures Valid()
      ensures model == ModelAfter(old(model), msg)
      ensures created <= 1
      ensures posted == old(posted) + Replies(old(model), msg, ev, postProcess)
    {
      match msg
      case Init =>
        if model.None? {
          model := Some(BasicPitch(ModelUrl));
          created := created + 1;
          posted := posted + [InitComplete];
        } else {
          posted := posted + [InitComplete];
        }
      case Process(_, _) =>
        if model.None? {
          posted := posted + [Error(ErrorText(NotInitializedMessage))];
        } else {
          var acc, progress := RunModel(ev.events);
          posted := posted + progress;
          if ev.failure.Some? {
            posted := posted + [Error(ErrorText(ev.failure.value))];
          } else {
            var notes := postProcess(acc.frames, acc.onsets, acc.contours);
            match notes
            case Ok(n) => posted := posted + [Result(n)];
            case Err(e) => posted := posted + [Error(ErrorText(e))];
          }
        }
      case Unrecognised(_) =>
    }
  }
}
