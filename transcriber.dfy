/** The transcription client hook: three state fields (`isProcessing`,
    `progress`, `result`) driven by start, reset and the worker's replies.
    The worker itself is reached only through the messages it is posted;
    `alert` calls are recorded as a log of their texts. */
module TranscriberClient {
  import opened Common
  import opened Protocol
  import PitchWorker

  /** The hook's observable state. */
  datatype State = State(isProcessing: bool, progress: int, result: Option<seq<NoteEvent>>)

  /** The state at construction and after reset. */
  const Initial: State := State(false, 0, None)

  /** The state right after a transcription is started. */
  const Processing: State := State(true, 0, None)

  /** `Math.round`: the nearest integer, halves rounded up. */
  function Round(x: real): (n: int)
    ensures x - 0.5 < n as real <= x + 0.5
  {
    (x + 0.5).Floor
  }

  /** The percentage shown for a progress fraction: `Math.round(p * 100)`. */
  function PercentOf(fraction: real): (n: int)
    ensures 0.0 <= fraction <= 1.0 ==> 0 <= n <= 100
    ensures fraction == 1.0 ==> n == 100
    ensures fraction == 0.0 ==> n == 0
  {
    Round(fraction * 100.0)
  }

  /** Rounded progress never goes backwards when the fraction does not. */
  lemma PercentMonotone(f1: real, f2: real)
    requires f1 <= f2
    ensures PercentOf(f1) <= PercentOf(f2)
  {
    assert f1 * 100.0 + 0.5 <= f2 * 100.0 + 0.5;
  }

  /** The `onmessage` dispatch on the reply's tag. */
  function Receive(s: State, m: WorkerResponse): (r: State)
  {
    match m
    case InitComplete => s
    case Progress(p) => s.(progress := PercentOf(p))
    case Result(notes) => State(false, 100, Some(notes))
    case Error(_) => s.(isProcessing := false)
  }

  /** The state after a stream of replies, received in order. */
  function Run(s: State, replies: seq<WorkerResponse>): (r: State)
    decreases |replies|
  {
    if replies == [] then s else Run(Receive(s, replies[0]), replies[1..])
  }

  /** The text of the alert raised for an ERROR reply. */
  function ErrorAlert(payload: string): (t: string)
  {
    "Error processing audio: " + (if payload == [] then "Unknown error" else payload)
  }

  const NoWorkerAlert: string := "System error: Worker not initialized."

  // ---------------------------------------------------------------------
  // One reply at a time

  /** INIT_COMPLETE changes nothing. */
  lemma InitCompleteNoChange(s: State)
    ensures Receive(s, InitComplete) == s
  {
  }

  /** PROGRESS changes only the percentage, whatever `isProcessing` is. */
  lemma ProgressChangesOnlyProgress(s: State, p: real)
    ensures var r := Receive(s, Progress(p));
            r.isProcessing == s.isProcessing && r.result == s.result && r.progress == PercentOf(p)
  {
  }

  /** RESULT stores the notes, stops processing and shows exactly 100. */
  lemma ResultCompletes(s: State, notes: seq<NoteEvent>)
    ensures var r := Receive(s, Result(notes));
            !r.isProcessing && r.progress == 100 && r.result == Some(notes)
  {
  }

  /** ERROR stops processing and keeps the result and the percentage. */
  lemma ErrorStops(s: State, message: string)
    ensures var r := Receive(s, Error(message));
            !r.isProcessing && r.result == s.result && r.progress == s.progress
  {
  }

  /** A PROGRESS arriving after the RESULT overwrites the 100. */
  lemma LateProgressOverwrites(s: State, notes: seq<NoteEvent>, p: real)
    requires PercentOf(p) != 100
    ensures var r := Receive(Receive(s, Result(notes)), Progress(p));
            r.progress != 100 && !r.isProcessing && r.result == Some(notes)
  {
  }

  // ---------------------------------------------------------------------
  // Streams of replies

  lemma {:induction false} RunAppend(s: State, a: seq<WorkerResponse>, b: seq<WorkerResponse>)
    ensures Run(s, a + b) == Run(Run(s, a), b)
    decreases |a|
  {
    if a == [] {
      assert a + b == b;
    } else {
      assert (a + b)[1..] == a[1..] + b;
      RunAppend(Receive(s, a[0]), a[1..], b);
    }
  }

  /** A stream of PROGRESS replies leaves `isProcessing` and `result`
      alone; the percentage is that of the last one, and stays in 0..100
      when the fractions are in [0, 1]. */
  lemma {:induction false} ProgressRun(s: State, replies: seq<WorkerResponse>)
    requires forall i :: 0 <= i < |replies| ==> replies[i].Progress?
    ensures Run(s, replies).isProcessing == s.isProcessing
    ensures Run(s, replies).result == s.result
    ensures replies == [] ==> Run(s, replies).progress == s.progress
    ensures replies != [] ==> Run(s, replies).progress == PercentOf(replies[|replies| - 1].fraction)
    ensures 0 <= s.progress <= 100 && (forall i :: 0 <= i < |replies| ==> 0.0 <= replies[i].fraction <= 1.0)
            ==> 0 <= Run(s, replies).progress <= 100
    decreases |replies|
  {
    if replies != [] {
      ProgressRun(Receive(s, replies[0]), replies[1..]);
    }
  }

  /** End to end with the worker: after starting, the replies an
      initialised worker posts for the request leave the client not
      processing; its result is the notes, with progress 100, exactly when
      the worker's terminal reply is a RESULT, and is absent otherwise. */
  lemma ClientFollowsWorker(m: PitchWorker.ModelHandle, ev: PitchWorker.Evaluation, postProcess: PitchWorker.PostProcess)
    ensures var replies := PitchWorker.ProcessReplies(Some(m), ev, postProcess);
            var last := replies[|replies| - 1];
            var r := Run(Processing, replies);
            && !r.isProcessing
            && (last.Result? ==> r == State(false, 100, Some(last.notes)))
            && (last.Error? ==> r.result == None)
  {
    var replies := PitchWorker.ProcessReplies(Some(m), ev, postProcess);
    PitchWorker.ProcessEndsOnce(Some(m), ev, postProcess);
    var n := |replies| - 1;
    assert replies == replies[..n] + [replies[n]];
    RunAppend(Processing, replies[..n], [replies[n]]);
    ProgressRun(Processing, replies[..n]);
  }

  /** Before INIT has been handled, a request ends at once with processing
      off and no result. */
  lemma ClientBeforeWorkerInit(ev: PitchWorker.Evaluation, postProcess: PitchWorker.PostProcess)
    ensures Run(Processing, PitchWorker.ProcessReplies(None, ev, postProcess)) == State(false, 0, None)
  {
  }

  class Transcriber {
    var isProcessing: bool
    var progress: int
    var result: Option<seq<NoteEvent>>
    /** `workerRef.current != null`: set once the mount effect has run. */
    var hasWorker: bool
    /** Every message posted to the worker, in order. */
    var sent: seq<WorkerMessage>
    /** Every alert shown, in order. */
    var alerts: seq<string>

    function Snapshot(): (s: State)
      reads this
    {
      State(isProcessing, progress, result)
    }

    /** The worker reference, the messages posted and the alerts shown are
        as they were. */
    twostate predicate KeepsWorker()
      reads this
    {
      hasWorker == old(hasWorker) && sent == old(sent) && alerts == old(alerts)
    }

    constructor ()
      ensures Snapshot() == Initial && !hasWorker && sent == [] && alerts == []
    {
      isProcessing, progress, result := false, 0, None;
      hasWorker := false;
      sent, alerts := [], [];
    }

    /** The mount effect: create the worker and post INIT. */
    method Mount()
      modifies this
      ensures hasWorker && sent == old(sent) + [Init]
      ensures Snapshot() == old(Snapshot()) && alerts == old(alerts)
    {
      hasWorker := true;
      sent := sent + [Init];
    }

    /** `startTranscription`: without a worker only an alert; otherwise
        clear the result, zero the progress, mark processing and post PROCESS. */
    method StartTranscription(audioChannels: seq<real>, sampleRate: real)
      modifies this
      ensures hasWorker == old(hasWorker)
      ensures !hasWorker ==> Snapshot() == old(Snapshot()) && sent == old(sent)
                             && alerts == old(alerts) + [NoWorkerAlert]
      ensures hasWorker ==> Snapshot() == Processing && alerts == old(alerts)
                            && sent == old(sent) + [Process(audioChannels, sampleRate)]
    {
      if !hasWorker {
        alerts := alerts + [NoWorkerAlert];
        return;
      }
      result := None;
      progress := 0;
      isProcessing := true;
      sent := sent + [Process(audioChannels, sampleRate)];
    }

    /** `onmessage`: apply one worker reply. */
    method OnMessage(m: WorkerResponse)
      modifies this
      ensures Snapshot() == Receive(old(Snapshot()), m)
      ensures hasWorker == old(hasWorker) && sent == old(sent)
      ensures alerts == old(alerts) + (if m.Error? then [ErrorAlert(m.message)] else [])
    {
      match m {
        case InitComplete =>
        case Progress(p) =>
          progress := Round(p * 100.0);
        case Result(notes) =>
          result := Some(notes);
          isProcessing := false;
          progress := 100;
        case Error(message) =>
          isProcessing := false;
          alerts := alerts + [ErrorAlert(message)];
      }
    }

    /** `resetTranscriber`: back to the state at construction. */
    method ResetTranscriber()
      modifies this
      ensures Snapshot() == Initial && KeepsWorker()
    {
      result := None;
      progress := 0;
      isProcessing := false;
    }
  }
}
