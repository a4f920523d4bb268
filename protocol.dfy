/** The messages exchanged between the transcription client and the pitch
    worker (the tag unions of frontend/types.ts), each tag with the payload
    it carries. */
module Protocol {

  /** One detected note, as the pitch model reports it in seconds. */
  datatype NoteEvent = NoteEvent(pitchMidi: int, startTimeSeconds: real, durationSeconds: real, amplitude: real)

  /** Client to worker. `Unrecognised` is any other `type` string, which the
      worker's dispatch does not match. */
  datatype WorkerMessage =
    | Init
    | Process(audioChannels: seq<real>, sampleRate: real)
    | Unrecognised(tag: string)

  /** Worker to client. */
  datatype WorkerResponse =
    | InitComplete
    | Progress(fraction: real)
    | Result(notes: seq<NoteEvent>)
    | Error(message: string)
  {
    /** RESULT and ERROR end a request; the other two do not. */
    predicate IsTerminal()
    {
      Result? || Error?
    }
  }
}
