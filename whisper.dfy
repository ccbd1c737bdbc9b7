/**
 * The interface of the external speech-recognition engine (the `transcribe`
 * method of a loaded Whisper model), as the application calls it. The engine
 * itself is not modelled: it is an arbitrary function from a request to a
 * reply, passed in by whoever runs the model.
 */
module Whisper {
  import opened Wrappers
  import opened Models

  /** One audio sample. The float32 conversion the source applies is not modelled. */
  type Sample = int

  /**
   * A time-stamped run of recognised speech. Times are whole milliseconds
   * from the start of the audio the engine was given; the rounding of the
   * engine's float seconds to milliseconds is assumed.
   */
  datatype Segment = Segment(startMs: int, endMs: int, text: string)

  /**
   * One call of the engine: `ordinal` counts the calls made so far by the
   * caller (0 for the first), so that an engine may answer successive calls on
   * equal audio differently, as the recorded replies of a test double do.
   */
  datatype Request = Request(
    ordinal: nat,
    audio: seq<Sample>,
    language: Option<string>,
    verbose: bool,
    task: Option<TranscriptionTask>)

  /** The engine's answer: its result dictionary, or the exception it raised. */
  datatype Reply = Reply(text: string, segments: seq<Segment>) | Raised(message: string)

  type Engine = Request -> Reply
}
