/** Values exchanged between the inference worker and the transcript view. */
module Types {

  /** A value that may be missing; None stands for JavaScript's `undefined`. */
  datatype Option<T> = None | Some(value: T)

  /** One recognised word (a "chunk"): its text and its timestamp [start, end] in seconds. */
  datatype Word = Word(text: string, start: real, end: real)

  /** What the speech-recognition pipeline returns: the whole text and its word-level chunks. */
  datatype Transcript = Transcript(text: string, chunks: seq<Word>)

  /**
   * One speaker-diarization segment. The post-processor produces id, start, end and
   * confidence; `speakerLabel` (the source's `label`) is absent until the worker attaches it from the model's id2label table.
   */
  datatype Segment = Segment(id: int, speakerLabel: Option<string>, start: real, end: real, confidence: real)
}
