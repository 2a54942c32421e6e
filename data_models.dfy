/**
 * The records that flow through one pipeline run, and the process-wide
 * state enum.  Only the fields the orchestration code reads or constructs
 * are modelled; floating-point values are modelled as reals.
 */
module DataModels {

  datatype Option<+T> = None | Some(value: T)

  /** Raw audio handed to the pipeline by its caller. */
  datatype AudioFrame = AudioFrame(data: seq<bv8>, sampleRate: int)

  /** Output of the speech-to-text stage. */
  datatype TranscribedText = TranscribedText(text: string, confidence: real)

  /** Output of the intent-recognition stage. */
  datatype IntentResult = IntentResult(
    rawText: string,
    intent: string,
    confidence: real,
    entities: seq<(string, string)>)

  /** The answer a run returns; `moduleName` is the source field `module`. */
  datatype DialogueResponse = DialogueResponse(text: string, moduleName: string)

  /** The pipeline state machine's states. */
  datatype SystemState = IDLE | LISTENING | PROCESSING | RESPONDING | ERROR

  /** One entry of the performance monitor's append-only log. */
  datatype PerformanceMetric = PerformanceMetric(component: string, metricName: string, value: real)
}
