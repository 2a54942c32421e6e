/**
 * The capability contracts every pluggable stage implements.  A stage is
 * modelled as a record of its behaviours: each method of the interface
 * becomes a field holding what a call returns, either a value or the
 * exception it raises.  Stages are therefore deterministic: the same call
 * with the same arguments always has the same outcome.
 */
module Interfaces {
  import opened DataModels

  /** A Python exception: its class name and its `str(e)`. */
  datatype Exception = Exception(kind: string, message: string)

  /** What a call into a stage did: returned a value, or raised. */
  datatype Outcome<+T> = Ok(value: T) | Raised(error: Exception)

  /** Wake-word detection: `initialize`, `detect`, `cleanup`. */
  datatype ActivationEngine = ActivationEngine(
    initialize: Outcome<bool>,
    detect: AudioFrame -> Outcome<bool>,
    cleanup: Outcome<()>)

  /** Speech to text: `initialize`, `transcribe(audio_data, sample_rate)`, `cleanup`. */
  datatype SpeechToTextProcessor = SpeechToTextProcessor(
    initialize: Outcome<bool>,
    transcribe: (seq<bv8>, int) -> Outcome<TranscribedText>,
    cleanup: Outcome<()>)

  /** Natural-language understanding: `initialize`, `recognize(text)`, `cleanup`. */
  datatype IntentRecognizer = IntentRecognizer(
    initialize: Outcome<bool>,
    recognize: string -> Outcome<IntentResult>,
    cleanup: Outcome<()>)

  /** Generic, domain-agnostic response generation. */
  datatype ResponseGenerator = ResponseGenerator(
    initialize: Outcome<bool>,
    generate: IntentResult -> Outcome<DialogueResponse>,
    cleanup: Outcome<()>)

  /**
   * A domain-specific module.  The two introspection getters,
   * `get_domain_name` and `get_supported_intents`, are modelled as plain
   * values: they are read, never raise.
   */
  datatype DomainModule = DomainModule(
    initialize: Outcome<bool>,
    handle: IntentResult -> Outcome<DialogueResponse>,
    supportsIntent: string -> Outcome<bool>,
    domainName: string,
    supportedIntents: seq<string>,
    cleanup: Outcome<()>)

  /** The stage kinds, in the order the core cleans them up. */
  datatype StageKind = Activation | SpeechToText | Recognition | Generation

  /** One call into a plug-in, as recorded in a call trace. */
  datatype StageCall =
    | Detect
    | Transcribe
    | Recognize
    | SupportsIntent(domain: string)
    | Handle(domain: string)
    | Generate
    | CleanupStage(stage: StageKind)

  /** A value together with the plug-in calls, in order, that produced it. */
  datatype Traced<+T> = Traced(value: T, calls: seq<StageCall>)
}
