/**
 * The receptionist core: four optional stage slots, the pipeline state,
 * a running flag, and the module manager, API gateway and performance
 * monitor it owns.  One call of `ProcessAudio` drives a frame through
 * activation, speech to text, intent recognition, domain dispatch and the
 * fallback generator; the functions below say what that run returns,
 * which metrics and which interaction it records, and which stage calls
 * it makes.
 */
module CoreEngine {
  import opened DataModels
  import opened Interfaces
  import opened ModuleManagement
  import opened ApiGateway
  import opened PerformanceMonitoring

  /** The configured stages of a core, each slot possibly empty. */
  datatype Stages = Stages(
    activation: Option<ActivationEngine>,
    stt: Option<SpeechToTextProcessor>,
    recognizer: Option<IntentRecognizer>,
    generator: Option<ResponseGenerator>)

  /** The interaction a run records with the monitor, if any. */
  datatype Interaction = NotRecorded | Succeeded | Failed

  /**
   * How the try block of a run ends: returning or raising, the
   * interaction it recorded itself, the metrics it appended and the
   * stage calls it made.
   */
  datatype TryBlock = TryBlock(
    outcome: Outcome<Option<DialogueResponse>>,
    interaction: Interaction,
    metrics: seq<PerformanceMetric>,
    calls: seq<StageCall>)

  /** What one whole run does, once its exception handler has run. */
  datatype PipelineRun = PipelineRun(
    response: Option<DialogueResponse>,
    interaction: Interaction,
    metrics: seq<PerformanceMetric>,
    calls: seq<StageCall>)

  function SttMetric(transcribed: TranscribedText): PerformanceMetric {
    PerformanceMetric("stt", "confidence", transcribed.confidence)
  }

  function IntentMetric(intentResult: IntentResult): PerformanceMetric {
    PerformanceMetric("intent_recognizer", "confidence", intentResult.confidence)
  }

  /** The activation engine is configured and says the wake word is absent. */
  predicate Filtered(stages: Stages, frame: AudioFrame) {
    stages.activation.Some? && stages.activation.value.detect(frame) == Ok(false)
  }

  /** No activation engine is configured, or it detects the wake word. */
  predicate Activated(stages: Stages, frame: AudioFrame) {
    stages.activation.None? || stages.activation.value.detect(frame) == Ok(true)
  }

  /** The calls the activation step makes. */
  function ActivationCalls(stages: Stages): seq<StageCall> {
    if stages.activation.Some? then [Detect] else []
  }

  /** The transcription of a frame, when the run gets that far and the STT stage returns. */
  function Transcript(stages: Stages, frame: AudioFrame): Option<TranscribedText> {
    if Activated(stages, frame) && stages.stt.Some? then
      match stages.stt.value.transcribe(frame.data, frame.sampleRate)
      case Ok(transcribed) => Some(transcribed)
      case Raised(_) => None
    else None
  }

  /** The recognized intent of a frame, when the run gets as far as dispatch. */
  function RecognizedIntent(stages: Stages, frame: AudioFrame): Option<IntentResult> {
    match Transcript(stages, frame)
    case None => None
    case Some(transcribed) =>
      if stages.recognizer.Some? then
        match stages.recognizer.value.recognize(transcribed.text)
        case Ok(intentResult) => Some(intentResult)
        case Raised(_) => None
      else None
  }

  /**
   * The shape every try-block result has: an exception leaves the
   * interaction to the handler; a return has recorded one interaction
   * unless `mayFilter` allows the wake-word exit, and a successful one
   * exactly when there is a response; at most `maxMetrics` confidence
   * metrics; the generator called only when configured.
   */
  predicate Settled(t: TryBlock, stages: Stages, maxMetrics: nat, mayFilter: bool) {
    && (t.outcome.Raised? ==> t.interaction == NotRecorded)
    && (t.outcome.Ok? ==> (t.outcome.value.Some? <==> t.interaction == Succeeded))
    && (t.outcome.Ok? && !mayFilter ==> t.interaction != NotRecorded)
    && |t.metrics| <= maxMetrics
    && (forall i :: 0 <= i < |t.metrics| ==> t.metrics[i].metricName == "confidence")
    && (Generate in t.calls ==> stages.generator.Some?)
  }

  /** Step 4: domain dispatch, then the fallback generator. */
  function Respond(stages: Stages, mm: ModuleManager, intentResult: IntentResult): (t: TryBlock)
    reads mm
    ensures Settled(t, stages, 0, false)
  {
    var dispatched := mm.ProcessWithModule(intentResult);
    match dispatched.value
    case Raised(e) => TryBlock(Raised(e), NotRecorded, [], dispatched.calls)
    case Ok(response) =>
      if response.None? && stages.generator.Some? then
        match stages.generator.value.generate(intentResult)
        case Raised(e) => TryBlock(Raised(e), NotRecorded, [], dispatched.calls + [Generate])
        case Ok(generated) => TryBlock(Ok(Some(generated)), Succeeded, [], dispatched.calls + [Generate])
      else if response.Some? then
        TryBlock(Ok(response), Succeeded, [], dispatched.calls)
      else
        TryBlock(Ok(None), Failed, [], dispatched.calls)
  }

  /** Step 3 onwards, given the transcription. */
  function AfterTranscription(stages: Stages, mm: ModuleManager, transcribed: TranscribedText): (t: TryBlock)
    reads mm
    ensures Settled(t, stages, 1, false)
  {
    if stages.recognizer.None? then
      TryBlock(Ok(None), Failed, [], [])
    else
      match stages.recognizer.value.recognize(transcribed.text)
      case Raised(e) => TryBlock(Raised(e), NotRecorded, [], [Recognize])
      case Ok(intentResult) =>
        var rest := Respond(stages, mm, intentResult);
        TryBlock(rest.outcome, rest.interaction, [IntentMetric(intentResult)] + rest.metrics, [Recognize] + rest.calls)
  }

  /** Step 2 onwards, once activation has let the frame through. */
  function AfterActivation(stages: Stages, mm: ModuleManager, frame: AudioFrame): (t: TryBlock)
    reads mm
    ensures Settled(t, stages, 2, false)
  {
    if stages.stt.None? then
      TryBlock(Ok(None), Failed, [], [])
    else
      match stages.stt.value.transcribe(frame.data, frame.sampleRate)
      case Raised(e) => TryBlock(Raised(e), NotRecorded, [], [Transcribe])
      case Ok(transcribed) =>
        var rest := AfterTranscription(stages, mm, transcribed);
        TryBlock(rest.outcome, rest.interaction, [SttMetric(transcribed)] + rest.metrics, [Transcribe] + rest.calls)
  }

  /** The try block of a run. */
  function Attempt(stages: Stages, mm: ModuleManager, frame: AudioFrame): (t: TryBlock)
    reads mm
    ensures Settled(t, stages, 2, true)
    ensures t.outcome.Ok? && t.interaction == NotRecorded <==> Filtered(stages, frame)
  {
    if stages.activation.Some? then
      match stages.activation.value.detect(frame)
      case Raised(e) => TryBlock(Raised(e), NotRecorded, [], [Detect])
      case Ok(detected) =>
        if !detected then
          TryBlock(Ok(None), NotRecorded, [], [Detect])
        else
          var rest := AfterActivation(stages, mm, frame);
          TryBlock(rest.outcome, rest.interaction, rest.metrics, [Detect] + rest.calls)
    else
      AfterActivation(stages, mm, frame)
  }

  /**
   * One run of the pipeline.  An exception from any stage becomes no
   * response and one failed interaction.  A frame the activation engine
   * filters out records nothing and calls nothing after `detect`; every
   * other run records exactly one interaction, successful exactly when
   * there is a response.
   */
  function Run(stages: Stages, mm: ModuleManager, frame: AudioFrame): (r: PipelineRun)
    reads mm
    ensures Filtered(stages, frame) ==> r == PipelineRun(None, NotRecorded, [], [Detect])
    ensures r.interaction == NotRecorded <==> Filtered(stages, frame)
    ensures r.response.Some? <==> r.interaction == Succeeded
    ensures !Filtered(stages, frame) && stages.stt.None? ==>
      r == PipelineRun(None, Failed, [], ActivationCalls(stages))
    ensures Transcript(stages, frame).Some? && stages.recognizer.None? ==>
      r == PipelineRun(None, Failed, [SttMetric(Transcript(stages, frame).value)], ActivationCalls(stages) + [Transcribe])
    ensures |r.metrics| <= 2
    ensures forall i :: 0 <= i < |r.metrics| ==> r.metrics[i].metricName == "confidence"
    ensures Generate in r.calls ==> stages.generator.Some?
    ensures var t := Attempt(stages, mm, frame);
      t.outcome.Raised? ==> r == PipelineRun(None, Failed, t.metrics, t.calls)
  {
    var t := Attempt(stages, mm, frame);
    match t.outcome
    case Raised(_) => PipelineRun(None, Failed, t.metrics, t.calls)
    case Ok(response) => PipelineRun(response, t.interaction, t.metrics, t.calls)
  }

  /** A run that reaches dispatch records both confidences and makes the stage calls in pipeline order. */
  lemma RunReachingDispatch(stages: Stages, mm: ModuleManager, frame: AudioFrame, intentResult: IntentResult)
    requires RecognizedIntent(stages, frame) == Some(intentResult)
    ensures var r := Run(stages, mm, frame);
      && r.metrics == [SttMetric(Transcript(stages, frame).value), IntentMetric(intentResult)]
      && r.calls[..|ActivationCalls(stages)| + 2] == ActivationCalls(stages) + [Transcribe, Recognize]
      && r.interaction != NotRecorded
  {
    var transcribed := Transcript(stages, frame).value;
    var rest := Respond(stages, mm, intentResult);
    assert AfterTranscription(stages, mm, transcribed).calls == [Recognize] + rest.calls;
    assert AfterActivation(stages, mm, frame).calls == [Transcribe, Recognize] + rest.calls;
  }

  /**
   * A raising stage ends the run with no response and one failed
   * interaction; the metrics recorded before it stay, and no later stage
   * is called.
   */
  lemma StageFailures(stages: Stages, mm: ModuleManager, frame: AudioFrame)
    ensures stages.activation.Some? && stages.activation.value.detect(frame).Raised? ==>
      Run(stages, mm, frame) == PipelineRun(None, Failed, [], [Detect])
    ensures Activated(stages, frame) && stages.stt.Some? && stages.stt.value.transcribe(frame.data, frame.sampleRate).Raised? ==>
      Run(stages, mm, frame) == PipelineRun(None, Failed, [], ActivationCalls(stages) + [Transcribe])
    ensures Transcript(stages, frame).Some? && stages.recognizer.Some?
            && stages.recognizer.value.recognize(Transcript(stages, frame).value.text).Raised? ==>
      Run(stages, mm, frame) ==
        PipelineRun(None, Failed, [SttMetric(Transcript(stages, frame).value)], ActivationCalls(stages) + [Transcribe, Recognize])
  {
  }

  /**
   * A domain module whose `supports_intent` raises, or which claims the
   * intent and whose `handle` raises, ends the run as a failure: there is
   * no response and the fallback generator is not called.
   */
  lemma DispatchRaises(stages: Stages, mm: ModuleManager, frame: AudioFrame, intentResult: IntentResult)
    requires RecognizedIntent(stages, frame) == Some(intentResult)
    requires mm.GetActiveModule().Some?
    requires || mm.GetActiveModule().value.supportsIntent(intentResult.intent).Raised?
             || (mm.Claims(intentResult) && mm.GetActiveModule().value.handle(intentResult).Raised?)
    ensures var r := Run(stages, mm, frame);
      r.response == None && r.interaction == Failed && Generate !in r.calls
  {
    var r := Run(stages, mm, frame);
    var rest := Respond(stages, mm, intentResult);
    assert rest.calls == mm.ProcessWithModule(intentResult).calls;
    assert AfterActivation(stages, mm, frame).calls == [Transcribe, Recognize] + rest.calls;
    assert r.calls == ActivationCalls(stages) + [Transcribe, Recognize] + rest.calls;
  }

  /**
   * The domain module's answer wins: when dispatch produces a response,
   * the run returns it and the fallback generator is not called.
   */
  lemma DomainResponseWins(stages: Stages, mm: ModuleManager, frame: AudioFrame, intentResult: IntentResult, response: DialogueResponse)
    requires RecognizedIntent(stages, frame) == Some(intentResult)
    requires mm.ProcessWithModule(intentResult).value == Ok(Some(response))
    ensures var r := Run(stages, mm, frame);
      r.response == Some(response) && r.interaction == Succeeded && Generate !in r.calls
  {
    var r := Run(stages, mm, frame);
    var transcribed := Transcript(stages, frame).value;
    var rest := Respond(stages, mm, intentResult);
    assert rest.calls == mm.ProcessWithModule(intentResult).calls;
    assert AfterActivation(stages, mm, frame).calls == [Transcribe, Recognize] + rest.calls;
    assert r.calls == ActivationCalls(stages) + [Transcribe, Recognize] + rest.calls;
  }

  /**
   * The fallback generator answers exactly when dispatch produced nothing
   * and a generator is configured; with no generator the run fails.
   */
  lemma FallbackGenerator(stages: Stages, mm: ModuleManager, frame: AudioFrame, intentResult: IntentResult)
    requires RecognizedIntent(stages, frame) == Some(intentResult)
    requires mm.ProcessWithModule(intentResult).value == Ok(None)
    ensures var r := Run(stages, mm, frame);
      && (stages.generator.Some? ==>
            Generate in r.calls
            && r.response == match stages.generator.value.generate(intentResult)
                             case Ok(generated) => Some(generated)
                             case Raised(_) => None)
      && (stages.generator.None? ==> r.response == None && r.interaction == Failed && Generate !in r.calls)
  {
    var r := Run(stages, mm, frame);
    var rest := Respond(stages, mm, intentResult);
    assert AfterActivation(stages, mm, frame).calls == [Transcribe, Recognize] + rest.calls;
    assert r.calls == ActivationCalls(stages) + [Transcribe, Recognize] + rest.calls;
    if stages.generator.Some? {
      assert rest.calls[|rest.calls| - 1] == Generate;
    }
  }

  /** How an interaction moves the monitor's two counters. */
  predicate Recorded(interaction: Interaction, interactions0: nat, errors0: nat, interactions1: nat, errors1: nat) {
    match interaction
    case NotRecorded => interactions1 == interactions0 && errors1 == errors0
    case Succeeded => interactions1 == interactions0 + 1 && errors1 == errors0
    case Failed => interactions1 == interactions0 + 1 && errors1 == errors0 + 1
  }

  /** What a full cleanup does: the stage cleanups it calls, and whether it got to the end. */
  datatype CleanupRun = CleanupRun(calls: seq<StageCall>, completed: bool)

  /** The position of a stage in the core's cleanup order. */
  function CleanupRank(kind: StageKind): nat {
    match kind
    case Activation => 0
    case SpeechToText => 1
    case Recognition => 2
    case Generation => 3
  }

  /** The cleanup outcome of the stage in a slot, when the slot is configured. */
  function CleanupFor(stages: Stages, kind: StageKind): Option<Outcome<()>> {
    match kind
    case Activation => if stages.activation.Some? then Some(stages.activation.value.cleanup) else None
    case SpeechToText => if stages.stt.Some? then Some(stages.stt.value.cleanup) else None
    case Recognition => if stages.recognizer.Some? then Some(stages.recognizer.value.cleanup) else None
    case Generation => if stages.generator.Some? then Some(stages.generator.value.cleanup) else None
  }

  /** The configured stages' cleanups, in the order the core calls them. */
  function StageCleanups(stages: Stages): seq<(StageKind, Outcome<()>)> {
    (if stages.activation.Some? then [(Activation, stages.activation.value.cleanup)] else [])
    + (if stages.stt.Some? then [(SpeechToText, stages.stt.value.cleanup)] else [])
    + (if stages.recognizer.Some? then [(Recognition, stages.recognizer.value.cleanup)] else [])
    + (if stages.generator.Some? then [(Generation, stages.generator.value.cleanup)] else [])
  }

  /**
   * The cleanup list holds every configured stage exactly once, each with
   * its own cleanup outcome, in the order activation, speech to text,
   * recognition, generation.
   */
  lemma StageCleanupOrder(stages: Stages)
    ensures var steps := StageCleanups(stages);
      && (forall i :: 0 <= i < |steps| ==> CleanupFor(stages, steps[i].0) == Some(steps[i].1))
      && (forall i, j :: 0 <= i < j < |steps| ==> CleanupRank(steps[i].0) < CleanupRank(steps[j].0))
      && (forall kind :: CleanupFor(stages, kind).Some? ==> exists i :: 0 <= i < |steps| && steps[i].0 == kind)
  {
    var a := if stages.activation.Some? then [(Activation, stages.activation.value.cleanup)] else [];
    var b := if stages.stt.Some? then [(SpeechToText, stages.stt.value.cleanup)] else [];
    var c := if stages.recognizer.Some? then [(Recognition, stages.recognizer.value.cleanup)] else [];
    var d := if stages.generator.Some? then [(Generation, stages.generator.value.cleanup)] else [];
    var steps := a + b + c + d;
    assert StageCleanups(stages) == steps;
    assert stages.activation.Some? ==> steps[0].0 == Activation;
    assert stages.stt.Some? ==> steps[|a|].0 == SpeechToText;
    assert stages.recognizer.Some? ==> steps[|a| + |b|].0 == Recognition;
    assert stages.generator.Some? ==> steps[|a| + |b| + |c|].0 == Generation;
  }

  /**
   * All cleanups share one handler, so the first one that raises ends the
   * cleanup: the later ones are not called, and the cleanup does not
   * complete.
   */
  function CleanupOf(steps: seq<(StageKind, Outcome<()>)>): (r: CleanupRun)
    ensures r.completed <==> AllReturn(steps)
    ensures |r.calls| <= |steps|
    ensures forall i :: 0 <= i < |r.calls| ==> r.calls[i] == CleanupStage(steps[i].0)
    ensures r.completed ==> |r.calls| == |steps|
    ensures !r.completed ==>
      && |r.calls| > 0
      && steps[|r.calls| - 1].1.Raised?
      && forall i :: 0 <= i < |r.calls| - 1 ==> steps[i].1.Ok?
  {
    if steps == [] then CleanupRun([], true)
    else
      var head := CleanupStage(steps[0].0);
      match steps[0].1
      case Raised(_) => CleanupRun([head], false)
      case Ok(_) =>
        var rest := CleanupOf(steps[1..]);
        CleanupRun([head] + rest.calls, rest.completed)
  }

  /** Every configured stage's cleanup returns. */
  predicate CleanupsReturn(stages: Stages) {
    && (stages.activation.Some? ==> stages.activation.value.cleanup.Ok?)
    && (stages.stt.Some? ==> stages.stt.value.cleanup.Ok?)
    && (stages.recognizer.Some? ==> stages.recognizer.value.cleanup.Ok?)
    && (stages.generator.Some? ==> stages.generator.value.cleanup.Ok?)
  }

  /** Every cleanup in the list returns. */
  predicate AllReturn(steps: seq<(StageKind, Outcome<()>)>) {
    forall i :: 0 <= i < |steps| ==> steps[i].1.Ok?
  }

  lemma AllReturnConcat(x: seq<(StageKind, Outcome<()>)>, y: seq<(StageKind, Outcome<()>)>)
    ensures AllReturn(x + y) <==> AllReturn(x) && AllReturn(y)
  {
    if AllReturn(x + y) {
      forall i | 0 <= i < |x|
        ensures x[i].1.Ok?
      {
        assert (x + y)[i] == x[i];
      }
      forall i | 0 <= i < |y|
        ensures y[i].1.Ok?
      {
        assert (x + y)[|x| + i] == y[i];
      }
    }
  }

  lemma AllReturnSingle(kind: StageKind, outcome: Outcome<()>)
    ensures AllReturn([(kind, outcome)]) <==> outcome.Ok?
  {
    assert [(kind, outcome)][0].1 == outcome;
  }

  /** The core's cleanup completes exactly when no configured stage's cleanup raises. */
  lemma CleanupCompletes(stages: Stages)
    ensures CleanupOf(StageCleanups(stages)).completed <==> CleanupsReturn(stages)
  {
    var a := if stages.activation.Some? then [(Activation, stages.activation.value.cleanup)] else [];
    var b := if stages.stt.Some? then [(SpeechToText, stages.stt.value.cleanup)] else [];
    var c := if stages.recognizer.Some? then [(Recognition, stages.recognizer.value.cleanup)] else [];
    var d := if stages.generator.Some? then [(Generation, stages.generator.value.cleanup)] else [];
    assert StageCleanups(stages) == a + b + c + d;
    AllReturnConcat(a + b + c, d);
    AllReturnConcat(a + b, c);
    AllReturnConcat(a, b);
    if stages.activation.Some? { AllReturnSingle(Activation, stages.activation.value.cleanup); }
    if stages.stt.Some? { AllReturnSingle(SpeechToText, stages.stt.value.cleanup); }
    if stages.recognizer.Some? { AllReturnSingle(Recognition, stages.recognizer.value.cleanup); }
    if stages.generator.Some? { AllReturnSingle(Generation, stages.generator.value.cleanup); }
  }

  /** The state a core reports, without its timestamp. */
  datatype Status = Status(
    running: bool,
    state: SystemState,
    activeModule: Option<string>,
    registeredModules: set<string>)

  class ReceptionistCore {
    var state: SystemState
    var activationEngine: Option<ActivationEngine>
    var sttProcessor: Option<SpeechToTextProcessor>
    var intentRecognizer: Option<IntentRecognizer>
    var responseGenerator: Option<ResponseGenerator>
    const moduleManager: ModuleManager
    const apiGateway: APIGateway
    const performanceMonitor: PerformanceMonitor
    var running: bool

    constructor ()
      ensures state == IDLE && !running
      ensures activationEngine == None && sttProcessor == None
      ensures intentRecognizer == None && responseGenerator == None
      ensures fresh(moduleManager) && moduleManager.modules == map[] && moduleManager.activeModule == None
      ensures fresh(apiGateway) && apiGateway.routes == map[] && apiGateway.externalSystems == map[]
      ensures fresh(performanceMonitor) && performanceMonitor.Valid()
      ensures performanceMonitor.metrics == [] && performanceMonitor.interactionCount == 0
      ensures performanceMonitor.errorCount == 0
    {
      state := IDLE;
      activationEngine := None;
      sttProcessor := None;
      intentRecognizer := None;
      responseGenerator := None;
      moduleManager := new ModuleManager();
      apiGateway := new APIGateway();
      performanceMonitor := new PerformanceMonitor();
      running := false;
    }

    /** The stage slots as one value. */
    function CurrentStages(): Stages
      reads this
    {
      Stages(activationEngine, sttProcessor, intentRecognizer, responseGenerator)
    }

    /** Installs the engine exactly when its `initialize` returns true; false or an exception keeps the old one. */
    method SetActivationEngine(engine: ActivationEngine) returns (ok: bool)
      modifies this`activationEngine
      ensures ok <==> engine.initialize == Ok(true)
      ensures activationEngine == if ok then Some(engine) else old(activationEngine)
    {
      match engine.initialize {
        case Ok(initialized) =>
          if initialized {
            activationEngine := Some(engine);
            return true;
          }
          return false;
        case Raised(_) =>
          return false;
      }
    }

    /** Installs the processor exactly when its `initialize` returns true; false or an exception keeps the old one. */
    method SetSttProcessor(processor: SpeechToTextProcessor) returns (ok: bool)
      modifies this`sttProcessor
      ensures ok <==> processor.initialize == Ok(true)
      ensures sttProcessor == if ok then Some(processor) else old(sttProcessor)
    {
      match processor.initialize {
        case Ok(initialized) =>
          if initialized {
            sttProcessor := Some(processor);
            return true;
          }
          return false;
        case Raised(_) =>
          return false;
      }
    }

    /** Installs the recognizer exactly when its `initialize` returns true; false or an exception keeps the old one. */
    method SetIntentRecognizer(recognizer: IntentRecognizer) returns (ok: bool)
      modifies this`intentRecognizer
      ensures ok <==> recognizer.initialize == Ok(true)
      ensures intentRecognizer == if ok then Some(recognizer) else old(intentRecognizer)
    {
      match recognizer.initialize {
        case Ok(initialized) =>
          if initialized {
            intentRecognizer := Some(recognizer);
            return true;
          }
          return false;
        case Raised(_) =>
          return false;
      }
    }

    /** Installs the generator exactly when its `initialize` returns true; false or an exception keeps the old one. */
    method SetResponseGenerator(generator: ResponseGenerator) returns (ok: bool)
      modifies this`responseGenerator
      ensures ok <==> generator.initialize == Ok(true)
      ensures responseGenerator == if ok then Some(generator) else old(responseGenerator)
    {
      match generator.initialize {
        case Ok(initialized) =>
          if initialized {
            responseGenerator := Some(generator);
            return true;
          }
          return false;
        case Raised(_) =>
          return false;
      }
    }

    /** The monitor moved from the old counters and log as the try-block result `t` says. */
    ghost predicate Effects(t: TryBlock, outcome: Outcome<Option<DialogueResponse>>,
                            metrics0: seq<PerformanceMetric>, interactions0: nat, errors0: nat)
      reads performanceMonitor
    {
      && outcome == t.outcome
      && performanceMonitor.metrics == metrics0 + t.metrics
      && Recorded(t.interaction, interactions0, errors0, performanceMonitor.interactionCount, performanceMonitor.errorCount)
    }

    /** The try block of `ProcessAudio`: returns, or ends with the exception a stage raised. */
    method TryStages(frame: AudioFrame) returns (outcome: Outcome<Option<DialogueResponse>>)
      modifies this`state, performanceMonitor`metrics
      modifies performanceMonitor`interactionCount, performanceMonitor`errorCount
      ensures Effects(Attempt(CurrentStages(), moduleManager, frame), outcome,
                      old(performanceMonitor.metrics), old(performanceMonitor.interactionCount), old(performanceMonitor.errorCount))
    {
      state := LISTENING;
      // step 1: wake-word activation, when an engine is configured
      if activationEngine.Some? {
        match activationEngine.value.detect(frame) {
          case Raised(e) =>
            return Raised(e);
          case Ok(detected) =>
            if !detected {
              return Ok(None);
            }
        }
      }
      outcome := Transcribing(frame);
    }

    /** Steps 2 to 4 of the try block. */
    method Transcribing(frame: AudioFrame) returns (outcome: Outcome<Option<DialogueResponse>>)
      modifies this`state, performanceMonitor`metrics
      modifies performanceMonitor`interactionCount, performanceMonitor`errorCount
      ensures Effects(AfterActivation(CurrentStages(), moduleManager, frame), outcome,
                      old(performanceMonitor.metrics), old(performanceMonitor.interactionCount), old(performanceMonitor.errorCount))
    {
      if sttProcessor.None? {
        state := ERROR;
        performanceMonitor.RecordInteraction(false);
        return Ok(None);
      }
      state := PROCESSING;
      var transcribed: TranscribedText;
      match sttProcessor.value.transcribe(frame.data, frame.sampleRate) {
        case Raised(e) =>
          return Raised(e);
        case Ok(t) =>
          transcribed := t;
      }
      performanceMonitor.RecordMetric("stt", "confidence", transcribed.confidence);
      outcome := Recognizing(transcribed);
    }

    /** Steps 3 and 4 of the try block. */
    method Recognizing(transcribed: TranscribedText) returns (outcome: Outcome<Option<DialogueResponse>>)
      modifies this`state, performanceMonitor`metrics
      modifies performanceMonitor`interactionCount, performanceMonitor`errorCount
      ensures Effects(AfterTranscription(CurrentStages(), moduleManager, transcribed), outcome,
                      old(performanceMonitor.metrics), old(performanceMonitor.interactionCount), old(performanceMonitor.errorCount))
    {
      if intentRecognizer.None? {
        state := ERROR;
        performanceMonitor.RecordInteraction(false);
        return Ok(None);
      }
      var intentResult: IntentResult;
      match intentRecognizer.value.recognize(transcribed.text) {
        case Raised(e) =>
          return Raised(e);
        case Ok(ir) =>
          intentResult := ir;
      }
      performanceMonitor.RecordMetric("intent_recognizer", "confidence", intentResult.confidence);
      outcome := Responding(intentResult);
    }

    /** Step 4 of the try block: the domain module first, then the generic generator. */
    method Responding(intentResult: IntentResult) returns (outcome: Outcome<Option<DialogueResponse>>)
      modifies this`state, performanceMonitor`interactionCount, performanceMonitor`errorCount
      ensures Effects(Respond(CurrentStages(), moduleManager, intentResult), outcome,
                      old(performanceMonitor.metrics), old(performanceMonitor.interactionCount), old(performanceMonitor.errorCount))
    {
      state := RESPONDING;
      var response: Option<DialogueResponse>;
      match moduleManager.ProcessWithModule(intentResult).value {
        case Raised(e) =>
          return Raised(e);
        case Ok(r) =>
          response := r;
      }
      if response.None? && responseGenerator.Some? {
        match responseGenerator.value.generate(intentResult) {
          case Raised(e) =>
            return Raised(e);
          case Ok(generated) =>
            response := Some(generated);
        }
      }
      if response.Some? {
        performanceMonitor.RecordInteraction(true);
        return Ok(response);
      }
      performanceMonitor.RecordInteraction(false);
      return Ok(None);
    }

    /**
     * Drives one frame through the pipeline.  The response, the metrics
     * appended and the change to the counters are those of `Run`; the
     * state is IDLE afterwards whatever happened.
     */
    method ProcessAudio(frame: AudioFrame) returns (response: Option<DialogueResponse>)
      modifies this`state, performanceMonitor`metrics
      modifies performanceMonitor`interactionCount, performanceMonitor`errorCount
      ensures var run := Run(CurrentStages(), moduleManager, frame);
        && response == run.response
        && performanceMonitor.metrics == old(performanceMonitor.metrics) + run.metrics
        && Recorded(run.interaction, old(performanceMonitor.interactionCount), old(performanceMonitor.errorCount),
                    performanceMonitor.interactionCount, performanceMonitor.errorCount)
      ensures old(performanceMonitor.Valid()) ==> performanceMonitor.Valid()
      ensures state == IDLE
    {
      var outcome := TryStages(frame);
      match outcome {
        case Raised(_) =>
          state := ERROR;
          performanceMonitor.RecordInteraction(false);
          response := None;
        case Ok(r) =>
          response := r;
      }
      state := IDLE;
    }

    method Start()
      modifies this`running
      ensures running
    {
      running := true;
    }

    method Stop()
      modifies this`running
      ensures !running
    {
      running := false;
    }

    function IsRunning(): bool
      reads this
    {
      running
    }

    /** The running flag, the state, the active module name and the registered module names. */
    function GetStatus(): (s: Status)
      reads this, moduleManager
      ensures s.running == running && s.state == state
      ensures s.activeModule == moduleManager.activeModule
      ensures s.registeredModules == moduleManager.modules.Keys
    {
      Status(running, state, moduleManager.GetActiveModuleName(), moduleManager.ListModules().Keys)
    }

    method GetPerformanceReport() returns (s: Summary)
      ensures s == SummaryOf(performanceMonitor.metrics, performanceMonitor.interactionCount, performanceMonitor.errorCount)
    {
      s := performanceMonitor.GetMetricsSummary();
    }

    method GetFeedbackReport() returns (f: FeedbackReport)
      ensures f.performanceData == SummaryOf(performanceMonitor.metrics, performanceMonitor.interactionCount, performanceMonitor.errorCount)
      ensures f.recommendations == Recommendations(f.performanceData)
      ensures f.totalInteractions ==
        if performanceMonitor.metrics == [] then None else Some(performanceMonitor.interactionCount)
      ensures f.errorRate ==
        if performanceMonitor.metrics == [] then None
        else Some(ErrorRate(performanceMonitor.interactionCount, performanceMonitor.errorCount))
    {
      f := performanceMonitor.GetFeedbackReport();
    }

    /**
     * Cleans up the configured stages in order, then the modules and the
     * gateway, then stops.  The first stage cleanup that raises ends it
     * there: nothing after it is cleaned up and the flags stay as they were.
     */
    method Cleanup() returns (ghost cleanedModules: set<string>)
      modifies this`running, this`state, moduleManager, apiGateway
      ensures var c := CleanupOf(StageCleanups(CurrentStages()));
        if c.completed then
          && cleanedModules == old(moduleManager.modules).Keys
          && moduleManager.modules == map[] && moduleManager.activeModule == None
          && apiGateway.routes == map[] && apiGateway.externalSystems == map[]
          && !running && state == IDLE
        else
          && cleanedModules == {}
          && unchanged(moduleManager, apiGateway)
          && running == old(running) && state == old(state)
    {
      CleanupCompletes(CurrentStages());
      cleanedModules := {};
      if activationEngine.Some? {
        match activationEngine.value.cleanup {
          case Raised(_) =>
            assert !CleanupsReturn(CurrentStages());
            return;
          case Ok(_) =>
        }
      }
      if sttProcessor.Some? {
        match sttProcessor.value.cleanup {
          case Raised(_) =>
            assert !CleanupsReturn(CurrentStages());
            return;
          case Ok(_) =>
        }
      }
      if intentRecognizer.Some? {
        match intentRecognizer.value.cleanup {
          case Raised(_) =>
            assert !CleanupsReturn(CurrentStages());
            return;
          case Ok(_) =>
        }
      }
      if responseGenerator.Some? {
        match responseGenerator.value.cleanup {
          case Raised(_) =>
            assert !CleanupsReturn(CurrentStages());
            return;
          case Ok(_) =>
        }
      }
      assert CleanupsReturn(CurrentStages());
      cleanedModules := moduleManager.CleanupAll();
      apiGateway.Cleanup();
      running := false;
      state := IDLE;
    }
  }
}
