/**
 * Concrete sessions against the model: the registry, the monitor, the
 * feedback policy and the pipeline driven with small hand-made stages.
 */
module Scenarios {
  import opened DataModels
  import opened Interfaces
  import opened ModuleManagement
  import opened PerformanceMonitoring
  import opened CoreEngine
  import opened ApiGateway
  import opened LlmManagement

  function Module(name: string, intents: seq<string>): DomainModule {
    DomainModule(
      Ok(true),
      (ir: IntentResult) => Ok(DialogueResponse(ir.rawText, name)),
      (intent: string) => Ok(intent in intents),
      name,
      intents,
      Ok(()))
  }

  /** A second registration under a name replaces the first; switching to an unknown name keeps the active one. */
  method RegistryScenario() {
    var mm := new ModuleManager();
    var first := mm.RegisterModule("hotel", Module("hotel-v1", ["book_room"]));
    var second := mm.RegisterModule("hotel", Module("hotel-v2", ["book_room", "check_out"]));
    assert first && second;
    assert mm.ListModules() == map["hotel" := "hotel-v2"];
    var switched := mm.SwitchModule("hotel");
    assert switched && mm.activeModule == Some("hotel");
    var unknown := mm.SwitchModule("hospital");
    assert !unknown && mm.activeModule == Some("hotel");
    assert mm.GetModuleIntents("hospital") == None;
  }

  /** A module whose `initialize` declines is not registered; cleaning twice finds nothing the second time. */
  method RegistryCleanupScenario() {
    var mm := new ModuleManager();
    var registered := mm.RegisterModule("hotel", Module("hotel", ["book_room"]));
    var switched := mm.SwitchModule("hotel");
    assert registered && switched;
    var refused := mm.RegisterModule("spa", DomainModule(Ok(false), _ => Ok(DialogueResponse("", "")), _ => Ok(true), "spa", [], Ok(())));
    assert !refused && !mm.HasModule("spa");
    ghost var cleaned := mm.CleanupAll();
    assert cleaned == {"hotel"} && mm.modules == map[] && mm.activeModule == None;
    cleaned := mm.CleanupAll();
    assert cleaned == {} && mm.modules == map[] && mm.activeModule == None;
  }

  /** Two values under one key: count 2, average 2.0, minimum 1.0, maximum 3.0, total 4.0. */
  lemma TwoValuesUnderOneKey()
    ensures var s := SummaryOf([PerformanceMetric("a", "x", 1.0), PerformanceMetric("a", "x", 3.0)], 0, 0);
      s.Report? && s.statistics == map["a.x" := Stats(2, 2.0, 1.0, 3.0, 4.0)] && s.errorRate == 0.0
  {
    var ms := [PerformanceMetric("a", "x", 1.0), PerformanceMetric("a", "x", 3.0)];
    assert ms[..1] == [ms[0]] && ms[..1][..0] == [];
    assert Key(ms[0]) == "a.x" && Key(ms[1]) == "a.x";
    assert KeysOf(ms) == {"a.x"};
    assert ValuesFor(ms, "a.x") == [1.0, 3.0];
    assert Grouped(ms) == map["a.x" := [1.0, 3.0]];
    var vs := [1.0, 3.0];
    assert vs[1..] == [3.0] && vs[1..][1..] == [];
    assert Sum(vs) == 4.0 && Min(vs) == 1.0 && Max(vs) == 3.0;
    assert StatsOf(vs) == Stats(2, 2.0, 1.0, 3.0, 4.0);
  }

  /** An error rate of 0.2 is flagged. */
  lemma HighErrorRateFlagged()
    ensures HighErrorRate in Recommendations(SummaryOf([PerformanceMetric("a", "x", 1.0)], 10, 2))
  {
  }

  /** No errors and no confidence metrics: exactly the "performing well" message. */
  lemma QuietSessionPerformsWell()
    ensures Recommendations(SummaryOf([PerformanceMetric("a", "x", 1.0)], 10, 0)) == [PerformingWell]
  {
    var ms := [PerformanceMetric("a", "x", 1.0)];
    assert Key(ms[0]) == "a.x";
    QuietSessionAdvice(ms, 10, 0);
  }

  /** The monitor of a session: record, summarize, reset. */
  method MonitorScenario() {
    var monitor := new PerformanceMonitor();
    monitor.RecordMetric("a", "x", 1.0);
    monitor.RecordMetric("a", "x", 3.0);
    monitor.RecordInteraction(true);
    monitor.RecordInteraction(false);
    assert monitor.Valid() && monitor.interactionCount == 2 && monitor.errorCount == 1;
    var summary := monitor.GetMetricsSummary();
    TwoValuesUnderOneKey();
    SummaryStatistics(monitor.metrics, 2, 1, "a.x");
    assert summary.statistics["a.x"].count == 2;
    assert summary.errorRate == 0.5;
    monitor.ResetSession();
    var empty := monitor.GetMetricsSummary();
    assert empty == NoMetrics(0, 0);
  }

  const Frame := AudioFrame([1, 2, 3], 16000)

  /** Without a speech-to-text stage a run answers nothing, ends IDLE and counts one failed interaction. */
  method NoSttScenario() {
    var core := new ReceptionistCore();
    var response := core.ProcessAudio(Frame);
    assert response == None;
    assert core.state == IDLE;
    assert core.performanceMonitor.interactionCount == 1 && core.performanceMonitor.errorCount == 1;
    assert core.performanceMonitor.metrics == [];
  }

  /** A frame without the wake word is dropped without counting anything. */
  method WakeWordScenario() {
    var core := new ReceptionistCore();
    var installed := core.SetActivationEngine(ActivationEngine(Ok(true), _ => Ok(false), Ok(())));
    assert installed;
    var response := core.ProcessAudio(Frame);
    assert Filtered(core.CurrentStages(), Frame);
    assert response == None && core.state == IDLE;
    assert core.performanceMonitor.interactionCount == 0 && core.performanceMonitor.errorCount == 0;
    var refused := core.SetActivationEngine(ActivationEngine(Raised(Exception("RuntimeError", "no microphone")), _ => Ok(true), Ok(())));
    assert !refused && core.activationEngine.Some?;
  }

  /** A transcriber that raises: no response, one failed interaction, no metric, and the state back to IDLE. */
  method RaisingSttScenario() {
    var core := new ReceptionistCore();
    var installed := core.SetSttProcessor(SpeechToTextProcessor(Ok(true), (d, r) => Raised(Exception("IOError", "device lost")), Ok(())));
    assert installed;
    StageFailures(core.CurrentStages(), core.moduleManager, Frame);
    var response := core.ProcessAudio(Frame);
    assert response == None && core.state == IDLE;
    assert core.performanceMonitor.interactionCount == 1 && core.performanceMonitor.errorCount == 1;
    assert core.performanceMonitor.metrics == [];
  }

  const Booking := IntentResult("book a room", "book_room", 0.9, [])

  /** Every stage configured: the active hotel module answers although a fallback generator is set. */
  method DomainScenario() {
    var core := new ReceptionistCore();
    var okStt := core.SetSttProcessor(SpeechToTextProcessor(Ok(true), (d, r) => Ok(TranscribedText("book a room", 0.95)), Ok(())));
    var okNlu := core.SetIntentRecognizer(IntentRecognizer(Ok(true), _ => Ok(Booking), Ok(())));
    var okGen := core.SetResponseGenerator(ResponseGenerator(Ok(true), _ => Ok(DialogueResponse("generic", "generic")), Ok(())));
    var registered := core.moduleManager.RegisterModule("hotel", Module("hotel", ["book_room"]));
    var switched := core.moduleManager.SwitchModule("hotel");
    assert okStt && okNlu && okGen && registered && switched;
    assert RecognizedIntent(core.CurrentStages(), Frame) == Some(Booking);
    var answer := DialogueResponse("book a room", "hotel");
    assert core.moduleManager.Claims(Booking);
    assert core.moduleManager.ProcessWithModule(Booking).value == Ok(Some(answer));
    DomainResponseWins(core.CurrentStages(), core.moduleManager, Frame, Booking, answer);
    RunReachingDispatch(core.CurrentStages(), core.moduleManager, Frame, Booking);
    var response := core.ProcessAudio(Frame);
    assert response == Some(answer);
    assert core.performanceMonitor.interactionCount == 1 && core.performanceMonitor.errorCount == 0;
    assert |core.performanceMonitor.metrics| == 2;
  }

  /** The active module declines the intent, so the fallback generator answers. */
  method FallbackScenario() {
    var core := new ReceptionistCore();
    var okStt := core.SetSttProcessor(SpeechToTextProcessor(Ok(true), (d, r) => Ok(TranscribedText("book a room", 0.95)), Ok(())));
    var okNlu := core.SetIntentRecognizer(IntentRecognizer(Ok(true), _ => Ok(Booking), Ok(())));
    var generic := DialogueResponse("How can I help?", "generic");
    var okGen := core.SetResponseGenerator(ResponseGenerator(Ok(true), _ => Ok(generic), Ok(())));
    var registered := core.moduleManager.RegisterModule("hospital", Module("hospital", ["schedule_appointment"]));
    var switched := core.moduleManager.SwitchModule("hospital");
    assert okStt && okNlu && okGen && registered && switched;
    assert RecognizedIntent(core.CurrentStages(), Frame) == Some(Booking);
    assert core.moduleManager.ProcessWithModule(Booking).value == Ok(None);
    FallbackGenerator(core.CurrentStages(), core.moduleManager, Frame, Booking);
    var response := core.ProcessAudio(Frame);
    assert response == Some(generic);
    assert core.performanceMonitor.interactionCount == 1 && core.performanceMonitor.errorCount == 0;
  }

  /** The active module raises in `supports_intent`: the run fails although a fallback generator is set. */
  method RaisingModuleScenario() {
    var core := new ReceptionistCore();
    var okStt := core.SetSttProcessor(SpeechToTextProcessor(Ok(true), (d, r) => Ok(TranscribedText("book a room", 0.95)), Ok(())));
    var okNlu := core.SetIntentRecognizer(IntentRecognizer(Ok(true), _ => Ok(Booking), Ok(())));
    var okGen := core.SetResponseGenerator(ResponseGenerator(Ok(true), _ => Ok(DialogueResponse("generic", "generic")), Ok(())));
    var broken := DomainModule(Ok(true), _ => Ok(DialogueResponse("", "")), _ => Raised(Exception("KeyError", "intent")), "hotel", [], Ok(()));
    var registered := core.moduleManager.RegisterModule("hotel", broken);
    var switched := core.moduleManager.SwitchModule("hotel");
    assert okStt && okNlu && okGen && registered && switched;
    assert RecognizedIntent(core.CurrentStages(), Frame) == Some(Booking);
    DispatchRaises(core.CurrentStages(), core.moduleManager, Frame, Booking);
    var response := core.ProcessAudio(Frame);
    assert response == None;
    assert core.performanceMonitor.interactionCount == 1 && core.performanceMonitor.errorCount == 1;
  }

  /** A cleanup that a raising stage cuts short leaves the core running. */
  method CleanupScenario() {
    var core := new ReceptionistCore();
    core.Start();
    var installed := core.SetSttProcessor(SpeechToTextProcessor(Ok(true), (d, r) => Ok(TranscribedText("", 1.0)), Raised(Exception("IOError", "busy"))));
    assert installed;
    CleanupCompletes(core.CurrentStages());
    ghost var cleaned := core.Cleanup();
    assert core.running;
  }

  /** A missing route and a failing connector both come back as error envelopes. */
  method GatewayScenario() {
    var gateway := new APIGateway();
    var missing := gateway.HandleRoute("/book", map[]);
    assert missing == Dispatched(ErrorEnvelope(RouteNotFound("/book")), false);
    gateway.RegisterRoute("/book", RouteHandler("book", _ => Ok(Str("booked"))));
    assert gateway.HandleRoute("/book", map[]).value == Str("booked");
    gateway.RegisterExternalSystem("hotel_management", SystemHandler("pms", (action, data) => Raised(Exception("ConnectionError", "down"))));
    var call := gateway.CallExternalSystem("hotel_management", "book_room", map[]);
    assert call.value.status == "error" && call.value.data == ErrorEnvelope("down");
    gateway.Cleanup();
    assert gateway.ListRoutes() == map[] && gateway.ListExternalSystems() == map[];
  }

  /** Domain generator first, then the default; nothing configured is a `ValueError`. */
  method GeneratorScenario() {
    var manager := new LLMManager();
    assert manager.GenerateResponse(Booking, None).value == Raised(NoSuitableGenerator);
    var hotelReply := DialogueResponse("Your room is booked.", "hotel");
    var defaultReply := DialogueResponse("How can I help?", "default");
    var registered := manager.RegisterGenerator("hotel", ResponseGenerator(Ok(true), _ => Ok(hotelReply), Ok(())));
    var defaulted := manager.SetDefaultGenerator(ResponseGenerator(Ok(true), _ => Ok(defaultReply), Ok(())));
    assert registered == Ok(true) && defaulted == Ok(());
    assert manager.GenerateResponse(Booking, Some("hotel")).value == Ok(hotelReply);
    assert manager.GenerateResponse(Booking, Some("")).value == Ok(defaultReply);
    assert manager.GenerateResponse(Booking, Some("spa")).value == Ok(defaultReply);
    assert manager.GenerateResponse(Booking, None).value == Ok(defaultReply);
  }
}
