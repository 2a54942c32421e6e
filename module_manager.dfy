/**
 * The domain-module registry: a map from domain name to module, a single
 * optional active name, and a dispatch gate that hands an intent to the
 * active module only when that module claims it.
 */
module ModuleManagement {
  import opened DataModels
  import opened Interfaces

  /** True when some call of the trace is a call to a module's `handle`. */
  predicate CallsHandle(calls: seq<StageCall>) {
    exists i :: 0 <= i < |calls| && calls[i].Handle?
  }

  class ModuleManager {
    var modules: map<string, DomainModule>
    var activeModule: Option<string>

    constructor ()
      ensures modules == map[] && activeModule == None
    {
      modules := map[];
      activeModule := None;
    }

    /**
     * Initializes the module and, only when that returns true, stores it
     * under `domainName`, replacing any module registered there before.
     * An `initialize` that returns false or raises leaves the registry
     * as it was.
     */
    method RegisterModule(domainName: string, domainModule: DomainModule) returns (ok: bool)
      modifies this`modules
      ensures ok <==> domainModule.initialize == Ok(true)
      ensures modules == if ok then old(modules)[domainName := domainModule] else old(modules)
    {
      match domainModule.initialize {
        case Ok(initialized) =>
          if initialized {
            modules := modules[domainName := domainModule];
            ok := true;
          } else {
            ok := false;
          }
        case Raised(_) =>
          ok := false;
      }
    }

    /**
     * Makes `domainName` the active module if it is registered.  Only the
     * routing changes: no module is initialized or cleaned up.
     */
    method SwitchModule(domainName: string) returns (ok: bool)
      modifies this`activeModule
      ensures ok <==> domainName in modules
      ensures activeModule == if ok then Some(domainName) else old(activeModule)
    {
      if domainName !in modules {
        return false;
      }
      activeModule := Some(domainName);
      ok := true;
    }

    /**
     * The active module.  An active name that is the empty string is
     * falsy, so it never selects a module even when it is registered.
     */
    function GetActiveModule(): (r: Option<DomainModule>)
      reads this
      ensures r.Some? <==> activeModule.Some? && activeModule.value != "" && activeModule.value in modules
      ensures r.Some? ==> r.value == modules[activeModule.value]
    {
      match activeModule
      case Some(name) => if name != "" && name in modules then Some(modules[name]) else None
      case None => None
    }

    function GetActiveModuleName(): Option<string>
      reads this
    {
      activeModule
    }

    /** True when the active module exists and `supports_intent` says yes. */
    predicate Claims(intentResult: IntentResult)
      reads this
    {
      GetActiveModule().Some? && GetActiveModule().value.supportsIntent(intentResult.intent) == Ok(true)
    }

    /**
     * Dispatch: the active module's `handle` answers exactly when the
     * module exists and claims the intent; otherwise nothing answers and
     * `handle` is not called.  An exception from `supports_intent` or
     * `handle` propagates to the caller.
     */
    function ProcessWithModule(intentResult: IntentResult): (r: Traced<Outcome<Option<DialogueResponse>>>)
      reads this
      ensures CallsHandle(r.calls) <==> Claims(intentResult)
      ensures Claims(intentResult) ==>
        r.value == match GetActiveModule().value.handle(intentResult)
                   case Ok(response) => Ok(Some(response))
                   case Raised(e) => Raised(e)
      ensures GetActiveModule().None? ==> r == Traced(Ok(None), [])
      ensures GetActiveModule().Some? && GetActiveModule().value.supportsIntent(intentResult.intent) == Ok(false) ==>
        r == Traced(Ok(None), [SupportsIntent(activeModule.value)])
      ensures r.value.Ok? && r.value.value.Some? ==> Claims(intentResult)
      ensures GetActiveModule().Some? && GetActiveModule().value.supportsIntent(intentResult.intent).Raised? ==>
        r == Traced(Raised(GetActiveModule().value.supportsIntent(intentResult.intent).error), [SupportsIntent(activeModule.value)])
    {
      match GetActiveModule()
      case None => Traced(Ok(None), [])
      case Some(m) =>
        var name := activeModule.value;
        match m.supportsIntent(intentResult.intent)
        case Raised(e) => Traced(Raised(e), [SupportsIntent(name)])
        case Ok(supported) =>
          if !supported then
            Traced(Ok(None), [SupportsIntent(name)])
          else
            var calls := [SupportsIntent(name), Handle(name)];
            assert calls[1].Handle?;
            match m.handle(intentResult)
            case Ok(response) => Traced(Ok(Some(response)), calls)
            case Raised(e) => Traced(Raised(e), calls)
    }

    /** Each registered name with its module's `get_domain_name()`. */
    function ListModules(): (r: map<string, string>)
      reads this
      ensures r.Keys == modules.Keys
      ensures forall name :: name in r ==> r[name] == modules[name].domainName
    {
      map name | name in modules :: modules[name].domainName
    }

    /** The supported intents of one module; nothing for an unknown name. */
    function GetModuleIntents(domainName: string): (r: Option<seq<string>>)
      reads this
      ensures r.Some? <==> domainName in modules
      ensures r.Some? ==> r.value == modules[domainName].supportedIntents
    {
      if domainName in modules then Some(modules[domainName].supportedIntents) else None
    }

    function HasModule(domainName: string): (r: bool)
      reads this
      ensures r <==> GetModuleIntents(domainName).Some?
    {
      domainName in modules
    }

    /** Each registered name with its module's supported intents. */
    function GetAllSupportedIntents(): (r: map<string, seq<string>>)
      reads this
      ensures r.Keys == modules.Keys
      ensures forall name :: name in r ==> Some(r[name]) == GetModuleIntents(name)
    {
      map name | name in modules :: modules[name].supportedIntents
    }

    /**
     * Calls `cleanup` on every registered module, going on past any that
     * raises, then empties the registry and clears the active name.
     * `cleaned` is the set of names whose `cleanup` was called.
     */
    method CleanupAll() returns (ghost cleaned: set<string>)
      modifies this`modules, this`activeModule
      ensures cleaned == old(modules).Keys
      ensures modules == map[] && activeModule == None
    {
      var pending := modules.Keys;
      cleaned := {};
      while pending != {}
        invariant pending + cleaned == modules.Keys
        invariant pending !! cleaned
        decreases pending
      {
        var name :| name in pending;
        // an exception from one module's cleanup is caught and logged
        match modules[name].cleanup {
          case Ok(_) =>
          case Raised(_) =>
        }
        cleaned := cleaned + {name};
        pending := pending - {name};
      }
      modules := map[];
      activeModule := None;
    }
  }
}
