/**
 * The LLM manager: a map from domain to response generator plus an
 * optional default, and the selection rule that picks exactly one of
 * them for a request.  Exceptions raised by a generator's `initialize`
 * are not caught here, so registration returns an outcome.
 */
module LlmManagement {
  import opened DataModels
  import opened Interfaces

  const NoSuitableGenerator := Exception("ValueError", "No suitable generator found")

  /** A `domain` argument is truthy when it is given and not the empty string. */
  predicate Truthy(domain: Option<string>) {
    domain.Some? && domain.value != ""
  }

  class LLMManager {
    var generators: map<string, ResponseGenerator>
    var defaultGenerator: Option<ResponseGenerator>

    constructor ()
      ensures generators == map[] && defaultGenerator == None
    {
      generators := map[];
      defaultGenerator := None;
    }

    /**
     * Stores the generator under `domain`, replacing any earlier one,
     * exactly when its `initialize` returns true; the answer is what
     * `initialize` returned, or the exception it raised.
     */
    method RegisterGenerator(domain: string, generator: ResponseGenerator) returns (r: Outcome<bool>)
      modifies this`generators
      ensures r == generator.initialize
      ensures generators == if r == Ok(true) then old(generators)[domain := generator] else old(generators)
    {
      match generator.initialize {
        case Raised(e) =>
          return Raised(e);
        case Ok(initialized) =>
          if initialized {
            generators := generators[domain := generator];
            return Ok(true);
          } else {
            return Ok(false);
          }
      }
    }

    /**
     * Makes the generator the default exactly when its `initialize`
     * returns true; otherwise the previous default stays.  An exception
     * from `initialize` propagates.
     */
    method SetDefaultGenerator(generator: ResponseGenerator) returns (r: Outcome<()>)
      modifies this`defaultGenerator
      ensures r == if generator.initialize.Raised? then Raised(generator.initialize.error) else Ok(())
      ensures defaultGenerator == if generator.initialize == Ok(true) then Some(generator) else old(defaultGenerator)
    {
      match generator.initialize {
        case Raised(e) =>
          return Raised(e);
        case Ok(initialized) =>
          if initialized {
            defaultGenerator := Some(generator);
          }
          return Ok(());
      }
    }

    /**
     * The generator a request is served by: the domain's own when the
     * domain is truthy and registered, else the default, else a
     * `ValueError`.
     */
    function SelectGenerator(domain: Option<string>): (r: Outcome<ResponseGenerator>)
      reads this
      ensures Truthy(domain) && domain.value in generators ==> r == Ok(generators[domain.value])
      ensures !(Truthy(domain) && domain.value in generators) && defaultGenerator.Some? ==> r == Ok(defaultGenerator.value)
      ensures r.Raised? <==> !(Truthy(domain) && domain.value in generators) && defaultGenerator.None?
      ensures r.Raised? ==> r.error == NoSuitableGenerator
    {
      if Truthy(domain) && domain.value in generators then
        Ok(generators[domain.value])
      else if defaultGenerator.Some? then
        Ok(defaultGenerator.value)
      else
        Raised(NoSuitableGenerator)
    }

    /**
     * Serves a request with the selected generator: exactly one
     * `generate` call, whose outcome is returned unchanged.
     */
    function GenerateResponse(intentResult: IntentResult, domain: Option<string>): (r: Traced<Outcome<DialogueResponse>>)
      reads this
      ensures Truthy(domain) && domain.value in generators ==>
        r == Traced(generators[domain.value].generate(intentResult), [Generate])
      ensures !(Truthy(domain) && domain.value in generators) && defaultGenerator.Some? ==>
        r == Traced(defaultGenerator.value.generate(intentResult), [Generate])
      ensures !(Truthy(domain) && domain.value in generators) && defaultGenerator.None? ==>
        r == Traced(Raised(NoSuitableGenerator), [])
    {
      match SelectGenerator(domain)
      case Raised(e) => Traced(Raised(e), [])
      case Ok(generator) => Traced(generator.generate(intentResult), [Generate])
    }
  }
}
