/**
 * The agent orchestrator: a fixed registry of agent types, a lazily filled
 * cache holding one agent instance per type, and a query entry point that
 * never raises.
 *
 * The agent classes the registry names are abstract here: constructing one
 * either succeeds or raises (a Construction value given with each call), and
 * an agent's `query` is an oracle. The structured log records are kept as a
 * trace of LogEvent values.
 */
module Orchestration {
  import opened Wrappers
  import opened Text

  /** The registered agent types. */
  const Registry: set<string> := {"search", "analyze", "generate"}

  /** The type used when the caller names none. */
  const DefaultAgentType := "search"

  /** Number of leading query characters copied into a log record. */
  const QuerySampleLength: nat := 200

  const UnsupportedPrefix := "Type d'agent non supporté: "

  /** The one answer given to the user whenever processing fails. */
  const ApologyMessage :=
    "Désolé, une erreur s'est produite lors du traitement de votre requête. "
    + "Notre équipe technique a été notifiée."

  /** Whether constructing an agent of the requested class succeeds. */
  datatype Construction = Constructed | ConstructionFailed(error: string)

  /** The structured records the orchestrator writes. */
  datatype LogEvent =
    | RequestReceived(agentType: string, queryLength: nat, querySample: string)
    | UnsupportedType(agentType: string)
    | InstanceCreated(agentType: string)
    | ProcessingError(error: string, agentType: string, querySample: string)

  /** The part of a query that is logged: its first QuerySampleLength characters. */
  function QuerySample(query: string): (sample: string)
    ensures |sample| == Min(|query|, QuerySampleLength)
    ensures sample == query[..|sample|]
    ensures |query| <= QuerySampleLength ==> sample == query
  {
    Take(query, QuerySampleLength)
  }

  /** The record of an incoming request: its type, its length and its sample. */
  function RequestEvent(agentType: string, query: string): (e: LogEvent)
    ensures e.RequestReceived? && e.agentType == agentType
    ensures e.queryLength == |query|
    ensures |e.querySample| == Min(|query|, QuerySampleLength) && e.querySample == query[..|e.querySample|]
  {
    RequestReceived(agentType, |query|, QuerySample(query))
  }

  /** The message of the ValueError raised for an unknown type; it ends with that type. */
  function UnsupportedMessage(agentType: string): (m: string)
    ensures |m| == |UnsupportedPrefix| + |agentType|
    ensures m[..|UnsupportedPrefix|] == UnsupportedPrefix && m[|UnsupportedPrefix|..] == agentType
  {
    UnsupportedPrefix + agentType
  }

  /** What the user receives from an agent's outcome: its answer, or the apology. */
  function AnswerOrApology(outcome: Outcome<string>): (r: string)
    ensures outcome.Returned? ==> r == outcome.value
    ensures outcome.Raised? ==> r == ApologyMessage
  {
    match outcome
    case Returned(text) => text
    case Raised(_) => ApologyMessage
  }

  /** The records written once the agent has run: the error record when it raised. */
  function AnswerEvents(outcome: Outcome<string>, agentType: string, query: string): (es: seq<LogEvent>)
    ensures outcome.Returned? ==> es == []
    ensures outcome.Raised? ==> es == [ProcessingError(outcome.error, agentType, QuerySample(query))]
  {
    match outcome
    case Returned(_) => []
    case Raised(error) => [ProcessingError(error, agentType, QuerySample(query))]
  }

  /** An agent instance; `kind` is the registry key it was created for. */
  class AgentInstance {
    const kind: string

    constructor (kind: string)
      ensures this.kind == kind
    {
      this.kind := kind;
    }
  }

  class Orchestrator {
    /** The instance cache, keyed by agent type. */
    var instances: map<string, AgentInstance>
    /** The structured log records written so far, oldest first. */
    var events: seq<LogEvent>

    /** Only registered types are cached, each under its own key. */
    predicate Valid()
      reads this
    {
      instances.Keys <= Registry
      && forall t :: t in instances ==> instances[t].kind == t
    }

    constructor ()
      ensures Valid()
      ensures instances == map[] && events == []
    {
      instances := map[];
      events := [];
    }

    /**
     * The instance for `agentType`. An unknown type raises and changes no
     * instance; a cached type gives its cached instance and constructs
     * nothing; otherwise one instance is constructed and cached, unless its
     * construction raises. Entries for other types never change.
     */
    method GetAgent(agentType: string, construction: Construction) returns (r: Outcome<AgentInstance>)
      requires Valid()
      modifies this
      ensures Valid()
      ensures forall t :: t in old(instances) ==> t in instances && instances[t] == old(instances)[t]
      ensures agentType !in Registry ==>
        r == Raised(UnsupportedMessage(agentType))
        && instances == old(instances) && events == old(events) + [UnsupportedType(agentType)]
      ensures agentType in old(instances) ==>
        r == Returned(old(instances)[agentType])
        && instances == old(instances) && events == old(events)
      ensures agentType in Registry && agentType !in old(instances) && construction.ConstructionFailed? ==>
        r == Raised(construction.error)
        && instances == old(instances) && events == old(events)
      ensures agentType in Registry && agentType !in old(instances) && construction.Constructed? ==>
        r.Returned? && fresh(r.value) && r.value.kind == agentType
        && instances == old(instances)[agentType := r.value]
        && events == old(events) + [InstanceCreated(agentType)]
      ensures r.Returned? ==> agentType in instances && r.value == instances[agentType]
    {
      if agentType !in Registry {
        events := events + [UnsupportedType(agentType)];
        return Raised(UnsupportedMessage(agentType));
      }
      if agentType !in instances {
        match construction {
          case ConstructionFailed(error) =>
            return Raised(error);
          case Constructed =>
            var agent := new AgentInstance(agentType);
            instances := instances[agentType := agent];
            events := events + [InstanceCreated(agentType)];
        }
      }
      r := Returned(instances[agentType]);
    }

    /** Logs the failure and gives the apology. */
    method HandleError(error: string, agentType: string, query: string) returns (response: string)
      modifies this
      ensures response == ApologyMessage
      ensures instances == old(instances)
      ensures events == old(events) + [ProcessingError(error, agentType, QuerySample(query))]
    {
      events := events + [ProcessingError(error, agentType, QuerySample(query))];
      response := ApologyMessage;
    }

    /**
     * Logs the request, then asks the agent of `agentType` to answer `query`.
     * The agent's answer is returned unchanged; an unknown type, a failed
     * construction or a failing agent gives ApologyMessage, with the failure
     * logged. It never raises.
     */
    method ProcessQuery(query: string, construction: Construction,
                        answer: (AgentInstance, string) -> Outcome<string>,
                        agentType: string := DefaultAgentType) returns (response: string)
      requires Valid()
      modifies this
      ensures Valid()
      ensures forall t :: t in old(instances) ==> t in instances && instances[t] == old(instances)[t]
      ensures |events| > |old(events)| && events[..|old(events)| + 1] == old(events) + [RequestEvent(agentType, query)]
      ensures agentType !in Registry ==>
        response == ApologyMessage && instances == old(instances)
        && events == old(events) + [RequestEvent(agentType, query), UnsupportedType(agentType),
                                    ProcessingError(UnsupportedMessage(agentType), agentType, QuerySample(query))]
      ensures agentType in Registry && agentType !in old(instances) && construction.ConstructionFailed? ==>
        response == ApologyMessage && instances == old(instances)
        && events == old(events) + [RequestEvent(agentType, query),
                                    ProcessingError(construction.error, agentType, QuerySample(query))]
      ensures agentType in old(instances) ==>
        instances == old(instances)
        && response == AnswerOrApology(answer(old(instances)[agentType], query))
        && events == old(events) + [RequestEvent(agentType, query)]
                     + AnswerEvents(answer(old(instances)[agentType], query), agentType, query)
      ensures agentType in Registry && agentType !in old(instances) && construction.Constructed? ==>
        agentType in instances && fresh(instances[agentType]) && instances[agentType].kind == agentType
        && instances == old(instances)[agentType := instances[agentType]]
        && response == AnswerOrApology(answer(instances[agentType], query))
        && events == old(events) + [RequestEvent(agentType, query), InstanceCreated(agentType)]
                     + AnswerEvents(answer(instances[agentType], query), agentType, query)
    {
      events := events + [RequestEvent(agentType, query)];
      var agent := GetAgent(agentType, construction);
      match agent {
        case Raised(error) =>
          response := HandleError(error, agentType, query);
        case Returned(a) =>
          match answer(a, query) {
            case Returned(text) =>
              response := text;
            case Raised(error) =>
              response := HandleError(error, agentType, query);
          }
      }
    }
  }
}
