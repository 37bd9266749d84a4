/** The orchestrator: asks its model which of four intents a query has, hands the query
    to the agent for that intent, and turns the agent's results into one final answer. */
module Orchestrator {
  import opened Wrappers
  import opened Text
  import opened BaseAgent
  import MedicalSearch
  import MemoryStore
  import DiseaseInfo
  import Ehr
  import Appointment

  // ---------------------------------------------------------------- intent

  /** The four categories `_classify_intent` accepts. */
  datatype Intent = DiseaseInfoQuery | PatientDataQuery | AppointmentQuery | GeneralQuery
  {
    /** The category's name, as the model is asked to write it. */
    function Name(): string
    {
      match this
      case DiseaseInfoQuery => "disease_info"
      case PatientDataQuery => "patient_data"
      case AppointmentQuery => "appointment"
      case GeneralQuery => "general"
    }
  }

  /** The names `_classify_intent` accepts. */
  const ValidIntents: seq<string> := ["disease_info", "patient_data", "appointment", "general"]

  /** Every category has its own name, and the names are the accepted ones. */
  lemma NamesValid(i: Intent, j: Intent)
    ensures i.Name() in ValidIntents
    ensures i.Name() == j.Name() ==> i == j
  {
  }

  /** The category a name denotes. */
  function Named(t: string): Option<Intent>
  {
    if t == "disease_info" then Some(DiseaseInfoQuery)
    else if t == "patient_data" then Some(PatientDataQuery)
    else if t == "appointment" then Some(AppointmentQuery)
    else if t == "general" then Some(GeneralQuery)
    else None
  }

  /** Exactly the accepted names denote a category, each the one of that name. */
  lemma NamedValid(t: string)
    ensures Named(t).Some? <==> t in ValidIntents
    ensures Named(t).Some? ==> Named(t).value.Name() == t
  {
  }

  /** `_classify_intent`: the model's reply stripped and lower-cased, kept when it names
      a category and replaced by `general` otherwise. */
  function IntentOf(reply: string): Intent
  {
    Named(Lower(Strip(reply))).GetOr(GeneralQuery)
  }

  /** A classification is the category the cleaned reply names, or `general` when it
      names none. */
  lemma IntentOfNames(reply: string)
    ensures Lower(Strip(reply)) in ValidIntents <==> IntentOf(reply).Name() == Lower(Strip(reply))
    ensures Lower(Strip(reply)) !in ValidIntents ==> IntentOf(reply) == GeneralQuery
  {
    NamedValid(Lower(Strip(reply)));
  }

  /** Stripping skips white space in front of a text that starts with no space. */
  lemma {:induction false} StripSkipsFront(p: string, t: string)
    requires AllSpace(p) && t != [] && !IsSpace(t[0])
    ensures Strip(p + t) == Strip(t)
    decreases |p|
  {
    if p == [] {
      assert p + t == t;
    } else {
      assert (p + t)[0] == p[0] && (p + t)[1..] == p[1..] + t;
      StripSkipsFront(p[1..], t);
    }
  }

  /** Stripping a trimmed text followed by white space gives back the text. */
  lemma {:induction false} StripSkipsBack(v: string, q: string)
    requires AllSpace(q) && v != [] && Trimmed(v)
    ensures Strip(v + q) == v
    decreases |q|
  {
    if q == [] {
      assert v + q == v;
    } else {
      var s := v + q;
      assert s[0] == v[0] && s[|s| - 1] == q[|q| - 1];
      assert s[..|s| - 1] == v + q[..|q| - 1];
      StripSkipsBack(v, q[..|q| - 1]);
    }
  }

  /** Stripping a text padded with whitespace on both sides gives back the text. */
  lemma StripPadded(p: string, v: string, q: string)
    requires AllSpace(p) && AllSpace(q) && v != [] && Trimmed(v)
    ensures Strip(p + v + q) == v
  {
    assert p + v + q == p + (v + q);
    StripSkipsFront(p, v + q);
    StripSkipsBack(v, q);
  }

  /** Lower-casing a text without capitals changes nothing. */
  lemma LowerOfLowercase(s: string)
    requires forall k :: 0 <= k < |s| ==> !('A' <= s[k] <= 'Z')
    ensures Lower(s) == s
  {
  }

  /** Each category's name, with any whitespace around it, is recognised as the category. */
  lemma IntentOfPadded(p: string, i: Intent, q: string)
    requires AllSpace(p) && AllSpace(q)
    ensures IntentOf(p + i.Name() + q) == i
  {
    StripPadded(p, i.Name(), q);
    LowerOfLowercase(i.Name());
  }

  /** Classifying the name of a classification changes nothing. */
  lemma IntentOfIdempotent(reply: string)
    ensures IntentOf(IntentOf(reply).Name()) == IntentOf(reply)
  {
    IntentOfPadded([], IntentOf(reply), []);
    assert [] + IntentOf(reply).Name() + [] == IntentOf(reply).Name();
  }

  /** Capitals in the reply and whitespace around it do not matter. */
  lemma IntentOfIgnoresCase(p: string, reply: string, q: string)
    requires AllSpace(p) && AllSpace(q) && Trimmed(reply) && Lower(reply) in ValidIntents
    ensures IntentOf(p + reply + q).Name() == Lower(reply)
  {
    StripPadded(p, reply, q);
  }

  /** A reply that is no category, such as `invalid_intent`, becomes `general`. */
  lemma IntentOfInvalid()
    ensures IntentOf("invalid_intent") == GeneralQuery
  {
    StripPadded([], "invalid_intent", []);
    assert [] + "invalid_intent" + [] == "invalid_intent";
    LowerOfLowercase("invalid_intent");
  }

  // ---------------------------------------------------------------- routing

  /** What the chosen agent returned, tagged by the agent. */
  datatype AgentResponse =
    | DiseaseReply(disease: DiseaseInfo.DiseaseResults)
    | EhrReply(ehr: Ehr.EhrResults)
    | AppointmentReply(appointment: Appointment.AppointmentResults)
    | GeneralReply

  /** The `message` of the reply stored for a general query. */
  const GeneralMessage := "This is a general health query. How can I assist you further?"

  /** `str()` of the general reply dictionary. */
  const GeneralText := "{'message': '" + GeneralMessage + "'}"

  /** The agents the orchestrator routes to; "general" is the orchestrator answering
      itself. */
  datatype AgentKind = DiseaseInfoKind | EhrKind | AppointmentKind | GeneralKind
  {
    /** The `agent_used` value. */
    function Name(): string
    {
      match this
      case DiseaseInfoKind => "disease_info"
      case EhrKind => "ehr"
      case AppointmentKind => "appointment"
      case GeneralKind => "general"
    }
  }

  /** The agent that gives a reply. */
  function AgentOf(a: AgentResponse): AgentKind
  {
    match a
    case DiseaseReply(_) => DiseaseInfoKind
    case EhrReply(_) => EhrKind
    case AppointmentReply(_) => AppointmentKind
    case GeneralReply => GeneralKind
  }

  /** The routing table of `_route_to_agent`: the agent that serves an intent. Only the
      patient-data category goes to an agent of another name. */
  function AgentUsed(intent: Intent): (agent: AgentKind)
    ensures agent == GeneralKind <==> intent == GeneralQuery
    ensures intent != PatientDataQuery ==> agent.Name() == intent.Name()
  {
    match intent
    case DiseaseInfoQuery => DiseaseInfoKind
    case PatientDataQuery => EhrKind
    case AppointmentQuery => AppointmentKind
    case GeneralQuery => GeneralKind
  }

  /** The routing table sends different categories to different agents. */
  lemma AgentUsedInjective(i: Intent, j: Intent)
    requires AgentUsed(i) == AgentUsed(j)
    ensures i == j
  {
  }

  /** A reply the routing stage can get for an intent: one of the agent the routing table
      names, or an exception of it; a general query gets the fixed message. */
  predicate Fits(reply: Raises<AgentResponse>, intent: Intent)
  {
    && (reply.Returned? ==> AgentOf(reply.value) == AgentUsed(intent))
    && (intent == GeneralQuery ==> reply == Returned(GeneralReply))
  }

  /** The disease agent's results or exception as a routed reply. */
  function DiseaseReplyOf(d: Raises<DiseaseInfo.DiseaseResults>): (r: Raises<AgentResponse>)
    ensures Fits(r, DiseaseInfoQuery) && (r.Raised? <==> d.Raised?)
  {
    match d
    case Raised(m) => Raised(m)
    case Returned(x) => Returned(DiseaseReply(x))
  }

  /** The EHR agent's results or exception as a routed reply. */
  function EhrReplyOf(e: Raises<Ehr.EhrResults>): (r: Raises<AgentResponse>)
    ensures Fits(r, PatientDataQuery) && (r.Raised? <==> e.Raised?)
  {
    match e
    case Raised(m) => Raised(m)
    case Returned(x) => Returned(EhrReply(x))
  }

  /** The appointment agent's results or exception as a routed reply. */
  function AppointmentReplyOf(a: Raises<Appointment.AppointmentResults>): (r: Raises<AgentResponse>)
    ensures Fits(r, AppointmentQuery) && (r.Raised? <==> a.Raised?)
  {
    match a
    case Raised(m) => Raised(m)
    case Returned(x) => Returned(AppointmentReply(x))
  }

  // ---------------------------------------------------------------- results

  /** The `final_response` dictionary: its `status` is the constructor. */
  datatype FinalResponse =
    | ErrorResponse(message: string, errorIntent: Option<Intent>)
    | SuccessResponse(intent: Intent, agentUsed: AgentKind, synthesizedAnswer: string, rawData: Option<AgentResponse>)

  /** The `routing_status` values. */
  datatype RoutingStatus = RoutingSuccess | RoutingError
  {
    function Name(): string
    {
      match this
      case RoutingSuccess => "success"
      case RoutingError => "error"
    }
  }

  /** The keys the workflow writes into `state.results`; `None` is a key not written.
      `agentResponse` is `Some(None)` when the key holds Python's `None`. */
  datatype OrchestratorResults = OrchestratorResults(
    originalQuery: Option<string>,
    intent: Option<Intent>,
    agentResponse: Option<Option<AgentResponse>>,
    agentUsed: Option<AgentKind>,
    routingStatus: Option<RoutingStatus>,
    errorMessage: Option<string>,
    finalResponse: Option<FinalResponse>)

  const NoResults := OrchestratorResults(None, None, None, None, None, None, None)

  /** The first stage: the query and its intent, or the exception the model raised. */
  function Classified(base: OrchestratorResults, query: string, respond: Prompt -> Raises<string>)
    : (r: Raises<OrchestratorResults>)
    ensures r.Raised? <==> respond(ClassifyIntent(query)).Raised?
    ensures r.Returned? ==>
      r.value == base.(originalQuery := Some(query), intent := Some(IntentOf(respond(ClassifyIntent(query)).value)))
  {
    match respond(ClassifyIntent(query))
    case Raised(m) => Raised(m)
    case Returned(reply) => Returned(base.(originalQuery := Some(query), intent := Some(IntentOf(reply))))
  }

  /** The second stage: the reply and the agent on success; on an exception the status,
      its message and an empty reply, with no agent recorded. */
  function Routed(base: OrchestratorResults, intent: Intent, reply: Raises<AgentResponse>): OrchestratorResults
  {
    match reply
    case Raised(m) => base.(routingStatus := Some(RoutingError), errorMessage := Some(m), agentResponse := Some(None))
    case Returned(a) => base.(agentResponse := Some(Some(a)), agentUsed := Some(AgentUsed(intent)), routingStatus := Some(RoutingSuccess))
  }

  /** The keys `_synthesize_response` reads are there, and a reply is the one of the agent
      recorded beside it. */
  predicate Routable(r: OrchestratorResults)
  {
    && r.originalQuery.Some? && r.intent.Some? && r.routingStatus.Some?
    && (r.routingStatus != Some(RoutingError) ==>
          && r.agentResponse.Some? && r.agentUsed.Some?
          && (r.agentResponse.value.Some? ==> AgentOf(r.agentResponse.value.value) == r.agentUsed.value))
  }

  /** Routing a classified query leaves the results ready for synthesis. */
  lemma RoutedRoutable(base: OrchestratorResults, intent: Intent, reply: Raises<AgentResponse>)
    requires base.originalQuery.Some? && base.intent.Some? && Fits(reply, intent)
    ensures Routable(Routed(base, intent, reply))
  {
  }

  /** The `analysis` key of a reply. */
  function AnalysisKey(a: AgentResponse): Option<string>
  {
    match a
    case DiseaseReply(d) => d.analysis
    case EhrReply(e) => e.analysis
    case AppointmentReply(_) => None
    case GeneralReply => None
  }

  /** `agent_used == "ehr" and agent_response and "analysis" in agent_response`. */
  predicate PassesThrough(response: Option<AgentResponse>, agentUsed: AgentKind)
  {
    agentUsed == EhrKind && response.Some? && AnalysisKey(response.value).Some?
  }

  /** `formatted_response.recommendation` of the appointment results, as an f-string shows it. */
  function RecommendationOf(a: Appointment.AppointmentResults): string
  {
    match a.formattedResponse
    case None => "No recommendation"
    case Some(f) => f.recommendation.GetOr("None")
  }

  /** `_format_agent_response`: the text the synthesis prompt gets for a reply. The EHR
      results have no top-level `patient_summary` key (it sits inside the formatted
      response), so the name it shows is always `Unknown`. */
  function FormatAgentResponse(response: Option<AgentResponse>, agentType: AgentKind): (text: string)
    requires response.Some? ==> AgentOf(response.value) == agentType
  {
    if response.None? then "No data available"
    else if agentType == DiseaseInfoKind then
      "Disease Information:\n" + response.value.disease.analysis.GetOr("No analysis available")
    else if agentType == EhrKind then
      "Patient Data:\n" + response.value.ehr.analysis.GetOr("No analysis available") + "\n\nPatient: Unknown"
    else if agentType == AppointmentKind then
      "Appointment Information:\n" + RecommendationOf(response.value.appointment)
    else GeneralText
  }

  /** Every reply is shown under the heading of its agent. */
  lemma FormatHeadings(a: AgentResponse)
    ensures var text := FormatAgentResponse(Some(a), AgentOf(a));
      && (a.DiseaseReply? ==> "Disease Information:\n" <= text)
      && (a.EhrReply? ==> "Patient Data:\n" <= text)
      && (a.AppointmentReply? ==> "Appointment Information:\n" <= text)
  {
  }

  /** The patient named in an EHR reply's text does not depend on the record: only the
      analysis shows. */
  lemma EhrPatientNameIgnored(e1: Ehr.EhrResults, e2: Ehr.EhrResults)
    requires e1.analysis == e2.analysis
    ensures FormatAgentResponse(Some(EhrReply(e1)), EhrKind) == FormatAgentResponse(Some(EhrReply(e2)), EhrKind)
  {
  }

  /** The synthesis prompt for routed results. */
  function SynthesisPrompt(r: OrchestratorResults): Prompt
    requires Routable(r) && r.routingStatus != Some(RoutingError)
  {
    SynthesizeResponse(r.originalQuery.value, FormatAgentResponse(r.agentResponse.value, r.agentUsed.value))
  }

  /** The prompts the last stage sends: none after a routing error or for an EHR reply
      with an analysis, one synthesis prompt otherwise. */
  function SynthesisCalls(r: OrchestratorResults): (calls: seq<Prompt>)
    requires Routable(r)
    ensures |calls| <= 1
    ensures calls == [] <==> r.routingStatus == Some(RoutingError) || PassesThrough(r.agentResponse.value, r.agentUsed.value)
  {
    if r.routingStatus == Some(RoutingError) || PassesThrough(r.agentResponse.value, r.agentUsed.value) then []
    else [SynthesisPrompt(r)]
  }

  /** The last stage: the final response, or the exception the synthesis call raised. */
  function Synthesized(r: OrchestratorResults, respond: Prompt -> Raises<string>): (s: Raises<OrchestratorResults>)
    requires Routable(r)
    ensures s.Raised? <==> SynthesisCalls(r) != [] && respond(SynthesisCalls(r)[0]).Raised?
    ensures s.Returned? ==> s.value.(finalResponse := None) == r.(finalResponse := None) && s.value.finalResponse.Some?
  {
    if r.routingStatus == Some(RoutingError) then
      Returned(r.(finalResponse := Some(ErrorResponse("Error processing query: " + r.errorMessage.GetOr("Unknown error"), r.intent))))
    else
      var response := r.agentResponse.value;
      var used := r.agentUsed.value;
      if PassesThrough(response, used) then
        Returned(r.(finalResponse := Some(SuccessResponse(r.intent.value, used, AnalysisKey(response.value).value, response))))
      else
        match respond(SynthesisPrompt(r))
        case Raised(m) => Raised(m)
        case Returned(answer) => Returned(r.(finalResponse := Some(SuccessResponse(r.intent.value, used, answer, response))))
  }

  /** The intent the routing stage acts on, `None` when classification raised. */
  function IntentFor(query: string, respond: Prompt -> Raises<string>): (intent: Option<Intent>)
    ensures intent.Some? <==> respond(ClassifyIntent(query)).Returned?
  {
    match respond(ClassifyIntent(query))
    case Raised(_) => None
    case Returned(reply) => Some(IntentOf(reply))
  }

  /** `reply` is one the agent for the classified intent can give. */
  predicate Consistent(query: string, reply: Raises<AgentResponse>, respond: Prompt -> Raises<string>)
  {
    IntentFor(query, respond).Some? ==> Fits(reply, IntentFor(query, respond).value)
  }

  /** What `process(query)` returns when the chosen agent gives `reply`: the results of the
      three stages, or the exception of the classification or of the synthesis call. */
  function ResultsFor(query: string, reply: Raises<AgentResponse>, respond: Prompt -> Raises<string>): Raises<OrchestratorResults>
    requires Consistent(query, reply, respond)
  {
    match Classified(NoResults, query, respond)
    case Raised(m) => Raised(m)
    case Returned(c) =>
      RoutedRoutable(c, c.intent.value, reply);
      Synthesized(Routed(c, c.intent.value, reply), respond)
  }

  /** The prompts `process(query)` sends to the orchestrator's own model. */
  function CallsFor(query: string, reply: Raises<AgentResponse>, respond: Prompt -> Raises<string>): seq<Prompt>
    requires Consistent(query, reply, respond)
  {
    match Classified(NoResults, query, respond)
    case Raised(_) => [ClassifyIntent(query)]
    case Returned(c) =>
      RoutedRoutable(c, c.intent.value, reply);
      [ClassifyIntent(query)] + SynthesisCalls(Routed(c, c.intent.value, reply))
  }
  /** A classified run in terms of its stages: what `graph.invoke` computes step by step. */
  lemma StagesOfRun(query: string, c: OrchestratorResults, reply: Raises<AgentResponse>, respond: Prompt -> Raises<string>)
    requires Classified(NoResults, query, respond) == Returned(c)
    requires Fits(reply, c.intent.value)
    ensures IntentFor(query, respond) == c.intent && Consistent(query, reply, respond)
    ensures Routable(Routed(c, c.intent.value, reply))
    ensures ResultsFor(query, reply, respond) == Synthesized(Routed(c, c.intent.value, reply), respond)
    ensures CallsFor(query, reply, respond) == [ClassifyIntent(query)] + SynthesisCalls(Routed(c, c.intent.value, reply))
  {
    RoutedRoutable(c, c.intent.value, reply);
  }


  /** A run classifies first and asks its model at most once more; it raises exactly when
      one of those calls raises; a run that returns keeps the query, records a valid
      intent and the agent the routing table names for it, and holds a final response. */
  lemma RunShape(query: string, reply: Raises<AgentResponse>, respond: Prompt -> Raises<string>)
    requires Consistent(query, reply, respond)
    ensures var calls := CallsFor(query, reply, respond);
      && 1 <= |calls| <= 2 && calls[0] == ClassifyIntent(query)
      && (ResultsFor(query, reply, respond).Raised? <==>
            respond(calls[0]).Raised? || (|calls| == 2 && respond(calls[1]).Raised?))
    ensures var r := ResultsFor(query, reply, respond);
      r.Returned? ==>
        && r.value.originalQuery == Some(query)
        && r.value.intent == IntentFor(query, respond)
        && r.value.finalResponse.Some?
        && (r.value.routingStatus == Some(RoutingSuccess) ==> r.value.agentUsed == Some(AgentUsed(r.value.intent.value)))
  {
    var calls := CallsFor(query, reply, respond);
    if respond(ClassifyIntent(query)).Returned? {
      var c := Classified(NoResults, query, respond).value;
      var routed := Routed(c, c.intent.value, reply);
      RoutedRoutable(c, c.intent.value, reply);
      assert calls == [ClassifyIntent(query)] + SynthesisCalls(routed);
      if SynthesisCalls(routed) != [] {
        assert calls[1] == SynthesisCalls(routed)[0];
      }
    }
  }

  /** An agent that raises is reported in an error response carrying its message and the
      intent; nothing is synthesised. */
  lemma RoutingErrorReported(query: string, m: string, respond: Prompt -> Raises<string>)
    requires IntentFor(query, respond).Some? && IntentFor(query, respond).value != GeneralQuery
    ensures var intent := IntentFor(query, respond).value;
      && ResultsFor(query, Raised(m), respond)
         == Returned(OrchestratorResults(Some(query), Some(intent), Some(None), None, Some(RoutingError), Some(m),
                                         Some(ErrorResponse("Error processing query: " + m, Some(intent)))))
      && CallsFor(query, Raised(m), respond) == [ClassifyIntent(query)]
  {
  }

  /** A patient-data query whose EHR results hold an analysis is answered by that analysis,
      with the results as raw data, and nothing is synthesised. */
  lemma PatientAnalysisPassedThrough(query: string, e: Ehr.EhrResults, respond: Prompt -> Raises<string>)
    requires IntentFor(query, respond) == Some(PatientDataQuery) && e.analysis.Some?
    ensures var reply := Returned(EhrReply(e));
      && ResultsFor(query, reply, respond).Returned?
      && ResultsFor(query, reply, respond).value.finalResponse
         == Some(SuccessResponse(PatientDataQuery, EhrKind, e.analysis.value, Some(EhrReply(e))))
      && CallsFor(query, reply, respond) == [ClassifyIntent(query)]
  {
  }

  /** Every other routed query is synthesised from the formatted reply by exactly one call
      whose answer, with the reply as raw data, is the final response. */
  lemma OthersSynthesised(query: string, a: AgentResponse, respond: Prompt -> Raises<string>)
    requires IntentFor(query, respond).Some? && Fits(Returned(a), IntentFor(query, respond).value)
    requires !PassesThrough(Some(a), AgentUsed(IntentFor(query, respond).value))
    ensures var intent := IntentFor(query, respond).value;
      var p := SynthesizeResponse(query, FormatAgentResponse(Some(a), AgentUsed(intent)));
      && CallsFor(query, Returned(a), respond) == [ClassifyIntent(query), p]
      && (respond(p).Returned? ==>
            ResultsFor(query, Returned(a), respond).Returned?
            && ResultsFor(query, Returned(a), respond).value.finalResponse
               == Some(SuccessResponse(intent, AgentUsed(intent), respond(p).value, Some(a))))
  {
  }

  /** A reply that is no category is answered as a general query: the synthesis prompt
      shows the fixed message. */
  lemma InvalidIntentIsGeneral(query: string, respond: Prompt -> Raises<string>)
    requires respond(ClassifyIntent(query)) == Returned("invalid_intent")
    ensures IntentFor(query, respond) == Some(GeneralQuery)
    ensures CallsFor(query, Returned(GeneralReply), respond)
            == [ClassifyIntent(query), SynthesizeResponse(query, GeneralText)]
  {
    IntentOfInvalid();
  }

  /** The EHR agent always records an analysis when it returns, so the orchestrator never
      synthesises for it and the `Patient Data` text above is never shown. */
  lemma EhrRepliesPassThrough(query: string, fetched: Raises<Option<Ehr.PatientRecord>>, reply: Ehr.MemoryReply,
                              respond: Prompt -> Raises<string>)
    ensures var e := Ehr.ResultsFor(query, fetched, reply, respond);
      e.Returned? ==> PassesThrough(Some(EhrReply(e.value)), EhrKind)
  {
  }

  // ---------------------------------------------------------------- the agent

  /** What the orchestrator's agents have been asked and what they keep: their model logs,
      the state of the disease agent's pipeline, and the EHR agent's memory (documents,
      sessions and its pipeline's model log). */
  datatype AgentLogs = AgentLogs(
    disease: seq<Prompt>,
    pipeline: Option<(seq<Prompt>, MedicalSearch.SearchState)>,
    ehr: seq<Prompt>,
    ehrMemory: Option<(seq<MemoryStore.Record>, MemoryStore.Sessions, seq<Prompt>)>,
    appointment: seq<Prompt>)

  class OrchestratorAgent {
    const llm: LanguageModel
    const disease: DiseaseInfo.DiseaseInfoAgent
    const ehr: Ehr.EhrAgent
    const appointment: Appointment.AppointmentAgent

    ghost function Repr(): set<object>
    {
      {llm} + AgentsRepr()
    }

    /** What the specialised agents may change. */
    ghost function AgentsRepr(): set<object>
    {
      disease.Repr() + ehr.Repr() + {appointment.llm}
    }

    /** What the specialised agents' results depend on: what they may change, and the
        memory manager the EHR agent's pipeline reads. */
    ghost function AgentsReads(): set<object>
    {
      AgentsRepr() + ehr.PipelineReads()
    }

    /** The agents are valid and share nothing with each other, with the orchestrator's
        model or with the agent state of a run. */
    ghost predicate Valid()
      reads ehr.MemoryRepr()
    {
      && disease.Valid() && ehr.Valid()
      && llm !in AgentsReads()
      && (forall o :: o in AgentsReads() ==> !(o is AgentState<OrchestratorResults>))
      && disease.Repr() !! ehr.Repr()
      && appointment.llm !in disease.Repr() + ehr.Repr()
    }

    constructor (llm: LanguageModel, disease: DiseaseInfo.DiseaseInfoAgent, ehr: Ehr.EhrAgent,
                 appointment: Appointment.AppointmentAgent)
      requires disease.Valid() && ehr.Valid()
      requires llm !in disease.Repr() + ehr.Repr() + {appointment.llm} + ehr.PipelineReads()
      requires disease.Repr() !! ehr.Repr() && appointment.llm !in disease.Repr() + ehr.Repr()
      ensures Valid()
      ensures this.llm == llm && this.disease == disease && this.ehr == ehr && this.appointment == appointment
    {
      this.llm := llm;
      this.disease := disease;
      this.ehr := ehr;
      this.appointment := appointment;
    }

    /** The reply the routing stage gets for an intent in the current state: the chosen
        agent's results or the exception it raised; a general query gets the fixed
        message. */
    ghost function ReplyFor(intent: Intent, query: string, clock: Clock): (r: Raises<AgentResponse>)
      requires ValidClock(clock)
      reads AgentsReads()
      ensures Fits(r, intent)
    {
      match intent
      case DiseaseInfoQuery =>
        DiseaseReplyOf(DiseaseInfo.ResultsFor(query, disease.PipelineView(query, clock.stamp), disease.llm.respond))
      case PatientDataQuery =>
        EhrReplyOf(Ehr.ResultsFor(query, ehr.FetchOf(query), ehr.ReplyOfRun(query, clock.stamp), ehr.llm.respond))
      case AppointmentQuery =>
        AppointmentReplyOf(Appointment.ResultsFor(query, clock.today, appointment.llm.respond))
      case GeneralQuery =>
        Returned(GeneralReply)
    }

    /** The agents' model logs and pipeline state. */
    ghost function Logs(): AgentLogs
      reads AgentsReads()
    {
      AgentLogs(disease.llm.sent, disease.PipelineState(), ehr.llm.sent, ehr.MemoryState(), appointment.llm.sent)
    }

    /** The logs after the agent for `intent` has run on the query; nothing runs for a
        general query. */
    ghost function LogsAfter(intent: Intent, query: string, clock: Clock): AgentLogs
      requires ValidClock(clock) && ehr.Valid()
      reads ehr.MemoryRepr(), AgentsReads()
    {
      var l := Logs();
      match intent
      case DiseaseInfoQuery =>
        l.(disease := disease.llm.sent + DiseaseInfo.ModelCalls(query, disease.PipelineView(query, clock.stamp)),
           pipeline := disease.PipelineStateAfter(query, clock.stamp))
      case PatientDataQuery =>
        l.(ehr := ehr.llm.sent + Ehr.CallsFor(query, ehr.FetchOf(query), ehr.ReplyOfRun(query, clock.stamp)),
           ehrMemory := ehr.MemoryStateAfter(query, clock.stamp))
      case AppointmentQuery =>
        l.(appointment := appointment.llm.sent + Appointment.CallsFor(query, clock.today))
      case GeneralQuery => l
    }

    /** The `process` call of the agent the routing table names, with an exception caught;
        a general query is answered in place. Only that agent's logs change. */
    method Consult(intent: Intent, query: string, clock: Clock) returns (reply: Raises<AgentResponse>)
      requires Valid() && ValidClock(clock)
      modifies AgentsRepr()
      ensures Valid()
      ensures reply == old(ReplyFor(intent, query, clock))
      ensures Logs() == old(LogsAfter(intent, query, clock))
      ensures intent != PatientDataQuery ==> unchanged(ehr.MemoryRepr())
    {
      match intent
      case DiseaseInfoQuery =>
        var d := disease.Process(query, clock.stamp);
        reply := DiseaseReplyOf(d);
      case PatientDataQuery =>
        var e := ehr.Process(query, clock.stamp);
        reply := EhrReplyOf(e);
      case AppointmentQuery =>
        var x := appointment.Process(query, clock);
        reply := AppointmentReplyOf(x);
      case GeneralQuery =>
        reply := Returned(GeneralReply);
    }

    /** `_classify_intent`; `Fail` when the model raises. */
    method Classify(state: AgentState<OrchestratorResults>) returns (o: Outcome)
      requires |state.taskQueue| > 0
      modifies state, llm
      ensures state.currentTask == "classify_intent" && state.taskQueue == old(state.taskQueue)
      ensures llm.sent == old(llm.sent) + [ClassifyIntent(state.taskQueue[0])]
      ensures var c := Classified(old(state.results), state.taskQueue[0], llm.respond);
        && (o.Fail? <==> c.Raised?)
        && (o.Fail? ==> o.message == c.message)
        && (o.Pass? ==> state.results == c.value)
    {
      state.currentTask := "classify_intent";
      var query := state.taskQueue[0];
      state.results := state.results.(originalQuery := Some(query));
      var response := llm.Invoke(ClassifyIntent(query));
      if response.Raised? {
        return Fail(response.message);
      }
      var intent := Lower(Strip(response.value));
      var category := Named(intent).GetOr(GeneralQuery);
      state.results := state.results.(intent := Some(category));
      o := Pass;
    }

    /** `_route_to_agent`: the reply is the one `Consult` gives (see there), recorded
        under the agent the routing table names. */
    method RouteToAgent(state: AgentState<OrchestratorResults>, clock: Clock) returns (ghost reply: Raises<AgentResponse>)
      requires Valid() && ValidClock(clock)
      requires state.results.originalQuery.Some? && state.results.intent.Some?
      modifies state, AgentsRepr()
      ensures Valid()
      ensures state.currentTask == "route_to_agent" && state.taskQueue == old(state.taskQueue)
      ensures reply == old(ReplyFor(state.results.intent.value, state.results.originalQuery.value, clock))
      ensures state.results == Routed(old(state.results), old(state.results.intent.value), reply)
      ensures Logs() == old(LogsAfter(state.results.intent.value, state.results.originalQuery.value, clock))
      ensures old(state.results.intent) != Some(PatientDataQuery) ==> unchanged(ehr.MemoryRepr())
    {
      var base := state.results;
      var r := Consult(base.intent.value, base.originalQuery.value, clock);
      state.currentTask := "route_to_agent";
      state.results := Routed(base, base.intent.value, r);
      reply := r;
    }

    /** `_synthesize_response`; `Fail` when the synthesis call raises. */
    method Synthesize(state: AgentState<OrchestratorResults>) returns (o: Outcome)
      requires Routable(state.results)
      modifies state, llm
      ensures state.currentTask == "synthesize_response" && state.taskQueue == old(state.taskQueue)
      ensures llm.sent == old(llm.sent) + SynthesisCalls(old(state.results))
      ensures var s := Synthesized(old(state.results), llm.respond);
        && (o.Fail? <==> s.Raised?)
        && (o.Fail? ==> o.message == s.message)
        && (o.Pass? ==> state.results == s.value)
    {
      state.currentTask := "synthesize_response";
      var r := state.results;
      if r.routingStatus == Some(RoutingError) {
        var message := "Error processing query: " + r.errorMessage.GetOr("Unknown error");
        state.results := r.(finalResponse := Some(ErrorResponse(message, r.intent)));
        return Pass;
      }
      var response := r.agentResponse.value;
      var used := r.agentUsed.value;
      if used == EhrKind && response.Some? && AnalysisKey(response.value).Some? {
        state.results := r.(finalResponse := Some(SuccessResponse(r.intent.value, used, AnalysisKey(response.value).value, response)));
        return Pass;
      }
      var text := FormatAgentResponse(response, used);
      var answer := llm.Invoke(SynthesizeResponse(r.originalQuery.value, text));
      if answer.Raised? {
        return Fail(answer.message);
      }
      state.results := r.(finalResponse := Some(SuccessResponse(r.intent.value, used, answer.value, response)));
      o := Pass;
    }

    /** The routing and synthesis stages of the graph on classified results. */
    method RouteAndSynthesize(state: AgentState<OrchestratorResults>, clock: Clock) returns (o: Outcome, ghost reply: Raises<AgentResponse>)
      requires Valid() && ValidClock(clock)
      requires state.results.originalQuery.Some? && state.results.intent.Some?
      modifies state, Repr()
      ensures Valid()
      ensures reply == old(ReplyFor(state.results.intent.value, state.results.originalQuery.value, clock))
      ensures Logs() == old(LogsAfter(state.results.intent.value, state.results.originalQuery.value, clock))
      ensures var routed := Routed(old(state.results), old(state.results.intent.value), reply);
        var s := Synthesized(routed, llm.respond);
        && llm.sent == old(llm.sent) + SynthesisCalls(routed)
        && (o.Fail? <==> s.Raised?)
        && (o.Fail? ==> o.message == s.message)
        && (o.Pass? ==> state.results == s.value)
      ensures old(state.results.intent) != Some(PatientDataQuery) ==> unchanged(ehr.MemoryRepr())
    {
      ghost var base := state.results;
      reply := RouteToAgent(state, clock);
      RoutedRoutable(base, base.intent.value, reply);
      ghost var logs := Logs();
      o := Synthesize(state);
      assert Logs() == logs && Valid();
    }

    /** `graph.invoke(state)`: the three stages in order on the query at the head of the
        queue; an exception of the orchestrator's own model ends the run (`Fail`). `reply`
        is what the routing stage received: the chosen agent's results in the state the
        run started in (a general reply when classification raised). */
    method RunGraph(state: AgentState<OrchestratorResults>, clock: Clock) returns (o: Outcome, ghost reply: Raises<AgentResponse>)
      requires Valid() && ValidClock(clock)
      requires |state.taskQueue| > 0 && state.results == NoResults
      modifies state, Repr()
      ensures Valid()
      ensures var query := old(state.taskQueue[0]);
        && Consistent(query, reply, llm.respond)
        && llm.sent == old(llm.sent) + CallsFor(query, reply, llm.respond)
        && (IntentFor(query, llm.respond) != Some(PatientDataQuery) ==> unchanged(ehr.MemoryRepr()))
      ensures var query := old(state.taskQueue[0]);
        IntentFor(query, llm.respond).Some? ==> reply == old(ReplyFor(IntentFor(query, llm.respond).value, query, clock))
      ensures var query := old(state.taskQueue[0]);
        Logs() == if IntentFor(query, llm.respond).Some? then old(LogsAfter(IntentFor(query, llm.respond).value, query, clock)) else old(Logs())
      ensures var s := ResultsFor(old(state.taskQueue[0]), reply, llm.respond);
        && (o.Fail? <==> s.Raised?)
        && (o.Fail? ==> o.message == s.message)
        && (o.Pass? ==> state.results == s.value)
    {
      ghost var query, sent := state.taskQueue[0], llm.sent;
      reply := Returned(GeneralReply);
      var classified := Classify(state);
      if classified.Fail? {
        assert IntentFor(query, llm.respond).None?;
        return classified, reply;
      }
      ghost var intent, classifiedResults := state.results.intent.value, state.results;
      assert unchanged(AgentsReads());
      assert ReplyFor(intent, query, clock) == old(ReplyFor(intent, query, clock));
      assert LogsAfter(intent, query, clock) == old(LogsAfter(intent, query, clock));
      o, reply := RouteAndSynthesize(state, clock);
      StagesOfRun(query, classifiedResults, reply, llm.respond);
    }

    /** `process(query)`: the graph run on a fresh state holding just the query. */
    method Process(query: string, clock: Clock) returns (r: Raises<OrchestratorResults>, ghost reply: Raises<AgentResponse>)
      requires Valid() && ValidClock(clock)
      modifies Repr()
      ensures Valid()
      ensures Consistent(query, reply, llm.respond)
      ensures IntentFor(query, llm.respond).Some? ==> reply == old(ReplyFor(IntentFor(query, llm.respond).value, query, clock))
      ensures Logs() == if IntentFor(query, llm.respond).Some? then old(LogsAfter(IntentFor(query, llm.respond).value, query, clock)) else old(Logs())
      ensures r == ResultsFor(query, reply, llm.respond)
      ensures llm.sent == old(llm.sent) + CallsFor(query, reply, llm.respond)
      ensures IntentFor(query, llm.respond) != Some(PatientDataQuery) ==> unchanged(ehr.MemoryRepr())
    {
      var state := new AgentState<OrchestratorResults>([query], NoResults);
      var o;
      o, reply := RunGraph(state, clock);
      r := if o.Fail? then Raised(o.message) else Returned(state.results);
    }
  }
}
