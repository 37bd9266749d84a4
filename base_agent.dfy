/** What every agent shares: the language model it calls, the prompts it can send, the
    workflow state its stages pass along, and the clock it reads. */
module BaseAgent {
  import opened Wrappers
  import opened Calendar

  /** A filled-in prompt template: the constructor names the template and its arguments
      are the template variables. The fixed wording around them is not modelled. */
  datatype Prompt =
    | ClassifyIntent(query: string)
    | SynthesizeResponse(query: string, results: string)
    | AnalyzeDisease(query: string, context: string)
    | AnalyzePatient(patientData: string, query: string, context: string)
    | SummarizePatient(patientData: string)
    | ScheduleAppointment(request: string, availableSlots: string, patientInfo: string)
    | RescheduleAppointment(currentAppointment: string, newSlots: string, reason: string)
    | PatientContextQuestion(context: string, query: string)
    | EvidenceQuestion(searchResults: string, query: string)
    | CombinedQuestion(patientContext: string, searchResults: string, query: string)
    | HistorySummary(records: string, focusLine: string)

  /** A chat model seen from outside: each prompt gets a reply text or raises. The log of
      prompts sent is the call counter. */
  class LanguageModel {
    const respond: Prompt -> Raises<string>
    var sent: seq<Prompt>

    constructor (respond: Prompt -> Raises<string>)
      ensures this.respond == respond && sent == []
    {
      this.respond := respond;
      sent := [];
    }

    /** `llm.invoke(prompt)`: one more call, answered by the oracle. */
    method Invoke(p: Prompt) returns (r: Raises<string>)
      modifies this
      ensures sent == old(sent) + [p]
      ensures r == respond(p)
    {
      sent := sent + [p];
      r := respond(p);
    }
  }

  /** The state a workflow carries from stage to stage. `R` is the agent's own record of
      result keys; a `None` field is a key not written yet. */
  class AgentState<R> {
    var currentTask: string
    var taskQueue: seq<string>
    var results: R

    constructor (taskQueue: seq<string>, results: R)
      ensures this.taskQueue == taskQueue && this.results == results && currentTask == ""
    {
      this.taskQueue := taskQueue;
      this.results := results;
      currentTask := "";
    }
  }

  /** The instant `datetime.now()` would report: the calendar date and the ISO timestamp
      text stored in records and search results. */
  datatype Clock = Clock(today: Date, stamp: string)

  /** A clock whose date lies where the date arithmetic of the agents stays inside the
      years `datetime` supports. */
  predicate ValidClock(c: Clock)
  {
    Valid(c.today) && 2 <= c.today.year <= 9998
  }
}
