# Healthcare assistant agents — a Dafny model

This project models the deterministic core of a multi-agent healthcare assistant. An
orchestrator classifies a user's query with a chat model and routes it to one of three
specialised agents:

- a disease-information agent, backed by a retrieval-augmented-generation (RAG) pipeline over
  three medical web-search tools;
- an EHR agent, which reads patient records and keeps a patient memory;
- an appointment agent, which reads date phrases and proposes slots.

The orchestrator then synthesises the final answer.

Each source file is one module:

| module | source |
|---|---|
| `Orchestrator` | `agents/orchestrator_agent.py` |
| `DiseaseInfo` | `agents/disease_info_agent.py` |
| `Ehr` | `agents/ehr_agent.py` |
| `Appointment` | `agents/appointment_agent.py` |
| `Rag` | `core/rag_pipeline.py` |
| `MemoryStore` | `core/memory_manager.py` |
| `MedicalSearch` | `tools/medical_search_tools.py` |

Helper modules model the Python behaviour the core relies on. They add no behaviour of the
system itself:

- `BaseAgent`: the `AgentState` of `agents/base_agent.py`, and a chat model seen as an oracle.
- `Text`: `str.strip`, `lower` and `split`, slicing, and `in` on strings.
- `Values`: the dictionary values the system stores.
- `Calendar`: the proleptic Gregorian calendar of `datetime`.
- `Wrappers`: `Option`, `Raises` (a value or an exception's message) and `Outcome`.

How the model is built:

- Every agent is a class whose workflow stages are methods that update a shared
  `AgentState` (current task, task queue, typed results).
- Every stage is proved against a specification function of the old state.
- A chat model is a `LanguageModel` object. It holds an oracle `respond` from prompts to a
  reply or an exception, and the log `sent` of prompts sent. The contracts say exactly
  which prompts each run sends.
- Each agent's `Process` ends in a pure `ResultsFor` function of the query, the clock and
  the oracles. Lemmas about that function state what the source promises: routing,
  pass-through, error reporting, call counts, parsing round trips, slot counts, ranking
  (sorted, a permutation, stable) and memory updates.

## Model

| member | source | states |
|---|---|---|
| Orchestrator.NamesValid | agents/orchestrator_agent.py:100 | every intent's name is one of `disease_info`, `patient_data`, `appointment`, `general`, and different intents have different names |
| Orchestrator.NamedValid | agents/orchestrator_agent.py:100-102 | exactly the four accepted names denote an intent, each the one of that name |
| Orchestrator.IntentOfNames | agents/orchestrator_agent.py:97-102 | the intent is the one the stripped, lower-cased reply names, and `general` when that is no accepted name |
| Orchestrator.StripSkipsFront | agents/orchestrator_agent.py:97 | `strip()` drops white space in front of a text |
| Orchestrator.StripSkipsBack | agents/orchestrator_agent.py:97 | `strip()` drops white space after a trimmed text |
| Orchestrator.StripPadded | agents/orchestrator_agent.py:97 | stripping a trimmed text padded with white space on both sides gives the text back |
| Orchestrator.LowerOfLowercase | agents/orchestrator_agent.py:97 | `lower()` leaves a text without capitals unchanged |
| Orchestrator.IntentOfPadded | agents/orchestrator_agent.py:97-104 | a reply that is an intent's name with white space around it is classified as that intent |
| Orchestrator.IntentOfIdempotent | agents/orchestrator_agent.py:97-104 | classifying the name of a classification gives the same intent |
| Orchestrator.IntentOfIgnoresCase | agents/orchestrator_agent.py:97 | capitals in the reply and white space around it do not change the intent |
| Orchestrator.IntentOfInvalid | tests/test_orchestrator_agent.py:141-164 | the reply `invalid_intent` is classified `general` |
| Orchestrator.AgentUsed | agents/orchestrator_agent.py:116-136 | the routing table: `general` exactly for the general intent, and every intent but `patient_data` (which goes to `ehr`) keeps its name |
| Orchestrator.AgentUsedInjective | agents/orchestrator_agent.py:116-136 | different intents go to different agents |
| Orchestrator.DiseaseReplyOf | agents/orchestrator_agent.py:116-119 | the disease agent's results or exception as a reply that fits the disease intent, an exception exactly when the agent raised |
| Orchestrator.EhrReplyOf | agents/orchestrator_agent.py:121-124 | the EHR agent's results or exception as a reply that fits the patient-data intent, an exception exactly when the agent raised |
| Orchestrator.AppointmentReplyOf | agents/orchestrator_agent.py:126-129 | the appointment agent's results or exception as a reply that fits the appointment intent, an exception exactly when the agent raised |
| Orchestrator.Classified | agents/orchestrator_agent.py:85-106 | classification raises exactly when the model raises; otherwise it records the query and IntentOf the reply and nothing else |
| Orchestrator.RoutedRoutable | agents/orchestrator_agent.py:108-145 | after routing a classified query the results carry what synthesis reads: a status, and an agent and reply on success |
| Orchestrator.FormatHeadings | agents/orchestrator_agent.py:196-211 | each agent's reply is shown under its own heading: `Disease Information:`, `Patient Data:`, `Appointment Information:` |
| Orchestrator.EhrPatientNameIgnored | agents/orchestrator_agent.py:204-207 | the EHR text depends only on the analysis: the agent's results hold no top-level `patient_summary`, so the name shown is always `Unknown` |
| Orchestrator.SynthesisCalls | agents/orchestrator_agent.py:151-184 | synthesis asks the model at most once: not after a routing error nor for an EHR reply with an analysis, and once otherwise |
| Orchestrator.Synthesized | agents/orchestrator_agent.py:147-194 | synthesis raises exactly when its one call raises; otherwise it adds a final response and changes nothing else |
| Orchestrator.IntentFor | agents/orchestrator_agent.py:96-104 | an intent is recorded exactly when the classification call returns |
| Orchestrator.RunShape | agents/orchestrator_agent.py:216-230 | a run classifies first and calls the model at most once more; it raises exactly when one of those calls raises; a run that returns keeps the query, the recorded intent and the routing table's agent, and has a final response |
| Orchestrator.RoutingErrorReported | agents/orchestrator_agent.py:140-157 | an agent that raises gives status `error`, its message, no reply and the error response `Error processing query: <message>` with the intent; nothing is synthesised |
| Orchestrator.PatientAnalysisPassedThrough | agents/orchestrator_agent.py:164-172 | a patient-data reply with an analysis is answered by that analysis, with the reply as raw data and no second model call |
| Orchestrator.OthersSynthesised | agents/orchestrator_agent.py:174-192 | every other reply is formatted and synthesised by exactly one call, whose answer, with the reply as raw data, is the final response |
| Orchestrator.InvalidIntentIsGeneral | tests/test_orchestrator_agent.py:141-164 | a reply that names no intent is answered as a general query whose synthesis prompt shows the fixed general message |
| Orchestrator.EhrRepliesPassThrough | agents/orchestrator_agent.py:164-172 | the EHR agent always records an analysis when it returns, so its replies are never synthesised |
| Orchestrator.OrchestratorAgent.constructor | agents/orchestrator_agent.py:18-27 | the orchestrator keeps its model and the three agents, which share no state |
| Orchestrator.OrchestratorAgent.ReplyFor | agents/orchestrator_agent.py:115-143 | the reply the routing stage gets for an intent fits it: the chosen agent's results or exception, the fixed message for a general query |
| Orchestrator.OrchestratorAgent.Consult | agents/orchestrator_agent.py:115-143 | the reply is ReplyFor in the state before the call; only the chosen agent's logs change; after a patient-data query the EHR agent's memory (its documents, sessions and pipeline log) ends as the EHR run leaves it, and after any other query it is unchanged |
| Orchestrator.OrchestratorAgent.Classify | agents/orchestrator_agent.py:85-106 | the stage sends one classification prompt for the head of the queue; it fails exactly when that call raises, else the results are Classified |
| Orchestrator.OrchestratorAgent.RouteToAgent | agents/orchestrator_agent.py:108-145 | the stage records Routed of the reply Consult gives; the agents' logs and the EHR agent's memory change as Consult says |
| Orchestrator.OrchestratorAgent.Synthesize | agents/orchestrator_agent.py:147-194 | the stage sends exactly SynthesisCalls; it fails exactly when that call raises, else the results are Synthesized |
| Orchestrator.OrchestratorAgent.RouteAndSynthesize | agents/orchestrator_agent.py:79-81 | routing then synthesis on classified results: the reply, the model calls and the final results are those of the two stages in order; the agents' logs and the EHR agent's memory change as Consult says |
| Orchestrator.OrchestratorAgent.RunGraph | agents/orchestrator_agent.py:68-83 | the graph run sends exactly CallsFor and ends in ResultsFor of the query and the agent's reply at the start of the run; the chosen agent's logs and, for a patient-data query, the EHR agent's memory end as that agent's run leaves them; without an intent no agent runs and nothing changes |
| Orchestrator.OrchestratorAgent.Process | agents/orchestrator_agent.py:216-230 | `process` returns ResultsFor of the query and the reply the chosen agent gives in the state the call started in; the model is sent exactly CallsFor; only the chosen agent's logs change, and for a patient-data query the EHR agent's memory (its documents, sessions and pipeline log) ends as the EHR run leaves it (tests/test_orchestrator_agent.py:36-41 and 230) |
| DiseaseInfo.SourceContextFirstThree | agents/disease_info_agent.py:144-145 | search results after the third never reach the context |
| DiseaseInfo.SourceLinesShowEach | agents/disease_info_agent.py:144-145 | each of the first three results shows as its own line, numbered from 1, with its title (or `Source`) and snippet |
| DiseaseInfo.BuildSourceContext | agents/disease_info_agent.py:142-145 | the `context_text +=` loop builds SourceContext of the results |
| DiseaseInfo.PreviewTitles | agents/disease_info_agent.py:124-130 | the preview loop over the first three results raises exactly when one of them has a title that is not a string or a list, so that `[:100]` raises a `TypeError` |
| DiseaseInfo.StepFor | agents/disease_info_agent.py:107-148 | no pipeline or a raising one leads to the model with no context; a reply with an answer is used as it is with its search results exactly when previewing the first three results does not raise, and otherwise the model is asked with no context (lines 124-130 and 146-148); a context is built only from a reply with search results and no answer |
| DiseaseInfo.PipelineReplyIsUsed | agents/disease_info_agent.py:117-148 | the pipeline's web-search reply always has an answer, so the search-results branch at lines 139-145 is never reached: the answer is used exactly when the preview does not raise, and otherwise the model is asked with no context |
| DiseaseInfo.UntitledBingResultDropsAnswer | agents/disease_info_agent.py:124-148 | a Bing result whose web page has no name (its title is `None`, tools/medical_search_tools.py:92) among the first three makes the preview raise, so the pipeline's answer is dropped and the model is asked with no context |
| DiseaseInfo.ModelCalls | agents/disease_info_agent.py:150-158 | the agent's model is asked at most once, exactly when no pipeline answer is used (no pipeline, a raising one, or a raising preview), with the query and the context or `Using general medical knowledge.` |
| DiseaseInfo.ResultsFor | agents/disease_info_agent.py:174-188 | the results hold the query and an analysis that is also the formatted response; `rag_used` is set exactly when the pipeline's answer is used (not after a raising preview), and then it is the analysis with its search results; otherwise the run raises exactly when the model raises, and the model's reply is the analysis |
| DiseaseInfo.DiseaseInfoAgent.constructor | agents/disease_info_agent.py:23-42 | the agent keeps its model and its optional pipeline (`None` when the pipeline could not be built) |
| DiseaseInfo.DiseaseInfoAgent.PipelineView | agents/disease_info_agent.py:109-117 | the pipeline is asked exactly when the agent has one; a reply carries an answer and the combined search results |
| DiseaseInfo.DiseaseInfoAgent.ViewIn | agents/disease_info_agent.py:117 | the same, for a given state of the search tools |
| DiseaseInfo.DiseaseInfoAgent.PipelineAnswerUsed | agents/disease_info_agent.py:117-154 | with a pipeline that answers and results that preview without raising, the answer is the analysis with `rag_used`, and the agent's model is not asked; without a pipeline, when it raises, or when the preview raises, the model is asked once with `Using general medical knowledge.` and `rag_used` is not set |
| DiseaseInfo.DiseaseInfoAgent.ConsultPipeline | agents/disease_info_agent.py:109-148 | the call returns the pipeline's reply or its caught exception, and leaves the pipeline's state as a web search of the query does |
| DiseaseInfo.DiseaseInfoAgent.ProcessQuery | agents/disease_info_agent.py:90-98 | the stage records the query and nothing else |
| DiseaseInfo.DiseaseInfoAgent.AnalyzeInfo | agents/disease_info_agent.py:100-163 | the stage stores the pipeline's answer with its results when the preview does not raise, or asks the model with the right context and stores its reply, failing exactly when the model raises |
| DiseaseInfo.DiseaseInfoAgent.AnalyzeWith | agents/disease_info_agent.py:119-163 | the part after the pipeline call: preview the results, then use the answer or ask the model, leaving the pipeline untouched |
| DiseaseInfo.DiseaseInfoAgent.FormatResponse | agents/disease_info_agent.py:165-172 | the formatted response is the analysis |
| DiseaseInfo.DiseaseInfoAgent.Process | agents/disease_info_agent.py:174-188 | `process` returns ResultsFor the pipeline's reply (with the preview's fallback), the model is sent exactly ModelCalls, and the pipeline ends as one web search of the query leaves it |
| Ehr.DigitRun | agents/ehr_agent.py:136 | the run of digits from `k` ends at the first non-digit or the end, and holds only digits |
| Ehr.DigitRunMaximal | agents/ehr_agent.py:136 | any maximal run of digits from `k` is the one DigitRun finds |
| Ehr.TokenEndsAtRun | agents/ehr_agent.py:136 | a match of `\bP\d+\b` starting at `i` can only end where the digits after the `P` end |
| Ehr.TokenEnd | agents/ehr_agent.py:136 | a match found at `i` is a whole-word `P<digits>` match (either case), and none is reported only when no match starts at `i` |
| Ehr.FirstToken | agents/ehr_agent.py:136 | `re.search` finds the leftmost match at or after `k`: no match starts earlier, and none is reported only when no match starts anywhere |
| Ehr.PastColon | agents/ehr_agent.py:140 | skipping the optional `:` after a match stays within the query |
| Ehr.Cleaned | agents/ehr_agent.py:140 | the substitution never lengthens the text |
| Ehr.CleanedKeepsPlainText | agents/ehr_agent.py:140 | the text before the next match is kept as it is |
| Ehr.CleanedWithoutTokens | agents/ehr_agent.py:140 | a query without a match comes out unchanged |
| Ehr.CleanedAtFirstToken | agents/ehr_agent.py:140 | the first match and its `:` are removed, what precedes it is kept, and the rest is cleaned in turn |
| Ehr.UpperToken | agents/ehr_agent.py:138 | the matched id upper-cased is `P` followed by its digits |
| Ehr.RequestFields | agents/ehr_agent.py:128-145 | without a `|` the query type is never empty |
| Ehr.BarRequest | agents/ehr_agent.py:128-131 | only the first `|` splits: the id is the stripped text before it and the query type the stripped rest, which may contain further `|` and may be empty |
| Ehr.TokenRequest | agents/ehr_agent.py:135-141 | with a match and no `|`, the id is the first match upper-cased and the query type is the stripped query without its matches, or `summary` when nothing is left |
| Ehr.PlainRequest | agents/ehr_agent.py:142-145 | with neither a `|` nor a match, the id is the whole stripped query and the query type `summary` |
| Ehr.BareIdRequest | tests/test_ehr_agent.py:56-57 | the query `P123` is the summary request of `P123` |
| Ehr.Bullets | agents/ehr_agent.py:347-348 | one bullet line per item |
| Ehr.BulletAt | agents/ehr_agent.py:348 | the `i`-th bullet line is `  - ` and the `i`-th item |
| Ehr.VitalLines | agents/ehr_agent.py:361-362 | one line per vital sign |
| Ehr.Section | agents/ehr_agent.py:344-369 | a section is absent when its list is empty, else its title followed by its lines |
| Ehr.RecordTextShowsBasics | agents/ehr_agent.py:339-341 | the layout of a non-empty record shows `Patient: `, `Age: ` and `Gender: ` with the value or `Unknown` |
| Ehr.RecordTextShowsEach | agents/ehr_agent.py:343-369 | the layout shows every item it iterates on a bullet line of its own: each condition, each medication, and each allergy of a list or each character of an allergy text (tests/test_ehr_agent.py:149-154) |
| Ehr.ConditionShown | agents/ehr_agent.py:344-348 | every condition is shown as a bullet line |
| Ehr.MedicationShown | agents/ehr_agent.py:351-355 | every medication is shown as a bullet line |
| Ehr.AllergyShown | agents/ehr_agent.py:365-369 | every item the `for allergy in allergies` loop visits is shown as a bullet line; for the mock store's list (`["Penicillin"]`) that is every allergy |
| Ehr.ItemsOf | agents/ehr_agent.py:364-366 | the items the layouts iterate are empty exactly when the stored value is falsy (missing, `None`, an empty list or an empty text), so a section or summary part is written exactly when the source's `if` lets it through |
| Ehr.AllergyTextChars | agents/ehr_agent.py:364-369 | an allergy text of n characters gives n bullet lines, line i being `  - ` and the i-th character, all in the record text; a non-empty text gives the last summary part `Allergies: ` and its characters joined by `, `, an empty one no part |
| Ehr.NoneSpelledOut | agents/ehr_agent.py:364-369 | the text `None` that the sample patients `P002` and `12345` carry (data/init_db.py:89,91) is laid out as `\nAllergies:`, `  - N`, `  - o`, `  - n`, `  - e` and summarised as `Allergies: N, o, n, e` |
| Ehr.IntendedAllergies | agents/ehr_agent.py:364-369 | corrected reading of the allergies: a non-empty text is one allergy, a list is read as the source reads it, and the result is empty exactly when the value is falsy |
| Ehr.IntendedAllergyText | agents/ehr_agent.py:364-369 | with the correction, a non-empty allergy text is the one bullet line under `\nAllergies:`, is in the record text, and is in the summary as `Allergies: ` and the text |
| Ehr.IntendedElsewhereAsWritten | agents/ehr_agent.py:364-369 | the correction changes only records whose allergies are a text: otherwise both the record text and the summary are the source's |
| Ehr.SummaryPartsShape | agents/ehr_agent.py:196-209 | name, age and gender always lead (as `Unknown` when missing), then one part per truthy value in the order conditions, medications, allergies, each its items joined by `, ` (the characters, for an allergy text) |
| Ehr.SummaryShowsEachPart | agents/ehr_agent.py:211 | every part is in the summary joined by ` \| ` |
| Ehr.NotFoundNames | agents/ehr_agent.py:228 | the not-found text names the id asked for and the known ids `P001, P002, P003, P004` |
| Ehr.HistoryTextFirstThree | agents/ehr_agent.py:270-273 | documents after the third never reach the historical context |
| Ehr.AnalysisPrompt | agents/ehr_agent.py:278-285 | the summary prompt is chosen exactly when the query type lower-cased is `summary` |
| Ehr.RetrievalOf | agents/ehr_agent.py:155-190 | the status is `success` exactly when the fetch returned (a `None` record included); an exception gives `error`, no record and its text |
| Ehr.PlanForCases | agents/ehr_agent.py:218-285 | a failed fetch and a missing or error record give fixed texts; otherwise the model or the pipeline answers; a pipeline answer is used only for non-summary requests, and a summary request asks for the summary of the layout |
| Ehr.HistoryNeverAsked | agents/ehr_agent.py:236-285 | a non-summary question whose pipeline call fails or gives no answer reaches the model with `No historical context available.`, since the handler skips the documents |
| Ehr.ResponseOf | agents/ehr_agent.py:307-329 | the response copies id, query type, status and analysis, and has a patient summary exactly when a truthy record is present, with the record's name (tests/test_ehr_agent.py:99-100) |
| Ehr.Fetched | agents/ehr_agent.py:149-192 | the fetch stage records the status and the record RetrievalOf gives |
| Ehr.FetchedRetrieval | agents/ehr_agent.py:218-224 | the analysis stage reads back exactly the retrieval the fetch stage wrote |
| Ehr.Asked | agents/ehr_agent.py:287-290 | the agent's model is asked exactly when the plan is to ask it |
| Ehr.Analysed | agents/ehr_agent.py:213-305 | the analysis raises exactly when the model it asks raises; it changes only the analysis and the RAG fields, storing the fixed text, the model's reply, or the pipeline's answer with `rag_used` and its context |
| Ehr.RunShape | agents/ehr_agent.py:373-387 | a run asks the model at most once and never after a failed fetch or a missing record; it raises exactly when that call raises; the results hold the query, the parsed id and query type, a status that is `success` exactly when the fetch returned, and the response built from them |
| Ehr.FailedFetchResults | agents/ehr_agent.py:187-220 | a failing fetch gives status `error`, no record, its message in the analysis, no model call and no summary view |
| Ehr.NotFoundResults | agents/ehr_agent.py:226-229 | a missing or error record gives the not-found text naming the id and the known ids, with no model call (tests/test_ehr_agent.py:123-127) |
| Ehr.SummaryResults | agents/ehr_agent.py:278-293 | a summary request for a found record asks the model once with the summary prompt of its layout, whatever memory holds, and the reply is the analysis |
| Ehr.PipelineResults | agents/ehr_agent.py:248-266 | a pipeline answer is stored as the analysis with `rag_used` and its context, with no call of the agent's model |
| Ehr.SessionsAfter | agents/ehr_agent.py:295-303 | logging the exchange keeps the session store well formed |
| Ehr.SavedRecords | agents/ehr_agent.py:161-185 | a truthy fetched record's summary is added to long-term memory unless adding it to the index raises; a failed fetch, a falsy record or that failure leaves the documents as they were (a failure to persist comes after the document is added, and is caught) |
| Ehr.EhrAgent.constructor | agents/ehr_agent.py:25-49 | the agent keeps its model, store and memory and is valid |
| Ehr.EhrAgent.ReplyWith | agents/ehr_agent.py:236-275 | memory is consulted exactly when the agent has it, and its pipeline only for non-summary requests |
| Ehr.EhrAgent.ReplyGiven | agents/ehr_agent.py:236-275 | the same, for a given state of the pipeline's own memory |
| Ehr.EhrAgent.FormatPatientData | agents/ehr_agent.py:331-371 | the sections loop builds RecordText, for an allergy list or an allergy text alike |
| Ehr.EhrAgent.AppendVitals | agents/ehr_agent.py:358-362 | the vitals loop appends the titled vital-sign lines, or nothing when there are none |
| Ehr.EhrAgent.AppendBullets | agents/ehr_agent.py:344-369 | each list loop appends its titled bullet lines, or nothing when the list is empty |
| Ehr.EhrAgent.CreatePatientSummary | agents/ehr_agent.py:194-211 | the summary is PatientSummary, for an allergy list or an allergy text alike |
| Ehr.EhrAgent.BuildHistoryContext | agents/ehr_agent.py:270-273 | the `context_text +=` loop builds HistoryText |
| Ehr.EhrAgent.ParseRequest | agents/ehr_agent.py:118-147 | the stage records the query and the id and query type of RequestFields |
| Ehr.EhrAgent.RetrieveData | agents/ehr_agent.py:149-192 | the stage records the retrieval; with memory the long-term documents are SavedRecords and the sessions are unchanged |
| Ehr.EhrAgent.PlanAnalysis | agents/ehr_agent.py:217-285 | the branch taken is PlanFor of the request, the retrieval and memory's reply, and the pipeline's model is sent exactly its calls |
| Ehr.EhrAgent.ConsultMemory | agents/ehr_agent.py:234-273 | for a found record, the pipeline's answer is taken for a request other than a summary request; otherwise the plan asks with the history context, or with none when the pipeline raised; the result is PlanFor, and the pipeline's model is sent exactly its calls |
| Ehr.EhrAgent.AnalyzeData | agents/ehr_agent.py:213-305 | the agent's model is sent exactly the planned prompt; the stage fails exactly when that call raises, else the results are Analysed; long-term documents are unchanged and the session gains the logged exchange |
| Ehr.EhrAgent.ApplyPlan | agents/ehr_agent.py:263-305 | storing the plan's outcome: a fixed text, the pipeline's answer or the model's reply, with the session log of SessionsAfter |
| Ehr.EhrAgent.AskModel | agents/ehr_agent.py:287-303 | one model call with the planned prompt; the exchange is logged in the id's session unless the write fails |
| Ehr.EhrAgent.FormatResponse | agents/ehr_agent.py:307-329 | the stage records ResponseOf the results |
| Ehr.EhrAgent.ParseAndFetch | agents/ehr_agent.py:118-192 | after parsing and fetching, the results, the long-term documents and the plan are those of a run for the query |
| Ehr.EhrAgent.ParseFetchAnalyze | agents/ehr_agent.py:118-305 | after analysis the results are Analysed under the run's plan, or the model's exception, and memory is as a run leaves it |
| Ehr.EhrAgent.Process | agents/ehr_agent.py:373-387 | `process` returns ResultsFor the query, the fetched record and memory's reply; the model is sent exactly CallsFor; the memory manager ends with the run's documents and sessions, and the pipeline's model with the run's prompts (MemoryStateAfter) |
| Appointment.RequestFields | agents/appointment_agent.py:96-106 | a query with a `|` gives a patient id and details that are trimmed and hold no `|`, and an action with no `|`; a query without one is a `schedule` request with no patient id whose details are the whole query |
| Appointment.ParseRequestRoundTrip | agents/appointment_agent.py:98-102 | writing trimmed fields (lower-case action) as `action|patient_id|details` and parsing the query gives the same three fields back |
| Appointment.ParseRequestIgnoresRest | agents/appointment_agent.py:99-102 | fields after the third do not change the parsed request |
| Appointment.FirstNamedMonth | agents/appointment_agent.py:207-208 | the month found is the first, in calendar order, whose `last week of` or `end of` phrase the query holds, and none is found only when no month from there on is named |
| Appointment.LastWeekOf | agents/appointment_agent.py:219-224 | the last week of a month is the seven valid dates ending on its last day |
| Appointment.WholeMonth | agents/appointment_agent.py:257-260 | `next month` covers the 1st to the last day of one month: valid dates, DaysInMonth days apart less one |
| Appointment.NextWeek | agents/appointment_agent.py:194-197 | `next week` is a Monday strictly after today and at most seven days on, through the Sunday six days later |
| Appointment.ThisWeek | agents/appointment_agent.py:265-268 | `this week` is the Monday on or before today through the Sunday on or after it |
| Appointment.AddDaysCompose | agents/appointment_agent.py:196-197 | moving a date by `a` then `b` days equals moving it by `a + b` days |
| Appointment.DateWindow | agents/appointment_agent.py:188-271 | every window the parser returns is two valid dates, the first not after the second, both within year 9999 |
| Appointment.NamedMonthAhead | agents/appointment_agent.py:209-217 | the year chosen for a named month puts the start of its last week after today (the month is skipped to next year once it is past, or past the 21st) |
| Appointment.NextMonthAhead | agents/appointment_agent.py:250-256 | the month after today's month, rolling December into January of the next year, starts after today |
| Appointment.NamedMonthWindow | agents/appointment_agent.py:207-224 | without `next week`, the first named month in calendar order decides the window: the last seven days of that month in the chosen year |
| Appointment.OpenDays | agents/appointment_agent.py:288 | no more days are open than there are days |
| Appointment.SlotsOfCount | agents/appointment_agent.py:285-316 | four slots for every weekday and none for Saturday or Sunday |
| Appointment.SlotsOfAt | agents/appointment_agent.py:288-314 | the `k`-th slot is on a weekday of the walk, at the `k mod 4`-th of 09:00 AM, 11:00 AM, 02:00 PM, 04:00 PM, lasts `30 min` and is available |
| Appointment.WindowDays | agents/appointment_agent.py:285-316 | walking `n` days gives `n` days |
| Appointment.WindowDayAt | agents/appointment_agent.py:285-316 | the `i`-th day walked is the date `i` days after the start |
| Appointment.SlotsFromStep | agents/appointment_agent.py:285-316 | a walk is its first day's slots followed by the walk from the next day |
| Appointment.SlotAt | agents/appointment_agent.py:285-316 | every slot of a walk is on a weekday within the walked days, at the `k mod 4`-th slot time, `30 min`, available |
| Appointment.WeekdaysFromMod | agents/appointment_agent.py:288 | how many weekdays a run of days holds depends only on the weekday it starts on |
| Appointment.SevenDaySlots | agents/appointment_agent.py:194-197 | any seven consecutive days hold exactly twenty slots |
| Appointment.FiveDaySlots | agents/appointment_agent.py:280-283 | any five consecutive days hold between twelve and twenty slots |
| Appointment.AtMaxDate | agents/appointment_agent.py:285-316 | the only accepted date not before 9999-12-31 is that day, where the walk's `+ timedelta(days=1)` would overflow |
| Appointment.MockWindow | agents/appointment_agent.py:276-283 | the walk runs over valid dates; without a window it runs from tomorrow to five days on |
| Appointment.SlotLines | agents/appointment_agent.py:326-329 | one line per slot, in order, each `date at time (duration)` |
| Appointment.SlotsTextShowsEach | agents/appointment_agent.py:320-331 | every slot's line is in the formatted text |
| Appointment.SlotsTextLines | agents/appointment_agent.py:331 | when no slot holds a newline, splitting the text at newlines gives back the slot lines |
| Appointment.IsoDateOneLine | agents/appointment_agent.py:290-313 | a formatted date holds no newline |
| Appointment.MockSlotsOneLineEach | agents/appointment_agent.py:320-331 | the generated slots format as exactly one line each |
| Appointment.MockSlotsOfWindow | agents/appointment_agent.py:276-316 | a window of two formatted dates yields every slot of the days from the first date through the second |
| Appointment.DefaultMockSlots | agents/appointment_agent.py:280-316 | without a window the generator returns between twelve and twenty slots (the test at tests/test_appointment_agent.py:105-107 asks for more than none and at most twenty) |
| Appointment.PatientInfoShows | agents/appointment_agent.py:139-146 | the patient information shows the patient line, `Today's date: ` with today and, when there is a window, `Requested date range: a to b` |
| Appointment.AppointmentPrompt | agents/appointment_agent.py:148-160 | the rescheduling prompt is chosen exactly when the action is `reschedule`, with the fixed previous-appointment text, the slot text and the details as reason; otherwise the scheduling prompt carries the details, the slot text and patient information showing the patient, today and the window |
| Appointment.Flatten | agents/appointment_agent.py:174-180 | `results.get(key)` yields a value exactly when the key is present with a value that is not `None` |
| Appointment.CallsFor | agents/appointment_agent.py:162-165 | a run asks the model once, unless generating the slots raised |
| Appointment.ResultsFor | agents/appointment_agent.py:333-347 | `process` raises exactly when slot generation or the model raises; otherwise the results hold the query, today's date and the formatted response with the parsed action and patient id, the slots, the model's reply and status `processed` |
| Appointment.NextWeekSlots | agents/appointment_agent.py:194-197 | a `next week` request is offered twenty slots and the model is asked once |
| Appointment.DefaultWindowSlots | agents/appointment_agent.py:280-283 | a request with no date phrase is offered between twelve and twenty slots |
| Appointment.AppointmentAgent.constructor | agents/appointment_agent.py:18-68 | the agent keeps the model it is given |
| Appointment.AppointmentAgent.GenerateMockSlots | agents/appointment_agent.py:273-318 | the slots generated, or the exception raised, are those MockSlots specifies |
| Appointment.AppointmentAgent.WalkDays | agents/appointment_agent.py:285-316 | the `while current_date <= end_date` loop returns the slots of every day from start through end |
| Appointment.AppointmentAgent.FormatSlots | agents/appointment_agent.py:320-331 | the loop's text is SlotsText: `No available slots` for none, else the slot lines joined by newlines |
| Appointment.AppointmentAgent.ParseRequest | agents/appointment_agent.py:89-113 | the stage records the query, the action, patient id and details of RequestFields, the parsed date window and today's date, and changes no other result |
| Appointment.AppointmentAgent.CheckAvailability | agents/appointment_agent.py:115-125 | the stage fails exactly when slot generation raises, with its message and the results unchanged; otherwise it records the slots for the recorded window |
| Appointment.AppointmentAgent.ProcessAppointment | agents/appointment_agent.py:127-170 | the stage sends exactly one prompt, the one PromptOf gives for the results so far; it fails exactly when the model raises, else it records the reply |
| Appointment.AppointmentAgent.FormatResponse | agents/appointment_agent.py:172-186 | the stage records the formatted response built from the action, patient id, slots and reply, with status `processed` |
| Appointment.AppointmentAgent.Process | agents/appointment_agent.py:333-347 | `process` returns ResultsFor of the query, today and the model, and the model is sent exactly CallsFor |
| Rag.ContextTextShowsEachRecord | core/rag_pipeline.py:147-151 | every retrieved record reaches the prompt as `[type] content`, with `info` when it has no type |
| Rag.ResultBlocks | core/rag_pipeline.py:202-208 | one block per search result, in order |
| Rag.ResultsTextShowsEachResult | core/rag_pipeline.py:202-208 | every search result reaches the prompt with its source, title, summary and URL (`Unknown` or `N/A` when missing) |
| Rag.Answered | core/rag_pipeline.py:159-171 | the model's exception propagates; its reply becomes the answer |
| Rag.PatientContextAnswer | core/rag_pipeline.py:116-171 | a failed retrieval propagates; no records give the fixed `No patient context found` answer with no context; otherwise the reply to the one prompt is the answer and the records are its context |
| Rag.WebAnswerFor | core/rag_pipeline.py:173-222 | no search results give the fixed `No relevant medical information found` answer; otherwise one prompt, and the answer carries the very results |
| Rag.CombinedAnswerFor | core/rag_pipeline.py:282-302 | the combined answer carries the retrieved records and the search results, and raises exactly when the model raises on the combined prompt |
| Rag.PatientSectionCases | core/rag_pipeline.py:244-262 | with no patient or an empty id the section is `No patient context provided.` whatever the records; with records it shows every one of them |
| Rag.HistorySummaryFor | core/rag_pipeline.py:304-357 | a failed retrieval propagates; no records give `No medical history found for patient <id>.`; otherwise the model's reply to one prompt |
| Rag.RagPipeline.constructor | core/rag_pipeline.py:20-58 | the pipeline keeps its model, memory manager and search tools |
| Rag.RagPipeline.QueryWithPatientContext | core/rag_pipeline.py:116-171 | the result is PatientContextAnswer of the memory manager's retrieval for the id, and the model is sent exactly its prompts |
| Rag.RagPipeline.QueryWithWebSearch | core/rag_pipeline.py:173-222 | the result is WebAnswerFor the combined search results; the model is sent exactly its prompts; the search tools end as one combined search leaves them |
| Rag.RagPipeline.QueryWithCombinedRag | core/rag_pipeline.py:224-302 | a failing retrieval ends the call with its exception before any search or model call; otherwise one combined search and one prompt, and the answer is CombinedAnswerFor |
| Rag.RagPipeline.SearchAndAsk | core/rag_pipeline.py:264-302 | the search and the single model call once the records are in hand |
| Rag.RagPipeline.SummarizePatientHistory | core/rag_pipeline.py:304-357 | the result is HistorySummaryFor the twenty records retrieved with the focus or the default history query, and the model is sent exactly its prompts |
| Rag.WebAnswerRanked | core/rag_pipeline.py:188-192 | a web answer's results are ranked by source trust, at most `max_results` of them, all taken from the three search tools |
| MemoryStore.Without | core/memory_manager.py:234-235 | the key order without the deleted key holds exactly the other keys |
| MemoryStore.Put | core/memory_manager.py:199-205 | `d[key] = e` sets that entry; an existing key keeps its place in the insertion order, a new key goes last |
| MemoryStore.Delete | core/memory_manager.py:232-235 | `del d[key]` removes exactly that key when present and changes nothing otherwise |
| MemoryStore.AddInteraction | core/memory_manager.py:187-205 | adding keeps the session map well formed |
| MemoryStore.MergeSummary | core/memory_manager.py:286-295 | the update keeps the session map well formed |
| MemoryStore.AddAppends | core/memory_manager.py:199-205 | the interaction, stamped with the time, is appended to the id's list (created empty for a new id, which then comes last); every other id keeps its entry |
| MemoryStore.AddThenGet | core/memory_manager.py:187-230 | reading the session back after adding gives the old list followed by the stamped interaction |
| MemoryStore.AddToSummaryFails | core/memory_manager.py:203-205 | appending to the dictionary entry `update_patient_summary` leaves raises and changes nothing |
| MemoryStore.GetLastN | core/memory_manager.py:222-230 | a positive `last_n` gives the last `min(last_n, len)` interactions in order; `None` or `0` gives them all |
| MemoryStore.ClearIdempotent | core/memory_manager.py:232-235 | clearing removes exactly that id, reading it back gives `[]`, and clearing twice is clearing once |
| MemoryStore.MergeSummaryCases | core/memory_manager.py:286-295 | an absent id gets the updates as a dictionary; a dictionary entry is merged with them; a non-empty list gets them appended; an empty list stays as it is; other ids are untouched |
| MemoryStore.IdsAreKeys | core/memory_manager.py:237-239 | the listed ids are exactly the session keys, each once, so their number is the number of sessions |
| MemoryStore.SummaryMetadata | core/memory_manager.py:91-98 | the stored metadata has `patient_id`, `timestamp` and `type`, with the caller's metadata overriding them |
| MemoryStore.HistoryRecords | core/memory_manager.py:126-141 | one document per chunk, holding the chunk and the id, time, type, chunk index and chunk count |
| MemoryStore.HistoryChunksNumbered | core/memory_manager.py:129-141 | the chunks share the id and the type and are numbered 0, 1, ... out of the number of chunks |
| MemoryStore.Hits | core/memory_manager.py:169-183 | the hits are stored documents that pass the filter, no more than the ranked positions |
| MemoryStore.SimilaritySearch | core/memory_manager.py:169-183 | a search returns at most `k` stored documents that pass the filter, and raises exactly when the ranking raises |
| MemoryStore.PatientContext | core/memory_manager.py:149-185 | retrieval returns at most `k` stored documents, all of that patient |
| MemoryStore.KeepOwned | core/memory_manager.py:261-265 | the export keeps exactly the documents whose `patient_id` is the id |
| MemoryStore.TaggedLines | core/memory_manager.py:348-352 | one `[type] content` line per document, in order |
| MemoryStore.SummaryTextShape | core/memory_manager.py:343-354 | no documents give `No memory found for patient <id>`; a document without a type is tagged `unknown` |
| MemoryStore.MemoryManager.constructor | core/memory_manager.py:23-46 | the manager starts with no sessions and the documents already persisted |
| MemoryStore.MemoryManager.SavePatientSummary | core/memory_manager.py:77-110 | one document with the summary and SummaryMetadata is added unless `add_documents` raises, which adds nothing; the outcome is the first failure of `add_documents` and `save_local`; sessions are untouched |
| MemoryStore.MemoryManager.SaveMedicalHistory | core/memory_manager.py:112-147 | the documents of HistoryRecords are added unless `add_documents` raises, which adds nothing; the outcome is the first failure of `add_documents` and `save_local`; sessions are untouched |
| MemoryStore.MemoryManager.WriteOutcome | core/memory_manager.py:106-110 | a save succeeds exactly when neither `add_documents` nor `save_local` raises, and reports the first that does |
| MemoryStore.MemoryManager.RetrievePatientContext | core/memory_manager.py:149-185 | retrieval returns at most `k` of the manager's documents, all of that patient |
| MemoryStore.MemoryManager.AddToSessionMemory | core/memory_manager.py:187-205 | the sessions and outcome are AddInteraction's; documents are untouched |
| MemoryStore.MemoryManager.GetSessionMemory | core/memory_manager.py:207-230 | an unknown id gives `[]`; without `last_n` the whole entry |
| MemoryStore.MemoryManager.ClearSessionMemory | core/memory_manager.py:232-235 | the sessions lose exactly that id; documents are untouched |
| MemoryStore.MemoryManager.GetAllPatientIds | core/memory_manager.py:237-239 | the ids listed are exactly the session ids, each once |
| MemoryStore.MemoryManager.ExportPatientData | core/memory_manager.py:241-273 | the export names the id, holds its session entry or `[]`, and only stored documents of exactly that id; a failed search exports none |
| MemoryStore.MemoryManager.UpdatePatientSummary | core/memory_manager.py:275-302 | for a dictionary of updates (distinct keys, in order), the sessions change as MergeSummary says; the result is `True` exactly when adding and persisting the document succeed; unless adding raises, one document holding `json.dumps(updates)` (escaped as JsonEscape says) is added |
| MemoryStore.MemoryManager.SearchSimilarCases | core/memory_manager.py:304-331 | at most `k` stored documents, all of the given type when one is given |
| MemoryStore.MemoryManager.GetPatientSummaryText | core/memory_manager.py:333-354 | the text is SummaryText of the ten documents retrieved for the id, or the retrieval's exception |
| MemoryStore.MemoryManager.GetMemoryStats | core/memory_manager.py:375-389 | the counts are the stored documents and the active sessions, with the directory and `models/embedding-001` |
| MemoryStore.MemoryManager.ClearMemory | core/memory_manager.py:391-414 | no sessions and no stored documents remain |
| MedicalSearch.CacheKeyOrderFree | tools/medical_search_tools.py:23-25 | the same keyword arguments in any order give the same cache key (`sort_keys=True`) |
| MedicalSearch.CacheKeyListsSortedArguments | tools/medical_search_tools.py:25 | the key lists every keyword argument exactly once, in ascending key order |
| MedicalSearch.ResultCache.constructor | tools/medical_search_tools.py:14-17 | a tool starts with an empty cache |
| MedicalSearch.ResultCache.Clear | tools/medical_search_tools.py:27-29 | `clear_cache` empties the cache |
| MedicalSearch.BingMock | tools/medical_search_tools.py:109-119 | the placeholder is a single result from `Mock Bing Search` |
| MedicalSearch.BingResultsShape | tools/medical_search_tools.py:89-97 | one result per item, each from `Bing Search` with the parse time; its title is the item's name, and `None` exactly when the item has no name |
| MedicalSearch.BingSearchTool.constructor | tools/medical_search_tools.py:38-42 | the tool keeps its key, starts with an empty cache and has sent nothing |
| MedicalSearch.BingSearchTool.Search | tools/medical_search_tools.py:44-107 | the result, the cache afterwards and the requests sent are those Answer, CacheAfter and Sent give for the cache before the call; fetched items are parsed by BingResults and cached as parsed |
| MedicalSearch.BingSearchTool.ParseItems | tools/medical_search_tools.py:89-97 | the `results.append` loop builds BingResults of the answer's items |
| MedicalSearch.BingWithoutKey | tools/medical_search_tools.py:63-65 | without a key the placeholder is returned, nothing is cached and nothing is sent |
| MedicalSearch.BingCacheHit | tools/medical_search_tools.py:67-71 | a cached query is answered from the cache, which stays as it is, and nothing is sent |
| MedicalSearch.MedlineMock | tools/medical_search_tools.py:249-262 | the placeholder is a single article from `Mock PubMed/Medline` |
| MedicalSearch.FormatAuthors | tools/medical_search_tools.py:236-247 | `Unknown` for no authors; otherwise the join of the first three names, which raises `TypeError` exactly when one of those names is present and is not text |
| MedicalSearch.AuthorNames | tools/medical_search_tools.py:241 | one raw name per author: its `name` value, or `""` when it has none |
| MedicalSearch.JoinText | tools/medical_search_tools.py:242 | `", ".join` raises exactly when an item is not text, and otherwise joins the texts |
| MedicalSearch.FormatAuthorsNames | tools/medical_search_tools.py:241-242 | up to three authors with text names, or none, read as those names joined by `, ` |
| MedicalSearch.FormatAuthorsNullName | tools/medical_search_tools.py:241-242 | a shown author whose name is JSON `null` makes the join raise |
| MedicalSearch.FormatAuthorsEtAl | tools/medical_search_tools.py:241-245 | a list of more than three authors raises exactly when its first three do, and otherwise reads as them followed by ` et al.` |
| MedicalSearch.FormatAuthorsIgnoresRest | tools/medical_search_tools.py:241 | authors after the third never change the text |
| MedicalSearch.Snippet | tools/medical_search_tools.py:221 | `title[:200]` keeps the first 200 characters of a text or items of a list, and raises for any other value |
| MedicalSearch.ArticleResult | tools/medical_search_tools.py:214-224 | an article's result raises exactly when formatting its authors or slicing its title does; otherwise it carries the title, the formatted authors, the pmid's URL, the snippet, the stamp and the source `PubMed/Medline` |
| MedicalSearch.Built | tools/medical_search_tools.py:211-213 | each id gives nothing when it has no article, and otherwise its ArticleResult |
| MedicalSearch.Collect | tools/medical_search_tools.py:210-224 | the append loop keeps at most one value per step, each one a step's value |
| MedicalSearch.CollectRaise | tools/medical_search_tools.py:210-224 | the loop raises exactly when one of its steps raises |
| MedicalSearch.CollectAll | tools/medical_search_tools.py:210-224 | when every step gives a value, the loop gives all of them in order |
| MedicalSearch.ParsedArticles | tools/medical_search_tools.py:210-224 | a parse that returns has at most one result per id, each from `PubMed/Medline` |
| MedicalSearch.ParsedArticlesRaise | tools/medical_search_tools.py:210-224 | the parse raises exactly when some present article's result raises |
| MedicalSearch.ParsedArticlesAll | tools/medical_search_tools.py:210-224 | when every id has an article and none raises, the results are the articles' results in the order of the ids |
| MedicalSearch.MedlineSearchTool.constructor | tools/medical_search_tools.py:128-132 | the tool keeps its key and e-mail, starts with an empty cache and has sent nothing |
| MedicalSearch.MedlineSearchTool.Search | tools/medical_search_tools.py:134-234 | the result, the cache afterwards and the requests sent are those Answer, CacheAfter and Sent give for the cache before the call; fetched summaries are parsed by ParsedArticles, cached only when the parse returns, and a raising parse falls back to the placeholder |
| MedicalSearch.MedlineSearchTool.ParseSummaries | tools/medical_search_tools.py:210-224 | the `results.append` loop over the ids gives ParsedArticles of the summaries |
| MedicalSearch.MedlineFallbacks | tools/medical_search_tools.py:151-188 | without a key or an e-mail the placeholder is returned and nothing is cached or sent; a search that finds no ids returns `[]` and caches nothing |
| MedicalSearch.MedlineCacheHit | tools/medical_search_tools.py:156-160 | a cached query is answered from the cache, which stays as it is, and nothing is sent |
| MedicalSearch.MedlineParseFallsBack | tools/medical_search_tools.py:210-234 | an article that raises while its result is built is caught: the placeholder is returned and nothing is cached |
| MedicalSearch.MedlineNullAuthorFallsBack | tools/medical_search_tools.py:210-247 | a shown author whose name is JSON `null` sends the search to its placeholder |
| MedicalSearch.WhoEntry | tools/medical_search_tools.py:330-338 | a curated entry's source is `WHO` |
| MedicalSearch.WhoGeneric | tools/medical_search_tools.py:341-348 | the generic entry's source is `WHO` |
| MedicalSearch.WhoSlug | tools/medical_search_tools.py:344 | the URL slug is the query lower-cased with each space turned into `-`, character by character |
| MedicalSearch.WhoMatches | tools/medical_search_tools.py:326-338 | the matched topics are WHO entries, at most one per topic |
| MedicalSearch.WhoResources | tools/medical_search_tools.py:305-350 | every resource is a WHO entry, and there are at most `max_results` of them |
| MedicalSearch.WhoMatchesNone | tools/medical_search_tools.py:330-331 | no topic in the query gives no curated entry |
| MedicalSearch.WhoResourcesCases | tools/medical_search_tools.py:308-348 | a query naming diabetes gets the diabetes fact sheet first; a query naming no topic gets the generic entry alone |
| MedicalSearch.GetWhoResources | tools/medical_search_tools.py:326-350 | the loop over the curated table returns WhoResources |
| MedicalSearch.WhoSearchTool.constructor | tools/medical_search_tools.py:271-274 | the tool starts with an empty cache and the curated table |
| MedicalSearch.WhoSearchTool.Search | tools/medical_search_tools.py:276-303 | the result is the cached one or the computed one, which is then always cached |
| MedicalSearch.Rank | tools/medical_search_tools.py:416-423 | a rank is 0, 1 or 2 |
| MedicalSearch.RankOfSources | tools/medical_search_tools.py:416-423 | WHO entries rank 0, PubMed's articles and placeholder 1, Bing results and the Bing placeholder 2 |
| MedicalSearch.OfRank | tools/medical_search_tools.py:425 | the results of one rank, taken from the list |
| MedicalSearch.OfRankSplit | tools/medical_search_tools.py:425 | the three ranks between them hold every result exactly once |
| MedicalSearch.RankSort | tools/medical_search_tools.py:425 | sorting by rank reorders the results without losing or adding any |
| MedicalSearch.RankSortStable | tools/medical_search_tools.py:425 | the sort keeps the order of results of equal rank, as Python's sort does |
| MedicalSearch.RankSortAt | tools/medical_search_tools.py:425 | the rank at each index of the sorted list |
| MedicalSearch.RankSortSpec | tools/medical_search_tools.py:425 | the sorted list is a permutation of the input, ascends by rank and keeps the order of equal ranks |
| MedicalSearch.RankSortUnique | tools/medical_search_tools.py:425 | any ordering that ascends by rank and keeps the order of equal ranks is the sorted list |
| MedicalSearch.Combine | tools/medical_search_tools.py:408-427 | the combined list has `max_total_results` results, or all of them when there are fewer, and is a prefix of the ranked Bing, Medline and WHO results |
| MedicalSearch.CombineSpec | tools/medical_search_tools.py:408-427 | the combined list ascends by rank and holds no result none of the tools returned |
| MedicalSearch.MedicalSearchAggregator.constructor | tools/medical_search_tools.py:359-368 | the aggregator keeps its three tools, whose caches are distinct |
| MedicalSearch.MedicalSearchAggregator.SearchAll | tools/medical_search_tools.py:370-391 | the three searches in order give AllAnswers, and the tools end in StateAfter |
| MedicalSearch.MedicalSearchAggregator.GetCombinedResults | tools/medical_search_tools.py:393-427 | the result is Combined, the ranked prefix of `search_all` with five results per tool, and the tools end as that search leaves them |
| MedicalSearch.MedicalSearchAggregator.ClearAllCaches | tools/medical_search_tools.py:429-433 | all three caches are empty |
| BaseAgent.LanguageModel.Invoke | agents/base_agent.py:20-23 | one model call: the prompt is logged and the oracle's reply or exception is returned |
| BaseAgent.AgentState.constructor | agents/base_agent.py:29-34 | a fresh state holds the given task queue and results, and no current task |
| Text.StripSpec | agents/appointment_agent.py:100-102 | `strip()` removes white space at both ends only: the text is white space, then the result, then white space, and the result starts and ends with no white space |
| Text.Split | agents/appointment_agent.py:99 | `split('|')` gives at least one field, two or more exactly when the separator occurs, fields without it, and joining them back gives the text |
| Text.SplitJoin | agents/appointment_agent.py:99 | splitting a join of separator-free fields gives the fields back |
| Text.SplitOnce | agents/ehr_agent.py:129 | `split('|', 1)` gives the text before the first separator and everything after it |
| Text.PyPrefix | tools/medical_search_tools.py:427 | `s[:n]` is a prefix of `s`, of length `n` capped at `len(s)` for `n >= 0` |
| Text.PyFrom | core/memory_manager.py:228 | `s[i:]` is a suffix of `s`, of the length Python gives for either sign of `i` |
| Calendar.DaysInMonth | agents/appointment_agent.py:220 | `calendar.monthrange(y, m)[1]` is 28 to 31, and February has 29 days exactly in a leap year |
| Calendar.MonthAfter | agents/appointment_agent.py:232-238 | the month after December is January of the next year; otherwise the next month of the same year |
| Calendar.AddDays | agents/appointment_agent.py:196 | `d + timedelta(days=n)` is the valid date `n` days on |
| Calendar.WeekdayAfter | agents/appointment_agent.py:195 | moving `n` days moves `weekday()` by `n` modulo 7 |
| Calendar.IsoRoundTrip | agents/appointment_agent.py:277-278 | `strptime` of a `strftime("%Y-%m-%d")` date gives the date back |
| Values.SortByKeyPermutation | tools/medical_search_tools.py:25 | the same keyword arguments given in any order sort to the same list |
| Values.JsonEscapeAscii | core/memory_manager.py:298 | `json.dumps` (with `ensure_ascii`) writes printable ASCII only: every other character is escaped |
| Values.JsonEscapePlain | core/memory_manager.py:298 | printable ASCII other than `"` and `\` is written as it is |
| Values.JsonEscapeAppend | core/memory_manager.py:298 | escaping works character by character: the escape of a concatenation is the concatenation of the escapes |
| Values.ReprPlain | agents/ehr_agent.py:361-362 | `repr` shows printable ASCII text without quotes or backslashes as it is, between single quotes |
| Values.ReprQuoteEscaped | agents/ehr_agent.py:361-362 | inside the quotes `repr` chooses, every occurrence of that quote character is escaped by a backslash |
| Values.Quoted | agents/ehr_agent.py:361-362 | each item of a list of strings shows as its `repr` |

## Left out

- Chat models, HTTP endpoints, the patient-record store, the FAISS similarity ranking and the text splitter are oracles.
  - Each is a function the model is given: `respond`, `fetch`, `store`, `ranking`, and chunk lists for `split_text`.
  - Network errors, JSON decoding and embeddings are therefore not modelled.
  - An exception of these calls is modelled as `Raised`.
- The wording of the prompt templates is left out. A prompt is modelled as a datatype constructor holding the template's variables.
- Where the current time is read, it is a `Clock` parameter: today's date, and the ISO timestamp text that `datetime.now()` would give.
  - `MemoryStore.MemoryManager.SaveMedicalHistory` stamps every chunk with that one text. The source reads the clock once per chunk (`core/memory_manager.py:134`), so its chunks may carry different times.
  - The Bing and PubMed parses likewise stamp every result with one text, where the source reads the clock once per result (`tools/medical_search_tools.py:96` and `:223`).
  - The agents require a date in years 2 to 9998, where their date arithmetic stays inside `datetime`'s range.
  - The appointment walk models the one `OverflowError` that can still occur, at 9999-12-31.
- `print` output, rate limiting (`RateLimitedLLM` in `agents/base_agent.py`), `time.sleep`, threading and the `aprocess` coroutines are left out.
  - The text printed is not modelled. What a print can raise is: the disease agent's preview of the first three search results (`agents/disease_info_agent.py:124-130`) slices each title, which raises `TypeError` for a title that is neither text nor a list. The `except` at line 146 then drops the pipeline's answer (`DiseaseInfo.PreviewRaises`).
  - The other prints slice values that are always text in this model, so they cannot raise.
- The checks that raise `ValueError` for a missing API key are left out. Agents are built from the objects they would create.
  - A disease agent without a pipeline, or an EHR agent without memory, covers the `use_rag`/`use_memory` fallbacks.
- The LangGraph graphs (`_create_graph`) are modelled as their fixed sequence of stages. Each `Process`, and the orchestrator's `RunGraph`, runs that sequence.
  - The check that the returned state is a dict or an `AgentState` has no counterpart.
- Persistence to disk is left out: `save_local`, `load_local`, `_initialize_vector_store` and the `shutil.rmtree` of `clear_memory`.
  - The manager is constructed with the documents already persisted.
  - A failing `add_documents` is the constant `storeFault`; the documents are then not added.
  - A failing `save_local` is the constant `persistFault`. It runs after `add_documents`, so the documents stay in the index and the save reports the failure.
- `MemoryManager.update_patient_metadata` is not modelled. Its body is `pass`, so it has no effect.
- `add_to_session_memory` writes the timestamp into the caller's dictionary. The model returns the stamped copy and does not model that aliasing.
- The tool constants are set by each tool's constructor and stated in its contract: cache-key functions, placeholder results and the WHO topic table. The endpoint URLs and request headers are left out.
- Python dictionaries are modelled as values:
  - patient records are `map<string, Field>`, restricted to the shapes the record stores build: `conditions` and `medications` are lists of strings and `vitals` is a dictionary (apis/ehr_client.py:49-78); `allergies` is the text of the `allergies TEXT` column, copied by `dict(patient)` (apis/ehr_client.py:47, data/init_db.py:29), or `None` for a NULL, or, from the mock store, a list of strings (mocks/ehr_mock_api.py:26). The agent iterates and joins an allergy text character by character, as Python does with a `str`; see Findings;
  - an empty dictionary is falsy, as in Python;
  - key order is kept where it is observed: `vitals.items()`, `json.dumps`, session ids.
- Character classes are ASCII only: `strip()` white space, `lower()`/`upper()`, `\d` and `\w`. Unicode case folding and Unicode white space are not modelled.
- `Orchestrator`: intents, agent names and routing statuses are enumerations. Their `Name()` gives the source's strings, and `NamedValid`/`IntentOfNames` tie the two together.
- `Orchestrator.FormatAgentResponse`: `not response` is modelled as a missing reply only. Routed results always hold the original query, so they are never an empty dictionary. `str(response)` is modelled only for the general reply, the one reply that reaches that branch.
- `last week of next month` is the last week of the next month (`agents/appointment_agent.py:229-247`).
- `MemoryStore.SimilaritySearch`: the `ranking` oracle is given only the query and the stored documents. It is not given `k`, the metadata filter, or FAISS's pool of `fetch_k=20` candidates that the filter is applied to. The contract states that the hits are stored documents that pass the filter, at most `k` of them; it does not state that fewer than `k` hits means fewer than `k` documents pass the filter.
- `Values.ReprChar`: non-ASCII characters are copied as they are. Python's `repr` also escapes those that Unicode does not class as printable, such as U+00A0, which needs the Unicode character database.
- `Values.JsonEscape`: only text is escaped. Numbers are written with `str`, so floats, `NaN` and `Infinity` are not modelled.
- `MedicalSearch.BingItem`: each field of a Bing web page is text or missing. JSON numbers, lists or objects in those fields are not modelled.
- `MedicalSearch.MedlineArticle`: the PubMed answers are decoded into the ids found and, for each id, its article or none. An article's `authors` is a list of author objects, and its other fields are stored values. An `esummary` answer whose `result` or `authors` has another JSON type, which would raise `AttributeError` and be caught like any other exception, is not modelled.

## Findings

The EHR layouts iterate the allergies as if they were a list, but the record store gives them as one text. The model of the agent keeps the source's behaviour. The corrected reading is defined beside it, and its property is proved.

| source | as written | input that shows it | evidently intended | confidence | as-written member | corrected member |
|---|---|---|---|---|---|---|
| agents/ehr_agent.py:364-369 | `for allergy in allergies` and `', '.join(patient_data['allergies'])` (line 209) run over the `allergies` text, so each character becomes a bullet line and a summary item | patient `P002` (data/init_db.py:89), whose allergies text is `None`: the layout shows `  - N`, `  - o`, `  - n`, `  - e` and the summary `Allergies: N, o, n, e`; `P001`'s `Penicillin` gives ten one-letter lines | an allergy text is shown whole: one line `  - None` and the part `Allergies: None` | high that the layout is split; not executed | Ehr.NoneSpelledOut | Ehr.IntendedAllergyText |
