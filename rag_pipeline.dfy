/** The retrieval-augmented generation pipeline: it retrieves a patient's records from the
    memory manager and/or medical search results, lays them out in a prompt, and asks the
    language model once. */
module Rag {
  import opened Wrappers
  import opened Text
  import opened Values
  import opened MemoryStore
  import opened MedicalSearch
  import opened BaseAgent

  /** The dictionary each query mode returns; `source` tells the modes apart. */
  datatype RagAnswer =
    | MemoryAnswer(answer: string, context: seq<Record>)
    | WebAnswer(answer: string, searchResults: seq<Dict>)
    | CombinedAnswer(answer: string, patientContext: seq<Record>, searchResults: seq<Dict>)
  {
    function Source(): string
    {
      match this
      case MemoryAnswer(_, _) => "memory"
      case WebAnswer(_, _) => "web_search"
      case CombinedAnswer(_, _, _) => "combined_rag"
    }
  }

  /** The retrieved records as the prompts show them: `[type] content` blocks. */
  function ContextText(docs: seq<Record>): string
  {
    Join(TaggedLines(docs, "info"), "\n\n")
  }

  /** Every retrieved record reaches the prompt, tagged with its type. */
  lemma ContextTextShowsEachRecord(docs: seq<Record>, i: int)
    requires 0 <= i < |docs|
    ensures Contains(ContextText(docs), Tagged(docs[i], "info"))
  {
    JoinContains(TaggedLines(docs, "info"), "\n\n", i);
  }

  /** One search result as the prompts show it. */
  function ResultBlock(r: Dict): string
  {
    "Source: " + GetText(r, "source", "Unknown") + "\n"
    + "Title: " + GetText(r, "title", "N/A") + "\n"
    + "Summary: " + GetText(r, "snippet", "N/A") + "\n"
    + "URL: " + GetText(r, "url", "N/A")
  }

  function ResultBlocks(results: seq<Dict>): (r: seq<string>)
    ensures |r| == |results| && forall i :: 0 <= i < |results| ==> r[i] == ResultBlock(results[i])
  {
    seq(|results|, i requires 0 <= i < |results| => ResultBlock(results[i]))
  }

  function ResultsText(results: seq<Dict>): string
  {
    Join(ResultBlocks(results), "\n\n")
  }

  /** Every search result reaches the prompt with its source, title, summary and URL. */
  lemma ResultsTextShowsEachResult(results: seq<Dict>, i: int)
    requires 0 <= i < |results|
    ensures Contains(ResultsText(results), ResultBlock(results[i]))
  {
    JoinContains(ResultBlocks(results), "\n\n", i);
  }

  function NoPatientContext(id: string): string
  {
    "No patient context found for patient " + id + ". Please provide more information."
  }

  const NoMedicalInformation := "No relevant medical information found. Please rephrase your query."

  /** The model's reply as the answer of the given mode. */
  function Answered(reply: Raises<string>, make: string -> RagAnswer): (r: Raises<RagAnswer>)
    ensures reply.Raised? ==> r == Raised(reply.message)
    ensures reply.Returned? ==> r == Returned(make(reply.value))
  {
    match reply
    case Raised(m) => Raised(m)
    case Returned(text) => Returned(make(text))
  }

  // ---------------------------------------------------------------- patient context

  /** The prompt `query_with_patient_context` sends for the retrieved records, if any. */
  function PatientContextPrompts(query: string, docs: Raises<seq<Record>>): seq<Prompt>
  {
    if docs.Returned? && docs.value != [] then [PatientContextQuestion(ContextText(docs.value), query)] else []
  }

  /** What `query_with_patient_context` returns for the retrieved records. */
  function PatientContextAnswer(query: string, id: string, docs: Raises<seq<Record>>, respond: Prompt -> Raises<string>): (r: Raises<RagAnswer>)
    ensures docs.Raised? ==> r == Raised(docs.message)
    ensures r.Returned? ==> r.value.MemoryAnswer? && docs.Returned? && r.value.context == docs.value
    ensures docs.Returned? && docs.value == [] ==> r == Returned(MemoryAnswer(NoPatientContext(id), []))
    ensures docs.Returned? && docs.value != [] ==>
      var reply := respond(PatientContextPrompts(query, docs)[0]);
      && (r.Raised? <==> reply.Raised?)
      && (reply.Raised? ==> r.message == reply.message)
      && (r.Returned? ==> r.value.answer == reply.value)
  {
    match docs
    case Raised(m) => Raised(m)
    case Returned(found) =>
      if found == [] then Returned(MemoryAnswer(NoPatientContext(id), []))
      else
        match respond(PatientContextQuestion(ContextText(found), query))
        case Raised(m) => Raised(m)
        case Returned(text) => Returned(MemoryAnswer(text, found))
  }

  // ---------------------------------------------------------------- web search

  function WebPrompts(query: string, results: seq<Dict>): seq<Prompt>
  {
    if results != [] then [EvidenceQuestion(ResultsText(results), query)] else []
  }

  /** What `query_with_web_search` returns for the combined search results. */
  function WebAnswerFor(query: string, results: seq<Dict>, respond: Prompt -> Raises<string>): (r: Raises<RagAnswer>)
    ensures r.Returned? ==> r.value.WebAnswer? && r.value.searchResults == results
    ensures results == [] ==> r == Returned(WebAnswer(NoMedicalInformation, []))
    ensures results != [] ==> r == Answered(respond(WebPrompts(query, results)[0]), text => WebAnswer(text, results))
  {
    if results == [] then Returned(WebAnswer(NoMedicalInformation, []))
    else Answered(respond(EvidenceQuestion(ResultsText(results), query)), text => WebAnswer(text, results))
  }

  // ---------------------------------------------------------------- combined

  /** The patient section of the combined prompt. */
  function PatientSection(patientId: Option<string>, docs: seq<Record>): string
  {
    if patientId.Some? && patientId.value != "" then
      if docs != [] then ContextText(docs)
      else "No specific patient history found for patient " + patientId.value + "."
    else "No patient context provided."
  }

  function CombinedResultsText(results: seq<Dict>): string
  {
    if results != [] then ResultsText(results) else "No external search results available."
  }

  function CombinedPrompt(query: string, patientId: Option<string>, docs: seq<Record>, results: seq<Dict>): Prompt
  {
    CombinedQuestion(PatientSection(patientId, docs), CombinedResultsText(results), query)
  }

  /** Whether `query_with_combined_rag` consults the memory manager: a non-empty id. */
  predicate HasPatient(patientId: Option<string>)
  {
    patientId.Some? && patientId.value != ""
  }

  /** What `query_with_combined_rag` returns, given the records retrieved (when it
      retrieves) and the search results. */
  function CombinedAnswerFor(query: string, patientId: Option<string>, docs: seq<Record>, results: seq<Dict>,
                             respond: Prompt -> Raises<string>): (r: Raises<RagAnswer>)
    ensures r.Returned? ==> r.value.CombinedAnswer? && r.value.patientContext == docs && r.value.searchResults == results
    ensures r.Raised? <==> respond(CombinedPrompt(query, patientId, docs, results)).Raised?
  {
    Answered(respond(CombinedPrompt(query, patientId, docs, results)), text => CombinedAnswer(text, docs, results))
  }

  /** With no patient, or an empty id, the patient section says so whatever the records;
      with a patient whose records were found, it shows every one of them. */
  lemma PatientSectionCases(patientId: Option<string>, docs: seq<Record>)
    ensures !HasPatient(patientId) ==> PatientSection(patientId, docs) == "No patient context provided."
    ensures HasPatient(patientId) && docs != [] ==>
      forall i :: 0 <= i < |docs| ==> Contains(PatientSection(patientId, docs), Tagged(docs[i], "info"))
  {
    if HasPatient(patientId) && docs != [] {
      forall i | 0 <= i < |docs| ensures Contains(PatientSection(patientId, docs), Tagged(docs[i], "info")) {
        ContextTextShowsEachRecord(docs, i);
      }
    }
  }

  // ---------------------------------------------------------------- history summary

  /** The retrieval query of `summarize_patient_history`. */
  function HistoryQuery(id: string, focus: Option<string>): string
  {
    if focus.Some? && focus.value != "" then focus.value else "patient " + id + " complete medical history"
  }

  function FocusLine(focus: Option<string>): string
  {
    if focus.Some? && focus.value != "" then "Focus on: " + focus.value else "Include all relevant medical information."
  }

  function HistoryPrompts(focus: Option<string>, docs: Raises<seq<Record>>): seq<Prompt>
  {
    if docs.Returned? && docs.value != [] then [HistorySummary(ContextText(docs.value), FocusLine(focus))] else []
  }

  /** What `summarize_patient_history` returns for the retrieved records. */
  function HistorySummaryFor(id: string, focus: Option<string>, docs: Raises<seq<Record>>, respond: Prompt -> Raises<string>): (r: Raises<string>)
    ensures docs.Raised? ==> r == Raised(docs.message)
    ensures docs.Returned? && docs.value == [] ==> r == Returned("No medical history found for patient " + id + ".")
    ensures docs.Returned? && docs.value != [] ==> r == respond(HistoryPrompts(focus, docs)[0])
  {
    match docs
    case Raised(m) => Raised(m)
    case Returned(found) =>
      if found == [] then Returned("No medical history found for patient " + id + ".")
      else respond(HistorySummary(ContextText(found), FocusLine(focus)))
  }

  // ---------------------------------------------------------------- the pipeline

  class RagPipeline {
    const llm: LanguageModel
    const memory: MemoryManager
    const search: MedicalSearchAggregator

    ghost predicate Valid()
      reads memory
    {
      search.Valid() && memory.Valid()
    }

    constructor (llm: LanguageModel, memory: MemoryManager, search: MedicalSearchAggregator)
      ensures this.llm == llm && this.memory == memory && this.search == search
    {
      this.llm := llm;
      this.memory := memory;
      this.search := search;
    }

    /** `query_with_patient_context`. */
    method QueryWithPatientContext(query: string, id: string, k: nat) returns (r: Raises<RagAnswer>)
      modifies llm
      ensures r == PatientContextAnswer(query, id, memory.RetrievePatientContext(id, query, k), llm.respond)
      ensures llm.sent == old(llm.sent) + PatientContextPrompts(query, memory.RetrievePatientContext(id, query, k))
    {
      var docs := memory.RetrievePatientContext(id, query, k);
      match docs
      case Raised(m) =>
        r := Raised(m);
      case Returned(found) =>
        if found == [] {
          r := Returned(MemoryAnswer(NoPatientContext(id), []));
        } else {
          var reply := llm.Invoke(PatientContextQuestion(ContextText(found), query));
          match reply
          case Raised(m) =>
            r := Raised(m);
          case Returned(text) =>
            r := Returned(MemoryAnswer(text, found));
        }
    }

    /** `query_with_web_search`. */
    method QueryWithWebSearch(query: string, maxResults: int, stamp: string) returns (r: Raises<RagAnswer>)
      requires search.Valid()
      modifies llm, search.bing, search.bing.cache, search.medline, search.medline.cache, search.who.cache
      ensures r == WebAnswerFor(query, search.Combined(old(search.State()), query, maxResults, stamp), llm.respond)
      ensures llm.sent == old(llm.sent) + WebPrompts(query, search.Combined(old(search.State()), query, maxResults, stamp))
      ensures search.State() == search.StateAfter(old(search.State()), query, 5, stamp)
    {
      var results := search.GetCombinedResults(query, maxResults, stamp);
      if results == [] {
        r := Returned(WebAnswer(NoMedicalInformation, []));
      } else {
        var reply := llm.Invoke(EvidenceQuestion(ResultsText(results), query));
        r := Answered(reply, text => WebAnswer(text, results));
      }
    }

    /** The records `query_with_combined_rag` retrieves: none without a patient. */
    function CombinedContext(query: string, patientId: Option<string>, kMemory: nat): Raises<seq<Record>>
      reads memory
    {
      if HasPatient(patientId) then memory.RetrievePatientContext(patientId.value, query, kMemory) else Returned([])
    }

    /** `query_with_combined_rag`: a failed retrieval ends the call before any search. */
    method QueryWithCombinedRag(query: string, patientId: Option<string>, kMemory: nat, maxSearchResults: int, stamp: string)
      returns (r: Raises<RagAnswer>)
      requires search.Valid()
      modifies llm, search.bing, search.bing.cache, search.medline, search.medline.cache, search.who.cache
      ensures CombinedContext(query, patientId, kMemory).Raised? ==>
        r == Raised(CombinedContext(query, patientId, kMemory).message) && llm.sent == old(llm.sent)
        && search.State() == old(search.State())
      ensures CombinedContext(query, patientId, kMemory).Returned? ==>
        && r == CombinedAnswerFor(query, patientId, CombinedContext(query, patientId, kMemory).value,
                                  search.Combined(old(search.State()), query, maxSearchResults, stamp), llm.respond)
        && llm.sent == old(llm.sent) + [CombinedPrompt(query, patientId, CombinedContext(query, patientId, kMemory).value,
                                                      search.Combined(old(search.State()), query, maxSearchResults, stamp))]
        && search.State() == search.StateAfter(old(search.State()), query, 5, stamp)
    {
      var docs: seq<Record> := [];
      if HasPatient(patientId) {
        var retrieved := memory.RetrievePatientContext(patientId.value, query, kMemory);
        if retrieved.Raised? {
          return Raised(retrieved.message);
        }
        docs := retrieved.value;
      }
      assert CombinedContext(query, patientId, kMemory) == Returned(docs);
      r := SearchAndAsk(query, patientId, docs, maxSearchResults, stamp);
    }

    /** The rest of `query_with_combined_rag` once the records `docs` are in hand: the
        combined search, then one question to the model. */
    method SearchAndAsk(query: string, patientId: Option<string>, docs: seq<Record>, maxSearchResults: int, stamp: string)
      returns (r: Raises<RagAnswer>)
      requires search.Valid()
      modifies llm, search.bing, search.bing.cache, search.medline, search.medline.cache, search.who.cache
      ensures r == CombinedAnswerFor(query, patientId, docs, search.Combined(old(search.State()), query, maxSearchResults, stamp), llm.respond)
      ensures llm.sent == old(llm.sent) + [CombinedPrompt(query, patientId, docs, search.Combined(old(search.State()), query, maxSearchResults, stamp))]
      ensures search.State() == search.StateAfter(old(search.State()), query, 5, stamp)
    {
      var results := search.GetCombinedResults(query, maxSearchResults, stamp);
      var reply := llm.Invoke(CombinedPrompt(query, patientId, docs, results));
      r := Answered(reply, text => CombinedAnswer(text, docs, results));
    }

    /** `summarize_patient_history`. */
    method SummarizePatientHistory(id: string, focus: Option<string>) returns (r: Raises<string>)
      modifies llm
      ensures r == HistorySummaryFor(id, focus, memory.RetrievePatientContext(id, HistoryQuery(id, focus), 20), llm.respond)
      ensures llm.sent == old(llm.sent) + HistoryPrompts(focus, memory.RetrievePatientContext(id, HistoryQuery(id, focus), 20))
    {
      var docs := memory.RetrievePatientContext(id, HistoryQuery(id, focus), 20);
      match docs
      case Raised(m) =>
        r := Raised(m);
      case Returned(found) =>
        if found == [] {
          r := Returned("No medical history found for patient " + id + ".");
        } else {
          r := llm.Invoke(HistorySummary(ContextText(found), FocusLine(focus)));
        }
    }
  }

  /** The web answer carries the search results ranked by source trust, at most
      `max_results` of them, all from the three tools. */
  lemma WebAnswerRanked(query: string, bing: seq<Dict>, medline: seq<Dict>, who: seq<Dict>, maxResults: int,
                        respond: Prompt -> Raises<string>)
    requires maxResults >= 0
    ensures var r := WebAnswerFor(query, Combine(bing, medline, who, maxResults), respond);
      r.Returned? ==>
        && RanksAscending(r.value.searchResults) && |r.value.searchResults| <= maxResults
        && forall x :: x in r.value.searchResults ==> x in bing || x in medline || x in who
  {
    CombineSpec(bing, medline, who, maxResults);
  }
}
