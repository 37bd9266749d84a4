/** The disease-information agent: a three-stage workflow (take the query, analyse it,
    format the answer) that prefers the retrieval pipeline's web-search answer and falls
    back to its own language model. */
module DiseaseInfo {
  import opened Wrappers
  import opened Text
  import opened Values
  import opened BaseAgent
  import opened MedicalSearch
  import opened Rag

  /** The keys the workflow writes into `state.results`; `None` is a key not written. */
  datatype DiseaseResults = DiseaseResults(
    originalQuery: Option<string>,
    analysis: Option<string>,
    ragUsed: Option<bool>,
    searchResults: Option<seq<Dict>>,
    formattedResponse: Option<string>)

  const NoResults := DiseaseResults(None, None, None, None, None)

  /** How `_analyze_info` reads the pipeline's reply: its `answer` and `search_results` keys. */
  datatype RagView = RagView(answer: Option<string>, searchResults: Option<seq<Dict>>)

  function ViewOf(a: RagAnswer): RagView
  {
    match a
    case MemoryAnswer(answer, _) => RagView(Some(answer), None)
    case WebAnswer(answer, results) => RagView(Some(answer), Some(results))
    case CombinedAnswer(answer, _, results) => RagView(Some(answer), Some(results))
  }

  /** What the analysis stage does after consulting the pipeline: take its answer, or ask
      its own model with the given context text (`""` for none). */
  datatype Step = UseAnswer(answer: string, searchResults: seq<Dict>) | AskModel(context: string)

  /** The numbered line of one of the first three results. */
  function SourceLine(i: nat, r: Dict): string
  {
    IntToString(i + 1) + ". " + GetText(r, "title", "Source") + ": " + GetText(r, "snippet", "") + "\n"
  }

  /** The lines for `results[..n]`, in order. */
  function SourceLines(results: seq<Dict>, n: nat): (s: string)
    requires n <= |results|
  {
    if n == 0 then "" else SourceLines(results, n - 1) + SourceLine(n - 1, results[n - 1])
  }

  const SourceHeader := "Additional Context from Medical Sources:\n"

  /** The context built from search results: a header, then at most the first three
      results, numbered from 1. */
  function SourceContext(results: seq<Dict>): (s: string)
  {
    SourceHeader + SourceLines(results, if |results| < 3 then |results| else 3)
  }

  /** Results after the third never reach the context. */
  lemma SourceContextFirstThree(a: seq<Dict>, b: seq<Dict>)
    requires |a| >= 3 && |b| >= 3 && a[..3] == b[..3]
    ensures SourceContext(a) == SourceContext(b)
  {
    SourceLinesAgree(a, b, 3);
  }

  lemma {:induction false} SourceLinesAgree(a: seq<Dict>, b: seq<Dict>, n: nat)
    requires n <= |a| && n <= |b| && a[..n] == b[..n]
    ensures SourceLines(a, n) == SourceLines(b, n)
  {
    if n > 0 {
      assert a[..n - 1] == a[..n][..n - 1] && b[..n - 1] == b[..n][..n - 1];
      assert a[n - 1] == a[..n][n - 1] && b[n - 1] == b[..n][n - 1];
      SourceLinesAgree(a, b, n - 1);
    }
  }

  /** Each shown result is one line, numbered from 1: the context grows by exactly that line. */
  lemma {:induction false} SourceLinesShowEach(results: seq<Dict>, n: nat, i: nat)
    requires i < n <= |results|
    ensures Contains(SourceLines(results, n), SourceLine(i, results[i]))
  {
    if i == n - 1 {
      ContainsInfix(SourceLines(results, n - 1), SourceLine(i, results[i]), "");
      assert SourceLines(results, n - 1) + SourceLine(i, results[i]) + "" == SourceLines(results, n);
    } else {
      SourceLinesShowEach(results, n - 1, i);
      ContainsPrefix(SourceLines(results, n - 1), SourceLine(n - 1, results[n - 1]), SourceLine(i, results[i]));
    }
  }

  lemma ContainsPrefix(a: string, b: string, needle: string)
    requires Contains(a, needle)
    ensures Contains(a + b, needle)
  {
    var i :| 0 <= i <= |a| - |needle| && OccursAt(a, needle, i);
    assert (a + b)[i..i + |needle|] == a[i..i + |needle|];
    assert OccursAt(a + b, needle, i);
  }

  /** The `context_text +=` loop over `enumerate(results[:3], 1)`. */
  method BuildSourceContext(results: seq<Dict>) returns (context: string)
    ensures context == SourceContext(results)
  {
    var shown := if |results| < 3 then |results| else 3;
    var lines := "";
    for i := 0 to shown
      invariant lines == SourceLines(results, i)
    {
      lines := lines + SourceLine(i, results[i]);
    }
    context := SourceHeader + lines;
  }

  /** `title[:100]` raises a `TypeError` for a title that is neither a string nor a list
      (`None`, a number, a truth value or a dictionary); an absent title shows `N/A`. */
  predicate BadTitle(r: Dict)
  {
    "title" in r && !(r["title"].Str? || r["title"].Strs?)
  }

  /** The preview of the first three search results raises. */
  predicate PreviewRaises(results: seq<Dict>)
  {
    exists i :: 0 <= i < |results| && i < 3 && BadTitle(results[i])
  }

  /** The preview `print` loop over `search_results[:3]`: whether it raises. */
  method PreviewTitles(results: seq<Dict>) returns (raised: bool)
    ensures raised <==> PreviewRaises(results)
  {
    var shown := if |results| < 3 then |results| else 3;
    raised := false;
    var i := 0;
    while i < shown && !raised
      invariant 0 <= i <= shown
      invariant raised <==> exists j :: 0 <= j < i && BadTitle(results[j])
    {
      raised := BadTitle(results[i]);
      i := i + 1;
    }
  }

  /** The fallback chain of `_analyze_info`: no pipeline or a failing one gives no context;
      a reply with an answer is used as it is unless previewing its search results raises
      (the exception is caught and no context is left); a reply with only search results
      gives their context. */
  function StepFor(reply: Option<Raises<RagView>>): (s: Step)
    ensures reply.None? || reply.value.Raised? ==> s == AskModel("")
    ensures s.UseAnswer? <==>
      reply.Some? && reply.value.Returned? && reply.value.value.answer.Some?
      && !PreviewRaises(reply.value.value.searchResults.GetOr([]))
    ensures s.UseAnswer? ==>
      s == UseAnswer(reply.value.value.answer.value, reply.value.value.searchResults.GetOr([]))
    ensures reply.Some? && reply.value.Returned? && reply.value.value.answer.Some? && s.AskModel? ==>
      s.context == ""
    ensures s.AskModel? && s.context != "" ==>
      reply.Some? && reply.value.Returned? && reply.value.value.answer.None?
      && reply.value.value.searchResults.Some? && s.context == SourceContext(reply.value.value.searchResults.value)
  {
    match reply
    case None => AskModel("")
    case Some(Raised(_)) => AskModel("")
    case Some(Returned(view)) =>
      if view.answer.Some? then
        if PreviewRaises(view.searchResults.GetOr([])) then AskModel("")
        else UseAnswer(view.answer.value, view.searchResults.GetOr([]))
      else if view.searchResults.Some? && view.searchResults.value != [] then AskModel(SourceContext(view.searchResults.value))
      else AskModel("")
  }

  /** The pipeline's web-search reply always carries an answer, so the search-results
      branch of the chain is never taken: the agent uses the answer as it is, or, when the
      preview of its results raises, asks its own model without context. */
  lemma PipelineReplyIsUsed(reply: Raises<RagAnswer>)
    requires reply.Returned? && reply.value.WebAnswer?
    ensures var s := StepFor(Some(Returned(ViewOf(reply.value))));
      s == UseAnswer(reply.value.answer, reply.value.searchResults) || s == AskModel("")
    ensures StepFor(Some(Returned(ViewOf(reply.value)))).UseAnswer? <==> !PreviewRaises(reply.value.searchResults)
  {
  }

  /** A Bing result whose web page has no name, among the first three results, makes the
      preview raise: the pipeline's answer is dropped and the agent's own model is asked
      with no context. */
  lemma UntitledBingResultDropsAnswer(answer: string, results: seq<Dict>, i: nat, item: BingItem, stamp: string)
    requires i < |results| && i < 3 && results[i] == BingResult(item, stamp) && item.name.None?
    ensures PreviewRaises(results)
    ensures StepFor(Some(Returned(RagView(Some(answer), Some(results))))) == AskModel("")
  {
    assert BadTitle(results[i]);
  }

  /** The context variable of the analysis prompt. */
  function PromptContext(context: string): string
  {
    if context != "" then context else "Using general medical knowledge."
  }

  /** The prompts the agent's own model receives, given the pipeline's reply. */
  function ModelCalls(query: string, reply: Option<Raises<RagView>>): (calls: seq<Prompt>)
    ensures |calls| <= 1
    ensures StepFor(reply).UseAnswer? <==> calls == []
    ensures calls != [] ==> calls[0] == AnalyzeDisease(query, PromptContext(StepFor(reply).context))
  {
    match StepFor(reply)
    case UseAnswer(_, _) => []
    case AskModel(context) => [AnalyzeDisease(query, PromptContext(context))]
  }

  /** The analysis `_analyze_info` stores, with the search results it copies when the
      pipeline answered; `Raised` when the agent's own model raises. */
  function AnalysisFor(query: string, reply: Option<Raises<RagView>>, respond: Prompt -> Raises<string>)
    : Raises<(string, Option<seq<Dict>>)>
  {
    match StepFor(reply)
    case UseAnswer(answer, results) => Returned((answer, Some(results)))
    case AskModel(context) =>
      match respond(AnalyzeDisease(query, PromptContext(context)))
      case Raised(m) => Raised(m)
      case Returned(text) => Returned((text, None))
  }

  /** What `process(query)` returns, given the pipeline's reply; `Raised` when the agent's
      own model raises. */
  function ResultsFor(query: string, reply: Option<Raises<RagView>>, respond: Prompt -> Raises<string>): (r: Raises<DiseaseResults>)
    ensures r.Returned? ==>
      && r.value.originalQuery == Some(query) && r.value.analysis.Some?
      && r.value.formattedResponse == r.value.analysis
      && (r.value.ragUsed.Some? <==> StepFor(reply).UseAnswer?)
    ensures StepFor(reply).UseAnswer? ==>
      && r.Returned? && r.value.ragUsed == Some(true)
      && r.value.analysis == Some(StepFor(reply).answer)
      && r.value.searchResults == Some(StepFor(reply).searchResults)
    ensures StepFor(reply).AskModel? ==>
      && (r.Raised? <==> respond(ModelCalls(query, reply)[0]).Raised?)
      && (r.Returned? ==> r.value.analysis == Some(respond(ModelCalls(query, reply)[0]).value))
  {
    match AnalysisFor(query, reply, respond)
    case Raised(m) => Raised(m)
    case Returned((analysis, results)) =>
      Returned(DiseaseResults(Some(query), Some(analysis), if results.Some? then Some(true) else None, results, Some(analysis)))
  }

  class DiseaseInfoAgent {
    const llm: LanguageModel
    /** The retrieval pipeline, `None` when disabled or when creating it failed. */
    const rag: Option<RagPipeline>

    ghost function Repr(): set<object>
    {
      {llm} + PipelineRepr()
    }

    ghost function PipelineRepr(): set<object>
    {
      if rag.Some? then
        {rag.value.llm, rag.value.search.bing, rag.value.search.bing.cache, rag.value.search.medline,
         rag.value.search.medline.cache, rag.value.search.who.cache}
      else {}
    }

    ghost predicate Valid()
    {
      && (rag.Some? ==> rag.value.search.Valid())
      && llm !in PipelineRepr()
    }

    constructor (llm: LanguageModel, rag: Option<RagPipeline>)
      requires rag.Some? ==> rag.value.search.Valid() && rag.value.llm != llm
      ensures Valid() && this.llm == llm && this.rag == rag
    {
      this.llm := llm;
      this.rag := rag;
    }

    /** How the agent sees `query_with_web_search(query)`, `None` without a pipeline. */
    function PipelineView(query: string, stamp: string): (v: Option<Raises<RagView>>)
      reads PipelineRepr()
      ensures v.Some? <==> rag.Some?
      ensures v.Some? && v.value.Returned? ==>
        v.value.value.answer.Some? && v.value.value.searchResults == Some(rag.value.search.Combined(rag.value.search.State(), query, 10, stamp))
    {
      if rag.Some? then Some(ViewIn(rag.value.search.State(), query, stamp)) else None
    }

    /** How the agent sees `query_with_web_search(query)` when its search tools are in
        state `s`. */
    function ViewIn(s: SearchState, query: string, stamp: string): (v: Raises<RagView>)
      requires rag.Some?
      ensures v.Returned? ==> v.value.answer.Some? && v.value.searchResults == Some(rag.value.search.Combined(s, query, 10, stamp))
    {
      match WebAnswerFor(query, rag.value.search.Combined(s, query, 10, stamp), rag.value.llm.respond)
      case Raised(m) => Raised(m)
      case Returned(a) => Returned(ViewOf(a))
    }

    /** With a pipeline that answers, and whose results preview without raising, its
        answer is the analysis and the agent's own model is not asked; without one, when it
        raises, or when the preview raises, the model is asked with no context and
        `rag_used` is not set. */
    lemma PipelineAnswerUsed(query: string, stamp: string)
      ensures var v := PipelineView(query, stamp);
        v.Some? && v.value.Returned? && !PreviewRaises(v.value.value.searchResults.value) ==>
          && ModelCalls(query, v) == []
          && ResultsFor(query, v, llm.respond).Returned?
          && ResultsFor(query, v, llm.respond).value.analysis == v.value.value.answer
          && ResultsFor(query, v, llm.respond).value.ragUsed == Some(true)
      ensures var v := PipelineView(query, stamp);
        v.None? || v.value.Raised? || PreviewRaises(v.value.value.searchResults.value) ==>
          && ModelCalls(query, v) == [AnalyzeDisease(query, "Using general medical knowledge.")]
          && (ResultsFor(query, v, llm.respond).Returned? ==> ResultsFor(query, v, llm.respond).value.ragUsed.None?)
    {
    }

    /** The pipeline's model log and its search tools' state, `None` without a pipeline. */
    function PipelineState(): Option<(seq<Prompt>, SearchState)>
      reads PipelineRepr()
    {
      if rag.Some? then Some((rag.value.llm.sent, rag.value.search.State())) else None
    }

    /** The state `query_with_web_search(query)` leaves the pipeline in: one prompt more
        when results were found, and the tools' caches and logs after `search_all`. */
    function PipelineStateAfter(query: string, stamp: string): Option<(seq<Prompt>, SearchState)>
      reads PipelineRepr()
    {
      if rag.Some? then
        Some((rag.value.llm.sent + WebPrompts(query, rag.value.search.Combined(rag.value.search.State(), query, 10, stamp)),
              rag.value.search.StateAfter(rag.value.search.State(), query, 5, stamp)))
      else None
    }

    /** The `query_with_web_search` call of `_analyze_info`, with a raised exception caught. */
    method ConsultPipeline(query: string, stamp: string) returns (reply: Option<Raises<RagView>>)
      requires Valid()
      modifies PipelineRepr()
      ensures reply == old(PipelineView(query, stamp))
      ensures PipelineState() == old(PipelineStateAfter(query, stamp))
    {
      reply := None;
      if rag.Some? {
        var answer := rag.value.QueryWithWebSearch(query, 10, stamp);
        assert rag.value.search.State() == rag.value.search.StateAfter(old(rag.value.search.State()), query, 5, stamp);
        reply := if answer.Raised? then Some(Raised(answer.message)) else Some(Returned(ViewOf(answer.value)));
      }
    }

    /** `_process_query`. */
    method ProcessQuery(state: AgentState<DiseaseResults>)
      requires |state.taskQueue| > 0
      modifies state
      ensures state.currentTask == "process_query" && state.taskQueue == old(state.taskQueue)
      ensures state.results == old(state.results).(originalQuery := Some(state.taskQueue[0]))
    {
      state.currentTask := "process_query";
      state.results := state.results.(originalQuery := Some(state.taskQueue[0]));
    }

    /** `_analyze_info`; `Fail` when the agent's own model raises. */
    method AnalyzeInfo(state: AgentState<DiseaseResults>, stamp: string) returns (o: Outcome)
      requires Valid() && state.results.originalQuery.Some? && state !in Repr()
      modifies state, Repr()
      ensures state.taskQueue == old(state.taskQueue) && state.currentTask == "analyze_info"
      ensures PipelineState() == old(PipelineStateAfter(state.results.originalQuery.value, stamp))
      ensures Analyzed(state, old(state.results), old(llm.sent), o, old(PipelineView(state.results.originalQuery.value, stamp)))
    {
      var query := state.results.originalQuery.value;
      var reply := ConsultPipeline(query, stamp);
      o := AnalyzeWith(state, query, reply);
    }

    /** What `_analyze_info` leaves behind once the pipeline has answered `reply`. */
    ghost predicate Analyzed(state: AgentState<DiseaseResults>, before: DiseaseResults, sentBefore: seq<Prompt>,
                             o: Outcome, reply: Option<Raises<RagView>>)
      requires before.originalQuery.Some?
      reads state, llm
    {
      var query := before.originalQuery.value;
      var analysis := AnalysisFor(query, reply, llm.respond);
      && llm.sent == sentBefore + ModelCalls(query, reply)
      && (o.Fail? <==> analysis.Raised?)
      && (o.Fail? ==> o.message == analysis.message && state.results == before)
      && (o.Pass? ==> state.results == before.(analysis := Some(analysis.value.0),
            ragUsed := if analysis.value.1.Some? then Some(true) else before.ragUsed,
            searchResults := if analysis.value.1.Some? then analysis.value.1 else before.searchResults))
    }

    /** The rest of `_analyze_info`: use the pipeline's answer, or ask the agent's own model. */
    method AnalyzeWith(state: AgentState<DiseaseResults>, query: string, reply: Option<Raises<RagView>>) returns (o: Outcome)
      requires state.results.originalQuery == Some(query)
      requires llm !in PipelineRepr() && state !in PipelineRepr()
      modifies state, llm
      ensures state.taskQueue == old(state.taskQueue) && state.currentTask == "analyze_info"
      ensures Analyzed(state, old(state.results), old(llm.sent), o, reply)
      ensures PipelineState() == old(PipelineState())
    {
      state.currentTask := "analyze_info";
      var context := "";
      if reply.Some? && reply.value.Returned? {
        var view := reply.value.value;
        if view.answer.Some? {
          var raised := PreviewTitles(view.searchResults.GetOr([]));
          if !raised {
            state.results := state.results.(analysis := Some(view.answer.value), ragUsed := Some(true),
                                            searchResults := Some(view.searchResults.GetOr([])));
            PipelineStateKept();
            return Pass;
          }
        } else if view.searchResults.Some? && view.searchResults.value != [] {
          context := BuildSourceContext(view.searchResults.value);
        }
      }
      var response := llm.Invoke(AnalyzeDisease(query, PromptContext(context)));
      match response
      case Raised(m) =>
        o := Fail(m);
      case Returned(text) =>
        state.results := state.results.(analysis := Some(text));
        o := Pass;
      PipelineStateKept();
    }

    /** `_format_response`: the formatted response is the analysis. */
    method FormatResponse(state: AgentState<DiseaseResults>)
      requires state.results.analysis.Some?
      modifies state
      ensures state.currentTask == "format_response" && state.taskQueue == old(state.taskQueue)
      ensures state.results == old(state.results).(formattedResponse := old(state.results.analysis))
    {
      state.currentTask := "format_response";
      state.results := state.results.(formattedResponse := state.results.analysis);
    }

    /** The pipeline's state depends on the pipeline's objects alone. */
    twostate lemma PipelineStateKept()
      requires unchanged(PipelineRepr())
      ensures PipelineState() == old(PipelineState())
    {
    }

    /** `process`: the three stages in order on a fresh state. */
    method Process(query: string, stamp: string) returns (r: Raises<DiseaseResults>)
      requires Valid()
      modifies Repr()
      ensures r == ResultsFor(query, old(PipelineView(query, stamp)), llm.respond)
      ensures llm.sent == old(llm.sent) + ModelCalls(query, old(PipelineView(query, stamp)))
      ensures PipelineState() == old(PipelineStateAfter(query, stamp))
    {
      var state := new AgentState<DiseaseResults>([query], NoResults);
      ProcessQuery(state);
      var o := AnalyzeInfo(state, stamp);
      if o.Fail? {
        return Raised(o.message);
      }
      FormatResponse(state);
      r := Returned(state.results);
    }
  }
}
