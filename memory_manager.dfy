/** The memory manager: short-term session memory (a map from id to the interactions of
    that id, in insertion order) and long-term memory (a vector store of documents with
    metadata, searched through a similarity oracle). */
module MemoryStore {
  import opened Wrappers
  import opened Text
  import opened Values

  /** A document of the vector store: its text and its metadata. */
  datatype Record = Record(content: string, metadata: Dict)

  /** A session-map entry: the list of interactions, or the dictionary that
      `update_patient_summary` stores for an id that had no entry. */
  datatype SessionEntry = Log(items: seq<Dict>) | Summary(fields: Dict)

  /** The session map with the insertion order of its keys, which `dict.keys()` reports. */
  datatype Sessions = Sessions(entries: map<string, SessionEntry>, order: seq<string>)
  {
    ghost predicate WellFormed()
    {
      (forall i, j :: 0 <= i < j < |order| ==> order[i] != order[j])
      && (forall k :: k in entries <==> k in order)
    }
  }

  const NoSessions := Sessions(map[], [])

  /** `order` without `key`. */
  function Without(order: seq<string>, key: string): (r: seq<string>)
    ensures forall k :: k in r <==> k in order && k != key
    ensures key !in order ==> r == order
  {
    if |order| == 0 then []
    else if order[0] == key then Without(order[1..], key)
    else [order[0]] + Without(order[1..], key)
  }

  lemma {:induction false} WithoutDistinct(order: seq<string>, key: string)
    requires forall i, j :: 0 <= i < j < |order| ==> order[i] != order[j]
    ensures forall i, j :: 0 <= i < j < |Without(order, key)| ==> Without(order, key)[i] != Without(order, key)[j]
  {
    if |order| > 0 {
      var t := order[1..];
      assert forall i, j :: 0 <= i < j < |t| ==> t[i] != t[j] by {
        forall i, j | 0 <= i < j < |t| ensures t[i] != t[j] {
          assert t[i] == order[i + 1] && t[j] == order[j + 1];
        }
      }
      WithoutDistinct(t, key);
      assert order[0] !in t;
      if order[0] != key {
        var r := Without(order, key);
        assert r == [order[0]] + Without(t, key);
        assert order[0] !in Without(t, key);
        forall i, j | 0 <= i < j < |r| ensures r[i] != r[j] {
          if i > 0 {
            assert r[i] == Without(t, key)[i - 1] && r[j] == Without(t, key)[j - 1];
          } else {
            assert r[j] in Without(t, key);
          }
        }
      }
    }
  }

  /** `d[key] = e`: an existing key keeps its place, a new key goes last. */
  function Put(s: Sessions, key: string, e: SessionEntry): (r: Sessions)
    requires s.WellFormed()
    ensures r.WellFormed()
    ensures r.entries == s.entries[key := e]
    ensures key in s.entries ==> r.order == s.order
    ensures key !in s.entries ==> r.order == s.order + [key]
  {
    if key in s.entries then Sessions(s.entries[key := e], s.order)
    else Sessions(s.entries[key := e], s.order + [key])
  }

  /** `del d[key]` when present, nothing otherwise. */
  function Delete(s: Sessions, key: string): (r: Sessions)
    requires s.WellFormed()
    ensures r.WellFormed()
    ensures r.entries == s.entries - {key}
    ensures key !in s.entries ==> r == s
  {
    WithoutDistinct(s.order, key);
    assert key !in s.entries ==> s.entries - {key} == s.entries;
    var r := Sessions(s.entries - {key}, Without(s.order, key));
    assert forall k :: k in r.entries <==> k in r.order by {
      forall k ensures k in r.entries <==> k in r.order {
        assert k in r.order <==> k in s.order && k != key;
      }
    }
    assert forall i, j :: 0 <= i < j < |r.order| ==> r.order[i] != r.order[j];
    r
  }

  /** `add_to_session_memory`: an absent id first gets an empty list; the interaction,
      stamped, is then appended. Appending to the dictionary entry left by
      `update_patient_summary` raises, after the stamp is set. */
  function AddInteraction(s: Sessions, id: string, interaction: Dict, stamp: string): (r: (Sessions, Outcome))
    requires s.WellFormed()
    ensures r.0.WellFormed()
  {
    var base := if id in s.entries then s else Put(s, id, Log([]));
    var stamped := interaction["timestamp" := Str(stamp)];
    match base.entries[id]
    case Log(items) => (Put(base, id, Log(items + [stamped])), Pass)
    case Summary(_) => (base, Fail("'dict' object has no attribute 'append'"))
  }

  /** `get_session_memory`: `[]` for an absent id; with a non-zero `last_n` the slice
      `[-last_n:]`, which a dictionary entry cannot take: it raises, with the message
      Python 3.11 and earlier give (from Python 3.12 on it is a `KeyError` instead). */
  function GetSession(s: Sessions, id: string, lastN: Option<int>): Raises<SessionEntry>
  {
    if id !in s.entries then Returned(Log([]))
    else
      match s.entries[id]
      case Log(items) =>
        if lastN.Some? && lastN.value != 0 then Returned(Log(PyFrom(items, -lastN.value)))
        else Returned(Log(items))
      case Summary(fields) =>
        if lastN.Some? && lastN.value != 0 then Raised("unhashable type: 'slice'")
        else Returned(Summary(fields))
  }

  /** The session-map change of `update_patient_summary`: an absent id gets `updates`, a
      dictionary entry is merged with it, a non-empty list gets it appended, and an empty
      list stays as it is. */
  function MergeSummary(s: Sessions, id: string, updates: Dict): (r: Sessions)
    requires s.WellFormed()
    ensures r.WellFormed()
  {
    if id !in s.entries then Put(s, id, Summary(updates))
    else
      match s.entries[id]
      case Summary(fields) => Put(s, id, Summary(fields + updates))
      case Log(items) => if |items| > 0 then Put(s, id, Log(items + [updates])) else s
  }

  /** Adding stamps the interaction and appends it to that id's list; every other id keeps
      its entry, and an id seen for the first time becomes the last id. */
  lemma AddAppends(s: Sessions, id: string, interaction: Dict, stamp: string)
    requires s.WellFormed()
    requires id !in s.entries || s.entries[id].Log?
    ensures var (t, o) := AddInteraction(s, id, interaction, stamp);
      && o == Pass
      && var before := if id in s.entries then s.entries[id].items else [];
      && t.entries[id] == Log(before + [interaction["timestamp" := Str(stamp)]])
      && (forall k :: k in s.entries && k != id ==> k in t.entries && t.entries[k] == s.entries[k])
      && t.order == (if id in s.entries then s.order else s.order + [id])
  {
  }

  /** What adding reads back: the whole list of the id ends with the new interaction and
      is one longer than before. */
  lemma AddThenGet(s: Sessions, id: string, interaction: Dict, stamp: string)
    requires s.WellFormed()
    requires id !in s.entries || s.entries[id].Log?
    ensures var before := GetSession(s, id, None);
      var after := GetSession(AddInteraction(s, id, interaction, stamp).0, id, None);
      && before.Returned? && before.value.Log? && after.Returned? && after.value.Log?
      && after.value.items == before.value.items + [interaction["timestamp" := Str(stamp)]]
  {
    AddAppends(s, id, interaction, stamp);
  }

  /** Adding to the dictionary entry of `update_patient_summary` raises and changes nothing. */
  lemma AddToSummaryFails(s: Sessions, id: string, interaction: Dict, stamp: string)
    requires s.WellFormed() && id in s.entries && s.entries[id].Summary?
    ensures AddInteraction(s, id, interaction, stamp).0 == s
    ensures AddInteraction(s, id, interaction, stamp).1.Fail?
  {
  }

  /** A positive `last_n` gives the last `min(last_n, len)` interactions in order; `None`
      or `0` gives them all. */
  lemma GetLastN(s: Sessions, id: string, n: int)
    requires id in s.entries && s.entries[id].Log?
    ensures var items := s.entries[id].items;
      && (n > 0 ==>
            GetSession(s, id, Some(n)) == Returned(Log(items[|items| - (if n <= |items| then n else |items|)..])))
      && GetSession(s, id, Some(0)) == GetSession(s, id, None) == Returned(Log(items))
  {
  }

  /** Clearing removes exactly that id, and clearing twice is clearing once. */
  lemma ClearIdempotent(s: Sessions, id: string)
    requires s.WellFormed()
    ensures Delete(Delete(s, id), id) == Delete(s, id)
    ensures GetSession(Delete(s, id), id, None) == Returned(Log([]))
    ensures forall k :: k != id && k in s.entries ==> Delete(s, id).entries[k] == s.entries[k]
  {
  }

  /** The session-map change of `update_patient_summary`, case by case. */
  lemma MergeSummaryCases(s: Sessions, id: string, updates: Dict)
    requires s.WellFormed()
    ensures id !in s.entries ==> MergeSummary(s, id, updates).entries[id] == Summary(updates)
    ensures id in s.entries && s.entries[id].Summary? ==>
      MergeSummary(s, id, updates).entries[id] == Summary(s.entries[id].fields + updates)
    ensures id in s.entries && s.entries[id].Log? && |s.entries[id].items| > 0 ==>
      MergeSummary(s, id, updates).entries[id] == Log(s.entries[id].items + [updates])
    ensures id in s.entries && s.entries[id] == Log([]) ==> MergeSummary(s, id, updates) == s
    ensures forall k :: k != id && k in s.entries ==> MergeSummary(s, id, updates).entries[k] == s.entries[k]
  {
  }

  lemma {:induction false} DistinctCard(order: seq<string>)
    requires forall i, j :: 0 <= i < j < |order| ==> order[i] != order[j]
    ensures |set k | k in order| == |order|
  {
    if |order| > 0 {
      var t := order[1..];
      assert forall i, j :: 0 <= i < j < |t| ==> t[i] != t[j] by {
        forall i, j | 0 <= i < j < |t| ensures t[i] != t[j] {
          assert t[i] == order[i + 1] && t[j] == order[j + 1];
        }
      }
      DistinctCard(t);
      assert order[0] !in t;
      assert (set k | k in order) == (set k | k in t) + {order[0]};
    }
  }

  /** The ids listed are exactly the keys of the session map, each once, so the number of
      active sessions is the number of ids. */
  lemma IdsAreKeys(s: Sessions)
    requires s.WellFormed()
    ensures (set k | k in s.order) == s.entries.Keys
    ensures |s.order| == |s.entries|
  {
    DistinctCard(s.order);
    assert (set k | k in s.order) == s.entries.Keys;
  }

  /** The metadata a patient summary is stored with: id, timestamp and type, then the
      caller's metadata on top. */
  function SummaryMetadata(id: string, stamp: string, metadata: Dict): (m: Dict)
    ensures m.Keys == metadata.Keys + {"patient_id", "timestamp", "type"}
    ensures forall k :: k in metadata ==> m[k] == metadata[k]
    ensures "patient_id" !in metadata ==> m["patient_id"] == Str(id)
    ensures "timestamp" !in metadata ==> m["timestamp"] == Str(stamp)
    ensures "type" !in metadata ==> m["type"] == Str("patient_summary")
  {
    map["patient_id" := Str(id), "timestamp" := Str(stamp), "type" := Str("patient_summary")] + metadata
  }

  /** The documents `save_medical_history` stores for the chunks of one history. */
  function HistoryRecords(id: string, chunks: seq<string>, recordType: string, stamp: string): (r: seq<Record>)
    ensures |r| == |chunks|
    ensures forall i :: 0 <= i < |r| ==>
      && r[i].content == chunks[i]
      && r[i].metadata == map["patient_id" := Str(id), "timestamp" := Str(stamp),
           "type" := Str(recordType), "chunk_index" := Number(i), "total_chunks" := Number(|chunks|)]
  {
    seq(|chunks|, i requires 0 <= i < |chunks| => HistoryRecord(id, chunks, i, recordType, stamp))
  }

  function HistoryRecord(id: string, chunks: seq<string>, i: nat, recordType: string, stamp: string): Record
    requires i < |chunks|
  {
    Record(chunks[i], map["patient_id" := Str(id), "timestamp" := Str(stamp),
      "type" := Str(recordType), "chunk_index" := Number(i), "total_chunks" := Number(|chunks|)])
  }

  /** The chunks of a history share the id and the type and are numbered 0, 1, ... out of
      the number of chunks. */
  lemma HistoryChunksNumbered(id: string, chunks: seq<string>, recordType: string, stamp: string)
    ensures var r := HistoryRecords(id, chunks, recordType, stamp);
      forall i :: 0 <= i < |r| ==>
        && r[i].metadata["patient_id"] == Str(id) && r[i].metadata["type"] == Str(recordType)
        && r[i].metadata["chunk_index"] == Number(i) && r[i].metadata["total_chunks"] == Number(|r|)
  {
  }

  /** A record passes a metadata filter when it has every filtered key with that value. */
  predicate Matches(r: Record, filter: Dict)
  {
    forall k :: k in filter ==> k in r.metadata && r.metadata[k] == filter[k]
  }

  /** The records at the ranked positions that exist and pass the filter, in rank order. */
  function Hits(store: seq<Record>, ranked: seq<nat>, filter: Dict): (r: seq<Record>)
    ensures forall x :: x in r ==> x in store && Matches(x, filter)
    ensures |r| <= |ranked|
  {
    if |ranked| == 0 then []
    else
      var rest := Hits(store, ranked[1..], filter);
      var i := ranked[0];
      if i < |store| && Matches(store[i], filter) then [store[i]] + rest else rest
  }

  /** What the vector index answers for a query over the store: positions of the records,
      most similar first (with as many candidates as it fetched), or the failure. The index
      is not told `k` or the filter, so FAISS's pool of `fetch_k` candidates taken before
      filtering is whatever the oracle returns. */
  type Ranking = (string, seq<Record>) -> Raises<seq<nat>>

  /** `similarity_search(query, k=k, filter=filter)`: the first `k` candidates that pass
      the filter (an empty filter passes everything). */
  function SimilaritySearch(ranking: Ranking, store: seq<Record>, query: string, k: nat, filter: Dict): (r: Raises<seq<Record>>)
    ensures r.Returned? ==> |r.value| <= k && forall x :: x in r.value ==> x in store && Matches(x, filter)
    ensures r.Raised? <==> ranking(query, store).Raised?
  {
    match ranking(query, store)
    case Raised(m) => Raised(m)
    case Returned(ranked) => Returned(PyPrefix(Hits(store, ranked, filter), k))
  }

  /** `retrieve_patient_context` over `records`: a similarity search restricted to the id,
      with the generic query `patient <id> medical history` when no query is given. */
  function PatientContext(ranking: Ranking, records: seq<Record>, id: string, query: string, k: nat): (r: Raises<seq<Record>>)
    ensures r.Returned? ==> |r.value| <= k && forall x :: x in r.value ==> x in records && OwnedBy(x, id)
  {
    var q := if query != "" then query else "patient " + id + " medical history";
    SimilaritySearch(ranking, records, q, k, map["patient_id" := Str(id)])
  }

  /** The record's metadata names exactly this patient id. */
  predicate OwnedBy(r: Record, id: string)
  {
    "patient_id" in r.metadata && r.metadata["patient_id"] == Str(id)
  }

  /** The exact-id filter of `export_patient_data`. */
  function KeepOwned(docs: seq<Record>, id: string): (r: seq<Record>)
    ensures forall x :: x in r <==> x in docs && OwnedBy(x, id)
    ensures |r| <= |docs|
  {
    if |docs| == 0 then []
    else if OwnedBy(docs[0], id) then [docs[0]] + KeepOwned(docs[1..], id)
    else KeepOwned(docs[1..], id)
  }

  /** `f"[{doc.metadata.get('type', default)}] {doc.page_content}"`. */
  function Tagged(r: Record, default: string): string
  {
    "[" + GetText(r.metadata, "type", default) + "] " + r.content
  }

  /** One tagged line per record, in order. */
  function TaggedLines(docs: seq<Record>, default: string): (r: seq<string>)
    ensures |r| == |docs| && forall i :: 0 <= i < |docs| ==> r[i] == Tagged(docs[i], default)
  {
    seq(|docs|, i requires 0 <= i < |docs| => Tagged(docs[i], default))
  }

  /** The text `get_patient_summary_text` gives for the records it retrieved. */
  function SummaryText(id: string, docs: seq<Record>): string
  {
    if |docs| == 0 then "No memory found for patient " + id
    else Join(TaggedLines(docs, "unknown"), "\n\n")
  }

  /** A summary of retrieved records names the type of each, `unknown` where the metadata
      has none, and reports a missing memory only when nothing was retrieved. */
  lemma SummaryTextShape(id: string, docs: seq<Record>)
    ensures |docs| == 0 ==> SummaryText(id, docs) == "No memory found for patient " + id
    ensures |docs| == 1 ==> SummaryText(id, docs) == Tagged(docs[0], "unknown")
    ensures forall i :: 0 <= i < |docs| && "type" !in docs[i].metadata ==>
      TaggedLines(docs, "unknown")[i] == "[unknown] " + docs[i].content
  {
  }

  /** What `export_patient_data` returns. */
  datatype Export = Export(patientId: string, sessionMemory: SessionEntry, longTermMemory: seq<Record>)

  /** What `get_memory_stats` returns. */
  datatype MemoryStats = MemoryStats(totalDocuments: nat, activeSessions: nat, persistDirectory: string, embeddingModel: string)

  const EmbeddingModel := "models/embedding-001"

  class MemoryManager {
    var sessions: Sessions
    var records: seq<Record>
    const ranking: Ranking
    /** The failure every `add_documents` call meets (embedding the documents or adding
        them to the index), if any; nothing is added then. */
    const storeFault: Option<string>
    /** The failure every `save_local` call meets (the disk being unavailable), if any; it
        comes after `add_documents`, so the documents stay in the index. */
    const persistFault: Option<string>
    const persistDirectory: string

    ghost predicate Valid()
      reads this
    {
      sessions.WellFormed()
    }

    constructor (ranking: Ranking, storeFault: Option<string>, persistFault: Option<string>,
                 persistDirectory: string, records: seq<Record>)
      ensures Valid()
      ensures this.ranking == ranking && this.storeFault == storeFault && this.persistFault == persistFault
      ensures this.persistDirectory == persistDirectory && this.records == records
      ensures sessions == NoSessions
    {
      this.ranking := ranking;
      this.storeFault := storeFault;
      this.persistFault := persistFault;
      this.persistDirectory := persistDirectory;
      this.records := records;
      sessions := NoSessions;
    }

    /** The outcome of `add_documents` followed by `save_local`: the first failure. */
    function WriteOutcome(): (o: Outcome)
      ensures o.Pass? <==> storeFault.None? && persistFault.None?
      ensures storeFault.Some? ==> o == Fail(storeFault.value)
      ensures storeFault.None? && persistFault.Some? ==> o == Fail(persistFault.value)
    {
      if storeFault.Some? then Fail(storeFault.value)
      else if persistFault.Some? then Fail(persistFault.value)
      else Pass
    }

    /** `save_patient_summary`: one document with the summary text and its metadata,
        added unless `add_documents` raises, then persisted. */
    method SavePatientSummary(id: string, summary: string, metadata: Dict, stamp: string) returns (o: Outcome)
      modifies this
      ensures sessions == old(sessions)
      ensures o == WriteOutcome()
      ensures storeFault.None? ==> records == old(records) + [Record(summary, SummaryMetadata(id, stamp, metadata))]
      ensures storeFault.Some? ==> records == old(records)
    {
      if storeFault.Some? {
        return Fail(storeFault.value);
      }
      var meta := map["patient_id" := Str(id), "timestamp" := Str(stamp), "type" := Str("patient_summary")];
      if metadata != map[] {
        meta := meta + metadata;
      } else {
        assert meta + metadata == meta;
      }
      records := records + [Record(summary, meta)];
      if persistFault.Some? {
        return Fail(persistFault.value);
      }
      o := Pass;
    }

    /** `save_medical_history`: one document per chunk of the history (the chunking
        itself is given), added unless `add_documents` raises, then persisted. */
    method SaveMedicalHistory(id: string, chunks: seq<string>, recordType: string, stamp: string) returns (o: Outcome)
      modifies this
      ensures sessions == old(sessions)
      ensures o == WriteOutcome()
      ensures storeFault.None? ==> records == old(records) + HistoryRecords(id, chunks, recordType, stamp)
      ensures storeFault.Some? ==> records == old(records)
    {
      var documents: seq<Record> := [];
      var i := 0;
      while i < |chunks|
        invariant 0 <= i <= |chunks|
        invariant documents == HistoryRecords(id, chunks, recordType, stamp)[..i]
      {
        documents := documents + [HistoryRecord(id, chunks, i, recordType, stamp)];
        i := i + 1;
      }
      if storeFault.Some? {
        return Fail(storeFault.value);
      }
      records := records + documents;
      if persistFault.Some? {
        return Fail(persistFault.value);
      }
      o := Pass;
    }

    /** `retrieve_patient_context` on the manager's current documents. */
    function RetrievePatientContext(id: string, query: string, k: nat): (r: Raises<seq<Record>>)
      reads this
      ensures r.Returned? ==> |r.value| <= k && forall x :: x in r.value ==> x in records && OwnedBy(x, id)
    {
      PatientContext(ranking, records, id, query, k)
    }

    /** `add_to_session_memory`. */
    method AddToSessionMemory(id: string, interaction: Dict, stamp: string) returns (o: Outcome)
      requires Valid()
      modifies this
      ensures Valid()
      ensures (sessions, o) == AddInteraction(old(sessions), id, interaction, stamp)
      ensures records == old(records)
    {
      if id !in sessions.entries {
        sessions := Put(sessions, id, Log([]));
      }
      var stamped := interaction["timestamp" := Str(stamp)];
      match sessions.entries[id]
      case Log(items) =>
        sessions := Put(sessions, id, Log(items + [stamped]));
        o := Pass;
      case Summary(_) =>
        o := Fail("'dict' object has no attribute 'append'");
    }

    /** `get_session_memory`. */
    function GetSessionMemory(id: string, lastN: Option<int>): (r: Raises<SessionEntry>)
      reads this
      ensures id !in sessions.entries ==> r == Returned(Log([]))
      ensures lastN.None? && id in sessions.entries ==> r == Returned(sessions.entries[id])
    {
      GetSession(sessions, id, lastN)
    }

    /** `clear_session_memory`. */
    method ClearSessionMemory(id: string)
      requires Valid()
      modifies this
      ensures Valid()
      ensures sessions == Delete(old(sessions), id)
      ensures records == old(records)
    {
      sessions := Delete(sessions, id);
    }

    /** `get_all_patient_ids`: the session ids in insertion order. */
    function GetAllPatientIds(): (ids: seq<string>)
      requires Valid()
      reads this
      ensures (set k | k in ids) == sessions.entries.Keys && |ids| == |sessions.entries|
    {
      IdsAreKeys(sessions);
      sessions.order
    }

    /** `export_patient_data`: the session entry (or `[]`) and the stored documents whose
        metadata names exactly this id; a failed search exports no documents. */
    function ExportPatientData(id: string): (r: Export)
      reads this
      ensures r.patientId == id
      ensures r.sessionMemory == if id in sessions.entries then sessions.entries[id] else Log([])
      ensures forall x :: x in r.longTermMemory ==> x in records && OwnedBy(x, id)
      ensures ranking("patient " + id, records).Raised? ==> r.longTermMemory == []
    {
      var sessionData := if id in sessions.entries then sessions.entries[id] else Log([]);
      var longTerm :=
        match SimilaritySearch(ranking, records, "patient " + id, 100, map[])
        case Returned(docs) => KeepOwned(docs, id)
        case Raised(_) => [];
      Export(id, sessionData, longTerm)
    }

    /** `update_patient_summary`: the session change, then one summary document holding
        `json.dumps(updates)`; `True` unless adding or persisting it raised. `updates` is a
        dictionary in key order, so its keys are distinct. */
    method UpdatePatientSummary(id: string, updates: Pairs, stamp: string) returns (ok: bool)
      requires Valid() && KeysDistinct(updates)
      modifies this
      ensures Valid()
      ensures sessions == MergeSummary(old(sessions), id, ToDict(updates))
      ensures ok <==> storeFault.None? && persistFault.None?
      ensures storeFault.None? ==> records == old(records) + [Record(JsonObject(updates), SummaryMetadata(id, stamp, ToDict(updates)))]
      ensures storeFault.Some? ==> records == old(records)
    {
      sessions := MergeSummary(sessions, id, ToDict(updates));
      var o := SavePatientSummary(id, JsonObject(updates), ToDict(updates), stamp);
      ok := o == Pass;
    }

    /** `search_similar_cases`: a search over every patient, restricted to one record type
        when one is given. */
    function SearchSimilarCases(query: string, k: nat, recordType: string): (r: Raises<seq<Record>>)
      reads this
      ensures r.Returned? ==> |r.value| <= k && forall x :: x in r.value ==> x in records
      ensures r.Returned? && recordType != "" ==> forall x :: x in r.value ==>
        "type" in x.metadata && x.metadata["type"] == Str(recordType)
    {
      var filter := if recordType != "" then map["type" := Str(recordType)] else map[];
      SimilaritySearch(ranking, records, query, k, filter)
    }

    /** `get_patient_summary_text`: the ten records retrieved for the id, tagged by type. */
    method GetPatientSummaryText(id: string) returns (r: Raises<string>)
      ensures r == match RetrievePatientContext(id, "", 10)
        case Raised(m) => Raised(m)
        case Returned(docs) => Returned(SummaryText(id, docs))
    {
      var found := RetrievePatientContext(id, "", 10);
      if found.Raised? {
        return Raised(found.message);
      }
      var docs := found.value;
      if |docs| == 0 {
        return Returned("No memory found for patient " + id);
      }
      var parts: seq<string> := [];
      var i := 0;
      while i < |docs|
        invariant 0 <= i <= |docs|
        invariant parts == TaggedLines(docs, "unknown")[..i]
      {
        parts := parts + [Tagged(docs[i], "unknown")];
        i := i + 1;
      }
      assert parts == TaggedLines(docs, "unknown");
      r := Returned(Join(parts, "\n\n"));
    }

    /** `get_memory_stats`. */
    function GetMemoryStats(): (r: MemoryStats)
      requires Valid()
      reads this
      ensures r.totalDocuments == |records| && r.activeSessions == |sessions.order|
      ensures r.persistDirectory == persistDirectory && r.embeddingModel == EmbeddingModel
    {
      IdsAreKeys(sessions);
      MemoryStats(|records|, |sessions.entries|, persistDirectory, EmbeddingModel)
    }

    /** `clear_memory`: no sessions and no stored documents. */
    method ClearMemory()
      modifies this
      ensures Valid()
      ensures sessions == NoSessions && records == []
    {
      sessions := NoSessions;
      records := [];
    }
  }
}
