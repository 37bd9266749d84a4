/** The EHR agent: a four-stage workflow (parse the request, fetch the patient's record,
    analyse it, format the answer) over a record store, with optional patient memory (the
    memory manager and a retrieval pipeline of its own). */
module Ehr {
  import opened Wrappers
  import opened Text
  import opened Values
  import opened BaseAgent
  import opened MemoryStore
  import opened Rag

  // ---------------------------------------------------------------- the request

  /** A regular-expression word boundary `\b` just before position `i`, where what
      follows is a word character. */
  predicate BoundaryBefore(s: string, i: int)
    requires 0 <= i <= |s|
  {
    i == 0 || !IsWordChar(s[i - 1])
  }

  /** A word boundary at position `j`, where what precedes is a word character. */
  predicate BoundaryAfter(s: string, j: int)
    requires 0 <= j <= |s|
  {
    j == |s| || !IsWordChar(s[j])
  }

  /** `s[i..j]` is a match of `\bP\d+\b` under `re.IGNORECASE`. */
  predicate TokenAt(s: string, i: int, j: int)
  {
    && 0 <= i && i + 2 <= j <= |s|
    && (s[i] == 'P' || s[i] == 'p')
    && BoundaryBefore(s, i)
    && (forall m :: i < m < j ==> IsDigit(s[m]))
    && BoundaryAfter(s, j)
  }

  /** The end of the run of digits that starts at `k`. */
  function DigitRun(s: string, k: nat): (j: nat)
    requires k <= |s|
    ensures k <= j <= |s|
    ensures forall m :: k <= m < j ==> IsDigit(s[m])
    ensures j == |s| || !IsDigit(s[j])
    decreases |s| - k
  {
    if k < |s| && IsDigit(s[k]) then DigitRun(s, k + 1) else k
  }

  /** A run of digits that ends before a non-digit is the run `DigitRun` finds. */
  lemma {:induction false} DigitRunMaximal(s: string, k: nat, e: nat)
    requires k <= e <= |s|
    requires forall m :: k <= m < e ==> IsDigit(s[m])
    requires e == |s| || !IsDigit(s[e])
    ensures DigitRun(s, k) == e
    decreases e - k
  {
    if k < e {
      DigitRunMaximal(s, k + 1, e);
    }
  }

  /** A match starting at `i` ends where the digits after `i` end. */
  lemma TokenEndsAtRun(s: string, i: nat)
    requires i < |s|
    ensures forall e :: TokenAt(s, i, e) ==> e == DigitRun(s, i + 1)
  {
    forall e | TokenAt(s, i, e) ensures e == DigitRun(s, i + 1) {
      DigitRunMaximal(s, i + 1, e);
    }
  }

  /** Where the match of the token pattern that starts at `i` ends, if one starts there.
      A shorter run of digits never helps: it is followed by a digit, a word character. */
  function TokenEnd(s: string, i: nat): (r: Option<nat>)
    requires i < |s|
    ensures r.Some? ==> TokenAt(s, i, r.value)
    ensures r.None? ==> forall j :: !TokenAt(s, i, j)
  {
    if (s[i] == 'P' || s[i] == 'p') && BoundaryBefore(s, i) then
      var j := DigitRun(s, i + 1);
      TokenEndsAtRun(s, i);
      if j >= i + 2 && BoundaryAfter(s, j) then Some(j) else None
    else None
  }

  /** `re.search`: the leftmost match at or after `k`, as its start and end. */
  function FirstToken(s: string, k: nat): (r: Option<(nat, nat)>)
    requires k <= |s|
    ensures r.Some? ==> k <= r.value.0 < |s| && TokenEnd(s, r.value.0) == Some(r.value.1)
    ensures r.Some? ==> forall m :: k <= m < r.value.0 ==> TokenEnd(s, m).None?
    ensures r.None? ==> forall m :: k <= m < |s| ==> TokenEnd(s, m).None?
    decreases |s| - k
  {
    if k == |s| then None
    else match TokenEnd(s, k)
      case Some(j) => Some((k, j))
      case None => FirstToken(s, k + 1)
  }

  /** Past the match ending at `j`, with the optional `:` after it. */
  function PastColon(s: string, j: nat): (r: nat)
    requires j <= |s|
    ensures j <= r <= |s|
  {
    if j < |s| && s[j] == ':' then j + 1 else j
  }

  /** `re.sub(r'\bP\d+\b:?', '', s[k..])` with the boundaries read in all of `s`: every
      match, left to right and without overlap, is removed with the `:` after it. */
  function Cleaned(s: string, k: nat): (r: string)
    requires k <= |s|
    ensures |r| <= |s| - k
    decreases |s| - k
  {
    if k == |s| then ""
    else match TokenEnd(s, k)
      case Some(j) => Cleaned(s, PastColon(s, j))
      case None => [s[k]] + Cleaned(s, k + 1)
  }

  /** The text before the next match is kept as it is. */
  lemma {:induction false} CleanedKeepsPlainText(s: string, k: nat, i: nat)
    requires k <= i <= |s|
    requires forall m :: k <= m < i ==> TokenEnd(s, m).None?
    ensures Cleaned(s, k) == s[k..i] + Cleaned(s, i)
    decreases i - k
  {
    if k < i {
      CleanedPlainStep(s, k);
      CleanedKeepsPlainText(s, k + 1, i);
      assert s[k..i] == [s[k]] + s[k + 1..i];
    }
  }

  lemma CleanedPlainStep(s: string, k: nat)
    requires k < |s| && TokenEnd(s, k).None?
    ensures Cleaned(s, k) == [s[k]] + Cleaned(s, k + 1)
  {
  }

  /** A query without a token comes out of the substitution unchanged. */
  lemma CleanedWithoutTokens(s: string)
    requires FirstToken(s, 0).None?
    ensures Cleaned(s, 0) == s
  {
    CleanedKeepsPlainText(s, 0, |s|);
  }

  /** The substitution removes the first token (and its `:`) and keeps what precedes it. */
  lemma CleanedAtFirstToken(s: string)
    requires FirstToken(s, 0).Some?
    ensures var (i, j) := FirstToken(s, 0).value;
      Cleaned(s, 0) == s[..i] + Cleaned(s, PastColon(s, j))
  {
    var (i, j) := FirstToken(s, 0).value;
    CleanedKeepsPlainText(s, 0, i);
  }

  /** A matched token upper-cased: `P` and its digits. */
  lemma UpperToken(s: string, i: nat, j: nat)
    requires TokenAt(s, i, j)
    ensures Upper(s[i..j]) == "P" + s[i + 1..j]
  {
    var u := Upper(s[i..j]);
    assert u[0] == 'P';
    forall m | 1 <= m < j - i ensures u[m] == s[i + m] {
      assert IsDigit(s[i..j][m]);
    }
  }

  /** `_parse_request`: the patient id and the question. */
  datatype Request = Request(patientId: string, queryType: string)

  /** How `_parse_request` reads a query: split at the first `|`; else the first
      whole-word `P<digits>` token is the id and the rest of the query the question;
      else the whole query is the id of a summary request. */
  function RequestFields(query: string): (r: Request)
    ensures '|' !in query ==> r.queryType != ""
  {
    if '|' in query then
      var (before, after) := SplitOnce(query, '|');
      Request(Strip(before), Strip(after))
    else match FirstToken(query, 0)
      case Some((i, j)) =>
        UpperToken(query, i, j);
        var cleaned := Strip(Cleaned(query, 0));
        Request(Upper(query[i..j]), if cleaned != "" then cleaned else "summary")
      case None => Request(Strip(query), "summary")
  }

  /** Only the first `|` splits: the id is what precedes it and the question is all the
      rest, both stripped, and the question may be empty. */
  lemma BarRequest(a: string, b: string)
    requires '|' !in a
    ensures RequestFields(a + "|" + b) == Request(Strip(a), Strip(b))
  {
    var q := a + "|" + b;
    assert q[..|a|] == a;
    IndexOfAt(q, '|', |a|);
    assert q[|a| + 1..] == b;
  }

  /** With a token and no `|`, the question is the query without any of its tokens, or
      a summary request when nothing else is left. */
  lemma TokenRequest(query: string)
    requires '|' !in query && FirstToken(query, 0).Some?
    ensures var (i, j) := FirstToken(query, 0).value;
      var rest := Strip(query[..i] + Cleaned(query, PastColon(query, j)));
      RequestFields(query) == Request("P" + query[i + 1..j], if rest != "" then rest else "summary")
  {
    var (i, j) := FirstToken(query, 0).value;
    CleanedAtFirstToken(query);
    UpperToken(query, i, j);
  }

  /** With neither a `|` nor a token, the whole query is the id of a summary request. */
  lemma PlainRequest(query: string)
    requires '|' !in query && FirstToken(query, 0).None?
    ensures RequestFields(query) == Request(Strip(query), "summary")
  {
  }

  /** The bare id gives its summary request. */
  lemma BareIdRequest()
    ensures RequestFields("P123") == Request("P123", "summary")
  {
    BareIdToken();
    BareIdRest();
    TokenRequest("P123");
    assert "P" + "P123"[1..4] == "P123";
  }

  /** The whole of `P123` is its first token. */
  lemma BareIdToken()
    ensures FirstToken("P123", 0) == Some((0, 4))
  {
    var q := "P123";
    assert DigitRun(q, 4) == 4;
    assert DigitRun(q, 1) == 4;
    assert TokenEnd(q, 0) == Some(4);
  }

  /** Nothing is left of `P123` once its token is removed. */
  lemma BareIdRest()
    ensures Strip("P123"[..0] + Cleaned("P123", PastColon("P123", 4))) == ""
  {
    var q := "P123";
    assert PastColon(q, 4) == 4;
    assert q[..0] + Cleaned(q, 4) == "";
    assert forall i, j :: 0 <= i <= j <= 0 ==> ""[i..j] == "";
  }

  // ---------------------------------------------------------------- the record

  /** The keys whose values the layouts iterate item by item. */
  predicate ListKey(key: string)
  {
    key == "conditions" || key == "medications" || key == "allergies"
  }

  /** A record as the stores build it: conditions and medications are lists of strings,
      vitals a dictionary, and allergies either the text of the `allergies` column
      (`None` when it is NULL) or, from the mock store, a list of strings. */
  predicate ShapedRecord(d: Dict)
  {
    && ("conditions" in d ==> d["conditions"].Strs?)
    && ("medications" in d ==> d["medications"].Strs?)
    && ("allergies" in d ==> d["allergies"].Strs? || d["allergies"].Str? || d["allergies"].Null?)
    && ("vitals" in d ==> d["vitals"].Entries?)
  }

  type PatientRecord = d: Dict | ShapedRecord(d) witness map[]

  /** What iterating `d.get(key, [])` visits: the items of a list, the characters of a
      text, nothing for `None` or a missing key. It is empty exactly when the value is
      falsy. */
  function ItemsOf(d: PatientRecord, key: string): (items: seq<string>)
    requires ListKey(key)
    ensures items == [] <==> key !in d || !Truthy(d[key])
  {
    if key !in d then []
    else
      match d[key]
      case Strs(items) => items
      case Str(s) => Chars(s)
      case _ => []
  }

  /** The one-character strings of a text, as iterating a Python `str` gives them. */
  function Chars(s: string): seq<string>
  {
    seq(|s|, i requires 0 <= i < |s| => [s[i]])
  }

  /** `d.get("vitals", {})`, as its ordered entries. */
  function VitalsOf(d: PatientRecord): Pairs
  {
    if "vitals" in d then d["vitals"].pairs else []
  }

  /** `d.get(key)`. */
  function Get(d: Dict, key: string): Field
  {
    if key in d then d[key] else Null
  }

  /** The record exists and is not an error reply: `patient_data` is truthy and
      `patient_data.get("error")` is not. */
  predicate Found(data: Option<PatientRecord>)
  {
    Present(data) && !Truthy(Get(data.value, "error"))
  }

  /** `patient_data` is truthy: a non-empty record. */
  predicate Present(data: Option<PatientRecord>)
  {
    data.Some? && data.value != map[]
  }

  /** The three lines every layout of a record starts with. */
  function BasicLines(d: Dict): (lines: seq<string>)
  {
    ["Patient: " + GetText(d, "name", "Unknown"), "Age: " + GetText(d, "age", "Unknown"),
     "Gender: " + GetText(d, "gender", "Unknown")]
  }

  /** One bullet line per item, in order. */
  function Bullets(items: seq<string>): (lines: seq<string>)
    ensures |lines| == |items|
  {
    if items == [] then [] else Bullets(items[..|items| - 1]) + ["  - " + items[|items| - 1]]
  }

  lemma {:induction false} BulletAt(items: seq<string>, i: int)
    requires 0 <= i < |items|
    ensures Bullets(items)[i] == "  - " + items[i]
  {
    if i < |items| - 1 {
      var front := items[..|items| - 1];
      BulletAt(front, i);
      assert Bullets(items)[i] == Bullets(front)[i];
    }
  }

  lemma BulletsStep(items: seq<string>, i: int)
    requires 0 <= i < |items|
    ensures Bullets(items[..i + 1]) == Bullets(items[..i]) + ["  - " + items[i]]
  {
    assert items[..i + 1][..i] == items[..i];
  }

  /** One line per vital sign, in order, with its rendered value. */
  function VitalLines(vitals: Pairs): (lines: seq<string>)
    ensures |lines| == |vitals|
  {
    if vitals == [] then []
    else
      var last := vitals[|vitals| - 1];
      VitalLines(vitals[..|vitals| - 1]) + ["  - " + last.0 + ": " + Render(last.1)]
  }

  lemma VitalLinesStep(vitals: Pairs, i: int)
    requires 0 <= i < |vitals|
    ensures VitalLines(vitals[..i + 1]) == VitalLines(vitals[..i]) + ["  - " + vitals[i].0 + ": " + Render(vitals[i].1)]
  {
    assert vitals[..i + 1][..i] == vitals[..i];
  }

  /** A titled section of the layout, absent when it has no lines. */
  function Section(title: string, lines: seq<string>): (r: seq<string>)
    ensures lines == [] ==> r == []
    ensures lines != [] ==> r == [title] + lines
  {
    if lines == [] then [] else [title] + lines
  }

  /** The sections of the layout, with the allergy bullets made from `allergies`. */
  function SectionsWith(d: PatientRecord, allergies: seq<string>): seq<string>
  {
    BasicLines(d)
    + Section("\nConditions:", Bullets(ItemsOf(d, "conditions")))
    + Section("\nMedications:", Bullets(ItemsOf(d, "medications")))
    + Section("\nVital Signs:", VitalLines(VitalsOf(d)))
    + Section("\nAllergies:", Bullets(allergies))
  }

  function RecordSections(d: PatientRecord): seq<string>
  {
    SectionsWith(d, ItemsOf(d, "allergies"))
  }

  /** `_format_patient_data`: the record laid out one line per fact. */
  function RecordText(d: PatientRecord): string
  {
    if d == map[] then "No patient data available" else Join(RecordSections(d), "\n")
  }

  /** The layout shows the name, age and gender (or `Unknown`). */
  lemma RecordTextShowsBasics(d: PatientRecord)
    requires d != map[]
    ensures Contains(RecordText(d), "Patient: " + GetText(d, "name", "Unknown"))
    ensures Contains(RecordText(d), "Age: " + GetText(d, "age", "Unknown"))
    ensures Contains(RecordText(d), "Gender: " + GetText(d, "gender", "Unknown"))
  {
    var s := RecordSections(d);
    JoinContains(s, "\n", 0);
    JoinContains(s, "\n", 1);
    JoinContains(s, "\n", 2);
  }

  /** The layout shows every condition, medication and allergy on a bullet line of its own. */
  lemma RecordTextShowsEach(d: PatientRecord, key: string, i: int)
    requires d != map[] && ListKey(key) && 0 <= i < |ItemsOf(d, key)|
    ensures Contains(RecordText(d), "  - " + ItemsOf(d, key)[i])
  {
    if key == "conditions" {
      ConditionShown(d, i);
    } else if key == "medications" {
      MedicationShown(d, i);
    } else {
      AllergyShown(d, i);
    }
  }

  lemma ConditionShown(d: PatientRecord, i: int)
    requires d != map[] && 0 <= i < |ItemsOf(d, "conditions")|
    ensures Contains(RecordText(d), "  - " + ItemsOf(d, "conditions")[i])
  {
    var c := Section("\nConditions:", Bullets(ItemsOf(d, "conditions")));
    BulletAt(ItemsOf(d, "conditions"), i);
    InSecond(BasicLines(d), c, Section("\nMedications:", Bullets(ItemsOf(d, "medications"))),
      Section("\nVital Signs:", VitalLines(VitalsOf(d))), Section("\nAllergies:", Bullets(ItemsOf(d, "allergies"))), i);
    JoinContains(RecordSections(d), "\n", |BasicLines(d)| + 1 + i);
  }

  lemma MedicationShown(d: PatientRecord, i: int)
    requires d != map[] && 0 <= i < |ItemsOf(d, "medications")|
    ensures Contains(RecordText(d), "  - " + ItemsOf(d, "medications")[i])
  {
    var b := BasicLines(d);
    var c := Section("\nConditions:", Bullets(ItemsOf(d, "conditions")));
    BulletAt(ItemsOf(d, "medications"), i);
    InThird(b, c, Section("\nMedications:", Bullets(ItemsOf(d, "medications"))),
      Section("\nVital Signs:", VitalLines(VitalsOf(d))), Section("\nAllergies:", Bullets(ItemsOf(d, "allergies"))), i);
    JoinContains(RecordSections(d), "\n", |b + c| + 1 + i);
  }

  lemma AllergyShown(d: PatientRecord, i: int)
    requires d != map[] && 0 <= i < |ItemsOf(d, "allergies")|
    ensures Contains(RecordText(d), "  - " + ItemsOf(d, "allergies")[i])
  {
    SectionsShowAllergy(d, ItemsOf(d, "allergies"), i);
  }

  /** Whatever the allergy items, each of them is a bullet line of the joined sections. */
  lemma SectionsShowAllergy(d: PatientRecord, allergies: seq<string>, i: int)
    requires 0 <= i < |allergies|
    ensures Contains(Join(SectionsWith(d, allergies), "\n"), "  - " + allergies[i])
  {
    var b := BasicLines(d);
    var c := Section("\nConditions:", Bullets(ItemsOf(d, "conditions")));
    var m := Section("\nMedications:", Bullets(ItemsOf(d, "medications")));
    var v := Section("\nVital Signs:", VitalLines(VitalsOf(d)));
    BulletAt(allergies, i);
    InFifth(b, c, m, v, Section("\nAllergies:", Bullets(allergies)), i);
    JoinContains(SectionsWith(d, allergies), "\n", |b + c + m + v| + 1 + i);
  }

  /** Positions in a layout of five parts: the lines of the second, third and fifth part. */
  lemma InSecond<T>(b: seq<T>, c: seq<T>, m: seq<T>, v: seq<T>, a: seq<T>, i: int)
    requires 0 <= i && 1 + i < |c|
    ensures (b + c + m + v + a)[|b| + 1 + i] == c[1 + i]
  {
    assert (b + c + m + v + a)[|b| + 1 + i] == (b + c)[|b| + 1 + i];
  }

  lemma InThird<T>(b: seq<T>, c: seq<T>, m: seq<T>, v: seq<T>, a: seq<T>, i: int)
    requires 0 <= i && 1 + i < |m|
    ensures (b + c + m + v + a)[|b + c| + 1 + i] == m[1 + i]
  {
    assert (b + c + m + v + a)[|b + c| + 1 + i] == (b + c + m)[|b + c| + 1 + i];
  }

  lemma InFifth<T>(b: seq<T>, c: seq<T>, m: seq<T>, v: seq<T>, a: seq<T>, i: int)
    requires 0 <= i && 1 + i < |a|
    ensures (b + c + m + v + a)[|b + c + m + v| + 1 + i] == a[1 + i]
  {
  }

  /** A labelled part of the stored summary, absent when the list is empty. */
  function Labelled(title: string, items: seq<string>): (r: seq<string>)
  {
    if items == [] then [] else [title + Join(items, ", ")]
  }

  /** The parts of the summary, with the allergy part made from `allergies`. */
  function SummaryPartsWith(d: PatientRecord, allergies: seq<string>): seq<string>
  {
    BasicLines(d)
    + Labelled("Conditions: ", ItemsOf(d, "conditions"))
    + Labelled("Medications: ", ItemsOf(d, "medications"))
    + Labelled("Allergies: ", allergies)
  }

  function SummaryParts(d: PatientRecord): (parts: seq<string>)
  {
    SummaryPartsWith(d, ItemsOf(d, "allergies"))
  }

  /** `_create_patient_summary`: the text stored in long-term memory. */
  function PatientSummary(d: PatientRecord): string
  {
    Join(SummaryParts(d), " | ")
  }

  /** The number of parts of the summary: three, and one per non-empty list. */
  function NonEmpty(items: seq<string>): nat
  {
    if items == [] then 0 else 1
  }

  /** Name, age and gender always lead the summary (as `Unknown` when missing); a list
      part follows exactly for each non-empty list, in the order conditions,
      medications, allergies. */
  lemma SummaryPartsShape(d: PatientRecord)
    ensures var parts := SummaryParts(d);
      && parts[..3] == BasicLines(d)
      && |parts| == 3 + NonEmpty(ItemsOf(d, "conditions")) + NonEmpty(ItemsOf(d, "medications"))
                      + NonEmpty(ItemsOf(d, "allergies"))
      && (ItemsOf(d, "conditions") != [] ==> parts[3] == "Conditions: " + Join(ItemsOf(d, "conditions"), ", "))
      && (ItemsOf(d, "allergies") != [] ==>
            parts[|parts| - 1] == "Allergies: " + Join(ItemsOf(d, "allergies"), ", "))
  {
  }

  /** Every part reaches the stored summary text. */
  lemma SummaryShowsEachPart(d: PatientRecord, i: int)
    requires 0 <= i < |SummaryParts(d)|
    ensures Contains(PatientSummary(d), SummaryParts(d)[i])
  {
    JoinContains(SummaryParts(d), " | ", i);
  }

  // ---------------------------------------------------------------- the allergy text

  /** An allergy text of n characters is laid out as n bullet lines of one character
      each, all of them in the record text, and summarised as its characters joined by
      commas; an empty text gives neither. */
  lemma AllergyTextChars(d: PatientRecord, s: string)
    requires "allergies" in d && d["allergies"] == Str(s)
    ensures ItemsOf(d, "allergies") == Chars(s)
    ensures |Bullets(ItemsOf(d, "allergies"))| == |s|
    ensures forall i :: 0 <= i < |s| ==> Bullets(ItemsOf(d, "allergies"))[i] == "  - " + [s[i]]
    ensures forall i :: 0 <= i < |s| ==> Contains(RecordText(d), "  - " + [s[i]])
    ensures s != "" ==> SummaryParts(d)[|SummaryParts(d)| - 1] == "Allergies: " + Join(Chars(s), ", ")
    ensures s == "" ==> |SummaryParts(d)| == 3 + NonEmpty(ItemsOf(d, "conditions")) + NonEmpty(ItemsOf(d, "medications"))
  {
    forall i | 0 <= i < |s|
      ensures Bullets(ItemsOf(d, "allergies"))[i] == "  - " + [s[i]]
      ensures Contains(RecordText(d), "  - " + [s[i]])
    {
      BulletAt(ItemsOf(d, "allergies"), i);
      AllergyShown(d, i);
    }
    SummaryPartsShape(d);
  }

  /** The sample record `P002`, whose allergy column holds the text `None`, gets four
      one-letter bullet lines and the summary part `Allergies: N, o, n, e`. */
  lemma NoneSpelledOut(d: PatientRecord)
    requires "allergies" in d && d["allergies"] == Str("None")
    ensures Section("\nAllergies:", Bullets(ItemsOf(d, "allergies"))) == ["\nAllergies:", "  - N", "  - o", "  - n", "  - e"]
    ensures SummaryParts(d)[|SummaryParts(d)| - 1] == "Allergies: N, o, n, e"
  {
    assert ItemsOf(d, "allergies") == ["N", "o", "n", "e"];
    NoneLetters();
    SummaryPartsShape(d);
  }

  /** The bullet lines and the comma-joined text of the letters of `None`. */
  lemma NoneLetters()
    ensures Bullets(["N", "o", "n", "e"]) == ["  - N", "  - o", "  - n", "  - e"]
    ensures Join(["N", "o", "n", "e"], ", ") == "N, o, n, e"
  {
    var letters := ["N", "o", "n", "e"];
    forall i | 0 <= i < 4
      ensures Bullets(letters)[i] == ["  - N", "  - o", "  - n", "  - e"][i]
    {
      BulletAt(letters, i);
    }
    assert Join(letters[2..], ", ") == "n, e";
    assert Join(letters[1..], ", ") == "o, n, e";
  }

  /** The allergies as the layouts evidently mean them: a list item by item, a non-empty
      text as one allergy. */
  function IntendedAllergies(d: PatientRecord): (items: seq<string>)
    ensures "allergies" in d && d["allergies"].Str? && d["allergies"].s != "" ==> items == [d["allergies"].s]
    ensures !("allergies" in d && d["allergies"].Str?) ==> items == ItemsOf(d, "allergies")
    ensures items == [] <==> "allergies" !in d || !Truthy(d["allergies"])
  {
    if "allergies" !in d then []
    else
      match d["allergies"]
      case Strs(items) => items
      case Str(s) => if s == "" then [] else [s]
      case _ => []
  }

  /** `_format_patient_data` with the allergy text shown whole. */
  function IntendedRecordText(d: PatientRecord): string
  {
    if d == map[] then "No patient data available" else Join(SectionsWith(d, IntendedAllergies(d)), "\n")
  }

  /** `_create_patient_summary` with the allergy text shown whole. */
  function IntendedSummary(d: PatientRecord): string
  {
    Join(SummaryPartsWith(d, IntendedAllergies(d)), " | ")
  }

  /** Shown whole, a non-empty allergy text is one bullet line of the record text and one
      `Allergies: ` part of the summary. */
  lemma IntendedAllergyText(d: PatientRecord, s: string)
    requires "allergies" in d && d["allergies"] == Str(s) && s != ""
    ensures Section("\nAllergies:", Bullets(IntendedAllergies(d))) == ["\nAllergies:", "  - " + s]
    ensures Contains(IntendedRecordText(d), "  - " + s)
    ensures Contains(IntendedSummary(d), "Allergies: " + s)
  {
    SectionsShowAllergy(d, IntendedAllergies(d), 0);
    var parts := SummaryPartsWith(d, IntendedAllergies(d));
    assert parts[|parts| - 1] == "Allergies: " + s;
    JoinContains(parts, " | ", |parts| - 1);
  }

  /** The correction changes nothing but the text case: with a list of allergies, or
      none, both layouts are the program's. */
  lemma IntendedElsewhereAsWritten(d: PatientRecord)
    requires !("allergies" in d && d["allergies"].Str?)
    ensures IntendedRecordText(d) == RecordText(d)
    ensures IntendedSummary(d) == PatientSummary(d)
  {
  }

  /** The metadata stored with the summary: name, age and the conditions list. */
  function SummaryMetadataOf(d: PatientRecord): Dict
  {
    map["name" := Get(d, "name"), "age" := Get(d, "age"), "conditions" := Strs(ItemsOf(d, "conditions"))]
  }

  // ---------------------------------------------------------------- the analysis

  /** `query_type.lower() == "summary"`. */
  predicate IsSummary(queryType: string)
  {
    Lower(queryType) == "summary"
  }

  function Unavailable(message: Option<string>): string
  {
    "Unable to retrieve patient data: " + message.GetOr("Unknown error")
  }

  const NotFoundHead := "\U{274C} **Patient Not Found**\n\nPatient ID `"
  const NotFoundMiddle := "` does not exist in the database.\n\nAvailable patient IDs: "
  const KnownIds := "P001, P002, P003, P004"

  function NotFound(id: string): string
  {
    NotFoundHead + id + NotFoundMiddle + KnownIds
  }

  /** The not-found text names the id asked for and the ids the store knows. */
  lemma NotFoundNames(id: string)
    ensures Contains(NotFound(id), id) && Contains(NotFound(id), KnownIds)
  {
    ContainsInfix(NotFoundHead, id, NotFoundMiddle + KnownIds);
    assert NotFoundHead + id + (NotFoundMiddle + KnownIds) == NotFound(id);
    ContainsInfix(NotFoundHead + id + NotFoundMiddle, KnownIds, "");
    assert NotFoundHead + id + NotFoundMiddle + KnownIds + "" == NotFound(id);
  }

  /** The line of one historical document: its first 200 characters. */
  function HistoryLine(doc: Record): string
  {
    "- " + PyPrefix(doc.content, 200) + "...\n"
  }

  function HistoryLines(docs: seq<Record>): string
  {
    if docs == [] then "" else HistoryLines(docs[..|docs| - 1]) + HistoryLine(docs[|docs| - 1])
  }

  /** The historical context built from the memory manager's documents: at most three. */
  function HistoryText(docs: seq<Record>): string
  {
    if docs == [] then "" else "\nHistorical Context:\n" + HistoryLines(PyPrefix(docs, 3))
  }

  /** Documents after the third never reach the context. */
  lemma HistoryTextFirstThree(a: seq<Record>, b: seq<Record>)
    requires |a| >= 3 && |b| >= 3 && a[..3] == b[..3]
    ensures HistoryText(a) == HistoryText(b)
  {
  }

  /** What memory contributes once the record is found: nothing without memory;
      otherwise the pipeline's answer to the question (asked only when the request is not
      a summary request) and the memory manager's documents for the id. */
  datatype MemoryReply =
    | NoMemory
    | Consulted(pipeline: Option<Raises<(string, seq<Record>)>>, history: Raises<seq<Record>>)

  /** The prompt for the record layout, the question and the context. */
  function AnalysisPrompt(dataText: string, queryType: string, context: string): (p: Prompt)
    ensures IsSummary(queryType) <==> p.SummarizePatient?
  {
    if IsSummary(queryType) then SummarizePatient(dataText)
    else AnalyzePatient(dataText, queryType, if context != "" then context else "No historical context available.")
  }

  /** What `_analyze_data` reads of the fetch: the status, the record and the error text. */
  datatype Retrieval = Retrieval(status: string, data: Option<PatientRecord>, errorMessage: Option<string>)

  /** `_retrieve_data`: an exception becomes the `error` status with its text and no
      record; every normal return, `None` included, is a success. */
  function RetrievalOf(fetched: Raises<Option<PatientRecord>>): (r: Retrieval)
    ensures r.status == "success" <==> fetched.Returned?
    ensures fetched.Raised? ==> r == Retrieval("error", None, Some(fetched.message))
    ensures fetched.Returned? ==> r.data == fetched.value && r.errorMessage.None?
  {
    match fetched
    case Raised(m) => Retrieval("error", None, Some(m))
    case Returned(data) => Retrieval("success", data, None)
  }

  /** How `_analyze_data` arrives at the analysis. */
  datatype Plan =
    | Fixed(text: string)
    | FromPipeline(answer: string, context: seq<Record>)
    | Ask(prompt: Prompt)

  /** The branches of `_analyze_data`. */
  function PlanFor(req: Request, ret: Retrieval, reply: MemoryReply): (p: Plan)
  {
    if ret.status != "success" then Fixed(Unavailable(ret.errorMessage))
    else if !Found(ret.data) then Fixed(NotFound(req.patientId))
    else if PipelineAnswered(req.queryType, reply) then
      FromPipeline(reply.pipeline.value.value.0, reply.pipeline.value.value.1)
    else Ask(AnalysisPrompt(RecordText(ret.data.value), req.queryType, MemoryContext(req.queryType, reply)))
  }

  /** A failed fetch and a missing record give fixed texts; a pipeline answer is taken as
      it is, and only for a request other than a summary request; a summary request for a
      found record asks for the summary of its layout. */
  lemma PlanForCases(req: Request, ret: Retrieval, reply: MemoryReply)
    ensures var p := PlanFor(req, ret, reply);
      && (ret.status != "success" ==> p == Fixed(Unavailable(ret.errorMessage)))
      && (ret.status == "success" && !Found(ret.data) ==> p == Fixed(NotFound(req.patientId)))
      && (ret.status == "success" && Found(ret.data) ==> !p.Fixed?)
      && (p.FromPipeline? ==>
            && !IsSummary(req.queryType) && reply.Consulted? && reply.pipeline.Some?
            && reply.pipeline.value == Returned((p.answer, p.context)))
      && (ret.status == "success" && Found(ret.data) && IsSummary(req.queryType) ==>
            p == Ask(SummarizePatient(RecordText(ret.data.value))))
  {
  }

  /** The pipeline was asked (the request is not a summary request) and answered. */
  predicate PipelineAnswered(queryType: string, reply: MemoryReply)
  {
    !IsSummary(queryType) && reply.Consulted? && reply.pipeline.Some? && reply.pipeline.value.Returned?
  }

  /** The historical context the prompt gets: none without memory or after a failing
      pipeline, else the memory manager's documents. */
  function MemoryContext(queryType: string, reply: MemoryReply): string
  {
    match reply
    case NoMemory => ""
    case Consulted(pipeline, history) =>
      if !IsSummary(queryType) && pipeline.Some? then ""
      else if history.Returned? then HistoryText(history.value) else ""
  }

  /** The agent asks the pipeline exactly for the requests that are not summary requests. */
  predicate AgentReply(queryType: string, reply: MemoryReply)
  {
    reply.Consulted? ==> (reply.pipeline.Some? <==> !IsSummary(queryType))
  }

  /** A question other than a summary request reaches the model only without the
      historical context: with memory the pipeline either answers it or fails, and the
      documents are fetched only for summary requests, whose prompt has no context. */
  lemma HistoryNeverAsked(req: Request, d: PatientRecord, reply: MemoryReply)
    requires Found(Some(d)) && !IsSummary(req.queryType) && AgentReply(req.queryType, reply)
    requires !PipelineAnswered(req.queryType, reply)
    ensures PlanFor(req, Retrieval("success", Some(d), None), reply)
         == Ask(AnalyzePatient(RecordText(d), req.queryType, "No historical context available."))
  {
  }

  /** The keys the workflow writes into `state.results`; `None` is a key not written.
      `patientData` is `Some(None)` when the key holds Python's `None`. */
  datatype EhrResults = EhrResults(
    originalQuery: Option<string>,
    patientId: Option<string>,
    queryType: Option<string>,
    patientData: Option<Option<PatientRecord>>,
    retrievalStatus: Option<string>,
    errorMessage: Option<string>,
    analysis: Option<string>,
    ragUsed: Option<bool>,
    ragContext: Option<seq<Record>>,
    formattedResponse: Option<EhrResponse>)

  const NoResults := EhrResults(None, None, None, None, None, None, None, None, None, None)

  /** The `patient_summary` of the formatted response. */
  datatype SummaryView = SummaryView(name: Field, age: Field, conditions: Field)

  /** The dictionary `_format_response` builds; a `None` field is Python's `None`. */
  datatype EhrResponse = EhrResponse(
    patientId: Option<string>,
    queryType: Option<string>,
    status: Option<string>,
    analysis: Option<string>,
    patientSummary: Option<SummaryView>)

  /** `state.results.get("patient_data")` is truthy. */
  predicate HasRecord(data: Option<Option<PatientRecord>>)
  {
    data.Some? && Present(data.value)
  }

  /** `_format_response`: the summary view is there exactly when a record is. */
  function ResponseOf(r: EhrResults): (resp: EhrResponse)
    ensures resp.patientSummary.Some? <==> HasRecord(r.patientData)
    ensures resp.patientId == r.patientId && resp.queryType == r.queryType
    ensures resp.status == r.retrievalStatus && resp.analysis == r.analysis
    ensures resp.patientSummary.Some? ==> resp.patientSummary.value.name == Get(r.patientData.value.value, "name")
  {
    var summary :=
      if HasRecord(r.patientData) then
        var d := r.patientData.value.value;
        Some(SummaryView(Get(d, "name"), Get(d, "age"), if "conditions" in d then d["conditions"] else Strs([])))
      else None;
    EhrResponse(r.patientId, r.queryType, r.retrievalStatus, r.analysis, summary)
  }

  /** The results `_parse_request` leaves. */
  function Parsed(r: EhrResults, query: string): EhrResults
  {
    var req := RequestFields(query);
    r.(originalQuery := Some(query), patientId := Some(req.patientId), queryType := Some(req.queryType))
  }

  /** The results `_retrieve_data` leaves; the error text is written only on failure. */
  function Fetched(r: EhrResults, fetched: Raises<Option<PatientRecord>>): (f: EhrResults)
    ensures f.retrievalStatus == Some(RetrievalOf(fetched).status)
    ensures f.patientData == Some(RetrievalOf(fetched).data)
  {
    match fetched
    case Raised(m) => r.(patientData := Some(None), retrievalStatus := Some("error"), errorMessage := Some(m))
    case Returned(data) => r.(patientData := Some(data), retrievalStatus := Some("success"))
  }

  /** What `_analyze_data` reads back from the results. */
  function RetrievalIn(r: EhrResults): Retrieval
    requires r.retrievalStatus.Some? && r.patientData.Some?
  {
    Retrieval(r.retrievalStatus.value, r.patientData.value, r.errorMessage)
  }

  /** After the fetch stage, `_analyze_data` reads back what the fetch gave. */
  lemma FetchedRetrieval(r: EhrResults, fetched: Raises<Option<PatientRecord>>)
    requires r.errorMessage.None?
    ensures RetrievalIn(Fetched(r, fetched)) == RetrievalOf(fetched)
  {
  }

  /** The request `_analyze_data` reads back from the results. */
  function RequestIn(r: EhrResults): Request
    requires r.patientId.Some? && r.queryType.Some?
  {
    Request(r.patientId.value, r.queryType.value)
  }

  /** The prompt the agent's own model receives under a plan, if any. */
  function Asked(plan: Plan): (calls: seq<Prompt>)
    ensures calls == [] <==> !plan.Ask?
  {
    if plan.Ask? then [plan.prompt] else []
  }

  /** The results `_analyze_data` leaves once the plan is carried out; `Raised` when the
      model it asks raises. */
  function Analysed(base: EhrResults, plan: Plan, respond: Prompt -> Raises<string>): (r: Raises<EhrResults>)
    ensures r.Raised? <==> plan.Ask? && respond(plan.prompt).Raised?
    ensures r.Returned? ==> r.value.(analysis := None, ragUsed := None, ragContext := None)
                            == base.(analysis := None, ragUsed := None, ragContext := None)
    ensures r.Returned? && plan.Fixed? ==> r.value == base.(analysis := Some(plan.text))
    ensures r.Returned? && plan.Ask? ==> r.value == base.(analysis := Some(respond(plan.prompt).value))
    ensures r.Returned? && plan.FromPipeline? ==>
      r.value == base.(analysis := Some(plan.answer), ragUsed := Some(true), ragContext := Some(plan.context))
  {
    match plan
    case Fixed(text) => Returned(base.(analysis := Some(text)))
    case FromPipeline(answer, context) => Returned(base.(analysis := Some(answer), ragUsed := Some(true), ragContext := Some(context)))
    case Ask(p) =>
      match respond(p)
      case Raised(m) => Raised(m)
      case Returned(text) => Returned(base.(analysis := Some(text)))
  }

  /** The plan of a run for `query` whose fetch gave `fetched`. */
  function PlanOfRun(query: string, fetched: Raises<Option<PatientRecord>>, reply: MemoryReply): Plan
  {
    PlanFor(RequestFields(query), RetrievalOf(fetched), reply)
  }

  /** The prompts the agent's own model receives. */
  function CallsFor(query: string, fetched: Raises<Option<PatientRecord>>, reply: MemoryReply): seq<Prompt>
  {
    Asked(PlanOfRun(query, fetched, reply))
  }

  /** What `process(query)` returns; `Raised` when the agent's own model raises. */
  function ResultsFor(query: string, fetched: Raises<Option<PatientRecord>>, reply: MemoryReply,
                      respond: Prompt -> Raises<string>): Raises<EhrResults>
  {
    Formatted(Analysed(Fetched(Parsed(NoResults, query), fetched), PlanOfRun(query, fetched, reply), respond))
  }

  /** The last stage, `_format_response`, after an analysis that returned. */
  function Formatted(analysed: Raises<EhrResults>): Raises<EhrResults>
  {
    match analysed
    case Raised(m) => Raised(m)
    case Returned(a) => Returned(a.(formattedResponse := Some(ResponseOf(a))))
  }

  /** A run asks the agent's model at most once, and never when the fetch failed or found
      no record; it raises exactly when that one call raises; otherwise the results
      hold the query, the parsed request, the status and the response built from them. */
  lemma RunShape(query: string, fetched: Raises<Option<PatientRecord>>, reply: MemoryReply,
                 respond: Prompt -> Raises<string>)
    ensures var calls := CallsFor(query, fetched, reply);
      && |calls| <= 1
      && (fetched.Raised? || !Found(fetched.value) ==> calls == [])
    ensures var r := ResultsFor(query, fetched, reply, respond);
      var calls := CallsFor(query, fetched, reply);
      && (r.Raised? <==> calls != [] && respond(calls[0]).Raised?)
      && (r.Returned? ==>
        && r.value.originalQuery == Some(query)
        && r.value.patientId == Some(RequestFields(query).patientId)
        && r.value.queryType == Some(RequestFields(query).queryType)
        && (r.value.retrievalStatus == Some("success") <==> fetched.Returned?)
        && r.value.formattedResponse == Some(ResponseOf(r.value.(formattedResponse := None))))
  {
  }

  /** A failing fetch is reported in the analysis, with no record, no model call and no
      summary view. */
  lemma FailedFetchResults(query: string, message: string, reply: MemoryReply, respond: Prompt -> Raises<string>)
    ensures var r := ResultsFor(query, Raised(message), reply, respond);
      && r.Returned? && r.value.retrievalStatus == Some("error") && r.value.patientData == Some(None)
      && r.value.errorMessage == Some(message)
      && r.value.analysis == Some("Unable to retrieve patient data: " + message)
      && r.value.formattedResponse.value.patientSummary.None?
    ensures CallsFor(query, Raised(message), reply) == []
  {
  }

  /** A missing record (or an error reply of the store) gives the not-found text naming
      the id and the known ids, with no model call. */
  lemma NotFoundResults(query: string, data: Option<PatientRecord>, reply: MemoryReply, respond: Prompt -> Raises<string>)
    requires !Found(data)
    ensures var r := ResultsFor(query, Returned(data), reply, respond);
      && r.Returned? && r.value.retrievalStatus == Some("success")
      && r.value.analysis == Some(NotFound(RequestFields(query).patientId))
      && Contains(r.value.analysis.value, RequestFields(query).patientId)
      && Contains(r.value.analysis.value, "P001, P002, P003, P004")
    ensures CallsFor(query, Returned(data), reply) == []
  {
    NotFoundNames(RequestFields(query).patientId);
  }

  /** A summary request for a found record asks the model once with the record layout,
      whatever memory holds, and its reply is the analysis. */
  lemma SummaryResults(query: string, d: PatientRecord, reply: MemoryReply, respond: Prompt -> Raises<string>)
    requires Found(Some(d)) && IsSummary(RequestFields(query).queryType)
    ensures CallsFor(query, Returned(Some(d)), reply) == [SummarizePatient(RecordText(d))]
    ensures var r := ResultsFor(query, Returned(Some(d)), reply, respond);
      && (r.Raised? <==> respond(SummarizePatient(RecordText(d))).Raised?)
      && (r.Returned? ==> r.value.analysis == Some(respond(SummarizePatient(RecordText(d))).value)
                          && r.value.ragUsed.None?)
  {
  }

  /** A pipeline answer is the analysis as it is, with no call of the agent's model. */
  lemma PipelineResults(query: string, d: PatientRecord, answer: string, context: seq<Record>,
                        history: Raises<seq<Record>>, respond: Prompt -> Raises<string>)
    requires Found(Some(d)) && !IsSummary(RequestFields(query).queryType)
    ensures var reply := Consulted(Some(Returned((answer, context))), history);
      var r := ResultsFor(query, Returned(Some(d)), reply, respond);
      && CallsFor(query, Returned(Some(d)), reply) == []
      && r.Returned? && r.value.analysis == Some(answer)
      && r.value.ragUsed == Some(true) && r.value.ragContext == Some(context)
  {
    var reply := Consulted(Some(Returned((answer, context))), history);
    var plan := PlanOfRun(query, Returned(Some(d)), reply);
    assert plan == FromPipeline(answer, context);
    var a := Analysed(Fetched(Parsed(NoResults, query), Returned(Some(d))), plan, respond);
    assert a.Returned? && a.value.analysis == Some(answer);
  }

  // ---------------------------------------------------------------- memory

  /** The dictionary `add_to_session_memory` receives after an analysis. */
  function Interaction(queryType: string, response: string): Dict
  {
    map["query" := Str(queryType), "response" := Str(response)]
  }

  /** The sessions after an analysis that followed `plan`: the exchange is logged in the
      session of the id exactly when the agent's model answered. */
  function SessionsAfter(s: Sessions, req: Request, plan: Plan, respond: Prompt -> Raises<string>, stamp: string): (r: Sessions)
    requires s.WellFormed()
    ensures r.WellFormed()
  {
    if plan.Ask? && respond(plan.prompt).Returned? then
      AddInteraction(s, req.patientId, Interaction(req.queryType, respond(plan.prompt).value), stamp).0
    else s
  }

  /** The document `save_patient_summary` stores for a fetched record. */
  function SummaryRecord(id: string, d: PatientRecord, stamp: string): Record
  {
    Record(PatientSummary(d), SummaryMetadata(id, stamp, SummaryMetadataOf(d)))
  }

  /** The long-term documents after the fetch: a truthy record's summary is added unless
      the store refuses writes (a refusal is caught and ignored). */
  function SavedRecords(records: seq<Record>, fault: Option<string>, id: string,
                        fetched: Raises<Option<PatientRecord>>, stamp: string): (r: seq<Record>)
    ensures fetched.Raised? || !Present(fetched.value) || fault.Some? ==> r == records
    ensures fetched.Returned? && Present(fetched.value) && fault.None? ==>
      r == records + [SummaryRecord(id, fetched.value.value, stamp)]
  {
    if fetched.Returned? && Present(fetched.value) && fault.None? then records + [SummaryRecord(id, fetched.value.value, stamp)]
    else records
  }

  /** What `retrieve_patient_context(id)` finds among `records`: the generic query for the
      id, five documents at most. */
  function HistoryIn(m: MemoryManager, records: seq<Record>, id: string): Raises<seq<Record>>
  {
    SimilaritySearch(m.ranking, records, "patient " + id + " medical history", 5, map["patient_id" := Str(id)])
  }

  /** How the agent reads the pipeline's dictionary: its `answer` and its `context`. */
  function AnswerView(a: Raises<RagAnswer>): Raises<(string, seq<Record>)>
  {
    match a
    case Raised(m) => Raised(m)
    case Returned(answer) => Returned((answer.answer, if answer.MemoryAnswer? then answer.context else []))
  }

  /** The memory manager and the retrieval pipeline the agent creates; the pipeline builds
      a memory manager of its own. */
  datatype Memory = Memory(manager: MemoryManager, pipeline: RagPipeline)

  class EhrAgent {
    const llm: LanguageModel
    /** `get_patient_by_id` of the record store: the record of an id, `None`, or the
        exception the store raises. */
    const store: string -> Raises<Option<PatientRecord>>
    /** `None` when memory is off or creating it failed. */
    const memory: Option<Memory>

    ghost function MemoryRepr(): set<object>
    {
      if memory.Some? then {memory.value.manager, memory.value.pipeline.llm} else {}
    }

    ghost function Repr(): set<object>
    {
      {llm} + MemoryRepr()
    }

    /** What the pipeline reads: its own memory manager. */
    ghost function PipelineReads(): set<object>
    {
      if memory.Some? then {memory.value.pipeline.memory} else {}
    }

    /** What the fetch stage may change of memory: the memory manager. */
    ghost function ManagerRepr(): set<object>
    {
      if memory.Some? then {memory.value.manager} else {}
    }

    /** What the analysis may change of memory: the pipeline's model log. */
    ghost function PipelineModel(): set<object>
    {
      if memory.Some? then {memory.value.pipeline.llm} else {}
    }

    ghost predicate Valid()
      reads MemoryRepr()
    {
      memory.Some? ==>
        && memory.value.manager.Valid()
        && memory.value.pipeline.memory != memory.value.manager
        && memory.value.pipeline.llm != llm
    }

    constructor (llm: LanguageModel, store: string -> Raises<Option<PatientRecord>>, memory: Option<Memory>)
      requires memory.Some? ==>
        memory.value.manager.Valid() && memory.value.pipeline.memory != memory.value.manager && memory.value.pipeline.llm != llm
      ensures Valid() && this.llm == llm && this.store == store && this.memory == memory
    {
      this.llm := llm;
      this.store := store;
      this.memory := memory;
    }

    /** What memory contributes to the analysis of `req` when the memory manager holds
        `records`: the pipeline's answer (asked for requests other than summary requests)
        and the documents of the id. */
    function ReplyWith(req: Request, records: seq<Record>): (reply: MemoryReply)
      reads PipelineReads()
      ensures reply.NoMemory? <==> memory.None?
      ensures AgentReply(req.queryType, reply)
    {
      ReplyGiven(req, records, Context())
    }

    /** The same when the pipeline's own memory manager holds `context`. */
    function ReplyGiven(req: Request, records: seq<Record>, context: seq<Record>): (reply: MemoryReply)
      ensures reply.NoMemory? <==> memory.None?
      ensures AgentReply(req.queryType, reply)
    {
      if memory.None? then NoMemory
      else
        var pipeline := memory.value.pipeline;
        Consulted(
          if IsSummary(req.queryType) then None
          else Some(AnswerView(PatientContextAnswer(req.queryType, req.patientId,
            PatientContext(pipeline.memory.ranking, context, req.patientId, req.queryType, 5), pipeline.llm.respond))),
          HistoryIn(memory.value.manager, records, req.patientId))
    }

    /** The documents of the pipeline's own memory manager (none without memory). */
    function Context(): seq<Record>
      reads PipelineReads()
    {
      if memory.Some? then memory.value.pipeline.memory.records else []
    }

    /** The memory manager's long-term documents (none without memory). */
    ghost function Records(): seq<Record>
      reads MemoryRepr()
    {
      if memory.Some? then memory.value.manager.records else []
    }

    /** The prompts the pipeline's model receives while the agent analyses `req`. */
    function PipelineCalls(req: Request, ret: Retrieval): seq<Prompt>
      reads PipelineReads()
    {
      if memory.Some? && ret.status == "success" && Found(ret.data) && !IsSummary(req.queryType) then
        PatientContextPrompts(req.queryType, memory.value.pipeline.memory.RetrievePatientContext(req.patientId, req.queryType, 5))
      else []
    }

    /** The plan `_analyze_data` follows for the results it reads. */
    ghost function PlanIn(r: EhrResults): Plan
      requires r.retrievalStatus.Some? && r.patientData.Some? && r.patientId.Some? && r.queryType.Some?
      reads MemoryRepr(), PipelineReads()
    {
      PlanFor(RequestIn(r), RetrievalIn(r), ReplyWith(RequestIn(r), Records()))
    }

    /** The store's answer for the id a run for `query` asks about. */
    function FetchOf(query: string): Raises<Option<PatientRecord>>
    {
      store(RequestFields(query).patientId)
    }

    /** The documents stored once the fetch stage of a run for `query` is done. */
    ghost function RecordsOfRun(query: string, stamp: string): seq<Record>
      reads MemoryRepr()
    {
      SavedIn(Records(), query, stamp)
    }

    /** The documents after the fetch stage of a run for `query` when the memory manager
        held `records` (none without memory). */
    function SavedIn(records: seq<Record>, query: string, stamp: string): seq<Record>
    {
      if memory.None? then []
      else SavedRecords(records, memory.value.manager.storeFault, RequestFields(query).patientId, FetchOf(query), stamp)
    }

    /** The memory reply a run for `query` meets: the documents include the summary the
        fetch stage saved. */
    ghost function ReplyOfRun(query: string, stamp: string): MemoryReply
      reads MemoryRepr(), PipelineReads()
    {
      ReplyWith(RequestFields(query), RecordsOfRun(query, stamp))
    }

    /** The memory manager's documents and sessions, and the pipeline's model log (`None`
        without memory). */
    ghost function MemoryState(): Option<(seq<Record>, Sessions, seq<Prompt>)>
      reads MemoryRepr()
    {
      if memory.Some? then Some((memory.value.manager.records, memory.value.manager.sessions, memory.value.pipeline.llm.sent))
      else None
    }

    /** The same once a run for `query` is over: the documents the fetch stage saved, the
        exchange the analysis logged, and the prompts the pipeline received. */
    ghost function MemoryStateAfter(query: string, stamp: string): Option<(seq<Record>, Sessions, seq<Prompt>)>
      requires Valid()
      reads MemoryRepr(), PipelineReads()
    {
      if memory.Some? then
        Some((RecordsOfRun(query, stamp),
              SessionsAfter(memory.value.manager.sessions, RequestFields(query),
                            PlanOfRun(query, FetchOf(query), ReplyOfRun(query, stamp)), llm.respond, stamp),
              memory.value.pipeline.llm.sent + PipelineCalls(RequestFields(query), RetrievalOf(FetchOf(query)))))
      else None
    }

    /** `_format_patient_data`: the sections, bullet by bullet. */
    method FormatPatientData(d: PatientRecord) returns (text: string)
      ensures text == RecordText(d)
    {
      if d == map[] {
        return "No patient data available";
      }
      var sections := BasicLines(d);
      sections := AppendBullets(sections, "\nConditions:", ItemsOf(d, "conditions"));
      sections := AppendBullets(sections, "\nMedications:", ItemsOf(d, "medications"));
      sections := AppendVitals(sections, VitalsOf(d));
      sections := AppendBullets(sections, "\nAllergies:", ItemsOf(d, "allergies"));
      text := Join(sections, "\n");
    }

    /** The `for key, value in vitals.items()` loop under its title. */
    method AppendVitals(sections: seq<string>, vitals: Pairs) returns (r: seq<string>)
      ensures r == sections + Section("\nVital Signs:", VitalLines(vitals))
    {
      var lines := [];
      for i := 0 to |vitals|
        invariant lines == VitalLines(vitals[..i])
      {
        VitalLinesStep(vitals, i);
        lines := lines + ["  - " + vitals[i].0 + ": " + Render(vitals[i].1)];
      }
      assert vitals[..|vitals|] == vitals;
      r := sections + Section("\nVital Signs:", lines);
    }

    /** One `for item in items: sections.append(...)` loop under its title. */
    method AppendBullets(sections: seq<string>, title: string, items: seq<string>) returns (r: seq<string>)
      ensures r == sections + Section(title, Bullets(items))
    {
      var lines := [];
      for i := 0 to |items|
        invariant lines == Bullets(items[..i])
      {
        BulletsStep(items, i);
        lines := lines + ["  - " + items[i]];
      }
      assert items[..|items|] == items;
      r := sections + Section(title, lines);
    }

    /** `_create_patient_summary`. */
    method CreatePatientSummary(d: PatientRecord) returns (summary: string)
      ensures summary == PatientSummary(d)
    {
      var parts := BasicLines(d);
      var conditions := ItemsOf(d, "conditions");
      if conditions != [] {
        parts := parts + ["Conditions: " + Join(conditions, ", ")];
      }
      assert parts == BasicLines(d) + Labelled("Conditions: ", conditions);
      var medications := ItemsOf(d, "medications");
      if medications != [] {
        parts := parts + ["Medications: " + Join(medications, ", ")];
      }
      assert parts == BasicLines(d) + Labelled("Conditions: ", conditions) + Labelled("Medications: ", medications);
      var allergies := ItemsOf(d, "allergies");
      if allergies != [] {
        parts := parts + ["Allergies: " + Join(allergies, ", ")];
      }
      assert parts == SummaryParts(d);
      summary := Join(parts, " | ");
    }

    /** The `context_text +=` loop over the first three documents. */
    method BuildHistoryContext(docs: seq<Record>) returns (context: string)
      ensures context == HistoryText(docs)
    {
      if docs == [] {
        return "";
      }
      var shown := PyPrefix(docs, 3);
      var lines := "";
      for i := 0 to |shown|
        invariant lines == HistoryLines(shown[..i])
      {
        assert shown[..i + 1][..i] == shown[..i];
        lines := lines + HistoryLine(shown[i]);
      }
      assert shown[..|shown|] == shown;
      context := "\nHistorical Context:\n" + lines;
    }

    /** `_parse_request`. */
    method ParseRequest(state: AgentState<EhrResults>)
      requires |state.taskQueue| > 0
      modifies state
      ensures state.currentTask == "parse_request" && state.taskQueue == old(state.taskQueue)
      ensures state.results == Parsed(old(state.results), state.taskQueue[0])
    {
      state.currentTask := "parse_request";
      var query := state.taskQueue[0];
      var req := RequestFields(query);
      state.results := state.results.(originalQuery := Some(query), patientId := Some(req.patientId),
                                      queryType := Some(req.queryType));
    }

    /** `_retrieve_data`: fetch the record, and save its summary to memory when it is
        truthy (a failing save is ignored). */
    method RetrieveData(state: AgentState<EhrResults>, stamp: string)
      requires Valid() && state.results.patientId.Some?
      modifies state, ManagerRepr()
      ensures Valid()
      ensures unchanged(llm)
      ensures memory.Some? ==> unchanged(memory.value.pipeline.memory, memory.value.pipeline.llm)
      ensures state.currentTask == "retrieve_data" && state.taskQueue == old(state.taskQueue)
      ensures state.results == Fetched(old(state.results), store(old(state.results.patientId.value)))
      ensures memory.Some? ==>
        var m := memory.value.manager;
        && m.sessions == old(m.sessions)
        && m.records == SavedRecords(old(m.records), m.storeFault, old(state.results.patientId.value),
                                     store(old(state.results.patientId.value)), stamp)
    {
      state.currentTask := "retrieve_data";
      var id := state.results.patientId.value;
      var fetched := store(id);
      match fetched
      case Raised(m) =>
        state.results := state.results.(patientData := Some(None), retrievalStatus := Some("error"), errorMessage := Some(m));
      case Returned(data) =>
        state.results := state.results.(patientData := Some(data), retrievalStatus := Some("success"));
        if memory.Some? && Present(data) {
          var summary := CreatePatientSummary(data.value);
          var _ := memory.value.manager.SavePatientSummary(id, summary, SummaryMetadataOf(data.value), stamp);
        }
    }

    /** The branches of `_analyze_data` before the model call: the fixed texts for a failed
        fetch and a missing record, then memory, which either answers through the
        pipeline or yields the historical context. */
    method PlanAnalysis(req: Request, ret: Retrieval) returns (plan: Plan)
      requires Valid()
      modifies PipelineModel()
      ensures Valid()
      ensures plan == PlanFor(req, ret, old(ReplyWith(req, Records())))
      ensures memory.Some? ==> memory.value.pipeline.llm.sent == old(memory.value.pipeline.llm.sent) + PipelineCalls(req, ret)
    {
      if ret.status != "success" {
        return Fixed(Unavailable(ret.errorMessage));
      }
      if !Found(ret.data) {
        return Fixed(NotFound(req.patientId));
      }
      var dataText := FormatPatientData(ret.data.value);
      plan := ConsultMemory(req, ret, dataText);
    }

    /** The memory part of `_analyze_data` for a found record laid out as `dataText`. */
    method ConsultMemory(req: Request, ret: Retrieval, dataText: string) returns (plan: Plan)
      requires Valid() && ret.status == "success" && Found(ret.data) && dataText == RecordText(ret.data.value)
      modifies PipelineModel()
      ensures Valid()
      ensures plan == PlanFor(req, ret, old(ReplyWith(req, Records())))
      ensures memory.Some? ==> memory.value.pipeline.llm.sent == old(memory.value.pipeline.llm.sent) + PipelineCalls(req, ret)
    {
      var context := "";
      if memory.Some? {
        var asked := false;
        if !IsSummary(req.queryType) {
          var answer := memory.value.pipeline.QueryWithPatientContext(req.queryType, req.patientId, 5);
          if answer.Returned? {
            var view := AnswerView(answer);
            return FromPipeline(view.value.0, view.value.1);
          }
          asked := true;
        }
        if !asked {
          var history := memory.value.manager.RetrievePatientContext(req.patientId, "", 5);
          if history.Returned? {
            context := BuildHistoryContext(history.value);
          }
        }
      }
      return Ask(AnalysisPrompt(dataText, req.queryType, context));
    }

    /** `_analyze_data`; `Fail` when the agent's own model raises. `plan` is the branch
        the results and memory call for. */
    method AnalyzeData(state: AgentState<EhrResults>, stamp: string, ghost plan: Plan) returns (o: Outcome)
      requires Valid()
      requires state.results.retrievalStatus.Some? && state.results.patientData.Some?
      requires state.results.patientId.Some? && state.results.queryType.Some?
      requires plan == PlanIn(state.results)
      modifies state, Repr()
      ensures Valid()
      ensures state.currentTask == "analyze_data" && state.taskQueue == old(state.taskQueue)
      ensures var after := Analysed(old(state.results), plan, llm.respond);
        && llm.sent == old(llm.sent) + Asked(plan)
        && (o.Fail? <==> after.Raised?)
        && (o.Fail? ==> o.message == after.message)
        && (o.Pass? ==> state.results == after.value)
      ensures memory.Some? ==>
        var m := memory.value.manager;
        var before := old(state.results);
        && m.records == old(m.records)
        && m.sessions == SessionsAfter(old(m.sessions), RequestIn(before), plan, llm.respond, stamp)
        && memory.value.pipeline.llm.sent
           == old(memory.value.pipeline.llm.sent + PipelineCalls(RequestIn(before), RetrievalIn(before)))
    {
      var req := RequestIn(state.results);
      var ret := RetrievalIn(state.results);
      assert plan == PlanFor(req, ret, ReplyWith(req, Records()));
      state.currentTask := "analyze_data";
      var chosen := PlanAnalysis(req, ret);
      assert chosen == plan;
      o := ApplyPlan(state, req, chosen, stamp);
    }

    /** The rest of `_analyze_data` once the branch is known: store the fixed text, the
        pipeline's answer or the model's reply. */
    method ApplyPlan(state: AgentState<EhrResults>, req: Request, plan: Plan, stamp: string) returns (o: Outcome)
      requires Valid()
      modifies state, llm, ManagerRepr()
      ensures Valid()
      ensures state.currentTask == old(state.currentTask) && state.taskQueue == old(state.taskQueue)
      ensures var after := Analysed(old(state.results), plan, llm.respond);
        && llm.sent == old(llm.sent) + Asked(plan)
        && (o.Fail? <==> after.Raised?)
        && (o.Fail? ==> o.message == after.message)
        && (o.Pass? ==> state.results == after.value)
      ensures memory.Some? ==>
        var m := memory.value.manager;
        && unchanged(memory.value.pipeline.llm)
        && m.records == old(m.records)
        && m.sessions == old(SessionsAfter(m.sessions, req, plan, llm.respond, stamp))
    {
      var results := state.results;
      match plan
      case Fixed(text) =>
        state.results := results.(analysis := Some(text));
        o := Pass;
      case FromPipeline(answer, context) =>
        state.results := results.(analysis := Some(answer), ragUsed := Some(true), ragContext := Some(context));
        o := Pass;
      case Ask(prompt) =>
        var response := AskModel(req, plan, stamp);
        if response.Raised? {
          return Fail(response.message);
        }
        state.results := results.(analysis := Some(response.value));
        o := Pass;
    }

    /** The model call of `_analyze_data` and the exchange it logs in the session of the
        id; a failing log write is ignored. */
    method AskModel(req: Request, plan: Plan, stamp: string) returns (response: Raises<string>)
      requires Valid() && plan.Ask?
      modifies llm, ManagerRepr()
      ensures Valid()
      ensures response == llm.respond(plan.prompt) && llm.sent == old(llm.sent) + [plan.prompt]
      ensures memory.Some? ==>
        var m := memory.value.manager;
        && m.records == old(m.records)
        && m.sessions == old(SessionsAfter(m.sessions, req, plan, llm.respond, stamp))
    {
      response := llm.Invoke(plan.prompt);
      if response.Returned? && memory.Some? {
        var _ := memory.value.manager.AddToSessionMemory(req.patientId, Interaction(req.queryType, response.value), stamp);
      }
    }

    /** `_format_response`. */
    method FormatResponse(state: AgentState<EhrResults>)
      modifies state
      ensures state.currentTask == "format_response" && state.taskQueue == old(state.taskQueue)
      ensures state.results == old(state.results).(formattedResponse := Some(ResponseOf(old(state.results))))
    {
      state.currentTask := "format_response";
      state.results := state.results.(formattedResponse := Some(ResponseOf(state.results)));
    }

    /** The first two stages of `process(query)` on a fresh state: after them the
        analysis meets the plan and the memory of a run for `query`. */
    method ParseAndFetch(query: string, stamp: string) returns (state: AgentState<EhrResults>)
      requires Valid()
      modifies ManagerRepr()
      ensures fresh(state) && Valid() && unchanged(llm)
      ensures memory.Some? ==> unchanged(memory.value.pipeline.memory, memory.value.pipeline.llm)
      ensures state.results == Fetched(Parsed(NoResults, query), FetchOf(query))
      ensures state.results.retrievalStatus.Some? && state.results.patientData.Some?
      ensures state.results.patientId.Some? && state.results.queryType.Some?
      ensures memory.Some? ==>
        && memory.value.manager.records == old(RecordsOfRun(query, stamp))
        && memory.value.manager.sessions == old(memory.value.manager.sessions)
      ensures RequestIn(state.results) == RequestFields(query)
      ensures RetrievalIn(state.results) == RetrievalOf(FetchOf(query))
      ensures PlanIn(state.results) == PlanOfRun(query, FetchOf(query), old(ReplyOfRun(query, stamp)))
    {
      ghost var reply := ReplyOfRun(query, stamp);
      state := new AgentState<EhrResults>([query], NoResults);
      ParseRequest(state);
      RetrieveData(state, stamp);
      FetchedRetrieval(Parsed(NoResults, query), FetchOf(query));
      assert Records() == old(RecordsOfRun(query, stamp));
      assert ReplyWith(RequestFields(query), Records()) == reply;
    }

    /** The first three stages of `process(query)` on a fresh state: parsing, retrieval
        and analysis, ending either in the analysed results or in the model's exception. */
    method ParseFetchAnalyze(query: string, stamp: string) returns (state: AgentState<EhrResults>, o: Outcome)
      requires Valid()
      modifies Repr()
      ensures fresh(state) && Valid()
      ensures var plan := PlanOfRun(query, FetchOf(query), old(ReplyOfRun(query, stamp)));
        var after := Analysed(Fetched(Parsed(NoResults, query), FetchOf(query)), plan, llm.respond);
        && llm.sent == old(llm.sent) + Asked(plan)
        && (o.Fail? <==> after.Raised?)
        && (o.Fail? ==> o.message == after.message)
        && (o.Pass? ==> state.results == after.value)
      ensures memory.Some? ==>
        var m := memory.value.manager;
        var plan := PlanOfRun(query, FetchOf(query), old(ReplyOfRun(query, stamp)));
        && m.records == old(RecordsOfRun(query, stamp))
        && m.sessions == old(SessionsAfter(m.sessions, RequestFields(query), plan, llm.respond, stamp))
        && memory.value.pipeline.llm.sent
           == old(memory.value.pipeline.llm.sent + PipelineCalls(RequestFields(query), RetrievalOf(FetchOf(query))))
    {
      ghost var plan := PlanOfRun(query, FetchOf(query), ReplyOfRun(query, stamp));
      state := ParseAndFetch(query, stamp);
      o := AnalyzeData(state, stamp, plan);
    }

    /** `process(query)`: the four stages in order on a fresh state; an exception of the
        agent's model ends the run. */
    method Process(query: string, stamp: string) returns (r: Raises<EhrResults>)
      requires Valid()
      modifies Repr()
      ensures Valid()
      ensures r == ResultsFor(query, FetchOf(query), old(ReplyOfRun(query, stamp)), llm.respond)
      ensures llm.sent == old(llm.sent) + CallsFor(query, FetchOf(query), old(ReplyOfRun(query, stamp)))
      ensures memory.Some? ==>
        var m := memory.value.manager;
        var plan := PlanOfRun(query, FetchOf(query), old(ReplyOfRun(query, stamp)));
        && m.records == old(RecordsOfRun(query, stamp))
        && m.sessions == old(SessionsAfter(m.sessions, RequestFields(query), plan, llm.respond, stamp))
        && memory.value.pipeline.llm.sent
           == old(memory.value.pipeline.llm.sent + PipelineCalls(RequestFields(query), RetrievalOf(FetchOf(query))))
      ensures MemoryState() == old(MemoryStateAfter(query, stamp))
    {
      ghost var plan := PlanOfRun(query, FetchOf(query), ReplyOfRun(query, stamp));
      ghost var analysed := Analysed(Fetched(Parsed(NoResults, query), FetchOf(query)), plan, llm.respond);
      assert ResultsFor(query, FetchOf(query), old(ReplyOfRun(query, stamp)), llm.respond) == Formatted(analysed);
      assert CallsFor(query, FetchOf(query), old(ReplyOfRun(query, stamp))) == Asked(plan);
      var state, o := ParseFetchAnalyze(query, stamp);
      if o.Fail? {
        return Raised(o.message);
      }
      FormatResponse(state);
      r := Returned(state.results);
    }
  }
}
