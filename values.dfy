/** The values held in the Python dictionaries of this system (search results, record
    metadata, session interactions, patient records), how Python renders them into text,
    and how `json.dumps` encodes them. */
module Values {
  import opened Text

  /** One value of a `Dict[str, Any]`, restricted to the kinds the system stores. A float
      is kept as the text Python prints for it; a nested dictionary keeps its key order. */
  datatype Field =
    | Null
    | Bool(b: bool)
    | Number(n: int)
    | Real(text: string)
    | Str(s: string)
    | Strs(items: seq<string>)
    | Entries(pairs: seq<(string, Field)>)

  /** A dictionary whose key order nothing observes. */
  type Dict = map<string, Field>

  /** A dictionary whose key order is observed (iteration, `json.dumps`). */
  type Pairs = seq<(string, Field)>

  /** The dictionary a keyword list or an ordered dictionary denotes; a later key wins. */
  function ToDict(pairs: Pairs): (d: Dict)
    ensures forall i :: 0 <= i < |pairs| ==> pairs[i].0 in d
    ensures forall k :: k in d ==> exists i :: 0 <= i < |pairs| && pairs[i] == (k, d[k])
  {
    if |pairs| == 0 then map[]
    else
      var d := ToDict(pairs[..|pairs| - 1]);
      assert forall i :: 0 <= i < |pairs| - 1 ==> pairs[..|pairs| - 1][i] == pairs[i];
      d[pairs[|pairs| - 1].0 := pairs[|pairs| - 1].1]
  }

  /** Python's `str(v)`, and so what an f-string placeholder shows. */
  function Render(f: Field): string
    decreases f, 1, 0
  {
    match f
    case Null => "None"
    case Bool(b) => if b then "True" else "False"
    case Number(n) => IntToString(n)
    case Real(text) => text
    case Str(s) => s
    case Strs(items) => "[" + Join(Quoted(items), ", ") + "]"
    case Entries(pairs) => "{" + Join(EntryTexts(f, |pairs|), ", ") + "}"
  }

  /** The items of a list of strings as `repr` shows them, quoted. */
  function Quoted(items: seq<string>): (r: seq<string>)
    ensures |r| == |items|
    ensures forall i :: 0 <= i < |items| ==> r[i] == ReprStr(items[i])
  {
    if items == [] then [] else Quoted(items[..|items| - 1]) + [ReprStr(items[|items| - 1])]
  }

  /** The lower-case hexadecimal digit of `d`. */
  function HexDigit(d: int): char
    requires 0 <= d < 16
  {
    if d < 10 then ('0' as int + d) as char else ('a' as int + d - 10) as char
  }

  /** `n` as `width` lower-case hexadecimal digits, most significant first. */
  function Hex(n: nat, width: nat): (r: string)
    ensures |r| == width
    ensures forall i :: 0 <= i < width ==> '0' <= r[i] <= '9' || 'a' <= r[i] <= 'f'
  {
    if width == 0 then "" else Hex(n / 16, width - 1) + [HexDigit(n % 16)]
  }

  /** A character `repr` and `json.dumps` copy as it is: printable ASCII. */
  predicate PrintableAscii(c: char)
  {
    ' ' <= c <= '~'
  }

  /** How `repr` writes one character of a string quoted with `q`: the quote and the
      backslash escaped, tab, newline and carriage return by name, any other ASCII control
      character as `\xNN`; every other character as it is. */
  function ReprChar(c: char, q: char): string
  {
    if c == q || c == '\\' then ['\\', c]
    else if c == '\t' then "\\t" else if c == '\n' then "\\n" else if c == '\r' then "\\r"
    else if c as int < 0x20 || c as int == 0x7f then "\\x" + Hex(c as int, 2)
    else [c]
  }

  function ReprEscape(s: string, q: char): string
  {
    if |s| == 0 then "" else ReprChar(s[0], q) + ReprEscape(s[1..], q)
  }

  /** The quote `repr` chooses: `"` for a string holding `'` and no `"`, else `'`. */
  function ReprQuote(s: string): char
  {
    if '\'' in s && '"' !in s then '"' else '\''
  }

  /** Python's `repr(s)` of a string. */
  function ReprStr(s: string): string
  {
    [ReprQuote(s)] + ReprEscape(s, ReprQuote(s)) + [ReprQuote(s)]
  }

  /** Text of printable ASCII without quotes or backslashes is shown as it is, between
      single quotes. */
  lemma {:induction false} ReprPlain(s: string)
    requires forall i :: 0 <= i < |s| ==> PrintableAscii(s[i]) && s[i] != '\'' && s[i] != '"' && s[i] != '\\'
    ensures ReprStr(s) == "'" + s + "'"
  {
    ReprEscapePlain(s, '\'');
  }

  lemma {:induction false} ReprEscapePlain(s: string, q: char)
    requires forall i :: 0 <= i < |s| ==> PrintableAscii(s[i]) && s[i] != q && s[i] != '\\'
    ensures ReprEscape(s, q) == s
  {
    if |s| > 0 {
      ReprEscapePlain(s[1..], q);
      assert s == [s[0]] + s[1..];
    }
  }

  /** The quote `repr` chooses never occurs unescaped: in the escaped text every quote
      character follows a backslash. */
  lemma {:induction false} ReprQuoteEscaped(s: string, q: char, i: nat)
    requires q == '\'' || q == '"'
    requires i < |ReprEscape(s, q)| && ReprEscape(s, q)[i] == q
    ensures i > 0 && ReprEscape(s, q)[i - 1] == '\\'
  {
    var head := ReprChar(s[0], q);
    assert ReprEscape(s, q) == head + ReprEscape(s[1..], q);
    if i >= |head| {
      ReprQuoteEscaped(s[1..], q, i - |head|);
      assert ReprEscape(s, q)[i - 1] == ReprEscape(s[1..], q)[i - |head| - 1];
    } else {
      assert ReprEscape(s, q)[i] == head[i] && (i > 0 ==> ReprEscape(s, q)[i - 1] == head[i - 1]);
    }
  }

  /** The first `n` entries of a dictionary value as `'key': repr(value)`. */
  function EntryTexts(f: Field, n: nat): (r: seq<string>)
    requires f.Entries? && n <= |f.pairs|
    ensures |r| == n
    decreases f, 0, n
  {
    if n == 0 then []
    else
      assert f.pairs[n - 1] in f.pairs;
      EntryTexts(f, n - 1) + [ReprStr(f.pairs[n - 1].0) + ": " + ReprOf(f.pairs[n - 1].1)]
  }

  /** Python's `repr(v)`, how a value shows inside a container: strings are quoted. */
  function ReprOf(f: Field): string
    decreases f, 2, 0
  {
    if f.Str? then ReprStr(f.s) else Render(f)
  }

  /** Python's `f"{d.get(key, default)}"`. */
  function GetText(d: Dict, key: string, default: string): string
  {
    if key in d then Render(d[key]) else default
  }

  /** Python truthiness of a stored value. */
  predicate Truthy(f: Field)
  {
    match f
    case Null => false
    case Bool(b) => b
    case Number(n) => n != 0
    case Real(text) => text != "0.0" && text != "-0.0"
    case Str(s) => s != ""
    case Strs(items) => items != []
    case Entries(pairs) => pairs != []
  }

  /** How `json.dumps` (with `ensure_ascii`) writes one character of a string: the quote
      and the backslash escaped, the five named control characters by name, any other
      character outside printable ASCII as `\uXXXX`, a character beyond U+FFFF as its
      UTF-16 surrogate pair. */
  function JsonChar(c: char): string
  {
    var n := c as int;
    if c == '"' then "\\\"" else if c == '\\' then "\\\\"
    else if c == '\n' then "\\n" else if c == '\r' then "\\r" else if c == '\t' then "\\t"
    else if n == 8 then "\\b" else if n == 12 then "\\f"
    else if PrintableAscii(c) then [c]
    else if n < 0x10000 then "\\u" + Hex(n, 4)
    else "\\u" + Hex(0xD800 + (n - 0x10000) / 0x400, 4) + "\\u" + Hex(0xDC00 + (n - 0x10000) % 0x400, 4)
  }

  /** The escaped body of a JSON string literal for `s`. */
  function JsonEscape(s: string): string
  {
    if |s| == 0 then "" else JsonChar(s[0]) + JsonEscape(s[1..])
  }

  /** `json.dumps` writes printable ASCII only. */
  lemma {:induction false} JsonEscapeAscii(s: string)
    ensures forall i :: 0 <= i < |JsonEscape(s)| ==> PrintableAscii(JsonEscape(s)[i])
  {
    if |s| > 0 {
      JsonEscapeAscii(s[1..]);
      var head := JsonChar(s[0]);
      assert forall i :: 0 <= i < |head| ==> PrintableAscii(head[i]);
      assert JsonEscape(s) == head + JsonEscape(s[1..]);
    }
  }

  /** Escaping works character by character. */
  lemma {:induction false} JsonEscapeAppend(a: string, b: string)
    ensures JsonEscape(a + b) == JsonEscape(a) + JsonEscape(b)
  {
    if |a| > 0 {
      assert (a + b)[1..] == a[1..] + b;
      JsonEscapeAppend(a[1..], b);
    } else {
      assert a + b == b;
    }
  }

  /** Printable ASCII without quotes or backslashes is written as it is. */
  lemma {:induction false} JsonEscapePlain(s: string)
    requires forall i :: 0 <= i < |s| ==> PrintableAscii(s[i]) && s[i] != '"' && s[i] != '\\'
    ensures JsonEscape(s) == s
  {
    if |s| > 0 {
      JsonEscapePlain(s[1..]);
      assert s == [s[0]] + s[1..];
    }
  }

  function JsonString(s: string): string
  {
    "\"" + JsonEscape(s) + "\""
  }

  /** `json.dumps(v)` with its default separators `", "` and `": "`. */
  function Json(f: Field): string
  {
    match f
    case Null => "null"
    case Bool(b) => if b then "true" else "false"
    case Number(n) => IntToString(n)
    case Real(text) => text
    case Str(s) => JsonString(s)
    case Strs(items) => "[" + Join(seq(|items|, i requires 0 <= i < |items| => JsonString(items[i])), ", ") + "]"
    case Entries(pairs) => JsonObject(pairs)
  }

  /** `json.dumps(d)` of a dictionary with the given key order. */
  function JsonObject(pairs: Pairs): string
    decreases Entries(pairs), 0
  {
    "{" + Join(seq(|pairs|, i requires 0 <= i < |pairs| =>
      assert pairs[i] in pairs;
      JsonString(pairs[i].0) + ": " + Json(pairs[i].1)), ", ") + "}"
  }

  /** Python's `a < b` on strings: lexicographic by code point. */
  predicate StrLess(a: string, b: string)
  {
    if |a| == 0 then |b| > 0
    else if |b| == 0 then false
    else a[0] < b[0] || (a[0] == b[0] && StrLess(a[1..], b[1..]))
  }

  lemma {:induction false} StrLessIrreflexive(a: string)
    ensures !StrLess(a, a)
  {
    if |a| > 0 {
      StrLessIrreflexive(a[1..]);
    }
  }

  lemma {:induction false} StrLessTransitive(a: string, b: string, c: string)
    requires StrLess(a, b) && StrLess(b, c)
    ensures StrLess(a, c)
  {
    if |a| > 0 && |b| > 0 && |c| > 0 && a[0] == b[0] == c[0] {
      StrLessTransitive(a[1..], b[1..], c[1..]);
    }
  }

  lemma {:induction false} StrLessTotal(a: string, b: string)
    requires a != b
    ensures StrLess(a, b) || StrLess(b, a)
  {
    if |a| > 0 && |b| > 0 && a[0] == b[0] {
      assert a == [a[0]] + a[1..] && b == [b[0]] + b[1..];
      StrLessTotal(a[1..], b[1..]);
    }
  }

  /** The keys of `pairs` strictly increase. */
  predicate KeysAscending(pairs: Pairs)
  {
    forall i, j :: 0 <= i < j < |pairs| ==> StrLess(pairs[i].0, pairs[j].0)
  }

  /** No key occurs twice, as in a keyword-argument list. */
  predicate KeysDistinct(pairs: Pairs)
  {
    forall i, j :: 0 <= i < j < |pairs| ==> pairs[i].0 != pairs[j].0
  }

  /** `p` inserted into the ascending `pairs` before the first larger key. */
  function InsertByKey(p: (string, Field), pairs: Pairs): (r: Pairs)
    ensures multiset(r) == multiset(pairs) + multiset{p}
    ensures |r| == |pairs| + 1
  {
    if |pairs| == 0 || !StrLess(pairs[0].0, p.0) then [p] + pairs
    else
      assert pairs == [pairs[0]] + pairs[1..];
      [pairs[0]] + InsertByKey(p, pairs[1..])
  }

  lemma {:induction false} InsertByKeyAscending(p: (string, Field), pairs: Pairs)
    requires KeysAscending(pairs)
    requires forall i :: 0 <= i < |pairs| ==> pairs[i].0 != p.0
    ensures KeysAscending(InsertByKey(p, pairs))
  {
    if |pairs| == 0 {
    } else if !StrLess(pairs[0].0, p.0) {
      StrLessTotal(p.0, pairs[0].0);
      forall j | 0 < j < |pairs| ensures StrLess(p.0, pairs[j].0) {
        StrLessTransitive(p.0, pairs[0].0, pairs[j].0);
      }
    } else {
      var tail := pairs[1..];
      InsertByKeyAscending(p, tail);
      var r := InsertByKey(p, tail);
      forall k | 0 <= k < |r| ensures StrLess(pairs[0].0, r[k].0) {
        assert r[k] in multiset(tail) + multiset{p};
        if r[k] != p {
          assert r[k] in tail;
          var j :| 0 <= j < |tail| && tail[j] == r[k];
          assert tail[j] == pairs[j + 1];
        }
      }
    }
  }

  /** `sorted(pairs)` by key: insertion sort, which is what `sort_keys=True` orders by. */
  function SortByKey(pairs: Pairs): (r: Pairs)
    ensures multiset(r) == multiset(pairs)
    ensures |r| == |pairs|
  {
    if |pairs| == 0 then []
    else
      assert pairs == [pairs[0]] + pairs[1..];
      InsertByKey(pairs[0], SortByKey(pairs[1..]))
  }

  /** Sorting distinct keys leaves them strictly ascending. */
  lemma {:induction false} SortByKeyAscending(pairs: Pairs)
    requires KeysDistinct(pairs)
    ensures KeysAscending(SortByKey(pairs))
  {
    if |pairs| > 0 {
      var tail := pairs[1..];
      assert KeysDistinct(tail) by {
        forall i, j | 0 <= i < j < |tail| ensures tail[i].0 != tail[j].0 {
          assert tail[i] == pairs[i + 1] && tail[j] == pairs[j + 1];
        }
      }
      SortByKeyAscending(tail);
      var s := SortByKey(tail);
      forall i | 0 <= i < |s| ensures s[i].0 != pairs[0].0 {
        assert s[i] in multiset(tail);
        var j :| 0 <= j < |tail| && tail[j] == s[i];
        assert tail[j] == pairs[j + 1];
      }
      InsertByKeyAscending(pairs[0], s);
    }
  }

  /** Every element of an ascending list other than its head has a larger key. */
  lemma HeadIsLeast(a: Pairs, x: (string, Field))
    requires KeysAscending(a) && |a| > 0 && x in multiset(a)
    ensures x == a[0] || StrLess(a[0].0, x.0)
  {
    var i :| 0 <= i < |a| && a[i] == x;
  }

  lemma TailAscending(a: Pairs)
    requires KeysAscending(a) && |a| > 0
    ensures KeysAscending(a[1..])
  {
    var t := a[1..];
    forall i, j | 0 <= i < j < |t| ensures StrLess(t[i].0, t[j].0) {
      assert t[i] == a[i + 1] && t[j] == a[j + 1];
    }
  }

  /** Two ascending lists with the same elements start with the same element. */
  lemma SameHead(a: Pairs, b: Pairs)
    requires KeysAscending(a) && KeysAscending(b) && |a| > 0 && |b| > 0
    requires multiset(a) == multiset(b)
    ensures a[0] == b[0]
  {
    assert a[0] in multiset(a) && b[0] in multiset(b);
    HeadIsLeast(b, a[0]);
    HeadIsLeast(a, b[0]);
    if a[0] != b[0] {
      StrLessTransitive(a[0].0, b[0].0, a[0].0);
      StrLessIrreflexive(a[0].0);
    }
  }

  /** Two strictly ascending lists with the same elements are the same list. */
  lemma {:induction false} AscendingUnique(a: Pairs, b: Pairs)
    requires KeysAscending(a) && KeysAscending(b)
    requires multiset(a) == multiset(b)
    ensures a == b
    decreases |a|
  {
    assert |a| == |multiset(a)| == |multiset(b)| == |b|;
    if |a| > 0 {
      SameHead(a, b);
      var ta, tb := a[1..], b[1..];
      assert a == [a[0]] + ta && b == [b[0]] + tb;
      assert multiset(ta) == multiset(a) - multiset{a[0]};
      assert multiset(tb) == multiset(b) - multiset{b[0]};
      TailAscending(a);
      TailAscending(b);
      AscendingUnique(ta, tb);
    }
  }

  /** The same keyword arguments in any call order sort to the same list. */
  lemma SortByKeyPermutation(a: Pairs, b: Pairs)
    requires KeysDistinct(a) && KeysDistinct(b)
    requires multiset(a) == multiset(b)
    ensures SortByKey(a) == SortByKey(b)
  {
    SortByKeyAscending(a);
    SortByKeyAscending(b);
    AscendingUnique(SortByKey(a), SortByKey(b));
  }
}
