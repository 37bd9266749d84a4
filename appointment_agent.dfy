/** The appointment agent: it parses a `action|patient_id|details` request, resolves a
    natural-language date window against today's date, lists four mock slots for every
    weekday of the window, and asks its language model to recommend one. */
module Appointment {
  import opened Wrappers
  import opened Text
  import opened Calendar
  import opened BaseAgent

  // ---------------------------------------------------------------- the request

  /** The three fields `_parse_request` extracts; `patientId` is `None` when the
      request has no `|`. */
  datatype Request = Request(action: string, patientId: Option<string>, details: string)

  /** `_parse_request`: with a `|`, every field is trimmed, the action is lower-cased and
      fields after the third are ignored; without one, the whole query is the details of
      a scheduling request. */
  function RequestFields(query: string): (r: Request)
    ensures '|' !in query ==> r == Request("schedule", None, query)
    ensures '|' in query ==>
      && r.patientId.Some? && Trimmed(r.patientId.value) && '|' !in r.patientId.value
      && Trimmed(r.details) && '|' !in r.details && '|' !in r.action
  {
    if '|' in query then
      var parts := Split(query, '|');
      assert '|' !in parts[0] && '|' !in parts[1];
      StripKeeps(parts[0], '|');
      LowerKeeps(Strip(parts[0]), '|');
      StripKeeps(parts[1], '|');
      StripSpec(parts[1]);
      var details := if |parts| > 2 then Strip(parts[2]) else "";
      assert '|' !in details by {
        if |parts| > 2 {
          assert '|' !in parts[2];
          StripKeeps(parts[2], '|');
        }
      }
      assert Trimmed(details) by {
        if |parts| > 2 {
          StripSpec(parts[2]);
        }
      }
      Request(Lower(Strip(parts[0])), Some(Strip(parts[1])), details)
    else Request("schedule", None, query)
  }

  /** Splitting the concatenation of fields at their joints gives the fields back. */
  lemma SplitFields(a: string, b: string, c: string)
    requires '|' !in a && '|' !in b && '|' !in c
    ensures Split(a + "|" + b + "|" + c, '|') == [a, b, c]
  {
    SplitFirst(b, '|', c);
    assert a + "|" + b + "|" + c == a + "|" + (b + "|" + c);
    SplitFirst(a, '|', b + "|" + c);
  }

  /** Writing a request as `action|patient_id|details` and parsing it gives it back. */
  lemma ParseRequestRoundTrip(action: string, patientId: string, details: string)
    requires '|' !in action && '|' !in patientId && '|' !in details
    requires Trimmed(action) && Lower(action) == action && Trimmed(patientId) && Trimmed(details)
    ensures RequestFields(action + "|" + patientId + "|" + details) == Request(action, Some(patientId), details)
  {
    SplitFields(action, patientId, details);
    StripOfTrimmed(action);
    StripOfTrimmed(patientId);
    StripOfTrimmed(details);
  }

  /** Fields after the third do not change the request. */
  lemma ParseRequestIgnoresRest(a: string, b: string, c: string, rest: string)
    requires '|' !in a && '|' !in b && '|' !in c
    ensures RequestFields(a + "|" + b + "|" + c + "|" + rest) == RequestFields(a + "|" + b + "|" + c)
  {
    var x := a + "|" + b + "|" + c;
    SplitFields(a, b, c);
    SplitAppend(x, '|', rest);
    assert x[|a|] == '|';
    assert (x + "|" + rest)[|a|] == '|';
  }

  // ---------------------------------------------------------------- date windows

  const MonthNames: seq<string> := ["january", "february", "march", "april", "may", "june", "july",
    "august", "september", "october", "november", "december"]

  /** The query names month `m` as "last week of <month>" or "end of <month>". */
  predicate NamesMonth(q: string, m: int)
    requires 1 <= m <= 12
  {
    Contains(q, "last week of " + MonthNames[m - 1]) || Contains(q, "end of " + MonthNames[m - 1])
  }

  /** The first month, from `m` on in calendar order, that the query names. */
  function FirstNamedMonth(q: string, m: int): (r: Option<int>)
    requires 1 <= m <= 13
    ensures r.Some? ==> m <= r.value <= 12 && NamesMonth(q, r.value)
    ensures r.Some? ==> forall j :: m <= j < r.value ==> !NamesMonth(q, j)
    ensures r.None? ==> forall j :: m <= j <= 12 ==> !NamesMonth(q, j)
    decreases 13 - m
  {
    if m == 13 then None
    else if NamesMonth(q, m) then Some(m)
    else FirstNamedMonth(q, m + 1)
  }

  /** The year a named month refers to: next year once the month is past, or once this
      month is past its 21st day. */
  function TargetYear(today: Date, m: int): int
  {
    if m < today.month then today.year + 1
    else if m == today.month && today.day > 21 then today.year + 1
    else today.year
  }

  /** The last seven days of a month, ending on its last day. */
  function LastWeekOf(y: int, m: int): (r: (Date, Date))
    requires y >= 1 && 1 <= m <= 12
    ensures r == (Date(y, m, DaysInMonth(y, m) - 6), Date(y, m, DaysInMonth(y, m)))
    ensures Valid(r.0) && Valid(r.1) && Ordinal(r.1) == Ordinal(r.0) + 6
  {
    var end := Date(y, m, DaysInMonth(y, m));
    AddDaysWithinMonth(end, -6);
    (AddDays(end, -6), end)
  }

  /** The whole of a month, from its 1st to its last day. */
  function WholeMonth(y: int, m: int): (r: (Date, Date))
    requires y >= 1 && 1 <= m <= 12
    ensures Valid(r.0) && Valid(r.1) && r.0.year == r.1.year == y
    ensures Ordinal(r.1) == Ordinal(r.0) + DaysInMonth(y, m) - 1
  {
    (Date(y, m, 1), Date(y, m, DaysInMonth(y, m)))
  }

  /** The Monday of a week starts at most `weekday` days back, never before day 1. */
  lemma WeekStartExists(d: Date)
    requires Valid(d)
    ensures 0 <= Weekday(d) < 7 && Ordinal(d) - Weekday(d) >= 1
  {
    OrdinalPositive(d);
    var o := Ordinal(d);
    assert (o + 6) % 7 == (o - 1) % 7;
  }

  /** A later ordinal is never an earlier year. */
  lemma YearOrder(x: Date, z: Date)
    requires Valid(x) && Valid(z) && Ordinal(x) <= Ordinal(z)
    ensures x.year <= z.year
  {
    if x.year > z.year {
      EarlierYear(z, x);
    }
  }

  /** "next week": the Monday strictly after today, through the Sunday after it. */
  function NextWeek(today: Date): (r: (Date, Date))
    requires Valid(today) && today.year <= 9998
    ensures Valid(r.0) && Valid(r.1) && r.0.year <= 9999 && r.1.year <= 9999
    ensures Weekday(r.0) == 0 && Weekday(r.1) == 6
    ensures Ordinal(today) < Ordinal(r.0) <= Ordinal(today) + 7 && Ordinal(r.1) == Ordinal(r.0) + 6
  {
    WeekStartExists(today);
    var w := Weekday(today);
    var shift := 7 - w;
    WeekdayAfter(today, shift);
    assert (w + shift) % 7 == 0;
    var start := AddDays(today, shift);
    assert Weekday(start) == 0;
    WeekdayAfter(start, 6);
    AddDaysCompose(today, shift, 6);
    YearAfterDays(today, shift + 6);
    var end := AddDays(start, 6);
    YearOrder(start, end);
    (start, end)
  }

  /** "this week": the Monday of today's week, through the Sunday after it. */
  function ThisWeek(today: Date): (r: (Date, Date))
    requires Valid(today) && today.year <= 9998
    ensures Valid(r.0) && Valid(r.1) && r.0.year <= 9999 && r.1.year <= 9999
    ensures Weekday(r.0) == 0 && Weekday(r.1) == 6
    ensures Ordinal(r.0) <= Ordinal(today) <= Ordinal(r.1) && Ordinal(r.1) == Ordinal(r.0) + 6
  {
    WeekStartExists(today);
    var back := Weekday(today);
    WeekdayAfter(today, -back);
    assert (back + -back) % 7 == 0;
    var start := AddDays(today, -back);
    assert Weekday(start) == 0;
    YearOrder(start, today);
    WeekdayAfter(start, 6);
    AddDaysCompose(today, -back, 6);
    YearAfterDays(today, 6 - back);
    var end := AddDays(start, 6);
    assert end == AddDays(today, 6 - back);
    assert end.year <= 9999;
    assert Weekday(end) == 6;
    (start, end)
  }

  /** Moving by `a` days and then by `b` days moves by `a + b` days. */
  lemma AddDaysCompose(d: Date, a: int, b: int)
    requires Valid(d) && Ordinal(d) + a >= 1 && Ordinal(d) + a + b >= 1
    ensures AddDays(AddDays(d, a), b) == AddDays(d, a + b)
  {
    OrdinalInjective(AddDays(AddDays(d, a), b), AddDays(d, a + b));
  }

  /** `_parse_date_request` on dates: the phrases are tried in a fixed order and the
      first one found decides the window. */
  function DateWindow(query: string, today: Date): (r: Option<(Date, Date)>)
    requires Valid(today) && today.year <= 9998
    ensures r.Some? ==> Valid(r.value.0) && Valid(r.value.1) && Ordinal(r.value.0) <= Ordinal(r.value.1)
    ensures r.Some? ==> r.value.0.year <= 9999 && r.value.1.year <= 9999
  {
    var q := Lower(query);
    var named := FirstNamedMonth(q, 1);
    var (ny, nm) := MonthAfter(today.year, today.month);
    if Contains(q, "next week") then Some(NextWeek(today))
    else if named.Some? then Some(LastWeekOf(TargetYear(today, named.value), named.value))
    else if Contains(q, "last week of next month") || Contains(q, "end of next month")
         || Contains(q, "final week of next month") then Some(LastWeekOf(ny, nm))
    else if Contains(q, "next month") && !Contains(q, "last week") then Some(WholeMonth(ny, nm))
    else if Contains(q, "this week") then Some(ThisWeek(today))
    else None
  }

  /** `_parse_date_request`: the window as `YYYY-MM-DD` texts, `None` for none. */
  function ParseDateRequest(query: string, today: Date): Option<(string, string)>
    requires Valid(today) && today.year <= 9998
  {
    match DateWindow(query, today)
    case None => None
    case Some((s, e)) => Some((IsoDate(s), IsoDate(e)))
  }

  /** The window a named month resolves to never starts before tomorrow: a month this
      year is only chosen while its last week is still ahead. */
  lemma NamedMonthAhead(today: Date, m: int)
    requires Valid(today) && 1 <= m <= 12
    ensures var y := TargetYear(today, m);
      y >= 1 && Ordinal(today) < Ordinal(LastWeekOf(y, m).0)
  {
    var y := TargetYear(today, m);
    var start := LastWeekOf(y, m).0;
    if y > today.year {
      EarlierYear(today, start);
    } else if m > today.month {
      EarlierMonth(today, start);
    } else {
      assert m == today.month && today.day <= 21 && start.day >= 22;
    }
  }

  /** The month after today's month starts after today. */
  lemma NextMonthAhead(today: Date)
    requires Valid(today)
    ensures var (y, m) := MonthAfter(today.year, today.month);
      y >= 1 && Ordinal(today) < Ordinal(Date(y, m, 1))
  {
    var (y, m) := MonthAfter(today.year, today.month);
    if y > today.year {
      EarlierYear(today, Date(y, m, 1));
    } else {
      EarlierMonth(today, Date(y, m, 1));
    }
  }

  /** When a month is named, the first one in calendar order decides the window. */
  lemma NamedMonthWindow(query: string, today: Date, m: int)
    requires Valid(today) && today.year <= 9998 && 1 <= m <= 12
    requires !Contains(Lower(query), "next week") && NamesMonth(Lower(query), m)
    requires forall j :: 1 <= j < m ==> !NamesMonth(Lower(query), j)
    ensures var y := TargetYear(today, m);
      DateWindow(query, today) == Some((Date(y, m, DaysInMonth(y, m) - 6), Date(y, m, DaysInMonth(y, m))))
  {
    var named := FirstNamedMonth(Lower(query), 1);
    assert named == Some(m);
  }

  // ---------------------------------------------------------------- mock slots

  /** One slot of `_generate_mock_slots`. */
  datatype Slot = Slot(date: string, time: string, duration: string, available: bool)

  const SlotTimes: seq<string> := ["09:00 AM", "11:00 AM", "02:00 PM", "04:00 PM"]

  /** The slots of one day, given its formatted date and whether it is a weekday: four
      half-hour slots on a weekday, none at the weekend. */
  function DayBlock(date: string, open: bool): seq<Slot>
  {
    if open then
      [Slot(date, "09:00 AM", "30 min", true), Slot(date, "11:00 AM", "30 min", true),
       Slot(date, "02:00 PM", "30 min", true), Slot(date, "04:00 PM", "30 min", true)]
    else []
  }

  /** The slots of a run of days, day by day. */
  function SlotsOf(days: seq<(string, bool)>): seq<Slot>
  {
    if |days| == 0 then [] else DayBlock(days[0].0, days[0].1) + SlotsOf(days[1..])
  }

  /** How many of the days are weekdays. */
  function OpenDays(days: seq<(string, bool)>): (c: nat)
    ensures c <= |days|
  {
    if |days| == 0 then 0 else (if days[0].1 then 1 else 0) + OpenDays(days[1..])
  }

  /** Four slots for every weekday, and no others. */
  lemma {:induction false} SlotsOfCount(days: seq<(string, bool)>)
    ensures |SlotsOf(days)| == 4 * OpenDays(days)
    decreases |days|
  {
    if |days| > 0 {
      SlotsOfCount(days[1..]);
    }
  }

  lemma DayBlockAt(date: string, open: bool, r: int)
    requires 0 <= r < |DayBlock(date, open)|
    ensures open && r < 4 && |DayBlock(date, open)| == 4
    ensures DayBlock(date, open)[r] == Slot(date, SlotTimes[r], "30 min", true)
  {
  }

  lemma RemainderShift(k: int)
    requires k >= 4
    ensures (k - 4) % 4 == k % 4
  {
  }

  /** The `k`-th slot lies on the `i`-th day, a weekday, at the `k mod 4`-th fixed time,
      lasts 30 minutes and is free. */
  lemma {:induction false} SlotsOfAt(days: seq<(string, bool)>, k: int) returns (i: nat)
    requires 0 <= k < |SlotsOf(days)|
    ensures i < |days| && days[i].1
    ensures SlotsOf(days)[k] == Slot(days[i].0, SlotTimes[k % 4], "30 min", true)
    decreases |days|
  {
    var here := DayBlock(days[0].0, days[0].1);
    if k < |here| {
      i := 0;
      DayBlockAt(days[0].0, days[0].1, k);
      assert k % 4 == k;
    } else {
      var j := k - |here|;
      assert j % 4 == k % 4 by {
        if |here| > 0 {
          DayBlockAt(days[0].0, days[0].1, 0);
          RemainderShift(k);
        }
      }
      var i' := SlotsOfAt(days[1..], j);
      i := i' + 1;
    }
  }

  /** The `n` days from `start` on, each as its formatted date and whether it is a weekday. */
  function WindowDays(start: Date, n: nat): (days: seq<(string, bool)>)
    requires Valid(start)
    ensures |days| == n
    decreases n
  {
    if n == 0 then [] else [(IsoDate(start), IsWeekday(start))] + WindowDays(NextDay(start), n - 1)
  }

  /** The `i`-th day of the window is the day `i` days after `start`. */
  lemma {:induction false} WindowDayAt(start: Date, n: nat, i: int) returns (d: Date)
    requires Valid(start) && 0 <= i < n
    ensures Valid(d) && Ordinal(d) == Ordinal(start) + i
    ensures WindowDays(start, n)[i] == (IsoDate(d), IsWeekday(d))
    decreases n
  {
    var rest := WindowDays(NextDay(start), n - 1);
    assert WindowDays(start, n) == [(IsoDate(start), IsWeekday(start))] + rest;
    if i == 0 {
      d := start;
    } else {
      d := WindowDayAt(NextDay(start), n - 1, i - 1);
      assert WindowDays(start, n)[i] == rest[i - 1];
    }
  }

  /** The slots of one day. */
  function DaySlots(d: Date): seq<Slot>
    requires Valid(d)
  {
    DayBlock(IsoDate(d), IsWeekday(d))
  }

  /** Concatenation regroups freely. */
  lemma AppendAssoc<T>(a: seq<T>, b: seq<T>, c: seq<T>)
    ensures (a + b) + c == a + (b + c)
  {
  }

  /** The slots of the `n` days from `start` on. */
  function SlotsFrom(start: Date, n: nat): seq<Slot>
    requires Valid(start)
  {
    SlotsOf(WindowDays(start, n))
  }

  /** A window is its first day's slots followed by the rest of the window. */
  lemma SlotsFromStep(start: Date, n: nat)
    requires Valid(start) && n >= 1
    ensures SlotsFrom(start, n) == DaySlots(start) + SlotsFrom(NextDay(start), n - 1)
  {
    assert WindowDays(start, n)[1..] == WindowDays(NextDay(start), n - 1);
  }

  /** The `k`-th slot of a window lies on one of its weekdays, at the `k mod 4`-th time. */
  lemma SlotAt(start: Date, n: nat, k: int) returns (d: Date)
    requires Valid(start) && 0 <= k < |SlotsFrom(start, n)|
    ensures Valid(d) && Ordinal(start) <= Ordinal(d) < Ordinal(start) + n && IsWeekday(d)
    ensures SlotsFrom(start, n)[k] == Slot(IsoDate(d), SlotTimes[k % 4], "30 min", true)
  {
    var i := SlotsOfAt(WindowDays(start, n), k);
    d := WindowDayAt(start, n, i);
  }

  /** The weekday count of `n` days from the day numbered `x` on, when day `x` falls on
      weekday `x mod 7`: arithmetic alone. */
  function WeekdaysFrom(x: int, n: nat): nat
    decreases n
  {
    if n == 0 then 0 else (if x % 7 < 5 then 1 else 0) + WeekdaysFrom(x + 1, n - 1)
  }

  lemma {:induction false} WeekdaysByWeekday(start: Date, n: nat)
    requires Valid(start)
    ensures OpenDays(WindowDays(start, n)) == WeekdaysFrom(Ordinal(start) + 6, n)
    decreases n
  {
    if n > 0 {
      WeekdaysByWeekday(NextDay(start), n - 1);
      assert WindowDays(start, n)[1..] == WindowDays(NextDay(start), n - 1);
    }
  }

  /** Only the weekday matters. */
  lemma {:induction false} WeekdaysFromMod(x: int, y: int, n: nat)
    requires x % 7 == y % 7
    ensures WeekdaysFrom(x, n) == WeekdaysFrom(y, n)
    decreases n
  {
    if n > 0 {
      ModShift(x, 1);
      ModShift(y, 1);
      WeekdaysFromMod(x + 1, y + 1, n - 1);
    }
  }

  lemma SevenFromAnyWeekday(x: int)
    ensures WeekdaysFrom(x, 7) == 5
  {
    var w := x % 7;
    WeekdaysFromMod(x, w, 7);
    if w == 0 { assert WeekdaysFrom(0, 7) == 5; }
    else if w == 1 { assert WeekdaysFrom(1, 7) == 5; }
    else if w == 2 { assert WeekdaysFrom(2, 7) == 5; }
    else if w == 3 { assert WeekdaysFrom(3, 7) == 5; }
    else if w == 4 { assert WeekdaysFrom(4, 7) == 5; }
    else if w == 5 { assert WeekdaysFrom(5, 7) == 5; }
    else { assert WeekdaysFrom(6, 7) == 5; }
  }

  lemma FiveFromAnyWeekday(x: int)
    ensures 3 <= WeekdaysFrom(x, 5)
  {
    var w := x % 7;
    WeekdaysFromMod(x, w, 5);
    if w == 0 { assert WeekdaysFrom(0, 5) == 5; }
    else if w == 1 { assert WeekdaysFrom(1, 5) == 4; }
    else if w == 2 { assert WeekdaysFrom(2, 5) == 3; }
    else if w == 3 { assert WeekdaysFrom(3, 5) == 3; }
    else if w == 4 { assert WeekdaysFrom(4, 5) == 3; }
    else if w == 5 { assert WeekdaysFrom(5, 5) == 3; }
    else { assert WeekdaysFrom(6, 5) == 4; }
  }

  /** Any seven consecutive days hold exactly five weekdays, so twenty slots. */
  lemma SevenDaySlots(start: Date)
    requires Valid(start)
    ensures |SlotsFrom(start, 7)| == 20
  {
    SlotsOfCount(WindowDays(start, 7));
    WeekdaysByWeekday(start, 7);
    SevenFromAnyWeekday(Ordinal(start) + 6);
  }

  /** Any five consecutive days hold three to five weekdays, so 12 to 20 slots. */
  lemma FiveDaySlots(start: Date)
    requires Valid(start)
    ensures 12 <= |SlotsFrom(start, 5)| <= 20
  {
    SlotsOfCount(WindowDays(start, 5));
    WeekdaysByWeekday(start, 5);
    FiveFromAnyWeekday(Ordinal(start) + 6);
  }

  /** The day `datetime` cannot step past. */
  const MaxDate := Date(9999, 12, 31)

  /** A date the parser accepts that is not before 9999-12-31 is that day. */
  lemma AtMaxDate(d: Date)
    requires Valid(d) && d.year <= 9999 && Ordinal(MaxDate) <= Ordinal(d)
    ensures d == MaxDate
  {
    YearOrder(MaxDate, d);
    if d.month < 12 {
      EarlierMonth(d, MaxDate);
    }
    OrdinalInjective(d, MaxDate);
  }

  /** The days from `s` through `e`, none when `e` is before `s`. */
  function DaysThrough(s: Date, e: Date): nat
    requires Valid(s) && Valid(e)
  {
    if Ordinal(s) <= Ordinal(e) then Ordinal(e) - Ordinal(s) + 1 else 0
  }

  /** What `strptime` reports for a text it does not accept. */
  function BadDate(text: string): string
  {
    "time data '" + text + "' does not match format '%Y-%m-%d'"
  }

  const DateOverflow := "date value out of range"

  /** The first and last day `_generate_mock_slots` walks: the five days from tomorrow on
      without a window, else the window's two dates as `strptime` reads them. */
  function MockWindow(range: Option<(string, string)>, today: Date): (w: Raises<(Date, Date)>)
    requires Valid(today) && today.year <= 9998
    ensures w.Returned? ==> Valid(w.value.0) && Valid(w.value.1) && w.value.1.year <= 9999
    ensures range.None? ==>
      w.Returned? && Ordinal(w.value.0) == Ordinal(today) + 1 && Ordinal(w.value.1) == Ordinal(today) + 5
  {
    match range
    case None =>
      OrdinalPositive(today);
      var s := AddDays(today, 1);
      AddDaysCompose(today, 1, 4);
      YearAfterDays(today, 5);
      Returned((s, AddDays(s, 4)))
    case Some((a, b)) =>
      match ParseIso(a)
      case None => Raised(BadDate(a))
      case Some(s) =>
        match ParseIso(b)
        case None => Raised(BadDate(b))
        case Some(e) => Returned((s, e))
  }

  /** The walk from `s` through `e`: every day's slots, unless the walk has to step past
      9999-12-31. */
  function SlotsThrough(s: Date, e: Date): Raises<seq<Slot>>
    requires Valid(s) && Valid(e)
  {
    if Ordinal(s) <= Ordinal(e) && e == MaxDate then Raised(DateOverflow)
    else Returned(SlotsFrom(s, DaysThrough(s, e)))
  }

  /** What `_generate_mock_slots(date_range)` returns or raises. */
  function MockSlots(range: Option<(string, string)>, today: Date): Raises<seq<Slot>>
    requires Valid(today) && today.year <= 9998
  {
    match MockWindow(range, today)
    case Raised(m) => Raised(m)
    case Returned((s, e)) => SlotsThrough(s, e)
  }

  // ---------------------------------------------------------------- formatting

  /** One line of `_format_slots`. */
  function SlotLine(s: Slot): string
  {
    s.date + " at " + s.time + " (" + s.duration + ")"
  }

  function SlotLines(slots: seq<Slot>): (lines: seq<string>)
    ensures |lines| == |slots| && forall i :: 0 <= i < |slots| ==> lines[i] == SlotLine(slots[i])
  {
    seq(|slots|, i requires 0 <= i < |slots| => SlotLine(slots[i]))
  }

  /** `_format_slots`: a fixed text for no slots, else one line per slot joined by newlines. */
  function SlotsText(slots: seq<Slot>): string
  {
    if |slots| == 0 then "No available slots" else Join(SlotLines(slots), "\n")
  }

  /** Every slot's line shows up in the text. */
  lemma SlotsTextShowsEach(slots: seq<Slot>, i: int)
    requires 0 <= i < |slots|
    ensures Contains(SlotsText(slots), SlotLine(slots[i]))
  {
    JoinContains(SlotLines(slots), "\n", i);
  }

  /** Splitting the text at newlines gives one line per slot back, when no slot's fields
      hold a newline. */
  lemma SlotsTextLines(slots: seq<Slot>)
    requires |slots| > 0 && forall i :: 0 <= i < |slots| ==> '\n' !in SlotLine(slots[i])
    ensures Split(SlotsText(slots), '\n') == SlotLines(slots)
  {
    SplitJoin(SlotLines(slots), '\n');
  }

  /** A formatted date is digits and dashes: it holds no newline. */
  lemma IsoDateOneLine(d: Date)
    requires Valid(d)
    ensures '\n' !in IsoDate(d)
  {
    var y, m, dd := ZeroPad(d.year, 4), ZeroPad(d.month, 2), ZeroPad(d.day, 2);
    assert '\n' !in y && '\n' !in m && '\n' !in dd;
  }

  lemma SlotLineOneLine(s: Slot)
    requires '\n' !in s.date && '\n' !in s.time && '\n' !in s.duration
    ensures '\n' !in SlotLine(s)
  {
    assert '\n' !in " at " && '\n' !in " (" && '\n' !in ")";
  }

  lemma SlotTimeOneLine(j: int)
    requires 0 <= j < 4
    ensures '\n' !in SlotTimes[j] && '\n' !in "30 min"
  {
    if j == 0 { assert '\n' !in "09:00 AM"; }
    else if j == 1 { assert '\n' !in "11:00 AM"; }
    else if j == 2 { assert '\n' !in "02:00 PM"; }
    else { assert '\n' !in "04:00 PM"; }
  }

  lemma SlotOneLine(start: Date, n: nat, k: int)
    requires Valid(start) && 0 <= k < |SlotsFrom(start, n)|
    ensures '\n' !in SlotLine(SlotsFrom(start, n)[k])
  {
    var d := SlotAt(start, n, k);
    IsoDateOneLine(d);
    SlotTimeOneLine(k % 4);
    SlotLineOneLine(SlotsFrom(start, n)[k]);
  }

  /** The generated slots format as exactly one line each. */
  lemma MockSlotsOneLineEach(start: Date, n: nat)
    requires Valid(start) && |SlotsFrom(start, n)| > 0
    ensures |Split(SlotsText(SlotsFrom(start, n)), '\n')| == |SlotsFrom(start, n)|
  {
    var slots := SlotsFrom(start, n);
    forall k | 0 <= k < |slots| ensures '\n' !in SlotLine(slots[k]) {
      SlotOneLine(start, n, k);
    }
    SlotsTextLines(slots);
  }

  /** A window given as two formatted dates before 9999-12-31 yields every slot of its
      days; the default window yields 12 to 20 slots. */
  lemma MockSlotsOfWindow(today: Date, s: Date, e: Date)
    requires Valid(today) && today.year <= 9998
    requires Valid(s) && Valid(e) && s.year <= 9999 && e.year <= 9999 && e != MaxDate
    ensures MockSlots(Some((IsoDate(s), IsoDate(e))), today) == Returned(SlotsFrom(s, DaysThrough(s, e)))
  {
    IsoRoundTrip(s);
    IsoRoundTrip(e);
  }

  lemma DefaultMockSlots(today: Date)
    requires Valid(today) && today.year <= 9998
    ensures MockSlots(None, today).Returned? && 12 <= |MockSlots(None, today).value| <= 20
  {
    var (s, e) := MockWindow(None, today).value;
    assert e != MaxDate by {
      BeforeLastFortnight(today);
    }
    assert DaysThrough(s, e) == 5;
    FiveDaySlots(s);
  }

  // ---------------------------------------------------------------- the prompt

  /** `Patient ID: …` as the f-string shows a missing key, a `None` value or an id. */
  function PatientLine(patientId: Option<Option<string>>): string
  {
    match patientId
    case None => "Patient ID: Unknown"
    case Some(None) => "Patient ID: None"
    case Some(Some(id)) => "Patient ID: " + id
  }

  /** Today's date and, when a window was resolved, the window, one line each. */
  function DateContext(today: string, range: Option<(string, string)>): string
  {
    "Today's date: " + today + "\n"
      + (if range.Some? then "Requested date range: " + range.value.0 + " to " + range.value.1 + "\n" else "")
  }

  /** The patient information shows the patient line, today's date and the window. */
  lemma PatientInfoShows(patientLine: string, today: string, range: Option<(string, string)>)
    ensures var info := patientLine + "\n" + DateContext(today, range);
      && Contains(info, patientLine)
      && Contains(info, "Today's date: " + today)
      && (range.Some? ==> Contains(info, "Requested date range: " + range.value.0 + " to " + range.value.1))
  {
    var rest := DateContext(today, range);
    ShowsFirst(patientLine, "\n" + rest);
    assert patientLine + ("\n" + rest) == patientLine + "\n" + rest;
    InfoShowsToday(patientLine, today, range);
    if range.Some? {
      InfoShowsRange(patientLine, today, range.value.0, range.value.1);
    }
  }

  lemma InfoShowsToday(patientLine: string, today: string, range: Option<(string, string)>)
    ensures Contains(patientLine + "\n" + DateContext(today, range), "Today's date: " + today)
  {
    var rangeText := if range.Some? then "Requested date range: " + range.value.0 + " to " + range.value.1 + "\n" else "";
    ShowsMiddle(patientLine + "\n", "Today's date: " + today, "\n" + rangeText);
    assert patientLine + "\n" + ("Today's date: " + today) + ("\n" + rangeText)
        == patientLine + "\n" + DateContext(today, range);
  }

  lemma InfoShowsRange(patientLine: string, today: string, a: string, b: string)
    ensures Contains(patientLine + "\n" + DateContext(today, Some((a, b))), "Requested date range: " + a + " to " + b)
  {
    var line := "Requested date range: " + a + " to " + b;
    var head, todayLine := patientLine + "\n", "Today's date: " + today + "\n";
    assert DateContext(today, Some((a, b))) == todayLine + (line + "\n");
    AppendAssoc(head, todayLine, line + "\n");
    AppendAssoc(head + todayLine, line, "\n");
    ShowsMiddle(head + todayLine, line, "\n");
  }

  lemma ShowsFirst(a: string, b: string)
    ensures Contains(a + b, a)
  {
    ContainsInfix("", a, b);
    assert "" + a + b == a + b;
  }

  lemma ShowsMiddle(a: string, b: string, c: string)
    ensures Contains(a + b + c, b)
  {
    ContainsInfix(a, b, c);
  }

  /** The prompt `_process_appointment` sends: a rescheduling prompt exactly when the
      action is `reschedule`, else a scheduling prompt whose patient information carries
      the patient line, today's date and the requested window. */
  function AppointmentPrompt(action: string, details: string, slotsText: string, patientLine: string,
                             today: string, range: Option<(string, string)>): (p: Prompt)
    ensures p.RescheduleAppointment? <==> action == "reschedule"
    ensures p.RescheduleAppointment? ==> p == RescheduleAppointment("Previous appointment details", slotsText, details)
    ensures p.ScheduleAppointment? ==>
      && p.request == details && p.availableSlots == slotsText
      && Contains(p.patientInfo, patientLine)
      && Contains(p.patientInfo, "Today's date: " + today)
      && (range.Some? ==> Contains(p.patientInfo, "Requested date range: " + range.value.0 + " to " + range.value.1))
  {
    if action == "reschedule" then
      RescheduleAppointment("Previous appointment details", slotsText, details)
    else
      var info := patientLine + "\n" + DateContext(today, range);
      PatientInfoShows(patientLine, today, range);
      ScheduleAppointment(details, slotsText, info)
  }

  // ---------------------------------------------------------------- results

  /** The `formatted_response` dictionary. */
  datatype Formatted = Formatted(action: Option<string>, patientId: Option<string>,
                                 availableSlots: Option<seq<Slot>>, recommendation: Option<string>, status: string)

  /** The result keys the workflow writes; a `None` field is a key not written yet. The
      parsed patient id and window are values that may themselves be `None`. */
  datatype AppointmentResults = AppointmentResults(
    originalRequest: Option<string>,
    action: Option<string>,
    patientId: Option<Option<string>>,
    details: Option<string>,
    dateRange: Option<Option<(string, string)>>,
    today: Option<string>,
    availableSlots: Option<seq<Slot>>,
    appointmentResponse: Option<string>,
    formattedResponse: Option<Formatted>)

  const NoResults := AppointmentResults(None, None, None, None, None, None, None, None, None)

  /** `results.get(key)` of a key whose value may be `None`. */
  function Flatten<T>(o: Option<Option<T>>): (r: Option<T>)
    ensures r.Some? <==> o.Some? && o.value.Some?
    ensures r.Some? ==> r.value == o.value.value
  {
    if o.Some? then o.value else None
  }

  /** What the first stage writes. */
  function ParsedResults(query: string, today: Date): AppointmentResults
    requires Valid(today) && today.year <= 9998
  {
    var req := RequestFields(query);
    NoResults.(originalRequest := Some(query), action := Some(req.action), patientId := Some(req.patientId),
               details := Some(req.details), dateRange := Some(ParseDateRequest(query, today)),
               today := Some(IsoDate(today)))
  }

  /** The prompt the third stage builds from the results so far. */
  function PromptOf(results: AppointmentResults, today: Date): Prompt
    requires Valid(today)
    requires results.action.Some? && results.details.Some? && results.availableSlots.Some?
  {
    AppointmentPrompt(results.action.value, results.details.value, SlotsText(results.availableSlots.value),
      PatientLine(results.patientId), results.today.GetOr(IsoDate(today)), Flatten(results.dateRange))
  }

  /** The slots the second stage finds for a query. */
  function SlotsFor(query: string, today: Date): Raises<seq<Slot>>
    requires Valid(today) && today.year <= 9998
  {
    MockSlots(ParseDateRequest(query, today), today)
  }

  /** The prompt a query leads to once its slots are known. */
  function PromptFor(query: string, today: Date, slots: seq<Slot>): Prompt
    requires Valid(today) && today.year <= 9998
  {
    PromptOf(ParsedResults(query, today).(availableSlots := Some(slots)), today)
  }

  /** The model calls a query costs: one, unless the slots could not be generated. */
  function CallsFor(query: string, today: Date): (calls: seq<Prompt>)
    requires Valid(today) && today.year <= 9998
    ensures |calls| == (if SlotsFor(query, today).Returned? then 1 else 0)
  {
    match SlotsFor(query, today)
    case Raised(_) => []
    case Returned(slots) => [PromptFor(query, today, slots)]
  }

  /** `process(query)`: the results the workflow ends with, or the exception it raises. */
  function ResultsFor(query: string, today: Date, respond: Prompt -> Raises<string>): (r: Raises<AppointmentResults>)
    requires Valid(today) && today.year <= 9998
    ensures r.Raised? <==> SlotsFor(query, today).Raised? || respond(PromptFor(query, today, SlotsFor(query, today).value)).Raised?
    ensures r.Returned? ==>
      var req := RequestFields(query);
      var slots := SlotsFor(query, today).value;
      var reply := respond(PromptFor(query, today, slots)).value;
      && r.value.originalRequest == Some(query)
      && r.value.today == Some(IsoDate(today))
      && r.value.formattedResponse == Some(Formatted(Some(req.action), req.patientId, Some(slots), Some(reply), "processed"))
  {
    match SlotsFor(query, today)
    case Raised(m) => Raised(m)
    case Returned(slots) =>
      match respond(PromptFor(query, today, slots))
      case Raised(m) => Raised(m)
      case Returned(reply) =>
        var req := RequestFields(query);
        var before := ParsedResults(query, today).(availableSlots := Some(slots), appointmentResponse := Some(reply));
        Returned(before.(formattedResponse := Some(Formatted(Some(req.action), req.patientId, Some(slots), Some(reply), "processed"))))
  }

  /** A request for next week is offered the twenty slots of the five weekdays
      from the coming Monday on, and the model is asked once. */
  lemma NextWeekSlots(query: string, today: Date)
    requires Valid(today) && 2 <= today.year <= 9998 && Contains(Lower(query), "next week")
    ensures CallsFor(query, today) != []
    ensures SlotsFor(query, today).Returned? && |SlotsFor(query, today).value| == 20
  {
    var (s, e) := NextWeek(today);
    assert DateWindow(query, today) == Some((s, e));
    assert e.year <= 9999;
    assert e != MaxDate by {
      BeforeLastFortnight(today);
    }
    MockSlotsOfWindow(today, s, e);
    assert DaysThrough(s, e) == 7;
    SevenDaySlots(s);
  }

  /** A day of year 9998 or before is more than two weeks before 9999-12-31. */
  lemma BeforeLastFortnight(d: Date)
    requires Valid(d) && d.year <= 9998
    ensures Ordinal(d) + 13 < Ordinal(MaxDate)
  {
    EarlierYear(d, Date(9999, 12, 18));
  }

  /** Without a recognised date phrase the default five days are offered: at least
      twelve slots and at most twenty. */
  lemma DefaultWindowSlots(query: string, today: Date)
    requires Valid(today) && today.year <= 9998 && DateWindow(query, today) == None
    ensures SlotsFor(query, today).Returned? && 12 <= |SlotsFor(query, today).value| <= 20
  {
    DefaultMockSlots(today);
  }

  // ---------------------------------------------------------------- the agent

  class AppointmentAgent {
    const llm: LanguageModel

    constructor (llm: LanguageModel)
      ensures this.llm == llm
    {
      this.llm := llm;
    }

    /** `_generate_mock_slots`: reads the window, then walks it. */
    method GenerateMockSlots(range: Option<(string, string)>, today: Date) returns (r: Raises<seq<Slot>>)
      requires Valid(today) && today.year <= 9998
      ensures r == MockSlots(range, today)
    {
      var w := MockWindow(range, today);
      if w.Raised? {
        return Raised(w.message);
      }
      r := WalkDays(w.value.0, w.value.1);
    }

    /** The `while current_date <= end_date` loop: four slots per weekday, then one day on. */
    method WalkDays(start: Date, end: Date) returns (r: Raises<seq<Slot>>)
      requires Valid(start) && Valid(end) && end.year <= 9999
      ensures r == SlotsThrough(start, end)
    {
      var slots: seq<Slot> := [];
      var current := start;
      ghost var total := DaysThrough(start, end);
      ghost var k: nat := 0;
      while Ordinal(current) <= Ordinal(end)
        invariant Valid(current) && Ordinal(current) == Ordinal(start) + k
        invariant k <= total
        invariant end == MaxDate && Ordinal(start) <= Ordinal(end) ==> Ordinal(current) <= Ordinal(end)
        invariant slots + SlotsFrom(current, total - k) == SlotsFrom(start, total)
        decreases Ordinal(end) - Ordinal(current)
      {
        SlotsFromStep(current, total - k);
        ghost var later := SlotsFrom(NextDay(current), total - k - 1);
        AppendAssoc(slots, DaySlots(current), later);
        slots := slots + DaySlots(current);
        if current == MaxDate {
          AtMaxDate(end);
          return Raised(DateOverflow);
        }
        if end == MaxDate && Ordinal(current) == Ordinal(end) {
          OrdinalInjective(current, end);
        }
        current := NextDay(current);
        k := k + 1;
      }
      assert slots == slots + SlotsFrom(current, total - k);
      r := Returned(slots);
    }

    /** `_format_slots`. */
    method FormatSlots(slots: seq<Slot>) returns (text: string)
      ensures text == SlotsText(slots)
    {
      if |slots| == 0 {
        return "No available slots";
      }
      var formatted: seq<string> := [];
      for i := 0 to |slots|
        invariant formatted == SlotLines(slots[..i])
      {
        formatted := formatted + [SlotLine(slots[i])];
        assert slots[..i + 1] == slots[..i] + [slots[i]];
      }
      assert slots[..|slots|] == slots;
      text := Join(formatted, "\n");
    }

    /** `_parse_request`. */
    method ParseRequest(state: AgentState<AppointmentResults>, today: Date)
      requires |state.taskQueue| > 0 && Valid(today) && today.year <= 9998
      modifies state
      ensures state.currentTask == "parse_request" && state.taskQueue == old(state.taskQueue)
      ensures var query := state.taskQueue[0];
        var req := RequestFields(query);
        state.results == old(state.results).(originalRequest := Some(query), action := Some(req.action),
          patientId := Some(req.patientId), details := Some(req.details),
          dateRange := Some(ParseDateRequest(query, today)), today := Some(IsoDate(today)))
    {
      state.currentTask := "parse_request";
      var query := state.taskQueue[0];
      var req := RequestFields(query);
      var range := ParseDateRequest(query, today);
      state.results := state.results.(originalRequest := Some(query), action := Some(req.action),
        patientId := Some(req.patientId), details := Some(req.details),
        dateRange := Some(range), today := Some(IsoDate(today)));
    }

    /** `_check_availability`: a failure is the exception the slot generator raises. */
    method CheckAvailability(state: AgentState<AppointmentResults>, today: Date) returns (o: Outcome)
      requires Valid(today) && today.year <= 9998
      modifies state
      ensures state.currentTask == "check_availability" && state.taskQueue == old(state.taskQueue)
      ensures var slots := MockSlots(Flatten(old(state.results.dateRange)), today);
        && (o.Fail? <==> slots.Raised?)
        && (slots.Raised? ==> o.message == slots.message && state.results == old(state.results))
        && (slots.Returned? ==> state.results == old(state.results).(availableSlots := Some(slots.value)))
    {
      state.currentTask := "check_availability";
      var slots := GenerateMockSlots(Flatten(state.results.dateRange), today);
      if slots.Raised? {
        return Fail(slots.message);
      }
      state.results := state.results.(availableSlots := Some(slots.value));
      o := Pass;
    }

    /** `_process_appointment`: one model call with the prompt the results so far call for. */
    method ProcessAppointment(state: AgentState<AppointmentResults>, today: Date) returns (o: Outcome)
      requires Valid(today)
      requires state.results.action.Some? && state.results.details.Some? && state.results.availableSlots.Some?
      modifies state, llm
      ensures state.currentTask == "process_appointment" && state.taskQueue == old(state.taskQueue)
      ensures var p := PromptOf(old(state.results), today);
        && llm.sent == old(llm.sent) + [p]
        && (o.Fail? <==> llm.respond(p).Raised?)
        && (llm.respond(p).Raised? ==> o.message == llm.respond(p).message && state.results == old(state.results))
        && (llm.respond(p).Returned? ==> state.results == old(state.results).(appointmentResponse := Some(llm.respond(p).value)))
    {
      state.currentTask := "process_appointment";
      var results := state.results;
      var slotsText := FormatSlots(results.availableSlots.value);
      var p := AppointmentPrompt(results.action.value, results.details.value, slotsText,
        PatientLine(results.patientId), results.today.GetOr(IsoDate(today)), Flatten(results.dateRange));
      var reply := llm.Invoke(p);
      if reply.Raised? {
        return Fail(reply.message);
      }
      state.results := results.(appointmentResponse := Some(reply.value));
      o := Pass;
    }

    /** `_format_response`. */
    method FormatResponse(state: AgentState<AppointmentResults>)
      modifies state
      ensures state.currentTask == "format_response" && state.taskQueue == old(state.taskQueue)
      ensures var r := old(state.results);
        state.results == r.(formattedResponse := Some(Formatted(r.action, Flatten(r.patientId),
          r.availableSlots, r.appointmentResponse, "processed")))
    {
      state.currentTask := "format_response";
      var r := state.results;
      state.results := r.(formattedResponse := Some(Formatted(r.action, Flatten(r.patientId),
        r.availableSlots, r.appointmentResponse, "processed")));
    }

    /** `process(query)`: the four stages in order on a fresh state; an exception in a
        stage ends the run. */
    method Process(query: string, clock: Clock) returns (r: Raises<AppointmentResults>)
      requires ValidClock(clock)
      modifies llm
      ensures r == ResultsFor(query, clock.today, llm.respond)
      ensures llm.sent == old(llm.sent) + CallsFor(query, clock.today)
    {
      var state := new AgentState([query], NoResults);
      ParseRequest(state, clock.today);
      var checked := CheckAvailability(state, clock.today);
      if checked.Fail? {
        return Raised(checked.message);
      }
      var processed := ProcessAppointment(state, clock.today);
      if processed.Fail? {
        return Raised(processed.message);
      }
      FormatResponse(state);
      r := Returned(state.results);
    }
  }
}
