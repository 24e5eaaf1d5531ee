/** The task query of the web chat: a message that asks what is planned is
    answered from the user's stored tasks without any model call. A date
    phrase in the message ("mañana", "esta semana", "próximos 3 días")
    narrows events and reminders to a range of days; the answer counts the
    tasks and shows one Markdown table per type, at most ten rows each,
    dated tasks first.

    Days are integer day numbers (day 0 is 1970-01-01). Parsing a stored
    `fecha`, turning a creation time into a local day and printing that day
    belong to the date library and are given as a Clock. */
module TaskQuery {
  import opened Wrappers
  import opened Text
  import PyRe
  import Lists
  import opened UserTasks

  /** Today, how a stored fecha parses as `%Y-%m-%d` (None when it does not),
      the local day of a creation time and that day printed as `%Y-%m-%d`. */
  datatype Clock = Clock(today: int, parse: string -> Option<int>, localDay: int -> int, showDay: int -> string)

  /** Python's `date.weekday()`: Monday is 0; 1970-01-01 was a Thursday. */
  function PyWeekday(day: int): (w: int)
    ensures 0 <= w < 7
  {
    (day + 3) % 7
  }

  // ---------------------------------------------------------------------------
  // _detect_date_range
  // ---------------------------------------------------------------------------

  /** The days from the first to the last, inclusive, and how the answer names them. */
  datatype Range = Range(first: int, last: int, name: string)

  predicate SaysDayAfterTomorrow(t: string) {
    Contains(t, "pasado mañana") || Contains(t, "pasado manana")
  }

  predicate SaysTomorrow(t: string) {
    Contains(t, "mañana") || Contains(t, "manana")
  }

  predicate SaysToday(t: string) {
    Contains(t, "hoy")
  }

  predicate SaysThisWeek(t: string) {
    Contains(t, "esta semana")
  }

  /** `pr[oó]ximo` at i. */
  predicate NextWordAt(t: string, i: nat) {
    i + 7 <= |t| && t[i] == 'p' && t[i + 1] == 'r' && (t[i + 2] == 'o' || t[i + 2] == 'ó')
    && t[i + 3] == 'x' && t[i + 4] == 'i' && t[i + 5] == 'm' && t[i + 6] == 'o'
  }

  /** `d[ií]as` at e. */
  predicate DaysWordAt(t: string, e: nat) {
    e + 4 <= |t| && t[e] == 'd' && (t[e + 1] == 'i' || t[e + 1] == 'í') && t[e + 2] == 'a' && t[e + 3] == 's'
  }

  /** The end of the greedy run of class-k characters at i. */
  function RunEnd(k: PyRe.Class, t: string, i: nat): (e: nat)
    requires i <= |t|
    ensures i <= e <= |t|
    ensures forall x :: i <= x < e ==> PyRe.InClass(t[x], k)
  {
    i + PyRe.RunLen(k, t, i, None)
  }

  /** The value of the digits from k to d. */
  function NumberIn(t: string, k: nat, d: nat): nat
    requires k <= d <= |t|
    requires forall x :: k <= x < d ==> IsDigit(t[x])
  {
    assert forall x :: 0 <= x < d - k ==> t[k..d][x] == t[k + x];
    DigitsValue(t[k..d])
  }

  /** Where the text from i starts with `pr[oó]ximos?\s+(\d+)\s+d[ií]as`, the
      number the group holds. Backtracking cannot change this match: giving
      back the `s`, a blank or a digit leaves a character that the next
      part of the pattern cannot match. */
  function NextDaysAt(t: string, i: nat): (n: Option<nat>)
    requires i <= |t|
  {
    if !NextWordAt(t, i) then None
    else
      var j := if i + 7 < |t| && t[i + 7] == 's' then i + 8 else i + 7;
      var k := RunEnd(PyRe.Blank, t, j);
      var d := RunEnd(PyRe.Digit, t, k);
      var e := RunEnd(PyRe.Blank, t, d);
      if k == j || d == k || e == d || !DaysWordAt(t, e) then None
      else Some(NumberIn(t, k, d))
  }

  /** The scanner as a total function of the start position. */
  function NextDaysFn(t: string): nat -> Option<nat> {
    (i: nat) => if i <= |t| then NextDaysAt(t, i) else None
  }

  /** The leftmost position from i up to n where m finds something, with what
      it finds (`re.search` for a pattern whose match at each position m
      gives). */
  function Leftmost(m: nat -> Option<nat>, i: nat, n: nat): (r: Option<(nat, nat)>)
    requires i <= n
    ensures r.None? <==> forall j :: i <= j <= n ==> m(j).None?
    ensures r.Some? ==> i <= r.value.0 <= n && m(r.value.0) == Some(r.value.1)
    ensures r.Some? ==> forall j :: i <= j < r.value.0 ==> m(j).None?
    decreases n - i
  {
    match m(i)
    case Some(v) => Some((i, v))
    case None => if i == n then None else Leftmost(m, i + 1, n)
  }

  /** `re.search` of the upcoming-days pattern on t. */
  function NextDaysSearch(t: string): Option<(nat, nat)> {
    Leftmost(NextDaysFn(t), 0, |t|)
  }

  function DaysLabel(n: nat): string {
    "próximos " + NatToString(n) + " días"
  }

  /** Monday to Sunday of today's week. */
  function ThisWeek(today: int): (r: Range)
    ensures PyWeekday(r.first) == 0 && r.first <= today <= r.last && r.last == r.first + 6
    ensures r.name == "esta semana"
  {
    var first := today - PyWeekday(today);
    Range(first, first + 6, "esta semana")
  }

  /** The upcoming n days, today first, when the message gives n > 0. */
  function NextDays(t: string, today: int): (r: Option<Range>)
    ensures r.Some? <==> NextDaysSearch(t).Some? && NextDaysSearch(t).value.1 > 0
    ensures r.Some? ==> r.value.first == today && r.value.last - r.value.first + 1 == NextDaysSearch(t).value.1
    ensures r.Some? ==> r.value.name == DaysLabel(NextDaysSearch(t).value.1)
  {
    match NextDaysSearch(t)
    case Some((_, n)) => if n > 0 then Some(Range(today, today + n - 1, DaysLabel(n))) else None
    case None => None
  }

  /** `_detect_date_range` on the lower-cased message: the first phrase in a
      fixed order decides the range; "próximos 0 días" gives none. */
  function DetectDateRange(t: string, today: int): (r: Option<Range>)
    ensures SaysDayAfterTomorrow(t) ==> r == Some(Range(today + 2, today + 2, "pasado mañana"))
    ensures !SaysDayAfterTomorrow(t) && SaysTomorrow(t) ==> r == Some(Range(today + 1, today + 1, "mañana"))
    ensures !SaysDayAfterTomorrow(t) && !SaysTomorrow(t) && SaysToday(t) ==> r == Some(Range(today, today, "hoy"))
    ensures !SaysDayAfterTomorrow(t) && !SaysTomorrow(t) && !SaysToday(t) && SaysThisWeek(t) ==> r == Some(ThisWeek(today))
    ensures !SaysDayAfterTomorrow(t) && !SaysTomorrow(t) && !SaysToday(t) && !SaysThisWeek(t) ==> r == NextDays(t, today)
  {
    if SaysDayAfterTomorrow(t) then Some(Range(today + 2, today + 2, "pasado mañana"))
    else if SaysTomorrow(t) then Some(Range(today + 1, today + 1, "mañana"))
    else if SaysToday(t) then Some(Range(today, today, "hoy"))
    else if SaysThisWeek(t) then Some(ThisWeek(today))
    else NextDays(t, today)
  }

  /** A text that holds a string holds each of its tails. */
  lemma {:induction false} ContainsTail(s: string, sub: string, k: nat)
    requires Contains(s, sub) && k <= |sub|
    ensures Contains(s, sub[k..])
    decreases |s|
  {
    if StartsWith(s, sub) {
      assert s[k..k + |sub[k..]|] == sub[k..];
      ContainsAt(s, sub[k..], k);
    } else {
      ContainsTail(s[1..], sub, k);
      ContainsSuffix([s[0]], s[1..], sub[k..]);
      assert [s[0]] + s[1..] == s;
    }
  }

  /** "pasado mañana" wins although the message then also says "mañana". */
  lemma DayAfterTomorrowFirst(t: string, today: int)
    requires Contains(t, "pasado mañana")
    ensures SaysTomorrow(t)
    ensures DetectDateRange(t, today) == Some(Range(today + 2, today + 2, "pasado mañana"))
  {
    ContainsTail(t, "pasado mañana", 7);
    assert "pasado mañana"[7..] == "mañana";
  }

  // ---------------------------------------------------------------------------
  // Table cells
  // ---------------------------------------------------------------------------

  /** Every character `s.replace(c, rep)` writes is one of rep's or a
      character of s other than c. */
  lemma {:induction false} ReplaceCharFrom(s: string, c: char, rep: string, x: char)
    requires x in ReplaceAll(s, [c], rep)
    ensures x in rep || (x in s && x != c)
    decreases |s|
  {
    if |s| >= 1 {
      var r := ReplaceAll(s[1..], [c], rep);
      if s[..1] == [c] {
        assert ReplaceAll(s, [c], rep) == rep + r;
        if x in r {
          ReplaceCharFrom(s[1..], c, rep, x);
        }
      } else {
        assert ReplaceAll(s, [c], rep) == [s[0]] + r;
        if x in r {
          ReplaceCharFrom(s[1..], c, rep, x);
        }
      }
    }
  }

  /** Stripping keeps only characters of the text. */
  lemma StripFrom(s: string, drop: CharSet, x: char)
    requires x in Strip(s, drop)
    ensures x in s
  {
    var l := StripLeft(s, drop);
    var r := StripRight(l, drop);
    var k :| 0 <= k < |r| && r[k] == x;
    assert l[k] == x;
    assert s[|s| - |l| + k] == x;
  }

  /** The text `_sanitize` cleans: `|` becomes " / ", a newline a blank,
      then both ends are stripped. */
  function Cleaned(s: string): string {
    PyStrip(ReplaceAll(ReplaceAll(s, "|", " / "), "\n", " "))
  }

  /** `_sanitize`: a missing or empty value, or one that cleans to nothing,
      shows as "-"; a cell never holds `|` or a newline. */
  function Sanitize(v: Option<string>): (r: string)
    ensures r != ""
    ensures '|' !in r && '\n' !in r
    ensures r != "-" ==> v.Some? && r == Cleaned(v.value)
  {
    if v.None? || v.value == "" then "-"
    else
      var c := Cleaned(v.value);
      if c == "" then "-"
      else
        CleanedIsClean(v.value);
        c
  }

  lemma CleanedIsClean(s: string)
    ensures '|' !in Cleaned(s) && '\n' !in Cleaned(s)
  {
    var a := ReplaceAll(s, "|", " / ");
    var b := ReplaceAll(a, "\n", " ");
    if '|' in a {
      ReplaceCharFrom(s, '|', " / ", '|');
    }
    if '|' in b {
      ReplaceCharFrom(a, '\n', " ", '|');
    }
    if '\n' in b {
      ReplaceCharFrom(a, '\n', " ", '\n');
    }
    if '|' in Cleaned(s) {
      StripFrom(b, White(Py), '|');
    }
    if '\n' in Cleaned(s) {
      StripFrom(b, White(Py), '\n');
    }
  }

  /** A value that is already clean shows as itself. */
  lemma SanitizeKeepsClean(s: string)
    requires s != "" && s != "-" && '|' !in s && '\n' !in s && PyStrip(s) == s
    ensures Sanitize(Some(s)) == s
  {
    if Contains(s, "|") {
      ContainsFirstChar(s, "|");
    }
    ReplaceAbsent(s, "|", " / ");
    if Contains(s, "\n") {
      ContainsFirstChar(s, "\n");
    }
    ReplaceAbsent(s, "\n", " ");
  }

  /** The first words `_normalize_title` drops when more words follow. */
  const TitlePrefixes: set<string> := {"recuerdame", "recuérdame", "recordar", "recordatorio",
    "agenda", "agendar", "evento", "cita", "nota", "anota", "apunta", "escribe"}

  /** What `strip(" -:,.")` removes from both ends of a title. */
  const TitleTrim: CharSet := Chars({' ', '-', ':', ',', '.'})

  /** `_normalize_title`: the content without a leading instruction word,
      trimmed and capitalised; "-" when nothing is left. */
  function NormalizeTitle(content: string): (r: string)
    ensures r != ""
    ensures (forall i :: 0 <= i < |content| ==> PySpace(content[i])) ==> r == "-"
  {
    WordsEmptyIff(content);
    StripEmptyIff(content, White(Py));
    var raw := PyStrip(content);
    var words := Words(raw);
    if content == "" || words == [] then "-"
    else
      var title := if LowerStr(words[0]) in TitlePrefixes && |words| > 1 then Join(" ", words[1..]) else raw;
      var trimmed := Strip(title, TitleTrim);
      if trimmed == [] then "-" else Capitalize(trimmed)
  }

  /** Whether a title neither starts nor ends with blank or " -:,." */
  predicate Trimmed(t: string) {
    t != [] && !PySpace(t[0]) && !PySpace(t[|t| - 1]) && !In(t[0], TitleTrim) && !In(t[|t| - 1], TitleTrim)
  }

  /** A leading instruction word followed by a title is dropped and the
      title is capitalised: "nota comprar pan" gives "Comprar pan". */
  lemma InstructionDropped(p: string, ws: seq<string>)
    requires IsWord(p) && LowerStr(p) in TitlePrefixes
    requires ws != [] && forall k :: 0 <= k < |ws| ==> IsWord(ws[k])
    requires Trimmed(Join(" ", ws))
    ensures NormalizeTitle(p + " " + Join(" ", ws)) == Capitalize(Join(" ", ws))
  {
    var j := Join(" ", ws);
    InstructionSplit(p, ws);
    assert Words(p + " " + j)[1..] == ws;
    StripKept(j, TitleTrim);
  }

  /** An instruction word and a title: already stripped, and split into
      the word and the title's words. */
  lemma InstructionSplit(p: string, ws: seq<string>)
    requires IsWord(p)
    requires ws != [] && forall k :: 0 <= k < |ws| ==> IsWord(ws[k])
    requires Trimmed(Join(" ", ws))
    ensures PyStrip(p + " " + Join(" ", ws)) == p + " " + Join(" ", ws)
    ensures Words(p + " " + Join(" ", ws)) == [p] + ws
  {
    var j := Join(" ", ws);
    var content := p + " " + j;
    WordsOfJoin(ws);
    WordsCons(p, j);
    assert content[0] == p[0] && content[|content| - 1] == j[|j| - 1];
    StripKept(content, White(Py));
  }

  /** A title whose first word is no instruction, or is its only word, is
      kept as it is and capitalised: "cita" gives "Cita". */
  lemma TitleKept(content: string)
    requires Trimmed(content)
    requires var ws := Words(content); !(LowerStr(ws[0]) in TitlePrefixes && |ws| > 1)
    ensures NormalizeTitle(content) == Capitalize(content)
  {
    StripKept(content, White(Py));
    StripKept(content, TitleTrim);
  }

  /** The place cell: the link for a virtual meeting, the location for one in
      person, otherwise whichever of the two exists. */
  function Place(t: Task): (r: string)
    ensures r == "-" || StartsWith(r, "Link: ") || StartsWith(r, "Ubicación: ") || r == Sanitize(t.location)
    ensures t.meetingType == Some("virtual") ==> r == (if Sanitize(t.meetingLink) != "-" then "Link: " + Sanitize(t.meetingLink) else "-")
    ensures t.meetingType == Some("presencial") ==> r == (if Sanitize(t.location) != "-" then "Ubicación: " + Sanitize(t.location) else "-")
  {
    var link := Sanitize(t.meetingLink);
    var location := Sanitize(t.location);
    if t.meetingType == Some("virtual") then (if link != "-" then "Link: " + link else "-")
    else if t.meetingType == Some("presencial") then (if location != "-" then "Ubicación: " + location else "-")
    else if link != "-" then "Link: " + link
    else location
  }

  function Row(t: Task, c: Clock): string {
    "| " + NormalizeTitle(t.content) + " | " + Sanitize(t.fecha) + " | " + Sanitize(t.hora) + " | " + Place(t)
    + " | " + c.showDay(t.createdAt) + " |"
  }

  // ---------------------------------------------------------------------------
  // Ordering (`sorted(tasks, key=_sort_key)`)
  // ---------------------------------------------------------------------------

  /** `_parse_task_date`: the day of a non-empty fecha that parses. */
  function TaskDate(t: Task, c: Clock): Option<int> {
    if t.fecha.None? || t.fecha.value == "" then None else c.parse(t.fecha.value)
  }

  /** The sort key `(0, day, hora or "23:59")` of a dated task and
      `(1, local creation day, "23:59")` of an undated one. */
  datatype Key = Key(undated: int, day: int, hora: string)

  function SortKey(t: Task, c: Clock): (k: Key)
    ensures k.undated == 0 <==> TaskDate(t, c).Some?
    ensures k.undated == 0 || k.undated == 1
  {
    var hora := if t.hora.Some? && t.hora.value != "" then t.hora.value else "23:59";
    match TaskDate(t, c)
    case Some(day) => Key(0, day, hora)
    case None => Key(1, c.localDay(t.createdAt), "23:59")
  }

  /** Python's order on strings: by code point, a prefix first. */
  predicate StrLe(a: string, b: string)
    decreases |a|
  {
    a == [] || (b != [] && (a[0] < b[0] || (a[0] == b[0] && StrLe(a[1..], b[1..]))))
  }

  lemma {:induction false} StrLeTotal(a: string, b: string)
    ensures StrLe(a, b) || StrLe(b, a)
    decreases |a|
  {
    if a != [] && b != [] && a[0] == b[0] {
      StrLeTotal(a[1..], b[1..]);
    }
  }

  lemma {:induction false} StrLeTrans(a: string, b: string, d: string)
    requires StrLe(a, b) && StrLe(b, d)
    ensures StrLe(a, d)
    decreases |a|
  {
    if a != [] && a[0] == b[0] && b[0] == d[0] {
      StrLeTrans(a[1..], b[1..], d[1..]);
    }
  }

  /** Tuples compare field by field. */
  predicate KeyLe(a: Key, b: Key) {
    a.undated < b.undated
    || (a.undated == b.undated && (a.day < b.day || (a.day == b.day && StrLe(a.hora, b.hora))))
  }

  lemma KeyLeTotal(a: Key, b: Key)
    ensures KeyLe(a, b) || KeyLe(b, a)
  {
    StrLeTotal(a.hora, b.hora);
  }

  lemma KeyLeTrans(a: Key, b: Key, d: Key)
    requires KeyLe(a, b) && KeyLe(b, d)
    ensures KeyLe(a, d)
  {
    if a.undated == b.undated == d.undated && a.day == b.day == d.day {
      StrLeTrans(a.hora, b.hora, d.hora);
    }
  }

  predicate Sorted(s: seq<Task>, c: Clock) {
    forall i, j :: 0 <= i < j < |s| ==> KeyLe(SortKey(s[i], c), SortKey(s[j], c))
  }

  /** Puts x before the first task whose key is not below x's, so that of
      equal keys the earlier one in the input stays first. */
  function Insert(x: Task, s: seq<Task>, c: Clock): (r: seq<Task>)
    ensures multiset(r) == multiset(s) + multiset{x}
    ensures forall y :: y in r ==> y == x || y in s
  {
    if s == [] then [x]
    else if KeyLe(SortKey(x, c), SortKey(s[0], c)) then [x] + s
    else
      assert s == [s[0]] + s[1..];
      [s[0]] + Insert(x, s[1..], c)
  }

  lemma {:induction false} InsertSorted(x: Task, s: seq<Task>, c: Clock)
    requires Sorted(s, c)
    ensures Sorted(Insert(x, s, c), c)
    decreases |s|
  {
    if s != [] {
      var kx := SortKey(x, c);
      if KeyLe(kx, SortKey(s[0], c)) {
        var r := [x] + s;
        forall i, j | 0 <= i < j < |r| ensures KeyLe(SortKey(r[i], c), SortKey(r[j], c)) {
          if i == 0 && j > 1 {
            KeyLeTrans(kx, SortKey(s[0], c), SortKey(s[j - 1], c));
          }
        }
      } else {
        KeyLeTotal(kx, SortKey(s[0], c));
        InsertSorted(x, s[1..], c);
        var t := Insert(x, s[1..], c);
        var r := [s[0]] + t;
        forall i, j | 0 <= i < j < |r| ensures KeyLe(SortKey(r[i], c), SortKey(r[j], c)) {
          if i == 0 {
            var y := t[j - 1];
            if y != x {
              assert y in s[1..];
              var k :| 0 <= k < |s[1..]| && s[1..][k] == y;
              assert s[k + 1] == y;
            }
          } else {
            assert r[i] == t[i - 1] && r[j] == t[j - 1];
          }
        }
      }
    }
  }

  /** `sorted(tasks, key=_sort_key)`: a stable insertion sort. It returns the
      same tasks, in key order. */
  function Sort(s: seq<Task>, c: Clock): (r: seq<Task>)
    ensures multiset(r) == multiset(s) && |r| == |s|
    ensures Sorted(r, c)
  {
    if s == [] then []
    else
      var rest := Sort(s[1..], c);
      InsertSorted(s[0], rest, c);
      assert s == [s[0]] + s[1..];
      Insert(s[0], rest, c)
  }

  const MaxRows: nat := 10

  function Min(a: nat, b: nat): nat { if a < b then a else b }

  /** The rows shown are the first ten in key order: every shown task sorts
      no later than every hidden one, and a dated task never waits behind an
      undated one. */
  lemma ShownFirst(tasks: seq<Task>, c: Clock, i: nat, j: nat)
    requires i < Min(|tasks|, MaxRows) <= j < |tasks|
    ensures KeyLe(SortKey(Sort(tasks, c)[i], c), SortKey(Sort(tasks, c)[j], c))
    ensures TaskDate(Sort(tasks, c)[j], c).Some? ==> TaskDate(Sort(tasks, c)[i], c).Some?
  {
  }

  // ---------------------------------------------------------------------------
  // _build_table_for_type and _build_task_table
  // ---------------------------------------------------------------------------

  const ColumnHeader: string := "| Título | Fecha | Hora | Ubicación/Link | Creado |"
  const ColumnRule: string := "| --- | --- | --- | --- | --- |"

  function Footer(total: nat): string
    requires total > MaxRows
  {
    "Mostrando 10 de " + NatToString(total) + ". Faltan " + NatToString(total - MaxRows) + "."
  }

  function Rows(ts: seq<Task>, c: Clock): (r: seq<string>)
    ensures |r| == |ts|
    ensures forall i :: 0 <= i < |ts| ==> r[i] == Row(ts[i], c)
  {
    seq(|ts|, i requires 0 <= i < |ts| => Row(ts[i], c))
  }

  /** The lines of a non-empty table: a heading with the total, the column
      heading and rule, one row for each of the first ten tasks in key
      order, the "Mostrando" note when more are hidden, and a final empty
      line. */
  function TableLines(tasks: seq<Task>, heading: string, c: Clock): (r: seq<string>)
    ensures |r| >= 4 && r[0] == "### " + heading + " (" + NatToString(|tasks|) + ")"
  {
    var ordered := Sort(tasks, c);
    var total := |ordered|;
    var visible := ordered[..Min(total, MaxRows)];
    [HeadingLine(heading, total), ColumnHeader, ColumnRule] + Rows(visible, c) + Closing(total)
  }

  function HeadingLine(heading: string, total: nat): string {
    "### " + heading + " (" + NatToString(total) + ")"
  }

  /** The lines after the rows. */
  function Closing(total: nat): (r: seq<string>)
    ensures |r| == if total > MaxRows then 3 else 1
  {
    (if total > MaxRows then ["", Footer(total)] else []) + [""]
  }

  /** Where the pieces of a table land in its list of lines. */
  lemma Layout(h: string, rows: seq<string>, tail: seq<string>)
    ensures var r := [h, ColumnHeader, ColumnRule] + rows + tail;
      |r| == 3 + |rows| + |tail| && r[1] == ColumnHeader && r[2] == ColumnRule
      && (forall i :: 0 <= i < |rows| ==> r[3 + i] == rows[i])
      && (forall i :: 0 <= i < |tail| ==> r[3 + |rows| + i] == tail[i])
  {
  }

  /** A table's lines: the heading with the total, the column heading and
      rule, one row for each of the first ten tasks in key order, the
      "Mostrando" note when more are hidden, and a final empty line. */
  lemma {:induction false} TableShape(tasks: seq<Task>, heading: string, c: Clock)
    ensures var r := TableLines(tasks, heading, c);
      var v := Min(|tasks|, MaxRows);
      |r| == 4 + v + (if |tasks| > MaxRows then 2 else 0)
      && r[1] == ColumnHeader && r[2] == ColumnRule
      && (forall i :: 0 <= i < v ==> r[3 + i] == Row(Sort(tasks, c)[i], c))
      && (|tasks| > MaxRows ==> r[3 + v] == "" && r[4 + v] == Footer(|tasks|))
      && r[|r| - 1] == ""
  {
    var ordered := Sort(tasks, c);
    var v := Min(|tasks|, MaxRows);
    var rows := Rows(ordered[..v], c);
    var tail := Closing(|tasks|);
    Layout(HeadingLine(heading, |tasks|), rows, tail);
    var r := TableLines(tasks, heading, c);
    assert r == [HeadingLine(heading, |tasks|), ColumnHeader, ColumnRule] + rows + tail;
    forall i | 0 <= i < v ensures r[3 + i] == Row(ordered[i], c) {
      assert r[3 + i] == rows[i];
      assert ordered[..v][i] == ordered[i];
    }
  }

  function EmptyTable(heading: string): string {
    "### " + heading + "\nSin tareas.\n"
  }

  function TableFor(tasks: seq<Task>, heading: string, c: Clock): (r: string)
    ensures tasks == [] <==> r == EmptyTable(heading)
  {
    if tasks == [] then EmptyTable(heading)
    else
      var lines := TableLines(tasks, heading, c);
      JoinHead(lines, heading, NatToString(|tasks|));
      Join("\n", lines)
  }

  /** A table whose heading carries a total never reads as the empty table. */
  lemma JoinHead(lines: seq<string>, heading: string, total: string)
    requires |lines| >= 2 && lines[0] == "### " + heading + " (" + total + ")"
    ensures Join("\n", lines) != EmptyTable(heading)
  {
    var j := Join("\n", lines);
    var n := |"### " + heading|;
    assert j == lines[0] + "\n" + Join("\n", lines[1..]);
    assert j[n] == ' ';
    assert EmptyTable(heading)[n] == '\n';
  }

  /** Every table opens with its heading. */
  lemma TableStarts(tasks: seq<Task>, heading: string, c: Clock)
    ensures var t := TableFor(tasks, heading, c); |"### " + heading| <= |t| && t[..|"### " + heading|] == "### " + heading
  {
    if tasks == [] {
      HeadStarts("### " + heading, "\nSin tareas.\n");
    } else {
      var lines := TableLines(tasks, heading, c);
      JoinStarts("\n", lines);
      HeadStarts("### " + heading, " (" + NatToString(|tasks|) + ")");
    }
  }

  lemma HeadStarts(h: string, t: string)
    ensures (h + t)[..|h|] == h
  {
  }

  const EventsHeading: string := "### Eventos"

  /** The events table opens with the events heading. */
  lemma EventsTableStarts(cal: seq<Task>, c: Clock)
    ensures var t := TableFor(cal, "Eventos", c); 11 <= |t| && t[..11] == EventsHeading
  {
    TableStarts(cal, "Eventos", c);
    assert "### " + "Eventos" == EventsHeading;
    HeadingPrefix(TableFor(cal, "Eventos", c), "### " + "Eventos");
  }

  lemma HeadingPrefix(t: string, h: string)
    requires |h| <= |t| && t[..|h|] == h && h == EventsHeading
    ensures 11 <= |t| && t[..11] == EventsHeading
  {
  }

  /** Joining and stripping keep the events heading at the front. */
  lemma KeepsEventsHead(e: string, rest: seq<string>)
    requires 11 <= |e| && e[..11] == EventsHeading
    ensures var r := PyStrip(Join("\n", [e] + rest)); 11 <= |r| && r[..11] == EventsHeading
  {
    var j := Join("\n", [e] + rest);
    JoinStarts("\n", [e] + rest);
    assert j[..11] == e[..11];
    assert j[0] == '#' && j[10] == 's';
    StripKeepsHead(j, White(Py), 11);
  }

  /** Three tables, the first opening with `#` and the last ending with a
      full stop and a line break, joined and stripped. */
  lemma ThreeStrip(a: string, b: string, n: string)
    requires a != [] && a[0] == '#' && n != [] && n[|n| - 1] == '.'
    ensures PyStrip(Join("\n", [a, b, n + "\n"])) == a + "\n" + b + "\n" + n
  {
    var x := a + "\n" + b + "\n" + n;
    JoinThree("\n", a, b, n + "\n");
    assert x + "\n" == a + "\n" + b + "\n" + (n + "\n");
    assert x[0] == a[0] && x[|x| - 1] == n[|n| - 1];
    StripLastBreak(x, White(Py));
  }

  /** Three empty tables, stripped. */
  lemma EmptyTablesStrip()
    ensures PyStrip(Join("\n", [EmptyTable("Eventos"), EmptyTable("Recordatorios"), EmptyTable("Notas")]))
      == EmptyTable("Eventos") + "\n" + EmptyTable("Recordatorios") + "\n" + "### Notas\nSin tareas."
  {
    var n := "### Notas\nSin tareas.";
    assert EmptyTable("Notas") == n + "\n";
    assert n[|n| - 1] == '.';
    ThreeStrip(EmptyTable("Eventos"), EmptyTable("Recordatorios"), n);
  }

  /** `_build_task_table`: the events, reminders and notes tables, one per
      line group, stripped of the white space around them. The answer opens
      with the events heading; with no tasks at all it is the three empty
      tables without the last line break. */
  function BuildTaskTable(cal: seq<Task>, rem: seq<Task>, notes: seq<Task>, c: Clock): (r: string)
    ensures 11 <= |r| && r[..11] == EventsHeading
    ensures cal == [] && rem == [] && notes == [] ==>
      r == EmptyTable("Eventos") + "\n" + EmptyTable("Recordatorios") + "\n" + "### Notas\nSin tareas."
  {
    var rest := [TableFor(rem, "Recordatorios", c), TableFor(notes, "Notas", c)];
    EventsTableStarts(cal, c);
    KeepsEventsHead(TableFor(cal, "Eventos", c), rest);
    if cal == [] && rem == [] && notes == [] then
      EmptyTablesStrip();
      PyStrip(Join("\n", [TableFor(cal, "Eventos", c)] + rest))
    else PyStrip(Join("\n", [TableFor(cal, "Eventos", c)] + rest))
  }

  // ---------------------------------------------------------------------------
  // The task query
  // ---------------------------------------------------------------------------

  const QueryPatterns: seq<string> := ["qué hay", "que hay", "cuántas", "cuantos", "tenemos", "muéstrame",
    "mostrar", "lista", "agenda hoy", "tareas activas", "recordatorios", "que eventos tengo", "mi agenda",
    "esta semana"]

  /** A task of the range: one whose fecha parses to a day from the first to the last. */
  predicate Within(t: Task, r: Range, c: Clock) {
    TaskDate(t, c).Some? && r.first <= TaskDate(t, c).value <= r.last
  }

  function WithinFn(r: Range, c: Clock): Task -> bool {
    t => Within(t, r, c)
  }

  /** The tasks of one type the range keeps, in their order. */
  function InRange(ts: seq<Task>, r: Option<Range>, c: Clock): (k: seq<Task>)
    ensures r.None? ==> k == ts
    ensures r.Some? ==> (forall i :: 0 <= i < |k| ==> k[i] in ts && Within(k[i], r.value, c))
    ensures r.Some? ==> forall t :: t in ts && Within(t, r.value, c) ==> t in k
  {
    if r.None? then ts else Lists.Filter(WithinFn(r.value, c), ts)
  }

  datatype Answer = Answer(response: string, calendar: seq<Task>, reminder: seq<Task>, note: seq<Task>)

  function Summary(r: Option<Range>, cal: nat, rem: nat, notes: nat): string {
    (if r.Some? then "📅 Para " + r.value.name + ", tienes " else "📅 Tienes ")
    + NatToString(cal) + " eventos y " + NatToString(rem) + " recordatorios activos."
    + " Además, has guardado " + NatToString(notes) + " notas."
  }

  /** The task query branch of `procesar_chat_web`: None when the lower-cased
      message holds no query phrase; otherwise the counts, the tables and the
      tasks shown, events and reminders narrowed to the detected range and
      notes never. */
  function TaskQuery(msg: string, g: Grouped, c: Clock): (a: Option<Answer>)
    ensures a.Some? <==> ContainsAny(LowerStr(msg), QueryPatterns)
    ensures a.Some? ==> a.value.note == g.note
    ensures a.Some? ==> var r := DetectDateRange(LowerStr(msg), c.today);
      a.value.calendar == InRange(g.calendar, r, c) && a.value.reminder == InRange(g.reminder, r, c)
      && a.value.response == Summary(r, |a.value.calendar|, |a.value.reminder|, |g.note|) + "\n\n"
           + BuildTaskTable(a.value.calendar, a.value.reminder, g.note, c)
  {
    var t := LowerStr(msg);
    if !ContainsAny(t, QueryPatterns) then None
    else
      var r := DetectDateRange(t, c.today);
      var cal := InRange(g.calendar, r, c);
      var rem := InRange(g.reminder, r, c);
      Some(Answer(Summary(r, |cal|, |rem|, |g.note|) + "\n\n" + BuildTaskTable(cal, rem, g.note, c), cal, rem, g.note))
  }

  /** "esta semana" is a query phrase and a range: with no nearer day named,
      the answer holds the events and reminders from Monday to Sunday of
      this week. */
  lemma ThisWeekQuery(msg: string, g: Grouped, c: Clock)
    requires SaysThisWeek(LowerStr(msg))
    requires !SaysDayAfterTomorrow(LowerStr(msg)) && !SaysTomorrow(LowerStr(msg)) && !SaysToday(LowerStr(msg))
    ensures TaskQuery(msg, g, c).Some?
    ensures var r := DetectDateRange(LowerStr(msg), c.today);
      r.Some? && PyWeekday(r.value.first) == 0 && r.value.first <= c.today <= r.value.last
      && forall t :: t in TaskQuery(msg, g, c).value.calendar ==> t in g.calendar && Within(t, r.value, c)
  {
    assert QueryPatterns[13] == "esta semana";
    var a := TaskQuery(msg, g, c).value;
    var r := DetectDateRange(LowerStr(msg), c.today);
    forall t | t in a.calendar ensures t in g.calendar && Within(t, r.value, c) {
      var i :| 0 <= i < |a.calendar| && a.calendar[i] == t;
    }
  }
}
