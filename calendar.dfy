/** The client's calendar heuristics: reading an event's title, date and time
    out of a free-text message, and the start stamp of the iCalendar file it
    builds. The clock is a parameter: today is a day number (day 0 being
    Thursday 1 January 1970) together with its calendar year. A date the
    extractor settles on is either a day number or the arguments it hands to
    `new Date(year, monthIndex, day)`. */
module Calendar {
  import opened Wrappers
  import opened Text
  import Rx
  import Lists

  datatype Clock = Clock(day: int, year: nat)

  /** `Date.prototype.getDay()`: 0 is Sunday, 6 is Saturday. */
  function Weekday(day: int): (w: nat)
    ensures w < 7
  {
    (day + 4) % 7
  }

  datatype DateValue = At(day: int) | Civil(year: int, monthIndex: int, dayOfMonth: int)

  datatype EventData = EventData(title: string, date: DateValue, time: string, location: string, duration: nat)

  const DefaultTitle := "Evento Agendado"
  const DefaultTime := "09:00"
  const DefaultLocation := "Sin ubicación"

  // ---------------------------------------------------------------------------
  // The title: `(?:trigger words)\s+(?:con|de|para|sobre)?\s+([^,.!?\n]+)` with
  // the `i` flag, tried at each position from the left, with backtracking.
  // ---------------------------------------------------------------------------

  const Triggers: seq<string> := ["agendar", "agenda", "programar", "cita", "reunión", "evento",
    "recordatorio", "nota", "apunta", "anota", "avisame", "avísame", "recuerdame", "recuérdame"]
  const Connectors: seq<string> := ["con", "de", "para", "sobre"]

  /** `[^,.!?\n]`. */
  predicate TitleChar(c: char) {
    c != ',' && c != '.' && c != '!' && c != '?' && c != '\n'
  }

  /** The greedy `([^,.!?\n]+)` from g: the length of the run of title characters. */
  function TitleRun(s: string, g: nat): (n: nat)
    requires g <= |s|
    ensures g + n <= |s|
    ensures forall k :: g <= k < g + n ==> TitleChar(s[k])
    ensures g + n < |s| ==> !TitleChar(s[g + n])
    decreases |s| - g
  {
    if g < |s| && TitleChar(s[g]) then 1 + TitleRun(s, g + 1) else 0
  }

  /** A greedy `\s+` over the m blanks after position r, tried from all of
      them down to one: the positions where what follows would start. */
  function Down(r: nat, m: nat): (ends: seq<nat>)
    decreases m
  {
    if m == 0 then [] else [r + m] + Down(r, m - 1)
  }

  /** At q, after the first `\s+`: each connector that occurs there, in order,
      each followed by the second `\s+`. */
  function ConnectorStarts(s: string, q: nat, ws: seq<string>): seq<nat>
    requires q <= |s|
    decreases |ws|
  {
    if ws == [] then []
    else
      (if Rx.CiAt(s, q, ws[0]) then
         Rx.CiAtFits(s, q, ws[0]);
         Down(q + |ws[0]|, Rx.SpaceRunAt(s, q + |ws[0]|))
       else [])
      + ConnectorStarts(s, q, ws[1..])
  }

  /** Where the title may start after a trigger word ending at e, in the order
      the matcher tries them: the first `\s+` from k blanks down to one, then
      a connector or none, then the second `\s+`. */
  function GroupStarts(s: string, e: nat, k: nat): seq<nat>
    requires e + k <= |s|
    decreases k
  {
    if k == 0 then []
    else ConnectorStarts(s, e + k, Connectors) + Down(e + k, Rx.SpaceRunAt(s, e + k)) + GroupStarts(s, e, k - 1)
  }

  /** The first candidate at which the title group can start. */
  function FirstGroup(s: string, starts: seq<nat>): (r: Option<nat>)
    ensures r.Some? ==> r.value < |s| && TitleChar(s[r.value])
  {
    if starts == [] then None
    else if starts[0] < |s| && TitleChar(s[starts[0]]) then Some(starts[0])
    else FirstGroup(s, starts[1..])
  }

  /** The start of the title after a trigger word that ends at e. */
  function GroupAfter(s: string, e: nat): (r: Option<nat>)
    ensures r.Some? ==> r.value < |s| && TitleChar(s[r.value])
  {
    if e <= |s| then FirstGroup(s, GroupStarts(s, e, Rx.SpaceRunAt(s, e))) else None
  }

  /** At position p: the first trigger word, in order, that occurs there and
      is followed by a title. */
  function TriggerAt(s: string, p: nat, ts: seq<string>): (r: Option<nat>)
    ensures r.Some? ==> r.value < |s| && TitleChar(s[r.value])
    decreases |ts|
  {
    if ts == [] then None
    else if Rx.CiAt(s, p, ts[0]) && GroupAfter(s, p + |ts[0]|).Some? then GroupAfter(s, p + |ts[0]|)
    else TriggerAt(s, p, ts[1..])
  }

  /** The leftmost position from p on where the pattern matches. */
  function IntentFrom(s: string, p: nat): (r: Option<nat>)
    requires p <= |s|
    ensures r.Some? ==> r.value < |s| && TitleChar(s[r.value])
    decreases |s| - p
  {
    match TriggerAt(s, p, Triggers)
    case Some(g) => Some(g)
    case None => if p == |s| then None else IntentFrom(s, p + 1)
  }

  /** `intentMatch[1]`: the title group at the leftmost match of the intent
      pattern (see GroupText). */
  function IntentGroup(s: string): (r: Option<string>)
    ensures r.Some? <==> IntentFrom(s, 0).Some?
    ensures r.Some? ==> r.value == GroupText(s, IntentFrom(s, 0).value)
  {
    var m := IntentFrom(s, 0);
    if m.None? then None else Some(GroupText(s, m.value))
  }

  /** The title group that starts at g: the longest non-empty piece of the
      message from g holding none of the characters that end the title. */
  function GroupText(s: string, g: nat): (r: string)
    requires g < |s| && TitleChar(s[g])
    ensures r != [] && forall k :: 0 <= k < |r| ==> TitleChar(r[k])
    ensures g + |r| <= |s| && r == s[g..g + |r|]
    ensures g + |r| < |s| ==> !TitleChar(s[g + |r|])
  {
    s[g..g + TitleRun(s, g)]
  }

  /** None of the candidates of a connector list that does not occur. */
  lemma {:induction false} NoConnectorStarts(s: string, q: nat, ws: seq<string>)
    requires q <= |s| && forall k :: 0 <= k < |ws| ==> !Rx.CiAt(s, q, ws[k])
    ensures ConnectorStarts(s, q, ws) == []
    decreases |ws|
  {
    if ws != [] {
      assert forall k :: 0 <= k < |ws[1..]| ==> ws[1..][k] == ws[k + 1];
      NoConnectorStarts(s, q, ws[1..]);
    }
  }

  /** With no connector, the two `\s+` need two blanks: a trigger word
      followed by a single blank and an ordinary word starts no title. */
  lemma SingleBlankNoTitle(s: string, e: nat)
    requires e + 1 < |s| && JsSpace(s[e]) && !JsSpace(s[e + 1])
    requires forall k :: 0 <= k < |Connectors| ==> !Rx.CiAt(s, e + 1, Connectors[k])
    ensures GroupAfter(s, e) == None
  {
    assert Rx.SpaceRunAt(s, e + 1) == 0;
    assert Rx.SpaceRunAt(s, e) == 1;
    NoConnectorStarts(s, e + 1, Connectors);
    assert GroupStarts(s, e, 1) == [];
  }

  // ---------------------------------------------------------------------------
  // `replace(/\b(temporal words)\b.*/gi, '')`
  // ---------------------------------------------------------------------------

  const TemporalWords: seq<string> := ["mañana", "pasado mañana", "hoy", "ayer", "el lunes", "el martes",
    "el miercoles", "el miércoles", "el jueves", "el viernes", "el sabado", "el sábado", "el domingo",
    "a las", "a la"]

  lemma TemporalWordsNonEmpty()
    ensures Rx.NonEmptyAlts(TemporalWords)
  {
  }

  /** The characters JavaScript's `.` does not match. */
  predicate LineEnd(c: char) {
    c == '\n' || c == '\r' || c == '\U{2028}' || c == '\U{2029}'
  }

  /** `.*` from i: the length of the run before the next line end. */
  function LineRun(t: string, i: nat): (n: nat)
    requires i <= |t|
    ensures i + n <= |t|
    ensures (forall k :: i <= k < |t| ==> !LineEnd(t[k])) ==> i + n == |t|
    decreases |t| - i
  {
    if i < |t| && !LineEnd(t[i]) then 1 + LineRun(t, i + 1) else 0
  }

  /** The removal from position i on: each word of alts, with the rest of
      its line, goes. */
  function StripWordLines(t: string, i: nat, alts: seq<string>): (r: string)
    requires i <= |t| && Rx.NonEmptyAlts(alts)
    ensures |r| <= |t| - i
    decreases |t| - i
  {
    if i == |t| then []
    else match Rx.WordAt(t, i, alts)
      case Some(n) =>
        Rx.WordAtPositive(t, i, alts);
        StripWordLines(t, i + n + LineRun(t, i + n), alts)
      case None => [t[i]] + StripWordLines(t, i + 1, alts)
  }

  /** The title cut: each temporal word and the rest of its line go. */
  function StripTemporal(t: string): (r: string)
    ensures |r| <= |t|
  {
    TemporalWordsNonEmpty();
    StripWordLines(t, 0, TemporalWords)
  }

  /** The first position from j on where a word of alts starts. */
  function FirstWord(t: string, j: nat, alts: seq<string>): (r: Option<nat>)
    requires j <= |t|
    ensures r.Some? ==> j <= r.value < |t| && Rx.WordAt(t, r.value, alts).Some?
    ensures r.Some? ==> forall k :: j <= k < r.value ==> Rx.WordAt(t, k, alts).None?
    ensures r.None? ==> forall k :: j <= k < |t| ==> Rx.WordAt(t, k, alts).None?
    decreases |t| - j
  {
    if j == |t| then None
    else if Rx.WordAt(t, j, alts).Some? then Some(j)
    else FirstWord(t, j + 1, alts)
  }

  /** On a single line the removal keeps exactly the text before the first
      word of alts. */
  lemma {:induction false} StripOneLine(t: string, i: nat, alts: seq<string>)
    requires i <= |t| && Rx.NonEmptyAlts(alts) && forall k :: i <= k < |t| ==> !LineEnd(t[k])
    ensures FirstWord(t, i, alts).None? ==> StripWordLines(t, i, alts) == t[i..]
    ensures FirstWord(t, i, alts).Some? ==> StripWordLines(t, i, alts) == t[i..FirstWord(t, i, alts).value]
    decreases |t| - i
  {
    if i < |t| {
      match Rx.WordAt(t, i, alts)
      case Some(n) =>
        Rx.WordAtPositive(t, i, alts);
        assert i + n + LineRun(t, i + n) == |t|;
      case None =>
        StripOneLine(t, i + 1, alts);
        Seqs.SliceCons(t, i, |t|);
        if FirstWord(t, i, alts).Some? {
          Seqs.SliceCons(t, i, FirstWord(t, i, alts).value);
        }
    }
  }

  /** On a single line the temporal cut keeps exactly the text before the
      first temporal word. */
  lemma TemporalOneLine(t: string)
    requires forall k :: 0 <= k < |t| ==> !LineEnd(t[k])
    ensures FirstWord(t, 0, TemporalWords).None? ==> StripTemporal(t) == t
    ensures FirstWord(t, 0, TemporalWords).Some? ==> StripTemporal(t) == t[..FirstWord(t, 0, TemporalWords).value]
  {
    TemporalWordsNonEmpty();
    StripOneLine(t, 0, TemporalWords);
  }

  // ---------------------------------------------------------------------------
  // The fallback title: `message.split(' ').slice(0, 5).join(' ')`
  // ---------------------------------------------------------------------------

  /** The first k pieces of s split at ' ', joined by ' ' again: the prefix of
      s that ends just before its k-th ' ', or all of s when it has fewer. */
  function FirstPieces(s: string, k: nat): (r: string)
    requires k >= 1
    ensures |r| <= |s| && r == s[..|r|]
    ensures |r| < |s| ==> s[|r|] == ' '
    decreases k
  {
    match FirstIndex(s, ' ')
    case None => s
    case Some(i) =>
      if k == 1 then s[..i]
      else
        var t := FirstPieces(s[i + 1..], k - 1);
        assert s == s[..i + 1] + s[i + 1..];
        assert s[..i + 1] == s[..i] + [' '];
        assert s[..i + 1] + t == s[..i + 1 + |t|];
        s[..i + 1] + t
  }

  const TitleVerbs: seq<string> := ["agendar", "agenda"]

  /** The event title: the intent phrase cut before its temporal words and
      trimmed, kept with an upper-case first letter only when longer than two
      characters; without an intent phrase, the first five words without
      "agendar"/"agenda", when anything is left. */
  function TitleOf(msg: string): (r: string)
    ensures r != []
    ensures IntentGroup(msg).Some? ==>
      var clean := JsTrim(StripTemporal(IntentGroup(msg).value));
      (|clean| > 2 ==> r == Capitalize(clean)) && (|clean| <= 2 ==> r == DefaultTitle)
    ensures IntentGroup(msg).None? ==>
      var simple := JsTrim(Rx.RemoveAlts(FirstPieces(msg, 5), 0, TitleVerbs));
      (|simple| > 0 ==> r == simple) && (simple == [] ==> r == DefaultTitle)
    ensures r == DefaultTitle || r[0] == Upper(r[0]) || IntentGroup(msg).None?
  {
    assert Rx.NonEmptyAlts(TitleVerbs);
    match IntentGroup(msg)
    case Some(g) =>
      var clean := JsTrim(StripTemporal(g));
      if |clean| > 2 then
        UpperTwice(clean[0]);
        Capitalize(clean)
      else DefaultTitle
    case None =>
      var simple := JsTrim(Rx.RemoveAlts(FirstPieces(msg, 5), 0, TitleVerbs));
      if |simple| > 0 then simple else DefaultTitle
  }

  lemma UpperTwice(c: char)
    ensures Upper(Upper(c)) == Upper(c)
  {
  }

  // ---------------------------------------------------------------------------
  // The date
  // ---------------------------------------------------------------------------

  lemma {:induction false} ContainsTail(s: string, a: string, b: string)
    requires Contains(s, a + b)
    ensures Contains(s, b)
    decreases |s|
  {
    if StartsWith(s, a + b) {
      assert s[|a|..|a| + |b|] == (a + b)[|a|..];
      ContainsAt(s, b, |a|);
    } else {
      ContainsTail(s[1..], a, b);
      ContainsSuffix([s[0]], s[1..], b);
      assert [s[0]] + s[1..] == s;
    }
  }

  /** The relative day words, in the order they are tested: "hoy" (today),
      "pasado mañana" (in two days), "mañana" (tomorrow). */
  function RelativeDays(lower: string): (r: Option<nat>)
    ensures Contains(lower, "hoy") ==> r == Some(0)
    ensures !Contains(lower, "hoy") && Contains(lower, "pasado mañana") ==> r == Some(2)
    ensures !Contains(lower, "hoy") && !Contains(lower, "pasado mañana") && Contains(lower, "mañana") ==> r == Some(1)
    ensures r.None? <==> !Contains(lower, "hoy") && !Contains(lower, "mañana")
  {
    if Contains(lower, "hoy") then Some(0)
    else if Contains(lower, "pasado mañana") then
      assert "pasado mañana" == "pasado " + "mañana";
      ContainsTail(lower, "pasado ", "mañana");
      Some(2)
    else if Contains(lower, "mañana") then Some(1)
    else None
  }

  /** The weekday names in the order the extractor consults them, and the
      weekday each one stands for. */
  const WeekdayNames: seq<string> := ["domingo", "lunes", "martes", "miércoles", "miercoles",
    "jueves", "viernes", "sábado", "sabado"]
  const WeekdayNumbers: seq<nat> := [0, 1, 2, 3, 3, 4, 5, 6, 6]

  lemma WeekdayTable()
    ensures |WeekdayNumbers| == |WeekdayNames|
    ensures forall k :: 0 <= k < |WeekdayNumbers| ==> WeekdayNumbers[k] < 7
  {
  }

  function NamedFn(lower: string): string -> bool {
    name => Contains(lower, name)
  }

  /** The weekday of the first name in the table that the message contains. */
  function NamedWeekday(lower: string): (r: Option<nat>)
    ensures r.Some? ==> r.value < 7
    ensures r.None? <==> forall k :: 0 <= k < |WeekdayNames| ==> !Contains(lower, WeekdayNames[k])
  {
    WeekdayTable();
    match Lists.FindFirst(NamedFn(lower), WeekdayNames)
    case None => None
    case Some(k) => Some(WeekdayNumbers[k])
  }

  /** The first name of the table the message contains decides the weekday. */
  lemma NamedWeekdayAt(lower: string, k: nat)
    requires k < |WeekdayNames| && Contains(lower, WeekdayNames[k])
    requires forall j :: 0 <= j < k ==> !Contains(lower, WeekdayNames[j])
    ensures NamedWeekday(lower) == Some(WeekdayNumbers[k])
  {
    WeekdayTable();
    var p := NamedFn(lower);
    assert p(WeekdayNames[k]);
    assert forall j :: 0 <= j < k ==> !p(WeekdayNames[j]);
    var r := Lists.FindFirst(p, WeekdayNames);
    assert r == Some(k);
  }

  /** Days until the next target weekday: between one and seven, a week when
      today is that weekday. */
  function DaysUntil(target: nat, current: nat): (n: nat)
    requires target < 7 && current < 7
    ensures 1 <= n <= 7
    ensures (current + n) % 7 == target
    ensures target == current ==> n == 7
  {
    if target <= current then target - current + 7 else target - current
  }

  /** The day DaysUntil selects falls on the target weekday. */
  lemma WeekdayAhead(day: int, target: nat)
    requires target < 7
    ensures Weekday(day + DaysUntil(target, Weekday(day))) == target
  {
    var c := Weekday(day);
    var n := DaysUntil(target, c);
    assert day + 4 == 7 * ((day + 4) / 7) + c;
    assert day + n + 4 == 7 * ((day + 4) / 7) + (c + n);
  }

  predicate Sep(s: string, i: nat) {
    i < |s| && (s[i] == '/' || s[i] == '-')
  }

  /** A greedy `\d{0,max}` from i. */
  function DigitRun(s: string, i: nat, max: nat): (n: nat)
    requires i <= |s|
    ensures n <= max && i + n <= |s|
    ensures forall k :: i <= k < i + n ==> IsDigit(s[k])
    ensures n < max && i + n < |s| ==> !IsDigit(s[i + n])
    decreases max
  {
    if max == 0 || i == |s| || !IsDigit(s[i]) then 0 else 1 + DigitRun(s, i + 1, max - 1)
  }

  /** `parseInt` of the n digits at i. */
  function Number(s: string, i: nat, n: nat): (v: nat)
    requires i + n <= |s| && forall k :: i <= k < i + n ==> IsDigit(s[k])
    ensures n <= 2 ==> v < 100
    ensures n <= 4 ==> v < 10000
  {
    assert AllDigits(s[i..i + n]);
    DigitsValue(s[i..i + n])
  }

  datatype DateParts = DateParts(day: nat, month: nat, year: Option<nat>)

  /** `(\d{1,2})[\/\-](\d{1,2})(?:[\/\-](\d{2,4}))?` at p: the day (two digits
      tried before one), the month, and a year of two to four digits when one
      follows. */
  function DateAt(s: string, p: nat): (r: Option<DateParts>)
    requires p <= |s|
    ensures r.Some? ==> r.value.day < 100 && r.value.month < 100
    ensures r.Some? && r.value.year.Some? ==> r.value.year.value < 10000
    ensures r.Some? ==> Rx.DigitAt(s, p)
  {
    var d := if Rx.DigitAt(s, p) && Rx.DigitAt(s, p + 1) && Sep(s, p + 2) && Rx.DigitAt(s, p + 3) then 2
      else if Rx.DigitAt(s, p) && Sep(s, p + 1) && Rx.DigitAt(s, p + 2) then 1
      else 0;
    if d == 0 then None
    else
      var m := DigitRun(s, p + d + 1, 2);
      var e := p + d + 1 + m;
      var y := if Sep(s, e) then DigitRun(s, e + 1, 4) else 0;
      Some(DateParts(Number(s, p, d), Number(s, p + d + 1, m), if y >= 2 then Some(Number(s, e + 1, y)) else None))
  }

  /** The leftmost match of the date pattern from p on. */
  function DateFrom(s: string, p: nat): (r: Option<DateParts>)
    requires p <= |s|
    ensures r.Some? ==> r.value.day < 100 && r.value.month < 100
    ensures r.Some? && r.value.year.Some? ==> r.value.year.value < 10000
    ensures r.None? ==> forall k :: p <= k <= |s| ==> DateAt(s, k).None?
    decreases |s| - p
  {
    match DateAt(s, p)
    case Some(dp) => Some(dp)
    case None => if p == |s| then None else DateFrom(s, p + 1)
  }

  /** A message without digits names no explicit date. */
  lemma {:induction false} NoDigitNoDate(s: string, p: nat)
    requires p <= |s| && forall k :: 0 <= k < |s| ==> !IsDigit(s[k])
    ensures DateFrom(s, p).None?
    decreases |s| - p
  {
    assert !Rx.DigitAt(s, p);
    if p < |s| {
      NoDigitNoDate(s, p + 1);
    }
  }

  /** Years below 100 are read as 2000 onwards. */
  function FullYear(y: nat): (r: nat)
    ensures y < 100 ==> r == 2000 + y
    ensures y >= 100 ==> r == y
    ensures r >= 100
  {
    if y < 100 then 2000 + y else y
  }

  /** The explicit date, when the message has one: the month as a zero-based
      index, the year the current one when none is written. */
  function ExplicitDate(msg: string, clock: Clock): (r: Option<DateValue>)
    ensures r.Some? <==> DateFrom(msg, 0).Some?
    ensures r.Some? ==> (r.value.Civil? && r.value.year >= 100
      && r.value.dayOfMonth == DateFrom(msg, 0).value.day
      && r.value.monthIndex == DateFrom(msg, 0).value.month - 1
      && r.value.year == FullYear(DateFrom(msg, 0).value.year.GetOr(clock.year)))
  {
    match DateFrom(msg, 0)
    case None => None
    case Some(dp) => Some(Civil(FullYear(dp.year.GetOr(clock.year)), dp.month - 1, dp.day))
  }

  /** The next day, one to seven days ahead, that falls on weekday w; a week
      ahead when today is already that weekday. */
  function NextWeekday(day: int, w: nat): (r: DateValue)
    requires w < 7
    ensures r.At? && day < r.day <= day + 7 && Weekday(r.day) == w
    ensures w == Weekday(day) ==> r == At(day + 7)
  {
    WeekdayAhead(day, w);
    At(day + DaysUntil(w, Weekday(day)))
  }

  /** The event date: a relative day word first; only without one, a weekday
      name (the next such day, see NextWeekday); only without either, an
      explicit date; otherwise tomorrow. */
  function DateOf(msg: string, clock: Clock): (r: DateValue)
    ensures RelativeDays(LowerStr(msg)).Some? ==> r == At(clock.day + RelativeDays(LowerStr(msg)).value)
    ensures RelativeDays(LowerStr(msg)).None? && NamedWeekday(LowerStr(msg)).Some? ==>
      r == NextWeekday(clock.day, NamedWeekday(LowerStr(msg)).value)
    ensures RelativeDays(LowerStr(msg)).None? && NamedWeekday(LowerStr(msg)).None? ==>
      r == ExplicitDate(msg, clock).GetOr(At(clock.day + 1))
  {
    var lower := LowerStr(msg);
    match RelativeDays(lower)
    case Some(n) => At(clock.day + n)
    case None =>
      match NamedWeekday(lower)
      case Some(w) => NextWeekday(clock.day, w)
      case None => ExplicitDate(msg, clock).GetOr(At(clock.day + 1))
  }

  // ---------------------------------------------------------------------------
  // The time: `(\d{1,2})(?::(\d{2}))?\s*(am|pm|a\.m\.|p\.m\.|de la (?:mañana|tarde|noche))?`
  // with the `i` flag, at the first digit of the message
  // ---------------------------------------------------------------------------

  const Periods: seq<string> := ["am", "pm", "a.m.", "p.m.", "de la mañana", "de la tarde", "de la noche"]

  /** The first period, in order, that occurs at j; "" when none does. */
  function PeriodAt(s: string, j: nat, ps: seq<string>): (r: string)
    ensures r == "" || r in ps
    ensures r != "" ==> Rx.CiAt(s, j, r)
    decreases |ps|
  {
    if ps == [] then ""
    else if Rx.CiAt(s, j, ps[0]) && ps[0] != "" then ps[0]
    else PeriodAt(s, j, ps[1..])
  }

  /** The first digit from i on. */
  function FirstDigit(s: string, i: nat): (r: Option<nat>)
    requires i <= |s|
    ensures r.Some? ==> i <= r.value < |s| && IsDigit(s[r.value])
    ensures r.Some? ==> forall k :: i <= k < r.value ==> !IsDigit(s[k])
    ensures r.None? <==> forall k :: i <= k < |s| ==> !IsDigit(s[k])
    decreases |s| - i
  {
    if i == |s| then None
    else if IsDigit(s[i]) then Some(i)
    else FirstDigit(s, i + 1)
  }

  datatype TimeParts = TimeParts(hour: nat, minutes: nat, period: string)

  /** The time pattern at a digit: one or two hour digits, the minutes when
      `:` and two digits follow (0 otherwise), and the period after any blanks. */
  function TimeAt(s: string, p: nat): (r: TimeParts)
    requires p < |s| && IsDigit(s[p])
    ensures r.hour < 100 && r.minutes < 100
    ensures r.period == "" || r.period in Periods
  {
    var h := if Rx.DigitAt(s, p + 1) then 2 else 1;
    var e := p + h;
    var hasMinutes := e + 3 <= |s| && s[e] == ':' && IsDigit(s[e + 1]) && IsDigit(s[e + 2]);
    var e2 := if hasMinutes then e + 3 else e;
    TimeParts(Number(s, p, h), if hasMinutes then Number(s, e + 1, 2) else 0,
      PeriodAt(s, e2 + Rx.SpaceRunAt(s, e2), Periods))
  }

  /** The 12-hour to 24-hour adjustment as the extractor writes it: an
      afternoon period is recognised by containing "pm", "tarde" or "noche",
      a morning one by containing "am" or "mañana". */
  function Hour24AsWritten(hour: nat, period: string): (r: nat)
    ensures r == hour || (hour < 12 && r == hour + 12) || r == 0
  {
    var h := if (Contains(period, "pm") || Contains(period, "tarde") || Contains(period, "noche")) && hour < 12
      then hour + 12 else hour;
    if (Contains(period, "am") || Contains(period, "mañana")) && h == 12 then 0 else h
  }

  predicate Afternoon(period: string) {
    period == "pm" || period == "p.m." || period == "de la tarde" || period == "de la noche"
  }

  predicate Morning(period: string) {
    period == "am" || period == "a.m." || period == "de la mañana"
  }

  /** The adjustment the pattern's periods call for: an afternoon period adds
      twelve to an hour below twelve, a morning period turns twelve into zero,
      and nothing else changes the hour. */
  function Hour24(hour: nat, period: string): (r: nat)
    ensures Afternoon(period) && hour < 12 ==> r == hour + 12
    ensures Morning(period) && hour == 12 ==> r == 0
    ensures !(Afternoon(period) && hour < 12) && !(Morning(period) && hour == 12) ==> r == hour
    ensures hour <= 12 && (Afternoon(period) || Morning(period)) ==> r < 24
  {
    if Afternoon(period) && hour < 12 then hour + 12
    else if Morning(period) && hour == 12 then 0
    else hour
  }

  /** Every character of a contained text occurs in the text. */
  lemma {:induction false} HasIf(s: string, sub: string, j: nat)
    requires j < |sub|
    ensures Contains(s, sub) ==> sub[j] in s
    decreases |s|
  {
    if StartsWith(s, sub) {
      assert s[..|sub|][j] == sub[j];
    } else if s != [] {
      HasIf(s[1..], sub, j);
    }
  }

  /** A text lacking one of sub's characters does not contain sub. */
  lemma Lacks(s: string, sub: string, j: nat)
    requires j < |sub| && sub[j] !in s
    ensures !Contains(s, sub)
  {
    HasIf(s, sub, j);
  }

  /** A text in which no two adjacent characters are sub's first two does
      not contain sub. */
  lemma {:induction false} LacksPair(s: string, sub: string)
    requires |sub| >= 2 && forall i :: 0 <= i < |s| - 1 ==> s[i] != sub[0] || s[i + 1] != sub[1]
    ensures !Contains(s, sub)
    decreases |s|
  {
    if |sub| <= |s| {
      assert s[..|sub|][0] == s[0] && s[..|sub|][1] == s[1];
    }
    if s != [] {
      assert forall i :: 0 <= i < |s[1..]| ==> s[1..][i] == s[i + 1];
      LacksPair(s[1..], sub);
    }
  }

  /** The dotted "p.m." contains no "pm", so "3 p.m." keeps the hour 3
      where 15 is meant. */
  lemma DottedPmAsWritten()
    ensures Hour24AsWritten(3, "p.m.") == 3 && Hour24(3, "p.m.") == 15
  {
    assert "p.m."[1..] == ".m.";
    Lacks(".m.", "pm", 0);
    assert !StartsWith("p.m.", "pm");
    Lacks("p.m.", "tarde", 0);
    Lacks("p.m.", "noche", 0);
  }

  /** The same slip leaves "12 a.m." at 12 where 0 is meant. */
  lemma DottedAmAsWritten()
    ensures Hour24AsWritten(12, "a.m.") == 12 && Hour24(12, "a.m.") == 0
  {
    assert "a.m."[1..] == ".m.";
    Lacks(".m.", "am", 0);
    assert !StartsWith("a.m.", "am");
    Lacks("a.m.", "mañana", 2);
    Lacks("a.m.", "pm", 0);
    Lacks("a.m.", "tarde", 0);
    Lacks("a.m.", "noche", 0);
  }

  /** On every other period the pattern captures, the adjustment as written
      is the intended one. */
  lemma AsWrittenAgrees(hour: nat, period: string)
    requires (period in Periods && period != "a.m." && period != "p.m.") || period == ""
    ensures Hour24AsWritten(hour, period) == Hour24(hour, period)
  {
    if period == "" {
      AgreesNone(hour);
    } else if period == "am" {
      AgreesAm(hour);
    } else if period == "pm" {
      AgreesPm(hour);
    } else if period == "de la mañana" {
      AgreesMorning(hour);
    } else if period == "de la tarde" {
      AgreesEvening(hour, "de la tarde", "tarde");
    } else {
      AgreesEvening(hour, "de la noche", "noche");
    }
  }

  lemma AgreesNone(hour: nat)
    ensures Hour24AsWritten(hour, "") == Hour24(hour, "")
  {
    Lacks("", "pm", 0); Lacks("", "tarde", 0); Lacks("", "noche", 0);
    Lacks("", "am", 0); Lacks("", "mañana", 0);
  }

  lemma AgreesAm(hour: nat)
    ensures Hour24AsWritten(hour, "am") == Hour24(hour, "am")
  {
    assert StartsWith("am", "am");
    Lacks("am", "pm", 0); Lacks("am", "tarde", 0); Lacks("am", "noche", 0);
  }

  lemma AgreesPm(hour: nat)
    ensures Hour24AsWritten(hour, "pm") == Hour24(hour, "pm")
  {
    assert StartsWith("pm", "pm");
    Lacks("pm", "am", 0); Lacks("pm", "mañana", 2);
  }

  lemma AgreesMorning(hour: nat)
    ensures Hour24AsWritten(hour, "de la mañana") == Hour24(hour, "de la mañana")
  {
    MorningHasManana();
    MorningLacksAm();
    MorningLacksPm();
    MorningLacksTarde();
    MorningLacksNoche();
  }

  lemma MorningHasManana()
    ensures Contains("de la mañana", "mañana")
  {
    var p := "de la mañana";
    assert p[6..12] == "mañana";
    ContainsAt(p, "mañana", 6);
  }

  lemma MorningLacksAm()
    ensures !Contains("de la mañana", "am")
  {
    LacksPair("de la mañana", "am");
  }

  lemma MorningLacksPm()
    ensures !Contains("de la mañana", "pm")
  {
    Lacks("de la mañana", "pm", 0);
  }

  lemma MorningLacksTarde()
    ensures !Contains("de la mañana", "tarde")
  {
    Lacks("de la mañana", "tarde", 0);
  }

  lemma MorningLacksNoche()
    ensures !Contains("de la mañana", "noche")
  {
    Lacks("de la mañana", "noche", 1);
  }

  /** "de la tarde" and "de la noche": the word after "de la " is found. */
  lemma AgreesEvening(hour: nat, p: string, w: string)
    requires (p == "de la tarde" && w == "tarde") || (p == "de la noche" && w == "noche")
    ensures Hour24AsWritten(hour, p) == Hour24(hour, p)
  {
    assert p[6..11] == w;
    ContainsAt(p, w, 6);
    Lacks(p, "am", 1); Lacks(p, "mañana", 0);
  }

  /** `HH:MM`, each part zero-padded to two digits. */
  function ClockText(h: nat, m: nat): (r: string)
    requires h < 100 && m < 100
    ensures |r| == 5 && r[2] == ':'
    ensures r[..2] == Pad2(h) && r[3..] == Pad2(m)
    ensures AllDigits(r[..2]) && AllDigits(r[3..])
  {
    Pad2(h) + ":" + Pad2(m)
  }

  /** The event time, when the message holds a digit, converted as the
      extractor writes it. */
  function TimeOf(msg: string): (r: Option<string>)
    ensures r.None? <==> forall k :: 0 <= k < |msg| ==> !IsDigit(msg[k])
    ensures r.Some? ==> |r.value| == 5 && r.value[2] == ':' && AllDigits(r.value[..2]) && AllDigits(r.value[3..])
    ensures r.Some? ==> var t := TimeAt(msg, FirstDigit(msg, 0).value);
      r.value == ClockText(Hour24AsWritten(t.hour, t.period), t.minutes)
  {
    match FirstDigit(msg, 0)
    case None => None
    case Some(p) =>
      var t := TimeAt(msg, p);
      Some(ClockText(Hour24AsWritten(t.hour, t.period), t.minutes))
  }

  /** Unless the captured period is a dotted "a.m." or "p.m.", the time the
      extractor writes is the intended 24-hour time. */
  lemma TimeOfIntended(msg: string)
    requires FirstDigit(msg, 0).Some?
    requires var t := TimeAt(msg, FirstDigit(msg, 0).value); t.period != "a.m." && t.period != "p.m."
    ensures var t := TimeAt(msg, FirstDigit(msg, 0).value);
      Hour24(t.hour, t.period) < 100
      && TimeOf(msg) == Some(ClockText(Hour24(t.hour, t.period), t.minutes))
  {
    var t := TimeAt(msg, FirstDigit(msg, 0).value);
    AsWrittenAgrees(t.hour, t.period);
  }

  /** "p.m." at j is the fourth period of the list, the first three failing. */
  lemma DottedPmPeriod(msg: string, j: nat)
    requires j + 4 <= |msg| && msg[j] == 'p' && msg[j + 1] == '.' && msg[j + 2] == 'm' && msg[j + 3] == '.'
    ensures PeriodAt(msg, j, Periods) == "p.m."
  {
    assert !Rx.CiAt(msg, j, Periods[0]);
    assert !Rx.CiAt(msg, j, Periods[1]) by { assert Periods[1][1..] == "m"; }
    assert !Rx.CiAt(msg, j, Periods[2]);
    assert Rx.CiAt(msg, j, Periods[3]) by {
      assert Periods[3][1..] == ".m." && Periods[3][2..] == "m." && Periods[3][3..] == ".";
    }
    assert Periods[1..][1..][1..][0] == "p.m.";
  }

  /** The time pattern reads "3 p.m." as hour 3 with the dotted period. */
  lemma DottedPmParts(msg: string)
    requires |msg| == 6 && msg[0] == '3' && msg[1] == ' ' && msg[2] == 'p' && msg[3] == '.' && msg[4] == 'm' && msg[5] == '.'
    ensures TimeAt(msg, 0) == TimeParts(3, 0, "p.m.")
  {
    assert !Rx.DigitAt(msg, 1);
    OneBlank(msg, 1);
    DottedPmPeriod(msg, 2);
    OneDigit(msg, 0);
  }

  /** A single blank followed by a letter is a run of one. */
  lemma OneBlank(s: string, i: nat)
    requires i + 1 < |s| && s[i] == ' ' && 'a' <= s[i + 1] <= 'z'
    ensures Rx.SpaceRunAt(s, i) == 1
  {
    assert Rx.SpaceRunAt(s, i + 1) == 0;
  }

  /** A one-digit number is the digit's value. */
  lemma OneDigit(s: string, i: nat)
    requires i < |s| && IsDigit(s[i])
    ensures Number(s, i, 1) == s[i] as int - '0' as int
  {
    var d := s[i..i + 1];
    assert d[..0] == [];
  }

  /** A one-digit value is padded with a leading zero. */
  lemma PadOneDigit(n: nat)
    requires n < 10
    ensures Pad2(n) == ['0', DigitChar(n)]
  {
  }

  /** As written, "3 p.m." is written down as three in the morning. */
  lemma TimeOfDottedPm(msg: string)
    requires |msg| == 6 && msg[0] == '3' && msg[1] == ' ' && msg[2] == 'p' && msg[3] == '.' && msg[4] == 'm' && msg[5] == '.'
    ensures TimeOf(msg) == Some("03:00")
  {
    assert FirstDigit(msg, 0) == Some(0);
    DottedPmParts(msg);
    DottedPmAsWritten();
    assert TimeOf(msg) == Some(ClockText(3, 0));
    ThreeOClock();
  }

  lemma ThreeOClock()
    ensures ClockText(3, 0) == "03:00"
  {
    PadOneDigit(3);
    PadOneDigit(0);
  }

  /** The extractor's scan of the weekday names: the first name in the table
      that the message contains gives the next such day. */
  method WeekdayDate(lower: string, clock: Clock) returns (date: Option<DateValue>)
    ensures date.None? <==> NamedWeekday(lower).None?
    ensures date.Some? ==> date.value == NextWeekday(clock.day, NamedWeekday(lower).value)
  {
    WeekdayTable();
    var i := 0;
    while i < |WeekdayNames|
      invariant 0 <= i <= |WeekdayNames|
      invariant forall j :: 0 <= j < i ==> !Contains(lower, WeekdayNames[j])
    {
      var dayName, dayIndex := WeekdayNames[i], WeekdayNumbers[i];
      if Contains(lower, dayName) {
        NamedWeekdayAt(lower, i);
        return Some(NextWeekday(clock.day, dayIndex));
      }
      i := i + 1;
    }
    return None;
  }

  /** The extractor's date block: the relative words, then the weekday scan,
      then the explicit date, each tried only while no date is found. */
  method EventDate(msg: string, lower: string, clock: Clock) returns (date: DateValue)
    requires lower == LowerStr(msg)
    ensures date == DateOf(msg, clock)
  {
    date := At(clock.day + 1);
    var dateFound := false;
    if Contains(lower, "hoy") {
      date := At(clock.day);
      dateFound := true;
    } else if Contains(lower, "pasado mañana") {
      date := At(clock.day + 2);
      dateFound := true;
    } else if Contains(lower, "mañana") {
      date := At(clock.day + 1);
      dateFound := true;
    }
    assert dateFound <==> RelativeDays(lower).Some?;
    assert dateFound ==> date == At(clock.day + RelativeDays(lower).value);

    if !dateFound {
      var named := WeekdayDate(lower, clock);
      if named.Some? {
        date := named.value;
        dateFound := true;
      }
    }

    if !dateFound {
      var explicit := ExplicitDateMatch(msg, clock);
      if explicit.Some? {
        date := explicit.value;
      }
      assert date == explicit.GetOr(At(clock.day + 1));
    }
    DateOfCases(msg, lower, clock, date);
  }

  /** The three ways the date block can end, each the date DateOf names. */
  lemma DateOfCases(msg: string, lower: string, clock: Clock, date: DateValue)
    requires lower == LowerStr(msg)
    requires (RelativeDays(lower).Some? && date == At(clock.day + RelativeDays(lower).value))
      || (RelativeDays(lower).None? && NamedWeekday(lower).Some? && date == NextWeekday(clock.day, NamedWeekday(lower).value))
      || (RelativeDays(lower).None? && NamedWeekday(lower).None? && date == ExplicitDate(msg, clock).GetOr(At(clock.day + 1)))
    ensures DateOf(msg, clock) == date
  {
  }

  /** The explicit date pattern's match, its year completed. */
  method ExplicitDateMatch(msg: string, clock: Clock) returns (date: Option<DateValue>)
    ensures date == ExplicitDate(msg, clock)
  {
    var dateMatch := DateFrom(msg, 0);
    date := None;
    if dateMatch.Some? {
      var dp := dateMatch.value;
      var year := if dp.year.Some? then dp.year.value else clock.year;
      var fullYear := if year < 100 then 2000 + year else year;
      assert fullYear == FullYear(dp.year.GetOr(clock.year));
      date := Some(Civil(fullYear, dp.month - 1, dp.day));
    }
  }

  /** `extractEventDataFromMessage`: null for a missing or empty message;
      otherwise the defaults, overwritten field by field by what the message
      reveals. */
  method ExtractEventDataFromMessage(message: Option<string>, clock: Clock) returns (r: Option<EventData>)
    ensures r.None? <==> message.None? || message.value == ""
    ensures r.Some? ==> r.value.title == TitleOf(message.value)
    ensures r.Some? ==> r.value.date == DateOf(message.value, clock)
    ensures r.Some? ==> r.value.time == TimeOf(message.value).GetOr(DefaultTime)
    ensures r.Some? ==> r.value.location == DefaultLocation && r.value.duration == 1
  {
    if message.None? || message.value == "" {
      return None;
    }
    var msg := message.value;
    var data := EventData(DefaultTitle, At(clock.day + 1), DefaultTime, DefaultLocation, 1);
    var lower := LowerStr(msg);

    data := data.(title := TitleOf(msg));

    var date := EventDate(msg, lower, clock);
    data := data.(date := date);

    var digit := FirstDigit(msg, 0);
    if digit.Some? {
      var t := TimeAt(msg, digit.value);
      data := data.(time := ClockText(Hour24AsWritten(t.hour, t.period), t.minutes));
    }
    r := Some(data);
  }

  // ---------------------------------------------------------------------------
  // The iCalendar start stamp
  // ---------------------------------------------------------------------------

  /** `s.replace(':', '')`: the first colon goes. */
  function DropFirstColon(s: string): (r: string)
    ensures ':' !in s ==> r == s
  {
    match FirstIndex(s, ':')
    case None => s
    case Some(i) => s[..i] + s[i + 1..]
  }

  /** `DTSTART`: the date without its dashes, "T", the time without its
      colon, and "00" seconds. */
  function StartStamp(date: string, time: string): (r: string)
  {
    Keep(date, Chars({'-'})) + "T" + DropFirstColon(time) + "00"
  }

  lemma {:induction false} KeepNoDash(s: string)
    requires '-' !in s
    ensures Keep(s, Chars({'-'})) == s
    decreases |s|
  {
    if s != [] {
      KeepNoDash(s[1..]);
      KeepCons(s, Chars({'-'}));
      Seqs.HeadTail(s);
    }
  }

  /** The dashes of `YYYY-MM-DD` go. */
  lemma DateWithoutDashes(y: string, m: string, d: string)
    requires '-' !in y && '-' !in m && '-' !in d
    ensures Keep(y + "-" + m + "-" + d, Chars({'-'})) == y + m + d
  {
    var dash := Chars({'-'});
    KeepNoDash(y);
    KeepNoDash(m);
    KeepNoDash(d);
    assert Keep("-", dash) == [];
    var y1 := y + "-";
    var y2 := y1 + m;
    var y3 := y2 + "-";
    KeepConcat(y, "-", dash);
    KeepConcat(y1, m, dash);
    KeepConcat(y2, "-", dash);
    KeepConcat(y3, d, dash);
    assert Keep(y1, dash) == y;
    assert Keep(y3, dash) == y + m;
  }

  /** The colon of `HH:MM` goes. */
  lemma TimeWithoutColon(hh: string, mm: string)
    requires ':' !in hh
    ensures DropFirstColon(hh + ":" + mm) == hh + mm
  {
    Seqs.Assoc(hh, ":", mm);
    FirstIndexAfter(hh, ':', ":" + mm);
    Seqs.Parts(hh, ":" + mm);
    Seqs.DropDrop(hh + (":" + mm), |hh|, 1);
    assert (":" + mm)[1..] == mm;
  }

  /** An ISO date and an `HH:MM` time give `YYYYMMDDTHHMM00`. */
  lemma StampOfIso(y: string, m: string, d: string, hh: string, mm: string)
    requires '-' !in y && '-' !in m && '-' !in d && ':' !in hh
    ensures StartStamp(y + "-" + m + "-" + d, hh + ":" + mm) == y + m + d + "T" + hh + mm + "00"
  {
    DateWithoutDashes(y, m, d);
    TimeWithoutColon(hh, mm);
    Seqs.Assoc(y + m + d + "T", hh, mm);
  }

  /** The time the extractor writes comes out as `HHMM` in the stamp. */
  lemma StampOfClock(y: string, m: string, d: string, h: nat, mi: nat)
    requires '-' !in y && '-' !in m && '-' !in d && h < 100 && mi < 100
    ensures StartStamp(y + "-" + m + "-" + d, ClockText(h, mi)) == y + m + d + "T" + Pad2(h) + Pad2(mi) + "00"
  {
    var t := ClockText(h, mi);
    assert ':' !in Pad2(h) by {
      assert AllDigits(Pad2(h));
    }
    StampOfIso(y, m, d, Pad2(h), Pad2(mi));
  }
}
