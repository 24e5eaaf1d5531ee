/** The server's iCalendar invitation: TEXT escaping as section 3.3.11 of
    RFC 5545 defines it, the `YYYY-MM-DD` / `HH:MM` validation of the date
    and time, and the document's fixed line structure. The event uid and
    the DTSTAMP come from the uuid generator and the clock and are given. */
module CalendarIcs {
  import opened Wrappers
  import opened Text

  const DefaultTimezone: string := "America/Mexico_City"

  // ---------------------------------------------------------------------------
  // TEXT escaping
  // ---------------------------------------------------------------------------

  /** What one character becomes in an escaped TEXT value. */
  function EscapeChar(c: char): (r: string)
    ensures |r| >= 1 && r[0] != ';' && r[0] != ','
    ensures '\n' !in r
  {
    if c == '\\' then "\\\\"
    else if c == ';' then "\\;"
    else if c == ',' then "\\,"
    else if c == '\n' then "\\n"
    else [c]
  }

  /** The reference escaping: every character replaced by its escape. */
  function Escaped(s: string): (r: string)
    ensures |r| >= |s|
  {
    if s == [] then "" else EscapeChar(s[0]) + Escaped(s[1..])
  }

  /** Every `;` and `,` of r comes right after a backslash. */
  predicate Guarded(r: string) {
    forall i :: 0 <= i < |r| && (r[i] == ';' || r[i] == ',') ==> i > 0 && r[i - 1] == '\\'
  }

  /** `_escape_text`: the four replacements in the source's order, the
      backslash first. */
  function EscapeText(text: string): (r: string)
    ensures r == Escaped(text)
    ensures '\n' !in r
    ensures Guarded(r)
  {
    if text == "" then ""
    else
      var r := ReplaceAll(ReplaceAll(ReplaceAll(ReplaceAll(text, "\\", "\\\\"), ";", "\\;"), ",", "\\,"), "\n", "\\n");
      ChainIsEscaped(text);
      EscapedShape(text);
      r
  }

  /** The replacement chain as four character maps. */
  function Chain(s: string): string {
    MapChar(MapChar(MapChar(MapChar(s, '\\', "\\\\"), ';', "\\;"), ',', "\\,"), '\n', "\\n")
  }

  lemma ChainConcat(a: string, b: string)
    ensures Chain(a + b) == Chain(a) + Chain(b)
  {
    var a1, b1 := MapChar(a, '\\', "\\\\"), MapChar(b, '\\', "\\\\");
    MapCharConcat(a, b, '\\', "\\\\");
    var a2, b2 := MapChar(a1, ';', "\\;"), MapChar(b1, ';', "\\;");
    MapCharConcat(a1, b1, ';', "\\;");
    var a3, b3 := MapChar(a2, ',', "\\,"), MapChar(b2, ',', "\\,");
    MapCharConcat(a2, b2, ',', "\\,");
    MapCharConcat(a3, b3, '\n', "\\n");
  }

  /** A backslash inserted by an earlier replacement is never touched by a
      later one, so the chain escapes each character on its own. */
  lemma ChainOne(x: char)
    ensures Chain([x]) == EscapeChar(x)
  {
    MapCharOne(x, '\\', "\\\\");
    var s1 := MapChar([x], '\\', "\\\\");
    if x == '\\' {
      MapCharAbsent(s1, ';', "\\;");
      MapCharAbsent(s1, ',', "\\,");
      MapCharAbsent(s1, '\n', "\\n");
    } else {
      MapCharOne(x, ';', "\\;");
      var s2 := MapChar(s1, ';', "\\;");
      if x == ';' {
        MapCharAbsent(s2, ',', "\\,");
        MapCharAbsent(s2, '\n', "\\n");
      } else {
        MapCharOne(x, ',', "\\,");
        var s3 := MapChar(s2, ',', "\\,");
        if x == ',' {
          MapCharAbsent(s3, '\n', "\\n");
        } else {
          MapCharOne(x, '\n', "\\n");
        }
      }
    }
  }

  lemma {:induction false} ChainIsEscaped(s: string)
    ensures ReplaceAll(ReplaceAll(ReplaceAll(ReplaceAll(s, "\\", "\\\\"), ";", "\\;"), ",", "\\,"), "\n", "\\n")
      == Escaped(s)
    decreases |s|
  {
    ReplaceOneChar(s, '\\', "\\\\");
    var s1 := MapChar(s, '\\', "\\\\");
    ReplaceOneChar(s1, ';', "\\;");
    var s2 := MapChar(s1, ';', "\\;");
    ReplaceOneChar(s2, ',', "\\,");
    var s3 := MapChar(s2, ',', "\\,");
    ReplaceOneChar(s3, '\n', "\\n");
    ChainEscaped(s);
  }

  lemma {:induction false} ChainEscaped(s: string)
    ensures Chain(s) == Escaped(s)
    decreases |s|
  {
    if s != [] {
      assert s == [s[0]] + s[1..];
      ChainConcat([s[0]], s[1..]);
      ChainOne(s[0]);
      ChainEscaped(s[1..]);
    }
  }

  lemma {:induction false} EscapedShape(s: string)
    ensures '\n' !in Escaped(s)
    ensures Guarded(Escaped(s))
    ensures Escaped(s) == [] || (Escaped(s)[0] != ';' && Escaped(s)[0] != ',')
    decreases |s|
  {
    if s != [] {
      var e, rest := EscapeChar(s[0]), Escaped(s[1..]);
      EscapedShape(s[1..]);
      var r := e + rest;
      forall i | 0 <= i < |r| && (r[i] == ';' || r[i] == ',') ensures i > 0 && r[i - 1] == '\\' {
        if i < |e| {
          assert e[i] == ';' || e[i] == ',';
          assert e == "\\;" || e == "\\,";
        } else {
          assert rest[i - |e|] == r[i];
          assert i - |e| > 0 && rest[i - |e| - 1] == '\\';
          assert r[i - 1] == rest[i - |e| - 1];
        }
      }
    }
  }

  /** Decoding a TEXT value: `\\`, `\;`, `\,` and `\n` stand for the
      character they escape; any other character stands for itself. */
  function Unescape(s: string): (r: string)
    decreases |s|
  {
    if s == [] then ""
    else if s[0] == '\\' && |s| >= 2 && s[1] in {'\\', ';', ','} then [s[1]] + Unescape(s[2..])
    else if s[0] == '\\' && |s| >= 2 && s[1] == 'n' then "\n" + Unescape(s[2..])
    else [s[0]] + Unescape(s[1..])
  }

  lemma UnescapeOne(x: char, rest: string)
    ensures Unescape(EscapeChar(x) + rest) == [x] + Unescape(rest)
  {
    var e := EscapeChar(x);
    if |e| == 2 {
      assert (e + rest)[2..] == rest;
    } else {
      assert (e + rest)[1..] == rest;
    }
  }

  /** Escaping loses nothing: decoding gives the text back. */
  lemma {:induction false} UnescapeEscaped(s: string)
    ensures Unescape(EscapeText(s)) == s
    decreases |s|
  {
    if s != [] {
      UnescapeEscaped(s[1..]);
      UnescapeOne(s[0], Escaped(s[1..]));
      assert s == [s[0]] + s[1..];
    }
  }

  // ---------------------------------------------------------------------------
  // The date and time format `%Y-%m-%d %H:%M`
  // ---------------------------------------------------------------------------

  datatype Stamp = Stamp(year: int, month: int, day: int, hour: int, minute: int)

  predicate Leap(y: int) {
    (y % 4 == 0 && y % 100 != 0) || y % 400 == 0
  }

  function DaysInMonth(y: int, m: int): (n: int)
    requires 1 <= m <= 12
    ensures 28 <= n <= 31
  {
    if m == 2 then (if Leap(y) then 29 else 28)
    else if m == 4 || m == 6 || m == 9 || m == 11 then 30
    else 31
  }

  predicate ValidDate(y: int, m: int, d: int) {
    1 <= m <= 12 && 1 <= d <= DaysInMonth(y, m)
  }

  /** What `datetime` accepts. */
  predicate ValidStamp(st: Stamp) {
    1 <= st.year <= 9999 && ValidDate(st.year, st.month, st.day)
    && 0 <= st.hour < 24 && 0 <= st.minute < 60
  }

  /** The end of the digit run that starts at i. */
  function DigitsEnd(s: string, i: nat): (e: nat)
    requires i <= |s|
    ensures i <= e <= |s| && AllDigits(s[i..e])
    ensures e == |s| || !IsDigit(s[e])
    decreases |s| - i
  {
    if i < |s| && IsDigit(s[i]) then
      var e := DigitsEnd(s, i + 1);
      assert s[i..e] == [s[i]] + s[i + 1..e];
      e
    else i
  }

  /** The end of the whitespace run that starts at i. */
  function SpacesEnd(s: string, i: nat): (e: nat)
    requires i <= |s|
    ensures i <= e <= |s|
    ensures forall k :: i <= k < e ==> PySpace(s[k])
    ensures e == |s| || !PySpace(s[e])
    decreases |s| - i
  {
    if i < |s| && PySpace(s[i]) then SpacesEnd(s, i + 1) else i
  }

  /** A one- or two-digit field at i, followed by the separator sep (or by
      the end of the text when sep is None), with its value. */
  function Field2(s: string, i: nat, sep: Option<char>): (r: Option<(int, nat)>)
    requires i <= |s|
    ensures r.Some? ==> 0 <= r.value.0 < 100 && i < r.value.1 <= |s|
  {
    var e := DigitsEnd(s, i);
    if e - i < 1 || e - i > 2 then None
    else if sep.None? && e != |s| then None
    else if sep.Some? && (e == |s| || s[e] != sep.value) then None
    else Some((DigitsValue(s[i..e]), if sep.Some? then e + 1 else e))
  }

  /** The `%d` field at i: one or two digits, or a blank and one digit
      from 1 to 9, with its value and where it ends. */
  function DayField(s: string, i: nat): (r: Option<(int, nat)>)
    requires i <= |s|
    ensures r.Some? ==> 0 <= r.value.0 < 100 && i < r.value.1 <= |s|
  {
    if i < |s| && s[i] == ' ' then
      if i + 1 < |s| && '1' <= s[i + 1] <= '9' then Some((DigitsValue(s[i + 1..i + 2]), i + 2)) else None
    else
      var e := DigitsEnd(s, i);
      if e - i < 1 || e - i > 2 then None else Some((DigitsValue(s[i..e]), e))
  }

  /** `datetime.strptime(s, "%Y-%m-%d %H:%M")`: four year digits, one or two
      digits for each other field (the day may also be a blank and one
      digit), at least one blank between date and time, nothing after the
      minutes, and the values a real date and time. */
  function ParseStamp(s: string): (r: Option<Stamp>)
    ensures r.Some? ==> ValidStamp(r.value)
  {
    if |s| < 5 || !AllDigits(s[..4]) || s[4] != '-' then None
    else
      var month := Field2(s, 5, Some('-'));
      if month.None? then None
      else
        var day := DayField(s, month.value.1);
        if day.None? then None
        else
          var we := SpacesEnd(s, day.value.1);
          if we == day.value.1 then None
          else
            var hour := Field2(s, we, Some(':'));
            if hour.None? then None
            else
              var minute := Field2(s, hour.value.1, None);
              if minute.None? then None
              else
                var st := Stamp(DigitsValue(s[..4]), month.value.0, day.value.0, hour.value.0, minute.value.0);
                if ValidStamp(st) then Some(st) else None
  }

  /** The text `strftime("%Y-%m-%d %H:%M")` writes: every field zero-padded. */
  function StampInput(st: Stamp): (r: string)
    requires ValidStamp(st)
    ensures |r| == 16
  {
    Pad2(st.year / 100) + Pad2(st.year % 100) + "-" + Pad2(st.month) + "-" + Pad2(st.day) + " "
    + Pad2(st.hour) + ":" + Pad2(st.minute)
  }

  /** Sixteen characters laid out as "YYYY-MM-DD HH:MM"; the day may be a
      blank and a digit from 1 to 9. */
  predicate StampShaped(t: string) {
    |t| == 16 && AllDigits(t[..4]) && t[4] == '-' && IsDigit(t[5]) && IsDigit(t[6]) && t[7] == '-'
    && (IsDigit(t[8]) || (t[8] == ' ' && '1' <= t[9] <= '9')) && IsDigit(t[9]) && t[10] == ' '
    && IsDigit(t[11]) && IsDigit(t[12]) && t[13] == ':' && IsDigit(t[14]) && IsDigit(t[15])
  }

  /** The fields of a shaped text, as numbers. */
  function ShapedStamp(t: string): Stamp
    requires StampShaped(t)
  {
    var day := if t[8] == ' ' then DigitsValue(t[9..10]) else DigitsValue(t[8..10]);
    Stamp(DigitsValue(t[..4]), DigitsValue(t[5..7]), day, DigitsValue(t[11..13]), DigitsValue(t[14..16]))
  }

  /** A digit run of a known length ends where it stops. */
  lemma {:induction false} DigitsEndAt(s: string, i: nat, e: nat)
    requires i <= e <= |s| && AllDigits(s[i..e]) && (e == |s| || !IsDigit(s[e]))
    ensures DigitsEnd(s, i) == e
    decreases e - i
  {
    if i < e {
      assert s[i] == s[i..e][0];
      assert s[i + 1..e] == s[i..e][1..];
      DigitsEndAt(s, i + 1, e);
    }
  }

  /** Every field of a shaped text is where the format expects it. */
  lemma ShapedFields(t: string)
    requires StampShaped(t)
    ensures Field2(t, 5, Some('-')) == Some((DigitsValue(t[5..7]), 8))
    ensures DayField(t, 8) == Some((ShapedStamp(t).day, 10))
    ensures SpacesEnd(t, 10) == 11
    ensures Field2(t, 11, Some(':')) == Some((DigitsValue(t[11..13]), 14))
    ensures Field2(t, 14, None) == Some((DigitsValue(t[14..16]), 16))
  {
    DigitsEndAt(t, 5, 7);
    if t[8] != ' ' {
      DigitsEndAt(t, 8, 10);
    }
    assert SpacesEnd(t, 11) == 11;
    DigitsEndAt(t, 11, 13);
    DigitsEndAt(t, 14, 16);
  }

  /** A shaped text parses to its fields when they make a real date and
      time, and fails otherwise. */
  lemma ShapedParses(t: string)
    requires StampShaped(t)
    ensures ParseStamp(t) == (if ValidStamp(ShapedStamp(t)) then Some(ShapedStamp(t)) else None)
  {
    ShapedFields(t);
  }

  /** Two digits of Pad2(n) read back as n. */
  lemma Pad2Value(n: nat)
    requires n < 100
    ensures |Pad2(n)| == 2 && DigitsValue(Pad2(n)) == n
  {
    var p := Pad2(n);
    if n < 10 {
      assert NatToString(n) == [DigitChar(n)];
      assert DigitChar(0) == '0';
    } else {
      assert NatToString(n / 10) == [DigitChar(n / 10)];
    }
    assert p == [DigitChar(n / 10), DigitChar(n % 10)];
    assert p[..1] == [DigitChar(n / 10)];
    assert p[..1][..0] == [];
  }

  /** Four digits read back as the value of their halves. */
  lemma FourDigits(a: string, b: string)
    requires |a| == 2 && |b| == 2 && AllDigits(a) && AllDigits(b)
    ensures AllDigits(a + b) && DigitsValue(a + b) == DigitsValue(a) * 100 + DigitsValue(b)
  {
    var s := a + b;
    assert s[..3] == a + b[..1];
    assert (a + b[..1])[..2] == a;
    assert b[..1][..0] == [];
  }

  /** The zero-padded text of a valid stamp is shaped, with the stamp's
      fields. */
  lemma InputShaped(st: Stamp)
    requires ValidStamp(st)
    ensures StampShaped(StampInput(st)) && ShapedStamp(StampInput(st)) == st
  {
    var t := StampInput(st);
    var y := Pad2(st.year / 100) + Pad2(st.year % 100);
    Pad2Value(st.year / 100);
    Pad2Value(st.year % 100);
    FourDigits(Pad2(st.year / 100), Pad2(st.year % 100));
    Pad2Value(st.month);
    Pad2Value(st.day);
    Pad2Value(st.hour);
    Pad2Value(st.minute);
    assert t[..4] == y;
    assert t[5..7] == Pad2(st.month);
    assert t[8..10] == Pad2(st.day);
    assert t[11..13] == Pad2(st.hour);
    assert t[14..16] == Pad2(st.minute);
  }

  /** A blank before a one-digit day reads as a leading zero: "2025-03- 7"
      is the 7th of March. */
  lemma SpacedDayIsPadded(t: string)
    requires StampShaped(t) && t[8] == ' '
    ensures StampShaped(t[8 := '0']) && ParseStamp(t) == ParseStamp(t[8 := '0'])
  {
    var u := t[8 := '0'];
    assert u[..4] == t[..4] && u[5..7] == t[5..7] && u[11..13] == t[11..13] && u[14..16] == t[14..16];
    assert u[8..10] == ['0', t[9]] && u[8..10][..1] == ['0'] && ['0'][..0] == [];
    assert t[9..10] == [t[9]] && [t[9]][..0] == [];
    assert DigitsValue(['0']) == 0;
    assert DigitsValue(u[8..10]) == DigitsValue(t[9..10]);
    assert ShapedStamp(u) == ShapedStamp(t);
    ShapedParses(t);
    ShapedParses(u);
  }

  /** Round trip: the "YYYY-MM-DD HH:MM" text of a valid stamp parses back
      to it. */
  lemma ParseStampInput(st: Stamp)
    requires ValidStamp(st)
    ensures ParseStamp(StampInput(st)) == Some(st)
  {
    InputShaped(st);
    ShapedParses(StampInput(st));
  }

  /** `strftime("%Y%m%dT%H%M%S")`, the seconds always zero. The year is
      written unpadded, as the platform's C library does. */
  function StampText(st: Stamp): (r: string)
    requires ValidStamp(st)
    ensures 12 <= |r| && '\n' !in r
  {
    NatToString(st.year) + Pad2(st.month) + Pad2(st.day) + "T" + Pad2(st.hour) + Pad2(st.minute) + "00"
  }

  // ---------------------------------------------------------------------------
  // The end of the event
  // ---------------------------------------------------------------------------

  function NextDay(y: int, m: int, d: int): (r: (int, int, int))
    requires ValidDate(y, m, d)
    ensures ValidDate(r.0, r.1, r.2)
  {
    if d < DaysInMonth(y, m) then (y, m, d + 1)
    else if m < 12 then (y, m + 1, 1)
    else (y + 1, 1, 1)
  }

  function PrevDay(y: int, m: int, d: int): (r: (int, int, int))
    requires ValidDate(y, m, d)
    ensures ValidDate(r.0, r.1, r.2)
  {
    if d > 1 then (y, m, d - 1)
    else if m > 1 then (y, m - 1, DaysInMonth(y, m - 1))
    else (y - 1, 12, 31)
  }

  /** The day n days later (earlier when n < 0). */
  function ShiftDays(y: int, m: int, d: int, n: int): (r: (int, int, int))
    requires ValidDate(y, m, d)
    ensures ValidDate(r.0, r.1, r.2)
    ensures n == 0 ==> r == (y, m, d)
    decreases if n < 0 then -n else n
  {
    if n == 0 then (y, m, d)
    else if n > 0 then
      var nd := NextDay(y, m, d);
      ShiftDays(nd.0, nd.1, nd.2, n - 1)
    else
      var pd := PrevDay(y, m, d);
      ShiftDays(pd.0, pd.1, pd.2, n + 1)
  }

  /** `inicio + timedelta(minutes=n)`: the clock time wraps modulo a day and
      the date moves by the whole days carried. */
  function AddMinutes(st: Stamp, n: int): (r: Stamp)
    requires ValidStamp(st)
    ensures ValidDate(r.year, r.month, r.day)
    ensures r.hour * 60 + r.minute == (st.hour * 60 + st.minute + n) % 1440
    ensures 0 <= r.hour < 24 && 0 <= r.minute < 60
    ensures 0 <= st.hour * 60 + st.minute + n < 1440 ==> r.year == st.year && r.month == st.month && r.day == st.day
  {
    var total := st.hour * 60 + st.minute + n;
    var date := ShiftDays(st.year, st.month, st.day, total / 1440);
    Stamp(date.0, date.1, date.2, (total % 1440) / 60, (total % 1440) % 60)
  }

  // ---------------------------------------------------------------------------
  // The invitation
  // ---------------------------------------------------------------------------

  /** The lines of the invitation, in the template's order. */
  function IcsLines(titulo: string, descripcion: string, ubicacion: string, timezone: string,
                    uuid: string, dtstamp: string, start: string, end: string): (lines: seq<string>)
    ensures |lines| == 15
    ensures lines[0] == "BEGIN:VCALENDAR" && lines[14] == "END:VCALENDAR"
    ensures lines[7] == "SUMMARY:" + EscapeText(titulo)
    ensures lines[8] == "DESCRIPTION:" + EscapeText(descripcion)
    ensures lines[9] == "LOCATION:" + EscapeText(ubicacion)
    ensures lines[10] == "DTSTART;TZID=" + timezone + ":" + start
    ensures lines[11] == "DTEND;TZID=" + timezone + ":" + end
  {
    ["BEGIN:VCALENDAR",
     "VERSION:2.0",
     "PRODID:-//Claria//Calendar//ES",
     "CALSCALE:GREGORIAN",
     "BEGIN:VEVENT",
     "UID:" + uuid + "@claria.ai",
     "DTSTAMP:" + dtstamp,
     "SUMMARY:" + EscapeText(titulo),
     "DESCRIPTION:" + EscapeText(descripcion),
     "LOCATION:" + EscapeText(ubicacion),
     "DTSTART;TZID=" + timezone + ":" + start,
     "DTEND;TZID=" + timezone + ":" + end,
     "STATUS:CONFIRMED",
     "END:VEVENT",
     "END:VCALENDAR"]
  }

  /** The prefix `_parse_datetime` puts before strptime's own message. */
  const InvalidPrefix: string := "Fecha u hora inválida: "

  /** `crear_invitacion_ics`: an empty title, an empty date or time, or a
      date and time `strptime` refuses each raise a ValueError; an end
      outside the years 1 to 9999 raises OverflowError("date value out of
      range"); otherwise the document's lines joined by newlines (the
      template's final newline is stripped). The duration is in whole
      minutes. */
  function CreateInvitation(titulo: string, descripcion: string, ubicacion: string, fecha: string, hora: string,
                            durationMinutes: int, timezone: string, uuid: string, dtstamp: string)
    : (r: Result<string, string>)
    ensures titulo == "" ==> r == Failure("El título del evento es obligatorio")
    ensures titulo != "" && (fecha == "" || hora == "") ==> r == Failure("Fecha y hora son obligatorias")
    ensures titulo != "" && fecha != "" && hora != "" && ParseStamp(fecha + " " + hora).None?
      ==> r.Failure? && StartsWith(r.error, InvalidPrefix)
    ensures titulo != "" && fecha != "" && hora != "" && ParseStamp(fecha + " " + hora).Some?
      && !ValidStamp(AddMinutes(ParseStamp(fecha + " " + hora).value, durationMinutes))
      ==> r == Failure("date value out of range")
    ensures r.Success? <==>
      (titulo != "" && fecha != "" && hora != "" && ParseStamp(fecha + " " + hora).Some?
       && ValidStamp(AddMinutes(ParseStamp(fecha + " " + hora).value, durationMinutes)))
    ensures r.Success? ==>
      var st := ParseStamp(fecha + " " + hora).value;
      r.value == Join("\n", IcsLines(titulo, descripcion, ubicacion, timezone, uuid, dtstamp,
                                     StampText(st), StampText(AddMinutes(st, durationMinutes))))
  {
    if titulo == "" then Failure("El título del evento es obligatorio")
    else if fecha == "" || hora == "" then Failure("Fecha y hora son obligatorias")
    else
      match ParseStamp(fecha + " " + hora)
      case None => Failure(InvalidPrefix)
      case Some(st) =>
        var fin := AddMinutes(st, durationMinutes);
        if !ValidStamp(fin) then Failure("date value out of range")
        else
          Success(Join("\n", IcsLines(titulo, descripcion, ubicacion, timezone, uuid, dtstamp,
                                      StampText(st), StampText(fin))))
  }

  /** A well-formed example: 2025-03-07 at 9:30 gives the start stamp
      20250307T093000. */
  lemma ExampleStartText()
    ensures StampText(Stamp(2025, 3, 7, 9, 30)) == "20250307T093000"
  {
  }
}
