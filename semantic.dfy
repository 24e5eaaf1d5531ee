/** The semantic course search over the Aprende vector store: each hit's
    text is scanned for a course id with a fixed list of patterns, hits
    below the score threshold, without an id or repeating an id are
    dropped, and the survivors come back best first, at most k of them. */
module AprendeSemantic {
  import opened Wrappers
  import opened Text
  import Lists
  import Seqs

  // ---------------------------------------------------------------------------
  // The course id patterns
  // ---------------------------------------------------------------------------

  /** The two shapes of COURSE_ID_PATTERNS:
      `key \s* sep \s* q (\d+) q`, where the quote q may be absent, and
      `prefix (\d+) close`. */
  datatype IdPattern =
    | Keyed(key: string, sep: char, quote: Option<char>)
    | Dashed(prefix: string, close: char)

  /** COURSE_ID_PATTERNS, in the order they are tried. */
  const Patterns: seq<IdPattern> := [
    Keyed("\"courseId\"", ':', Some('"')),
    Keyed("\"courseId\"", ':', None),
    Keyed("'courseId'", ':', Some('\'')),
    Keyed("'courseId'", ':', None),
    Dashed("curso-", '-'),
    Keyed("courseId", '=', Some('"')),
    Keyed("courseId", '=', None),
    Keyed("id", ':', Some('"')),
    Keyed("id", ':', None),
    Keyed("\"id\"", ':', Some('"')),
    Keyed("\"id\"", ':', None),
    Keyed("ID", ':', None),
    Keyed("curso_id", ':', Some('"')),
    Keyed("curso_id", ':', None),
    Keyed("course_id", ':', Some('"')),
    Keyed("course_id", ':', None)]

  /** The end of the run of whitespace starting at j. */
  function SkipSpace(s: string, j: nat): (e: nat)
    requires j <= |s|
    ensures j <= e <= |s|
    ensures forall m :: j <= m < e ==> PySpace(s[m])
    ensures e < |s| ==> !PySpace(s[e])
    decreases |s| - j
  {
    if j == |s| || !PySpace(s[j]) then j else SkipSpace(s, j + 1)
  }

  /** The end of the run of digits starting at j. */
  function DigitsEnd(s: string, j: nat): (e: nat)
    requires j <= |s|
    ensures j <= e <= |s|
    ensures forall m :: j <= m < e ==> IsDigit(s[m])
    ensures e < |s| ==> !IsDigit(s[e])
    decreases |s| - j
  {
    if j == |s| || !IsDigit(s[j]) then j else DigitsEnd(s, j + 1)
  }

  predicate IsCourseId(d: string) {
    d != "" && AllDigits(d)
  }

  /** `(\d+)` at j, followed by `close` when there is one. The digit run is
      taken whole: giving digits back cannot help, since the character after
      the run is not a digit and `close` is not one either. */
  function DigitsAt(s: string, j: nat, close: Option<char>): (r: Option<string>)
    requires j <= |s|
    ensures r.Some? ==> IsCourseId(r.value) && Contains(s, r.value)
  {
    var e := DigitsEnd(s, j);
    if e == j then None
    else if close.Some? && (e == |s| || s[e] != close.value) then None
    else
      ContainsAt(s, s[j..e], j);
      Some(s[j..e])
  }

  predicate LiteralAt(s: string, i: nat, lit: string) {
    i + |lit| <= |s| && s[i..i + |lit|] == lit
  }

  /** The group a pattern captures when matched at position i. Each `\s*`
      is taken whole, since what follows it (a separator, a quote, a digit)
      is never whitespace, so the match is unique. */
  function MatchAt(s: string, i: nat, p: IdPattern): (r: Option<string>)
    requires i <= |s|
    ensures r.Some? ==> IsCourseId(r.value) && Contains(s, r.value)
  {
    match p
    case Keyed(key, sep, quote) =>
      if !LiteralAt(s, i, key) then None
      else
        var a := SkipSpace(s, i + |key|);
        if a == |s| || s[a] != sep then None
        else
          var b := SkipSpace(s, a + 1);
          if quote.None? then DigitsAt(s, b, None)
          else if b < |s| && s[b] == quote.value then DigitsAt(s, b + 1, quote)
          else None
    case Dashed(prefix, close) =>
      if !LiteralAt(s, i, prefix) then None else DigitsAt(s, i + |prefix|, Some(close))
  }

  /** `re.search(pattern, s).group(1)`: the match at the leftmost position
      from i where the pattern matches. */
  function Search(s: string, i: nat, p: IdPattern): (r: Option<string>)
    requires i <= |s|
    ensures r.Some? ==> IsCourseId(r.value) && Contains(s, r.value)
    decreases |s| - i
  {
    match MatchAt(s, i, p)
    case Some(d) => Some(d)
    case None => if i == |s| then None else Search(s, i + 1, p)
  }

  function Finds(s: string): IdPattern -> bool {
    p => Search(s, 0, p).Some?
  }

  /** The group of the first pattern, in list order, that occurs in s. */
  function FirstMatch(s: string, pats: seq<IdPattern>): (r: Option<string>)
    ensures r.None? <==> forall k :: 0 <= k < |pats| ==> Search(s, 0, pats[k]).None?
    ensures r.Some? ==> exists k :: (0 <= k < |pats| && r == Search(s, 0, pats[k])
      && forall j :: 0 <= j < k ==> Search(s, 0, pats[j]).None?)
    ensures r.Some? ==> IsCourseId(r.value) && Contains(s, r.value)
  {
    match Lists.FindFirst(Finds(s), pats)
    case None => None
    case Some(k) => Search(s, 0, pats[k])
  }

  /** `_extract_course_id_from_text`: None for an empty text, otherwise the
      digits captured by the first pattern of the list that occurs in it. */
  function ExtractCourseId(texto: string): (r: Option<string>)
    ensures texto == "" ==> r.None?
    ensures texto != "" ==> r == FirstMatch(texto, Patterns)
    ensures r.Some? ==> IsCourseId(r.value) && Contains(texto, r.value)
  {
    if texto == "" then None else FirstMatch(texto, Patterns)
  }

  // ---------------------------------------------------------------------------
  // _process_search_item
  // ---------------------------------------------------------------------------

  /** The "content" of a hit: missing (read as an empty list), something
      other than a list, or the texts of its parts as
      `_extract_text_from_content` reads them. */
  datatype Content = Absent | NotAList | Texts(texts: seq<string>)

  /** A hit of the vector store, its score already converted to a number. */
  datatype Item = Item(score: real, content: Content)

  datatype Course = Course(courseId: string, courseName: string, score: real, preview: string)

  /** The id found while reading the parts, and the text read so far. */
  datatype Gathered = Gathered(id: Option<string>, fullText: string)

  /** The scan of the parts: every non-empty text is added to the full text
      with a blank after it, and the scan stops at the first text that holds
      an id. */
  function Gather(texts: seq<string>): (g: Gathered)
    ensures g.id.Some? ==> IsCourseId(g.id.value)
  {
    if texts == [] then Gathered(None, "")
    else if texts[0] == "" then Gather(texts[1..])
    else match ExtractCourseId(texts[0])
      case Some(id) => Gathered(Some(id), texts[0] + " ")
      case None =>
        var g := Gather(texts[1..]);
        Gathered(g.id, texts[0] + " " + g.fullText)
  }

  /** The id of a hit: the first part that holds one, else whatever the
      patterns find in the whole text (an id split across two parts). */
  function ItemId(texts: seq<string>): (id: Option<string>)
    ensures id.Some? ==> IsCourseId(id.value)
  {
    var g := Gather(texts);
    if g.id.Some? then g.id else ExtractCourseId(g.fullText)
  }

  /** `get_course_name_from_catalog`. */
  function CourseName(id: string): (n: string)
    ensures |n| == |id| + 6 && n[..6] == "Curso " && n[6..] == id
  {
    "Curso " + id
  }

  const PreviewLength: nat := 200

  /** `full_text[:200] + "..."` for a long text, the text itself otherwise. */
  function Preview(full: string): (p: string)
    ensures |p| <= PreviewLength + 3
    ensures |full| <= PreviewLength ==> p == full
    ensures |full| > PreviewLength ==>
      |p| == PreviewLength + 3 && p[..PreviewLength] == full[..PreviewLength]
  {
    if |full| > PreviewLength then full[..PreviewLength] + "..." else full
  }

  function TextsOf(c: Content): seq<string> {
    if c.Texts? then c.texts else []
  }

  /** What `_process_search_item` returns for a hit, given the ids already
      seen. */
  function Process(item: Item, seen: set<string>, threshold: real): (r: Option<Course>)
    ensures item.score < threshold || item.content.NotAList? ==> r.None?
    ensures r.Some? ==>
      r.value.score == item.score && threshold <= r.value.score
      && r.value.courseId !in seen && IsCourseId(r.value.courseId)
      && r.value.courseName == CourseName(r.value.courseId)
      && |r.value.preview| <= PreviewLength + 3
    ensures r.None? && item.score >= threshold && !item.content.NotAList? ==>
      ItemId(TextsOf(item.content)).None? || ItemId(TextsOf(item.content)).value in seen
  {
    if item.score < threshold || item.content.NotAList? then None
    else
      var texts := TextsOf(item.content);
      match ItemId(texts)
      case None => None
      case Some(id) =>
        if id in seen then None
        else Some(Course(id, CourseName(id), item.score, Preview(Gather(texts).fullText)))
  }

  /** One more part read: an empty one is skipped, one with an id ends the
      scan, any other is added to the text. */
  lemma GatherStep(texts: seq<string>, i: nat)
    requires i < |texts|
    ensures texts[i] == "" ==> Gather(texts[i..]) == Gather(texts[i + 1..])
    ensures texts[i] != "" && ExtractCourseId(texts[i]).Some? ==>
      Gather(texts[i..]) == Gathered(ExtractCourseId(texts[i]), texts[i] + " ")
    ensures texts[i] != "" && ExtractCourseId(texts[i]).None? ==>
      Gather(texts[i..]) == Gathered(Gather(texts[i + 1..]).id, texts[i] + " " + Gather(texts[i + 1..]).fullText)
  {
    assert texts[i..][0] == texts[i] && texts[i..][1..] == texts[i + 1..];
  }

  lemma ProcessOf(item: Item, seen: set<string>, threshold: real)
    requires item.score >= threshold && !item.content.NotAList?
    ensures var g := Gather(TextsOf(item.content));
      var id := if g.id.Some? then g.id else ExtractCourseId(g.fullText);
      Process(item, seen, threshold)
      == if id.None? || id.value in seen then None
         else Some(Course(id.value, CourseName(id.value), item.score, Preview(g.fullText)))
  {
  }

  /** `_process_search_item`, with the loop over the parts. The set of seen
      ids that Python updates in place is returned updated. */
  method ProcessSearchItem(item: Item, seen: set<string>, threshold: real)
    returns (r: Option<Course>, seen2: set<string>)
    ensures r == Process(item, seen, threshold)
    ensures seen2 == if r.Some? then seen + {r.value.courseId} else seen
  {
    if item.score < threshold {
      return None, seen;
    }
    if item.content.NotAList? {
      return None, seen;
    }
    var texts := TextsOf(item.content);
    var courseId: Option<string> := None;
    var fullText := "";
    var i := 0;
    while i < |texts|
      invariant 0 <= i <= |texts|
      invariant courseId.None?
      invariant Gather(texts) == Gathered(Gather(texts[i..]).id, fullText + Gather(texts[i..]).fullText)
    {
      var texto := texts[i];
      GatherStep(texts, i);
      if texto != "" {
        Seqs.Assoc(fullText, texto + " ", Gather(texts[i + 1..]).fullText);
        fullText := fullText + (texto + " ");
        courseId := ExtractCourseId(texto);
        if courseId.Some? {
          assert Gather(texts) == Gathered(courseId, fullText);
          break;
        }
      }
      i := i + 1;
    }
    ghost var g := Gather(texts);
    assert g.fullText == fullText && (g.id.Some? ==> g.id == courseId);
    if courseId.None? {
      courseId := ExtractCourseId(fullText);
    }
    ProcessOf(item, seen, threshold);
    if courseId.None? {
      return None, seen;
    }
    if courseId.value in seen {
      return None, seen;
    }
    seen2 := seen + {courseId.value};
    r := Some(Course(courseId.value, CourseName(courseId.value), item.score, Preview(fullText)));
  }

  // ---------------------------------------------------------------------------
  // search_courses
  // ---------------------------------------------------------------------------

  function Ids(s: seq<Course>): set<string> {
    set j | 0 <= j < |s| :: s[j].courseId
  }

  lemma IdsSnoc(s: seq<Course>, c: Course)
    ensures Ids(s + [c]) == Ids(s) + {c.courseId}
  {
    var t := s + [c];
    forall x | x in Ids(t) ensures x in Ids(s) + {c.courseId} {
      var j :| 0 <= j < |t| && t[j].courseId == x;
      if j < |s| {
        assert t[j] == s[j];
      }
    }
    forall x | x in Ids(s) + {c.courseId} ensures x in Ids(t) {
      if x in Ids(s) {
        var j :| 0 <= j < |s| && s[j].courseId == x;
        assert t[j] == s[j];
      } else {
        assert t[|s|] == c;
      }
    }
  }

  predicate UniqueIds(s: seq<Course>) {
    forall i, j :: 0 <= i < j < |s| ==> s[i].courseId != s[j].courseId
  }

  /** What every kept course satisfies. */
  predicate Kept(c: Course, threshold: real) {
    threshold <= c.score && IsCourseId(c.courseId) && c.courseName == CourseName(c.courseId)
    && |c.preview| <= PreviewLength + 3
  }

  predicate AllKept(s: seq<Course>, threshold: real) {
    forall i :: 0 <= i < |s| ==> Kept(s[i], threshold)
  }

  /** The preliminary results: the hits from position i on are processed
      in order, and the scan stops as soon as 2k results are in hand. */
  function Collect(items: seq<Item>, i: nat, acc: seq<Course>, threshold: real, k: int): seq<Course>
    requires i <= |items|
    decreases |items| - i
  {
    if i == |items| then acc
    else
      var next := match Process(items[i], Ids(acc), threshold) case Some(c) => acc + [c] case None => acc;
      if |next| >= 2 * k then next else Collect(items, i + 1, next, threshold, k)
  }

  lemma CollectStep(items: seq<Item>, i: nat, acc: seq<Course>, threshold: real, k: int)
    requires i < |items|
    ensures var next := match Process(items[i], Ids(acc), threshold) case Some(c) => acc + [c] case None => acc;
      Collect(items, i, acc, threshold, k) == if |next| >= 2 * k then next else Collect(items, i + 1, next, threshold, k)
  {
  }

  /** The preliminary results of all the hits. */
  function Preliminary(items: seq<Item>, threshold: real, k: int): seq<Course> {
    Collect(items, 0, [], threshold, k)
  }

  lemma ProcessSnoc(acc: seq<Course>, c: Course, item: Item, threshold: real)
    requires UniqueIds(acc) && AllKept(acc, threshold)
    requires Process(item, Ids(acc), threshold) == Some(c)
    ensures UniqueIds(acc + [c]) && AllKept(acc + [c], threshold)
  {
    var t := acc + [c];
    forall i, j | 0 <= i < j < |t| ensures t[i].courseId != t[j].courseId {
      if j == |acc| {
        assert t[i] == acc[i] && acc[i].courseId in Ids(acc);
      } else {
        assert t[i] == acc[i] && t[j] == acc[j];
      }
    }
    forall i | 0 <= i < |t| ensures Kept(t[i], threshold) {
      if i < |acc| {
        assert t[i] == acc[i];
      }
    }
  }

  /** The preliminary results keep the invariants of the scan: ids never
      repeat, and every result passes the threshold and carries an id. */
  lemma {:induction false} CollectKept(items: seq<Item>, i: nat, acc: seq<Course>, threshold: real, k: int)
    requires i <= |items| && UniqueIds(acc) && AllKept(acc, threshold)
    ensures UniqueIds(Collect(items, i, acc, threshold, k)) && AllKept(Collect(items, i, acc, threshold, k), threshold)
    decreases |items| - i
  {
    if i < |items| {
      var p := Process(items[i], Ids(acc), threshold);
      var next := match p case Some(c) => acc + [c] case None => acc;
      CollectStep(items, i, acc, threshold, k);
      if p.Some? {
        ProcessSnoc(acc, p.value, items[i], threshold);
        assert next == acc + [p.value];
      } else {
        assert next == acc;
      }
      if |next| < 2 * k {
        CollectKept(items, i + 1, next, threshold, k);
      }
    }
  }

  /** The most preliminary results a scan can gather: 2k, and one when k is
      not positive, since the check `len(results) >= k * 2` then passes
      after the first hit. */
  function Cap(k: int): nat {
    if k >= 1 then 2 * k else 1
  }

  lemma {:induction false} CollectBound(items: seq<Item>, i: nat, acc: seq<Course>, threshold: real, k: int)
    requires i <= |items| && |acc| < Cap(k)
    ensures |Collect(items, i, acc, threshold, k)| <= Cap(k)
    decreases |items| - i
  {
    if i < |items| {
      var next := match Process(items[i], Ids(acc), threshold) case Some(c) => acc + [c] case None => acc;
      if |next| < 2 * k {
        CollectBound(items, i + 1, next, threshold, k);
      }
    }
  }

  /** Once 2k results are in hand the scan is over: further hits change
      nothing. */
  lemma {:induction false} StopsEarly(items: seq<Item>, more: seq<Item>, i: nat, acc: seq<Course>, threshold: real, k: int)
    requires i < |items| && |Collect(items, i, acc, threshold, k)| >= 2 * k
    ensures Collect(items + more, i, acc, threshold, k) == Collect(items, i, acc, threshold, k)
    decreases |items| - i
  {
    assert (items + more)[i] == items[i];
    var next := match Process(items[i], Ids(acc), threshold) case Some(c) => acc + [c] case None => acc;
    if |next| < 2 * k {
      assert i + 1 < |items|;
      StopsEarly(items, more, i + 1, next, threshold, k);
    }
  }

  // ---------------------------------------------------------------------------
  // results.sort(key=lambda x: x["score"], reverse=True)
  // ---------------------------------------------------------------------------

  predicate Sorted(s: seq<Course>) {
    forall i, j :: 0 <= i < j < |s| ==> s[i].score >= s[j].score
  }

  /** Puts x before the first course that does not score above it, so that
      of equal scores the earlier one stays first. */
  function Insert(x: Course, s: seq<Course>): (r: seq<Course>)
    ensures multiset(r) == multiset(s) + multiset{x}
    ensures forall y :: y in r <==> y == x || y in s
  {
    if s == [] then [x]
    else if s[0].score <= x.score then [x] + s
    else
      assert s == [s[0]] + s[1..];
      [s[0]] + Insert(x, s[1..])
  }

  lemma {:induction false} InsertSorted(x: Course, s: seq<Course>)
    requires Sorted(s)
    ensures Sorted(Insert(x, s))
    decreases |s|
  {
    if s != [] && s[0].score > x.score {
      InsertSorted(x, s[1..]);
      var t := Insert(x, s[1..]);
      var r := [s[0]] + t;
      forall i, j | 0 <= i < j < |r| ensures r[i].score >= r[j].score {
        if i == 0 {
          var y := t[j - 1];
          assert y in t;
          if y != x {
            var m :| 0 <= m < |s[1..]| && s[1..][m] == y;
            assert s[m + 1] == y;
          }
        } else {
          assert r[i] == t[i - 1] && r[j] == t[j - 1];
        }
      }
    }
  }

  lemma {:induction false} InsertUnique(x: Course, s: seq<Course>)
    requires UniqueIds(s) && x.courseId !in Ids(s)
    ensures UniqueIds(Insert(x, s))
    decreases |s|
  {
    if s != [] {
      if s[0].score <= x.score {
        var r := [x] + s;
        forall i, j | 0 <= i < j < |r| ensures r[i].courseId != r[j].courseId {
          assert r[j] == s[j - 1];
          if i > 0 {
            assert r[i] == s[i - 1];
          }
        }
      } else {
        var tail := s[1..];
        assert UniqueIds(tail) by {
          forall i, j | 0 <= i < j < |tail| ensures tail[i].courseId != tail[j].courseId {
            assert tail[i] == s[i + 1] && tail[j] == s[j + 1];
          }
        }
        assert x.courseId !in Ids(tail) by {
          forall j | 0 <= j < |tail| ensures tail[j].courseId != x.courseId {
            assert tail[j] == s[j + 1];
          }
        }
        InsertUnique(x, tail);
        var t := Insert(x, tail);
        var r := [s[0]] + t;
        forall i, j | 0 <= i < j < |r| ensures r[i].courseId != r[j].courseId {
          if i == 0 {
            var y := t[j - 1];
            assert y in t;
            if y == x {
              assert s[0].courseId in Ids(s);
            } else {
              var m :| 0 <= m < |tail| && tail[m] == y;
              assert s[m + 1] == y;
            }
          } else {
            assert r[i] == t[i - 1] && r[j] == t[j - 1];
          }
        }
      }
    }
  }

  /** `sorted(..., key=score, reverse=True)`: a stable insertion sort. */
  function SortDesc(s: seq<Course>): (r: seq<Course>)
    ensures multiset(r) == multiset(s) && |r| == |s|
    ensures forall y :: y in r <==> y in s
    ensures Sorted(r)
  {
    if s == [] then []
    else
      var rest := SortDesc(s[1..]);
      InsertSorted(s[0], rest);
      assert s == [s[0]] + s[1..];
      Insert(s[0], rest)
  }

  lemma {:induction false} SortUnique(s: seq<Course>)
    requires UniqueIds(s)
    ensures UniqueIds(SortDesc(s))
    decreases |s|
  {
    if s != [] {
      var tail := s[1..];
      assert UniqueIds(tail) by {
        forall i, j | 0 <= i < j < |tail| ensures tail[i].courseId != tail[j].courseId {
          assert tail[i] == s[i + 1] && tail[j] == s[j + 1];
        }
      }
      SortUnique(tail);
      var rest := SortDesc(tail);
      assert s[0].courseId !in Ids(rest) by {
        forall j | 0 <= j < |rest| ensures rest[j].courseId != s[0].courseId {
          assert rest[j] in rest;
          var m :| 0 <= m < |tail| && tail[m] == rest[j];
          assert s[m + 1] == rest[j];
        }
      }
      InsertUnique(s[0], rest);
    }
  }

  lemma SortKept(s: seq<Course>, threshold: real)
    requires AllKept(s, threshold)
    ensures AllKept(SortDesc(s), threshold)
  {
    var r := SortDesc(s);
    forall i | 0 <= i < |r| ensures Kept(r[i], threshold) {
      assert r[i] in s;
    }
  }

  // ---------------------------------------------------------------------------
  // The final list
  // ---------------------------------------------------------------------------

  function AtLeast(threshold: real): Course -> bool {
    (c: Course) => c.score >= threshold
  }

  /** Python `s[:k]` for any integer k: a negative k drops |k| elements from
      the end. */
  function PySlice<T>(s: seq<T>, k: int): (r: seq<T>)
    ensures |r| <= |s| && r == s[..|r|]
    ensures k >= 0 ==> |r| == (if k < |s| then k else |s|)
    ensures k < 0 ==> |r| == (if |s| + k > 0 then |s| + k else 0)
  {
    if k >= 0 then Lists.Prefix(s, k)
    else if |s| + k > 0 then s[..|s| + k] else []
  }

  /** What `search_courses` returns for the hits of a search. */
  function Final(items: seq<Item>, threshold: real, k: int): seq<Course> {
    PySlice(Lists.Filter(AtLeast(threshold), SortDesc(Preliminary(items, threshold, k))), k)
  }

  function Max0(k: int): nat { if k < 0 then 0 else k }

  /** The filter by threshold removes nothing: hits below it were already
      skipped while scanning. */
  lemma FilterKeepsAll(items: seq<Item>, threshold: real, k: int)
    ensures var sorted := SortDesc(Preliminary(items, threshold, k));
      Lists.Filter(AtLeast(threshold), sorted) == sorted
  {
    CollectKept(items, 0, [], threshold, k);
    SortKept(Preliminary(items, threshold, k), threshold);
    Lists.FilterAll(AtLeast(threshold), SortDesc(Preliminary(items, threshold, k)));
  }

  /** The result of a search: best score first, every course at or above
      the threshold with a digit-only id and a preview of at most 203
      characters, no id twice, and at most k courses (none when k is not
      positive). */
  lemma FinalProperties(items: seq<Item>, threshold: real, k: int)
    ensures var r := Final(items, threshold, k);
      Sorted(r) && UniqueIds(r) && AllKept(r, threshold) && |r| <= Max0(k)
    ensures var sorted := SortDesc(Preliminary(items, threshold, k));
      Final(items, threshold, k) == sorted[..|Final(items, threshold, k)|]
  {
    var pre := Preliminary(items, threshold, k);
    CollectKept(items, 0, [], threshold, k);
    CollectBound(items, 0, [], threshold, k);
    SortUnique(pre);
    SortKept(pre, threshold);
    FilterKeepsAll(items, threshold, k);
    var sorted := SortDesc(pre);
    var r := Final(items, threshold, k);
    assert r == sorted[..|r|];
    forall i, j | 0 <= i < j < |r| ensures r[i].score >= r[j].score && r[i].courseId != r[j].courseId {
      assert r[i] == sorted[i] && r[j] == sorted[j];
    }
    forall i | 0 <= i < |r| ensures Kept(r[i], threshold) {
      assert r[i] == sorted[i];
    }
  }

  // ---------------------------------------------------------------------------
  // The service
  // ---------------------------------------------------------------------------

  const DefaultThreshold: real := 0.3

  /** What the vector store gives back: no client or store configured, an
      exception during the search, or the list of hits (a "data" that is not
      a list reads as no hits). */
  datatype Reply = Unavailable | Raised | Data(items: seq<Item>)

  /** `SemanticSearchService`. The threshold is a field: a call with
      `min_score` replaces it for this call and every later call on the same
      service. */
  class SemanticSearchService {
    var threshold: real

    constructor()
      ensures threshold == DefaultThreshold
    {
      threshold := DefaultThreshold;
    }

    /** `search_courses(query, k, min_score=...)`, the store's reply given. */
    method SearchCourses(query: Option<string>, k: int, minScore: Option<real>, reply: Reply)
      returns (r: seq<Course>)
      modifies this
      ensures query.None? || PyStrip(query.value) == "" || reply.Unavailable? ==>
        r == [] && threshold == old(threshold)
      ensures query.Some? && PyStrip(query.value) != "" && !reply.Unavailable? ==>
        threshold == (if minScore.Some? then minScore.value else old(threshold))
      ensures reply.Raised? ==> r == []
      ensures query.Some? && PyStrip(query.value) != "" && reply.Data? ==>
        r == Final(reply.items, threshold, k)
    {
      if query.None? || PyStrip(query.value) == "" {
        return [];
      }
      if reply.Unavailable? {
        return [];
      }
      if minScore.Some? {
        threshold := minScore.value;
      }
      if reply.Raised? {
        return [];
      }
      var items := reply.items;
      var th := threshold;
      var results: seq<Course> := [];
      var seen: set<string> := {};
      var i := 0;
      while i < |items|
        invariant 0 <= i <= |items|
        invariant seen == Ids(results) && threshold == th
        invariant Collect(items, i, results, th, k) == Preliminary(items, th, k)
      {
        CollectStep(items, i, results, th, k);
        var result, seen2 := ProcessSearchItem(items[i], seen, th);
        if result.Some? {
          IdsSnoc(results, result.value);
          results := results + [result.value];
        }
        seen := seen2;
        if |results| >= 2 * k {
          break;
        }
        i := i + 1;
      }
      assert results == Preliminary(items, th, k);
      results := SortDesc(results);
      var filtered := Lists.Filter(AtLeast(th), results);
      r := PySlice(filtered, k);
    }
  }
}
