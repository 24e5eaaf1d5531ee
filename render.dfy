/** The chat message renderer of the web client (`formatMessage`): HTML
    comments and stray comment markers are deleted, the text is cut into lines,
    each line becomes one HTML block with its text escaped, and inline markup
    (bold, italic, code, links, bare URLs, coloured emoji) is substituted over
    the joined HTML, one pass after the other.

    Every `String.prototype.replace(/.../g, ...)` pass is a scanner over the
    suffix that is still to be read: at each position it either matches (and
    resumes after the match) or copies one character, exactly as a global
    JavaScript replacement does.  Lookbehinds look at the ORIGINAL string of the
    pass, so the scanners carry what they need of the text already read. */
module Render {
  import opened Wrappers
  import opened Text
  import Seqs

  // ---------------------------------------------------------------------------
  // Comment removal
  // ---------------------------------------------------------------------------

  /** `/<!--[\s\S]*?-->/g` -> '': a comment runs from `<!--` to the first `-->`
      after it; an unterminated `<!--` is kept. */
  function StripComments(s: string): (r: string)
    decreases |s|
  {
    if s == [] then []
    else if Starts4(s, '<', '!', '-', '-') then
      match IndexOf(s[4..], "-->")
      case Some(k) => StripComments(s[4 + k + 3..])
      case None => [s[0]] + StripComments(s[1..])
    else [s[0]] + StripComments(s[1..])
  }

  /** The length of the run of c at the start of s. */
  function RunLen(s: string, c: char): (n: nat)
    ensures n <= |s|
    ensures forall i :: 0 <= i < n ==> s[i] == c
    ensures n < |s| ==> s[n] != c
  {
    if s != [] && s[0] == c then 1 + RunLen(s[1..], c) else 0
  }

  /** `/<!-+/g` -> '': `<!` followed by a run of dashes, the whole run. */
  function StripBangDashes(s: string): (r: string)
    decreases |s|
  {
    if s == [] then []
    else if Starts3(s, '<', '!', '-') then StripBangDashes(s[2 + RunLen(s[2..], '-')..])
    else [s[0]] + StripBangDashes(s[1..])
  }

  /** `/-+>/g` -> '': a run of dashes that ends in `>`.  A run not followed by
      `>` is copied one dash at a time (each later start fails the same way). */
  function StripDashArrows(s: string): (r: string)
    decreases |s|
  {
    if s == [] then []
    else if s[0] == '-' && RunLen(s, '-') < |s| && s[RunLen(s, '-')] == '>' then
      StripDashArrows(s[RunLen(s, '-') + 1..])
    else [s[0]] + StripDashArrows(s[1..])
  }

  /** The three deletions, in the order the renderer applies them: they
      only delete characters, and text without `<` and `>` passes
      unchanged. */
  function Uncomment(s: string): (r: string)
    ensures Subsequence(r, s)
    ensures '<' !in s && '>' !in s ==> r == s
  {
    var a := StripComments(s);
    var b := StripBangDashes(a);
    var r := StripDashArrows(b);
    StripCommentsDeletes(s);
    StripBangDashesDeletes(a);
    StripDashArrowsDeletes(b);
    SubsequenceTrans(b, a, s);
    SubsequenceTrans(r, b, s);
    if '<' !in s && '>' !in s then
      StripCommentsPlain(s);
      StripBangDashesPlain(s);
      StripDashArrowsPlain(s);
      r
    else r
  }

  /** a is obtained from b by deleting characters. */
  predicate Subsequence(a: string, b: string)
    decreases |b|
  {
    a == [] || (b != [] && ((a[0] == b[0] && Subsequence(a[1..], b[1..])) || Subsequence(a, b[1..])))
  }

  lemma {:induction false} SubsequenceRefl(a: string)
    ensures Subsequence(a, a)
    decreases |a|
  {
    if a != [] {
      SubsequenceRefl(a[1..]);
    }
  }

  /** Deleting a prefix of b keeps a subsequence of the rest a subsequence of b. */
  lemma {:induction false} SubsequenceDrop(a: string, b: string, n: nat)
    requires n <= |b| && Subsequence(a, b[n..])
    ensures Subsequence(a, b)
    decreases n
  {
    if n > 0 {
      assert b[1..][n - 1..] == b[n..];
      SubsequenceDrop(a, b[1..], n - 1);
    }
  }

  lemma {:induction false} SubsequenceCons(c: char, a: string, b: string)
    requires b != [] && b[0] == c && Subsequence(a, b[1..])
    ensures Subsequence([c] + a, b)
  {
    assert ([c] + a)[1..] == a;
  }

  lemma {:induction false} SubsequenceTrans(a: string, b: string, c: string)
    requires Subsequence(a, b) && Subsequence(b, c)
    ensures Subsequence(a, c)
    decreases |c|, |b|
  {
    if a == [] {
    } else if a[0] == b[0] && Subsequence(a[1..], b[1..]) {
      // b[0] is matched somewhere in c
      if b[0] == c[0] && Subsequence(b[1..], c[1..]) {
        SubsequenceTrans(a[1..], b[1..], c[1..]);
      } else {
        SubsequenceTrans(a, b, c[1..]);
      }
    } else {
      if b[0] == c[0] && Subsequence(b[1..], c[1..]) {
        SubsequenceTrans(a, b[1..], c[1..]);
      } else {
        SubsequenceTrans(a, b, c[1..]);
      }
    }
  }

  /** Each of the deletions only ever removes characters. */
  lemma {:induction false} StripCommentsDeletes(s: string)
    ensures Subsequence(StripComments(s), s)
    decreases |s|
  {
    if s == [] {
    } else if Starts4(s, '<', '!', '-', '-') && IndexOf(s[4..], "-->").Some? {
      var k := IndexOf(s[4..], "-->").value;
      StripCommentsDeletes(s[4 + k + 3..]);
      SubsequenceDrop(StripComments(s), s, 4 + k + 3);
    } else {
      StripCommentsDeletes(s[1..]);
      SubsequenceCons(s[0], StripComments(s[1..]), s);
    }
  }

  lemma {:induction false} StripBangDashesDeletes(s: string)
    ensures Subsequence(StripBangDashes(s), s)
    decreases |s|
  {
    if s == [] {
    } else if Starts3(s, '<', '!', '-') {
      var n := 2 + RunLen(s[2..], '-');
      StripBangDashesDeletes(s[n..]);
      SubsequenceDrop(StripBangDashes(s), s, n);
    } else {
      StripBangDashesDeletes(s[1..]);
      SubsequenceCons(s[0], StripBangDashes(s[1..]), s);
    }
  }

  lemma {:induction false} StripDashArrowsDeletes(s: string)
    ensures Subsequence(StripDashArrows(s), s)
    decreases |s|
  {
    if s == [] {
    } else if s[0] == '-' && RunLen(s, '-') < |s| && s[RunLen(s, '-')] == '>' {
      var n := RunLen(s, '-') + 1;
      StripDashArrowsDeletes(s[n..]);
      SubsequenceDrop(StripDashArrows(s), s, n);
    } else {
      StripDashArrowsDeletes(s[1..]);
      SubsequenceCons(s[0], StripDashArrows(s[1..]), s);
    }
  }

  lemma {:induction false} StripCommentsPlain(s: string)
    requires '<' !in s
    ensures StripComments(s) == s
    decreases |s|
  {
    if s != [] {
      assert s[0] != '<';
      StripCommentsPlain(s[1..]);
    }
  }

  lemma {:induction false} StripBangDashesPlain(s: string)
    requires '<' !in s
    ensures StripBangDashes(s) == s
    decreases |s|
  {
    if s != [] {
      assert s[0] != '<';
      StripBangDashesPlain(s[1..]);
    }
  }

  lemma {:induction false} StripDashArrowsPlain(s: string)
    requires '>' !in s
    ensures StripDashArrows(s) == s
    decreases |s|
  {
    if s != [] {
      if s[0] == '-' && RunLen(s, '-') < |s| {
        assert s[RunLen(s, '-')] in s;
      }
      StripDashArrowsPlain(s[1..]);
    }
  }

  /** A comment is cut out whole, with everything up to its first `-->`, and
      the text before it (which holds no `<`) is kept. */
  lemma StripCommentsCutsComment(a: string, body: string, b: string)
    requires '<' !in a && '-' !in body
    ensures StripComments(a + "<!--" + body + "-->" + b) == a + StripComments(b)
  {
    var x := "<!--" + (body + "-->" + b);
    StripCommentsKeepsPlain(a, x);
    Seqs.Regroup5(a, "<!--", body, "-->", b);
    StripCommentsAtComment(body, b);
  }

  /** Text before which no comment can open is kept as it is. */
  lemma {:induction false} StripCommentsKeepsPlain(a: string, x: string)
    requires '<' !in a
    ensures StripComments(a + x) == a + StripComments(x)
    decreases |a|
  {
    if a == [] {
      Seqs.EmptyJoin(a, x);
    } else {
      var s := a + x;
      Seqs.ConsSplit(a, x);
      StripCommentsCopies(s);
      StripCommentsKeepsPlain(a[1..], x);
      Seqs.ConsJoin(a, StripComments(x));
    }
  }

  lemma StripCommentsCopies(s: string)
    requires s != [] && s[0] != '<'
    ensures StripComments(s) == [s[0]] + StripComments(s[1..])
  {
  }

  lemma StripCommentsAtComment(body: string, b: string)
    requires '-' !in body
    ensures StripComments("<!--" + (body + "-->" + b)) == StripComments(b)
  {
    var t := body + "-->" + b;
    CommentAtStart(t);
    FirstCommentEnd(body, b);
    StripCommentsSkips("<!--" + t, |body|);
    Seqs.DropParts("<!--", body, "-->", b);
  }

  /** A comment that closes k characters after its opening is skipped. */
  lemma StripCommentsSkips(s: string, k: nat)
    requires Starts4(s, '<', '!', '-', '-')
    requires IndexOf(s[4..], "-->") == Some(k)
    ensures StripComments(s) == StripComments(s[4 + k + 3..])
  {
  }

  lemma CommentAtStart(t: string)
    ensures Starts4("<!--" + t, '<', '!', '-', '-') && ("<!--" + t)[4..] == t
  {
    assert ("<!--" + t)[..4] == "<!--";
  }

  /** The first `-->` after a dash-free body is the one that follows it. */
  lemma FirstCommentEnd(body: string, b: string)
    requires '-' !in body
    ensures IndexOf(body + "-->" + b, "-->") == Some(|body|)
  {
    var t := body + "-->" + b;
    assert t[|body|..][..3] == "-->";
    ContainsAt(t, "-->", |body|);
    var v := IndexOf(t, "-->").value;
    assert t[v..v + 3][0] == t[v] == '-';
  }

  // ---------------------------------------------------------------------------
  // HTML escaping
  // ---------------------------------------------------------------------------

  /** `escapeHtml`: `&`, `<`, `>` become entities, nothing else changes. */
  function EscapeChar(c: char): (r: string)
    ensures '<' !in r && '>' !in r
  {
    if c == '&' then "&amp;" else if c == '<' then "&lt;" else if c == '>' then "&gt;" else [c]
  }

  function Escape(s: string): (r: string)
    ensures '<' !in r && '>' !in r
  {
    if s == [] then [] else EscapeChar(s[0]) + Escape(s[1..])
  }

  /** The inverse of Escape: the three entities, read left to right. */
  function Unescape(s: string): string
    decreases |s|
  {
    if s == [] then []
    else if Starts5(s, '&', 'a', 'm', 'p', ';') then "&" + Unescape(s[5..])
    else if Starts4(s, '&', 'l', 't', ';') then "<" + Unescape(s[4..])
    else if Starts4(s, '&', 'g', 't', ';') then ">" + Unescape(s[4..])
    else [s[0]] + Unescape(s[1..])
  }

  /** Escaping loses nothing: the text is recovered from its escaped form. */
  lemma {:induction false} EscapeRoundTrip(s: string)
    ensures Unescape(Escape(s)) == s
    decreases |s|
  {
    if s != [] {
      var e := Escape(s);
      assert e == EscapeChar(s[0]) + Escape(s[1..]);
      EscapeRoundTrip(s[1..]);
      if s[0] == '&' {
        assert e[5..] == Escape(s[1..]);
      } else if s[0] == '<' || s[0] == '>' {
        assert e[4..] == Escape(s[1..]);
      } else {
        assert e[0] == s[0] && e[1..] == Escape(s[1..]);
      }
    }
  }

  /** Text without `&`, `<`, `>` is its own escape. */
  lemma {:induction false} EscapePlain(s: string)
    requires '&' !in s && '<' !in s && '>' !in s
    ensures Escape(s) == s
    decreases |s|
  {
    if s != [] {
      EscapePlain(s[1..]);
    }
  }

  lemma {:induction false} EscapeKeeps(s: string, c: char)
    requires c != '&' && c != '<' && c != '>' && c != 'a' && c != 'm' && c != 'p'
      && c != ';' && c != 'l' && c != 'g' && c != 't'
    ensures c in s <==> c in Escape(s)
    decreases |s|
  {
    if s != [] {
      EscapeKeeps(s[1..], c);
      assert Escape(s) == EscapeChar(s[0]) + Escape(s[1..]);
    }
  }

  // ---------------------------------------------------------------------------
  // Lines
  // ---------------------------------------------------------------------------

  /** `s.split('\n')`: always at least one line, none holding a newline. */
  function SplitLines(s: string): (ls: seq<string>)
    ensures |ls| >= 1
    ensures forall k :: 0 <= k < |ls| ==> '\n' !in ls[k]
    decreases |s|
  {
    match FirstIndex(s, '\n')
    case None => [s]
    case Some(k) => [s[..k]] + SplitLines(s[k + 1..])
  }

  /** Splitting loses nothing: the lines joined with `\n` are the text. */
  lemma {:induction false} SplitLinesJoin(s: string)
    ensures Join("\n", SplitLines(s)) == s
    decreases |s|
  {
    match FirstIndex(s, '\n')
    case None =>
    case Some(k) =>
      var rest := SplitLines(s[k + 1..]);
      SplitLinesJoin(s[k + 1..]);
      assert SplitLines(s) == [s[..k]] + rest;
      assert ([s[..k]] + rest)[1..] == rest;
      assert s == s[..k] + "\n" + s[k + 1..];
  }

  /** A text with no newline is one line. */
  lemma SplitLinesSingle(s: string)
    requires '\n' !in s
    ensures SplitLines(s) == [s]
  {
  }

  // ---------------------------------------------------------------------------
  // Blocks: one per line
  // ---------------------------------------------------------------------------

  datatype Block = Rule | Spacer | Heading3 | Heading2 | Heading1 | Quote | Bullet | Numbered | Paragraph

  /** `line.trim().match(/^-{3,}$/)`: white space, three or more dashes, white
      space, and nothing else (RuleIsTrimmedDashes states it with the trim). */
  predicate IsRule(line: string) {
    var n := SpaceRun(line);
    var d := RunLen(line[n..], '-');
    d >= 3 && SpaceRun(line[n + d..]) == |line| - n - d
  }

  /** `line.trim() === ''`: the line is white space only (BlankIsEmptyTrim). */
  predicate Blank(line: string) {
    SpaceRun(line) == |line|
  }

  /** The length of the leading JavaScript white-space run. */
  function SpaceRun(s: string): (n: nat)
    ensures n <= |s|
    ensures forall i :: 0 <= i < n ==> JsSpace(s[i])
    ensures n < |s| ==> !JsSpace(s[n])
  {
    if s != [] && JsSpace(s[0]) then 1 + SpaceRun(s[1..]) else 0
  }

  /** The length of the leading digit run. */
  function DigitRun(s: string): (n: nat)
    ensures n <= |s|
    ensures forall i :: 0 <= i < n ==> IsDigit(s[i])
    ensures n < |s| ==> !IsDigit(s[n])
  {
    if s != [] && IsDigit(s[0]) then 1 + DigitRun(s[1..]) else 0
  }

  /** The end of the marker `^[\s]*[-\*•]\s+`, if the line starts with one.
      Backtracking cannot help here: the white-space run must be maximal to be
      followed by the marker character, and the run after it is greedy. */
  function BulletMarker(line: string): (r: Option<nat>)
    ensures r.Some? ==> r.value <= |line|
  {
    var n := SpaceRun(line);
    if n < |line| && line[n] in {'-', '*', '•'} && SpaceRun(line[n + 1..]) >= 1 then
      Some(n + 1 + SpaceRun(line[n + 1..]))
    else None
  }

  /** The end of the marker `^[\s]*\d+\.\s+`, if the line starts with one. */
  function NumberMarker(line: string): (r: Option<nat>)
    ensures r.Some? ==> r.value <= |line|
  {
    var n := SpaceRun(line);
    var d := DigitRun(line[n..]);
    if d >= 1 && n + d < |line| && line[n + d] == '.' && SpaceRun(line[n + d + 1..]) >= 1 then
      Some(n + d + 1 + SpaceRun(line[n + d + 1..]))
    else None
  }

  /** The block a line becomes: the first test that succeeds, in the
      renderer's order. */
  function Classify(line: string): (b: Block)
    ensures b == Rule <==> var t := JsTrim(line); |t| >= 3 && RunLen(t, '-') == |t|
    ensures b == Spacer <==> JsTrim(line) == []
  {
    RuleIsTrimmedDashes(line);
    BlankIsEmptyTrim(line);
    if IsRule(line) then Rule
    else if Blank(line) then Spacer
    else Markup(line)
  }

  /** The blank test, stated as the renderer states it. */
  lemma BlankIsEmptyTrim(line: string)
    ensures Blank(line) <==> JsTrim(line) == []
  {
    StripEmptyIff(line, White(Js));
    if !Blank(line) {
      var n := SpaceRun(line);
      assert !In(line[n], White(Js));
    }
  }

  /** The rule test, stated as the renderer states it: the trimmed line is
      three or more dashes. */
  lemma RuleIsTrimmedDashes(line: string)
    ensures IsRule(line) <==> var t := JsTrim(line); |t| >= 3 && RunLen(t, '-') == |t|
  {
    TrimAfterIndent(line);
    if IsRule(line) {
      RuleTrims(line);
    } else {
      var t := JsTrim(line);
      if |t| >= 3 && RunLen(t, '-') == |t| {
        DashesTrimToRule(line);
      }
    }
  }

  lemma TrimAfterIndent(line: string)
    ensures JsTrim(line) == StripRight(line[SpaceRun(line)..], White(Js))
  {
    StripLeftSpaceRun(line);
  }

  lemma RuleTrims(line: string)
    requires IsRule(line)
    ensures var t := JsTrim(line); |t| >= 3 && RunLen(t, '-') == |t|
  {
    var n := SpaceRun(line);
    TrimAfterIndent(line);
    RuleParts(line, n, RunLen(line[n..], '-'));
    DashesThenSpaces(line[n..]);
  }

  lemma RuleParts(line: string, n: nat, d: nat)
    requires n == SpaceRun(line) && d == RunLen(line[n..], '-') && IsRule(line)
    ensures d >= 3 && SpaceRun(line[n..][d..]) == |line[n..]| - d
  {
    Seqs.DropDrop(line, n, d);
  }

  /** Dashes followed by white space only strip to the dashes. */
  lemma DashesThenSpaces(u: string)
    requires var d := RunLen(u, '-'); SpaceRun(u[d..]) == |u| - d
    ensures var d := RunLen(u, '-');
      StripRight(u, White(Js)) == u[..d] && RunLen(u[..d], '-') == d
  {
    var d := RunLen(u, '-');
    DashesStripRight(u, d);
    RunLenPrefix(u, d);
  }

  lemma DashesStripRight(u: string, d: nat)
    requires d == RunLen(u, '-') && SpaceRun(u[d..]) == |u| - d
    ensures StripRight(u, White(Js)) == u[..d]
  {
    SpacesAfter(u, d);
    StripRightAt(u, d);
  }

  lemma RunLenPrefix(u: string, d: nat)
    requires d == RunLen(u, '-')
    ensures RunLen(u[..d], '-') == d
  {
    RunLenOf(u[..d], '-', d);
  }

  lemma SpacesAfter(u: string, d: nat)
    requires d <= |u| && SpaceRun(u[d..]) == |u| - d
    ensures forall i :: d <= i < |u| ==> JsSpace(u[i])
  {
    forall i | d <= i < |u| ensures JsSpace(u[i]) {
      assert u[d..][i - d] == u[i];
    }
  }

  /** Stripping on the right stops at the last character that is not white space. */
  lemma {:induction false} StripRightAt(u: string, d: nat)
    requires d <= |u| && (d == 0 || !JsSpace(u[d - 1]))
    requires forall i :: d <= i < |u| ==> JsSpace(u[i])
    ensures StripRight(u, White(Js)) == u[..d]
    decreases |u| - d
  {
    if |u| == d {
      assert u[..d] == u;
    } else {
      var u' := u[..|u| - 1];
      assert In(u[|u| - 1], White(Js));
      assert u'[..d] == u[..d];
      StripRightAt(u', d);
    }
  }

  lemma DashesTrimToRule(line: string)
    requires var t := JsTrim(line); |t| >= 3 && RunLen(t, '-') == |t|
    ensures IsRule(line)
  {
    var n := SpaceRun(line);
    TrimAfterIndent(line);
    TrimmedDashes(line[n..]);
    RuleFromParts(line, n, RunLen(line[n..], '-'));
  }

  lemma RuleFromParts(line: string, n: nat, d: nat)
    requires n == SpaceRun(line) && d == RunLen(line[n..], '-') && d >= 3
    requires SpaceRun(line[n..][d..]) == |line| - n - d
    ensures IsRule(line)
  {
    Seqs.DropDrop(line, n, d);
  }

  /** What stripping leaves of u is a leading run of dashes only if the rest
      is white space. */
  lemma TrimmedDashes(u: string)
    requires var t := StripRight(u, White(Js)); RunLen(t, '-') == |t|
    ensures var d := RunLen(u, '-');
      d == |StripRight(u, White(Js))| && SpaceRun(u[d..]) == |u| - d
  {
    var t := StripRight(u, White(Js));
    var d := |t|;
    forall i | 0 <= i < d ensures u[i] == '-' {
      assert t[i] == u[i];
    }
    if d < |u| {
      assert In(u[d], White(Js));
    }
    RunLenOf(u, '-', d);
    forall i | 0 <= i < |u[d..]| ensures JsSpace(u[d..][i]) {
      assert In(u[d + i], White(Js));
    }
    SpaceRunAll(u[d..]);
  }

  /** Stripping JavaScript white space on the left drops the leading run. */
  lemma {:induction false} StripLeftSpaceRun(s: string)
    ensures StripLeft(s, White(Js)) == s[SpaceRun(s)..]
    decreases |s|
  {
    if s != [] && JsSpace(s[0]) {
      StripLeftSpaceRun(s[1..]);
      assert s[1..][SpaceRun(s[1..])..] == s[1 + SpaceRun(s[1..])..];
    } else {
      assert s[0..] == s;
    }
  }

  /** A run of c of length k that is not followed by c. */
  lemma {:induction false} RunLenOf(s: string, c: char, k: nat)
    requires k <= |s| && (forall i :: 0 <= i < k ==> s[i] == c) && (k < |s| ==> s[k] != c)
    ensures RunLen(s, c) == k
    decreases k
  {
    if k > 0 {
      RunLenOf(s[1..], c, k - 1);
    }
  }

  lemma {:induction false} SpaceRunAll(s: string)
    requires forall i :: 0 <= i < |s| ==> JsSpace(s[i])
    ensures SpaceRun(s) == |s|
    decreases |s|
  {
    if s != [] {
      SpaceRunAll(s[1..]);
    }
  }

  /** The tests after the rule and blank-line tests: `### `, `## `, `# `,
      `> `, a bullet marker, a number marker. */
  function Markup(line: string): (b: Block)
    ensures b != Rule && b != Spacer
  {
    if Starts4(line, '#', '#', '#', ' ') then Heading3
    else if Starts3(line, '#', '#', ' ') then Heading2
    else if Starts2(line, '#', ' ') then Heading1
    else if Starts2(line, '>', ' ') then Quote
    else if BulletMarker(line).Some? then Bullet
    else if NumberMarker(line).Some? then Numbered
    else Paragraph
  }

  /** Where the text of the line starts, after its block marker. */
  function MarkerEnd(line: string): (n: nat)
    ensures n <= |line|
  {
    match Classify(line)
    case Rule => |line|
    case Spacer => |line|
    case _ => MarkupEnd(line)
  }

  /** Where the text starts on a line that is neither a rule nor blank. */
  function MarkupEnd(line: string): (n: nat)
    ensures n <= |line|
  {
    match Markup(line)
    case Heading3 => 4
    case Heading2 => 3
    case Heading1 => 2
    case Quote => 2
    case Bullet => BulletMarker(line).value
    case Numbered => NumberMarker(line).value
    case Paragraph => 0
  }

  /** The part of the line shown inside its block: what follows the marker. */
  function Payload(line: string): (p: string)
    ensures |p| <= |line| && p == line[|line| - |p|..]
  {
    line[MarkerEnd(line)..]
  }

  function OpenTag(b: Block): string {
    match b
    case Rule => "<hr class=\"msg-divider\" />"
    case Spacer => "<div class=\"msg-spacer\"></div>"
    case Heading3 => "<h3 class=\"msg-header\">"
    case Heading2 => "<h2 class=\"msg-header\">"
    case Heading1 => "<h1 class=\"msg-header\">"
    case Quote => "<div class=\"msg-quote\">"
    case Bullet => "<li class=\"msg-list-item\">"
    case Numbered => "<li class=\"msg-list-item numbered\">"
    case Paragraph => "<p class=\"msg-paragraph\">"
  }

  function CloseTag(b: Block): string {
    match b
    case Rule => ""
    case Spacer => ""
    case Heading3 => "</h3>"
    case Heading2 => "</h2>"
    case Heading1 => "</h1>"
    case Quote => "</div>"
    case Bullet => "</li>"
    case Numbered => "</li>"
    case Paragraph => "</p>"
  }

  /** The HTML of one line. */
  function Fragment(line: string): string {
    OpenTag(Classify(line)) + Escape(Payload(line)) + CloseTag(Classify(line))
  }

  /** Every line mapped and the fragments joined with nothing between them. */
  function Fragments(lines: seq<string>): string {
    if lines == [] then "" else Fragment(lines[0]) + Fragments(lines[1..])
  }

  /** The HTML of the message before the inline passes. */
  function BlocksHtml(content: string): string {
    Fragments(SplitLines(Uncomment(content)))
  }

  /** Each line's block shows its text escaped between the tags: the line's
      text comes back whole from the fragment, and the tags are the only place
      where `<` or `>` can occur. */
  lemma FragmentShowsPayload(line: string)
    ensures var b := Classify(line);
      var f := Fragment(line);
      StartsWith(f, OpenTag(b)) && EndsWith(f, CloseTag(b))
      && Unescape(f[|OpenTag(b)|..|f| - |CloseTag(b)|]) == Payload(line)
      && '<' !in f[|OpenTag(b)|..|f| - |CloseTag(b)|]
      && '>' !in f[|OpenTag(b)|..|f| - |CloseTag(b)|]
  {
    var b := Classify(line);
    var e := Escape(Payload(line));
    assert Fragment(line) == OpenTag(b) + e + CloseTag(b);
    Seqs.Sandwich(OpenTag(b), e, CloseTag(b));
    EscapeRoundTrip(Payload(line));
  }

  /** Fragments of consecutive lines are consecutive. */
  lemma {:induction false} FragmentsConcat(xs: seq<string>, ys: seq<string>)
    ensures Fragments(xs + ys) == Fragments(xs) + Fragments(ys)
    decreases |xs|
  {
    if xs == [] {
      Seqs.EmptyJoin(xs, ys);
    } else {
      Seqs.ConsSplit(xs, ys);
      FragmentsConcat(xs[1..], ys);
      FragmentsCons(xs + ys);
      Seqs.Assoc(Fragment(xs[0]), Fragments(xs[1..]), Fragments(ys));
    }
  }

  lemma FragmentsCons(zs: seq<string>)
    requires zs != []
    ensures Fragments(zs) == Fragment(zs[0]) + Fragments(zs[1..])
  {
  }

  /** A line whose first character is neither white space nor a dash is not
      a rule and not blank, and has no indentation. */
  lemma PlainStart(line: string)
    requires line != [] && !JsSpace(line[0]) && line[0] != '-'
    ensures !IsRule(line) && !Blank(line) && SpaceRun(line) == 0
  {
    assert line[0..] == line;
  }

  /** A line that starts with a character other than white space, a digit or
      a bullet character has no list marker. */
  lemma NoBulletNoNumber(line: string)
    requires line != [] && line[0] !in {'-', '*', '•'} && !JsSpace(line[0]) && !IsDigit(line[0])
    ensures BulletMarker(line).None? && NumberMarker(line).None?
  {
    assert SpaceRun(line) == 0;
    assert line[0..] == line;
    assert DigitRun(line) == 0;
  }

  /** Past the rule and blank tests, the markup tests decide. */
  lemma ClassifyMarkup(line: string)
    requires !IsRule(line) && !Blank(line)
    ensures Classify(line) == Markup(line)
  {
  }

  /** Past the rule and blank tests, the block is the marker's. */
  lemma ClassifyIsMarkup(line: string)
    ensures Classify(line) != Rule && Classify(line) != Spacer ==>
      Classify(line) == Markup(line) && MarkerEnd(line) == MarkupEnd(line)
  {
  }

  /** On a line that is neither a rule nor blank, the payload follows the
      marker the markup tests find. */
  lemma PayloadMarkup(line: string)
    requires Classify(line) != Rule && Classify(line) != Spacer
    ensures Classify(line) == Markup(line) && Payload(line) == line[MarkupEnd(line)..]
  {
    ClassifyIsMarkup(line);
  }

  /** Where each markup block's text starts. */
  lemma MarkupEndOf(line: string)
    ensures Markup(line) == Bullet ==> BulletMarker(line).Some? && MarkupEnd(line) == BulletMarker(line).value
    ensures Markup(line) == Numbered ==> NumberMarker(line).Some? && MarkupEnd(line) == NumberMarker(line).value
    ensures Markup(line) == Heading3 ==> MarkupEnd(line) == 4
    ensures Markup(line) == Heading2 ==> MarkupEnd(line) == 3
    ensures Markup(line) in {Heading1, Quote} ==> MarkupEnd(line) == 2
    ensures Markup(line) == Paragraph ==> MarkupEnd(line) == 0
  {
  }

  lemma MarkerEndHeading(line: string)
    ensures Classify(line) == Heading3 ==> |line| >= 4 && Payload(line) == line[4..]
    ensures Classify(line) == Heading2 ==> |line| >= 3 && Payload(line) == line[3..]
    ensures Classify(line) == Heading1 ==> |line| >= 2 && Payload(line) == line[2..]
    ensures Classify(line) == Quote ==> |line| >= 2 && Payload(line) == line[2..]
    ensures Classify(line) == Paragraph ==> Payload(line) == line
  {
    if Classify(line) != Rule && Classify(line) != Spacer {
      PayloadMarkup(line);
      MarkupEndOf(line);
    }
  }

  /** Only three heading levels exist: four or more `#` make a paragraph. */
  lemma HeadingStopsAtThree(line: string)
    requires Starts4(line, '#', '#', '#', '#')
    ensures Classify(line) == Paragraph && Payload(line) == line
  {
    PlainStart(line);
    ClassifyMarkup(line);
    NoBulletNoNumber(line);
    MarkerEndHeading(line);
  }

  /** `### ` opens a level-3 heading whose text is the rest of the line. */
  lemma Heading3Line(line: string)
    requires Starts4(line, '#', '#', '#', ' ')
    ensures Classify(line) == Heading3 && Payload(line) == line[4..]
  {
    PlainStart(line);
    ClassifyMarkup(line);
    MarkerEndHeading(line);
  }

  /** `## ` opens a level-2 heading whose text is the rest of the line. */
  lemma Heading2Line(line: string)
    requires Starts3(line, '#', '#', ' ')
    ensures Classify(line) == Heading2 && Payload(line) == line[3..]
  {
    PlainStart(line);
    ClassifyMarkup(line);
    MarkerEndHeading(line);
  }

  /** `# ` opens a level-1 heading whose text is the rest of the line. */
  lemma Heading1Line(line: string)
    requires Starts2(line, '#', ' ')
    ensures Classify(line) == Heading1 && Payload(line) == line[2..]
  {
    PlainStart(line);
    ClassifyMarkup(line);
    MarkerEndHeading(line);
  }

  /** `> ` opens a quote whose text is the rest of the line. */
  lemma QuoteLine(line: string)
    requires Starts2(line, '>', ' ')
    ensures Classify(line) == Quote && Payload(line) == line[2..]
  {
    PlainStart(line);
    ClassifyMarkup(line);
    MarkerEndHeading(line);
  }

  /** A quote needs the space after `>`: otherwise the line is a paragraph. */
  lemma QuoteNeedsSpace(line: string)
    requires |line| >= 2 && line[0] == '>' && line[1] != ' '
    ensures Classify(line) == Paragraph && Payload(line) == line
  {
    PlainStart(line);
    ClassifyMarkup(line);
    NoBulletNoNumber(line);
    assert Markup(line) == Paragraph;
    MarkerEndHeading(line);
  }

  /** A bullet character followed by white space opens a list item whose text
      is what follows the white space. */
  lemma BulletLine(line: string)
    requires |line| >= 2 && line[0] in {'-', '*', '•'} && JsSpace(line[1])
    ensures Classify(line) == Bullet
    ensures Payload(line) == line[1 + SpaceRun(line[1..])..]
  {
    BulletNotRule(line);
    ClassifyMarkup(line);
    MarkupBullet(line);
    MarkerEndBullet(line);
  }

  lemma BulletNotRule(line: string)
    requires |line| >= 2 && line[0] in {'-', '*', '•'} && JsSpace(line[1])
    ensures !IsRule(line) && !Blank(line)
  {
    assert line[0..] == line;
    assert RunLen(line, '-') <= 1;
  }

  lemma MarkupBullet(line: string)
    requires |line| >= 2 && line[0] in {'-', '*', '•'} && JsSpace(line[1])
    ensures Markup(line) == Bullet
    ensures BulletMarker(line) == Some(1 + SpaceRun(line[1..]))
  {
    assert SpaceRun(line) == 0;
    assert line[0..] == line;
  }

  /** A list item shows the line after its bullet marker. */
  lemma MarkerEndBullet(line: string)
    requires Classify(line) == Bullet
    ensures BulletMarker(line).Some? && Payload(line) == line[BulletMarker(line).value..]
  {
    PayloadMarkup(line);
    MarkupEndOf(line);
  }

  /** A numbered item shows the line after its number marker. */
  lemma MarkerEndNumbered(line: string)
    requires Classify(line) == Numbered
    ensures NumberMarker(line).Some? && Payload(line) == line[NumberMarker(line).value..]
  {
    PayloadMarkup(line);
    MarkupEndOf(line);
  }

  /** A digit run, `.` and white space open a numbered item whose text is what
      follows the white space. */
  lemma NumberedLine(line: string, d: nat)
    requires 1 <= d < |line| - 1 && (forall i :: 0 <= i < d ==> IsDigit(line[i]))
    requires line[d] == '.' && JsSpace(line[d + 1])
    ensures Classify(line) == Numbered
    ensures Payload(line) == line[d + 1 + SpaceRun(line[d + 1..])..]
  {
    DigitStart(line);
    ClassifyMarkup(line);
    MarkupNumbered(line, d);
    MarkerEndNumbered(line);
  }

  lemma DigitStart(line: string)
    requires line != [] && IsDigit(line[0])
    ensures !IsRule(line) && !Blank(line)
  {
    PlainStart(line);
  }

  lemma MarkupNumbered(line: string, d: nat)
    requires 1 <= d < |line| - 1 && (forall i :: 0 <= i < d ==> IsDigit(line[i]))
    requires line[d] == '.' && JsSpace(line[d + 1])
    ensures Markup(line) == Numbered
    ensures NumberMarker(line) == Some(d + 1 + SpaceRun(line[d + 1..]))
  {
    assert IsDigit(line[0]);
    assert SpaceRun(line) == 0;
    assert line[0..] == line;
    DigitRunOf(line, d);
    assert BulletMarker(line).None?;
  }

  lemma {:induction false} DigitRunOf(s: string, d: nat)
    requires d < |s| && (forall i :: 0 <= i < d ==> IsDigit(s[i])) && !IsDigit(s[d])
    ensures DigitRun(s) == d
    decreases d
  {
    if d > 0 {
      DigitRunOf(s[1..], d - 1);
    }
  }
}
