/** The inline passes of the chat message renderer, applied to the joined
    block HTML in this order: bold, italic, inline code, markdown links, bare
    URLs, coloured emoji.  Each pass is one global regular-expression
    replacement, modelled as a scanner over the suffix still to be read. */
module Inline {
  import opened Wrappers
  import opened Text
  import Seqs

  // ---------------------------------------------------------------------------
  // Bold: /\*\*([^\*]+)\*\*/g -> <strong>$1</strong>
  // ---------------------------------------------------------------------------

  /** The end of a bold match at the start of s.  `[^\*]+` runs to the first
      `*` after the opening pair; the match needs a second `*` right there. */
  function BoldAt(s: string): (r: Option<nat>)
    ensures r.Some? ==> 5 <= r.value <= |s|
  {
    if |s| >= 2 && s[0] == '*' && s[1] == '*' then
      match FirstIndexFrom(s, 2, '*')
      case Some(k) => if k > 2 && k + 1 < |s| && s[k + 1] == '*' then Some(k + 2) else None
      case None => None
    else None
  }

  /** The bold pass; text without `*` passes unchanged. */
  function Bold(s: string): (r: string)
    ensures '*' !in s ==> r == s
    decreases |s|
  {
    if s == [] then []
    else match BoldAt(s)
      case Some(n) => "<strong>" + s[2..n - 2] + "</strong>" + Bold(s[n..])
      case None => [s[0]] + Bold(s[1..])
  }

  /** Text without `*` passes the bold scanner unchanged. */
  lemma {:induction false} BoldSkip(a: string, b: string)
    requires '*' !in a
    ensures Bold(a + b) == a + Bold(b)
    decreases |a|
  {
    if a == [] {
      Seqs.EmptyJoin(a, b);
    } else {
      Seqs.ConsSplit(a, b);
      BoldCopies(a + b);
      BoldSkip(a[1..], b);
      Seqs.ConsJoin(a, Bold(b));
    }
  }

  lemma BoldCopies(s: string)
    requires s != [] && s[0] != '*'
    ensures Bold(s) == [s[0]] + Bold(s[1..])
  {
  }

  /** `**x**` with a non-empty, star-free x becomes `<strong>x</strong>`. */
  lemma BoldHit(x: string, b: string)
    requires x != [] && '*' !in x
    ensures Bold("**" + x + "**" + b) == "<strong>" + x + "</strong>" + Bold(b)
  {
    var s := "**" + x + "**" + b;
    BoldAtOf(x, b);
    BoldStep(s, |x| + 4);
    Seqs.Nest4("**", x, "**", b);
    Seqs.DropPrefix("**", x + ("**" + b), 2);
    Seqs.SliceAfterDrop(s, 2, |x| + 4 - 2, x, "**" + b);
    Seqs.DropPrefix("**" + x + "**", b, |x| + 4);
  }

  lemma BoldAtOf(x: string, b: string)
    requires x != [] && '*' !in x
    ensures BoldAt("**" + x + "**" + b) == Some(|x| + 4)
  {
    var s := "**" + x + "**" + b;
    Seqs.Nest4("**", x, "**", b);
    Seqs.AbsentNest("**", x, "**" + b, '*', 2, |x| + 2);
    Seqs.AtNest("**", x, "**", b, 0, |x| + 2);
    FirstIndexFromIs(s, 2, '*', |x| + 2);
    Seqs.AtNest("**", x, "**", b, 1, |x| + 2 + 1);
  }

  lemma BoldStep(s: string, n: nat)
    requires BoldAt(s) == Some(n)
    ensures Bold(s) == "<strong>" + s[2..n - 2] + "</strong>" + Bold(s[n..])
  {
  }

  /** An opening `**` with no closing pair stays as written. */
  lemma BoldUnclosed(x: string)
    requires '*' !in x
    ensures Bold("**" + x) == "**" + x
  {
    var t := "*" + x;
    Seqs.Cons('*', t);
    Seqs.Cons('*', x);
    StarStar(x);
    Seqs.AbsentNest("**", x, [], '*', 2, |x| + 2);
    Seqs.EmptyJoin([], x);
    BoldNoClose("*" + t);
    BoldLoneStar(t);
    BoldSkip(x, []);
  }

  lemma StarStar(y: string)
    ensures "**" + y == "*" + ("*" + y) && "**" + y == "**" + (y + [])
  {
  }

  /** Without a `*` after the first two characters no bold match starts. */
  lemma BoldNoClose(s: string)
    requires |s| >= 2 && forall j :: 2 <= j < |s| ==> s[j] != '*'
    ensures Bold(s) == [s[0]] + Bold(s[1..])
  {
    FirstIndexFromNone(s, 2, '*');
  }

  /** A `*` not followed by another one opens no bold match. */
  lemma BoldLoneStar(s: string)
    requires s != [] && (|s| < 2 || s[1] != '*')
    ensures Bold(s) == [s[0]] + Bold(s[1..])
  {
  }

  // ---------------------------------------------------------------------------
  // Italic: /(?<!\*)\*([^\*]+)\*(?!\*)/g -> <em>$1</em>
  // ---------------------------------------------------------------------------

  /** The end of an italic match at the start of s; afterStar says whether the
      character before s (in the string the pass reads) is a `*`. */
  function ItalicAt(afterStar: bool, s: string): (r: Option<nat>)
    ensures r.Some? ==> 3 <= r.value <= |s| && s[r.value - 1] == '*'
  {
    if !afterStar && s != [] && s[0] == '*' then
      match FirstIndexFrom(s, 1, '*')
      case Some(k) => if k > 1 && (k + 1 == |s| || s[k + 1] != '*') then Some(k + 1) else None
      case None => None
    else None
  }

  /** The italic pass; text without `*` passes unchanged. */
  function Italic(afterStar: bool, s: string): (r: string)
    ensures '*' !in s ==> r == s
    decreases |s|
  {
    if s == [] then []
    else match ItalicAt(afterStar, s)
      case Some(n) => "<em>" + s[1..n - 1] + "</em>" + Italic(true, s[n..])
      case None => [s[0]] + Italic(s[0] == '*', s[1..])
  }

  /** Non-empty text without `*` passes the italic scanner unchanged, and the
      scanner afterwards knows that no `*` precedes. */
  lemma {:induction false} ItalicSkip(afterStar: bool, a: string, b: string)
    requires a != [] && '*' !in a
    ensures Italic(afterStar, a + b) == a + Italic(false, b)
    decreases |a|
  {
    Seqs.ConsSplit(a, b);
    ItalicCopies(afterStar, a + b);
    if |a| > 1 {
      ItalicSkip(false, a[1..], b);
    } else {
      Seqs.EmptyJoin(a[1..], b);
    }
    Seqs.ConsJoin(a, Italic(false, b));
  }

  lemma ItalicCopies(afterStar: bool, s: string)
    requires s != [] && s[0] != '*'
    ensures Italic(afterStar, s) == [s[0]] + Italic(false, s[1..])
  {
  }

  /** `*x*` not preceded and not followed by `*` becomes `<em>x</em>`. */
  lemma ItalicHit(x: string, b: string)
    requires x != [] && '*' !in x && (b == [] || b[0] != '*')
    ensures Italic(false, "*" + x + "*" + b) == "<em>" + x + "</em>" + Italic(true, b)
  {
    var s := "*" + x + "*" + b;
    ItalicAtOf(x, b);
    ItalicStep(s, |x| + 2);
    Seqs.Nest4("*", x, "*", b);
    Seqs.DropPrefix("*", x + ("*" + b), 1);
    Seqs.SliceAfterDrop(s, 1, |x| + 2 - 1, x, "*" + b);
    Seqs.DropPrefix("*" + x + "*", b, |x| + 2);
  }

  lemma ItalicAtOf(x: string, b: string)
    requires x != [] && '*' !in x && (b == [] || b[0] != '*')
    ensures ItalicAt(false, "*" + x + "*" + b) == Some(|x| + 2)
  {
    var s := "*" + x + "*" + b;
    Seqs.Nest4("*", x, "*", b);
    Seqs.AbsentNest("*", x, "*" + b, '*', 1, |x| + 1);
    Seqs.AtNest("*", x, "*", b, 0, |x| + 1);
    FirstIndexFromIs(s, 1, '*', |x| + 1);
    if b != [] {
      Seqs.AtNestTail("*", x, "*", b, 0, |x| + 1 + 1);
    }
  }

  lemma ItalicStep(s: string, n: nat)
    requires ItalicAt(false, s) == Some(n)
    ensures Italic(false, s) == "<em>" + s[1..n - 1] + "</em>" + Italic(true, s[n..])
  {
  }

  /** Stars that are part of a `**` pair never open or close italics: a bold
      marker the bold pass left in place stays as written. */
  lemma ItalicKeepsDoubleStars(x: string)
    requires x != [] && '*' !in x
    ensures Italic(false, "**" + x + "**") == "**" + x + "**"
  {
    var t := "*" + (x + "**");
    Seqs.Assoc("**", x, "**");
    StarStar(x + "**");
    Seqs.Cons('*', t);
    Seqs.Cons('*', x + "**");
    ItalicPair("*" + t);
    ItalicNoMatch(false, "*" + t);
    ItalicNoMatch(true, t);
    ItalicSkip(true, x, "**");
    ItalicPair("**");
    ItalicNoMatch(false, "**");
    ItalicNoMatch(true, "*");
  }

  /** A `*` right after an opening `*` ends no italic match. */
  lemma ItalicPair(s: string)
    requires |s| >= 2 && s[0] == '*' && s[1] == '*'
    ensures ItalicAt(false, s).None?
  {
  }

  lemma ItalicNoMatch(afterStar: bool, s: string)
    requires s != [] && ItalicAt(afterStar, s).None?
    ensures Italic(afterStar, s) == [s[0]] + Italic(s[0] == '*', s[1..])
  {
  }

  // ---------------------------------------------------------------------------
  // Inline code: /`([^`]+)`/g -> <code class="msg-code">$1</code>
  // ---------------------------------------------------------------------------

  function CodeAt(s: string): (r: Option<nat>)
    ensures r.Some? ==> 3 <= r.value <= |s|
  {
    if s != [] && s[0] == '`' then
      match FirstIndexFrom(s, 1, '`')
      case Some(k) => if k > 1 then Some(k + 1) else None
      case None => None
    else None
  }

  /** The inline-code pass; text without a backtick passes unchanged. */
  function Code(s: string): (r: string)
    ensures '`' !in s ==> r == s
    decreases |s|
  {
    if s == [] then []
    else match CodeAt(s)
      case Some(n) => "<code class=\"msg-code\">" + s[1..n - 1] + "</code>" + Code(s[n..])
      case None => [s[0]] + Code(s[1..])
  }

  /** Text without a backtick passes the code scanner unchanged. */
  lemma {:induction false} CodeSkip(a: string, b: string)
    requires '`' !in a
    ensures Code(a + b) == a + Code(b)
    decreases |a|
  {
    if a == [] {
      Seqs.EmptyJoin(a, b);
    } else {
      Seqs.ConsSplit(a, b);
      CodeCopies(a + b);
      CodeSkip(a[1..], b);
      Seqs.ConsJoin(a, Code(b));
    }
  }

  lemma CodeCopies(s: string)
    requires s != [] && s[0] != '`'
    ensures Code(s) == [s[0]] + Code(s[1..])
  {
  }

  /** `` `x` `` with a non-empty x becomes a code span. */
  lemma CodeHit(x: string, b: string)
    requires x != [] && '`' !in x
    ensures Code("`" + x + "`" + b) == "<code class=\"msg-code\">" + x + "</code>" + Code(b)
  {
    var s := "`" + x + "`" + b;
    CodeAtOf(x, b);
    CodeStep(s, |x| + 2);
    Seqs.Nest4("`", x, "`", b);
    Seqs.DropPrefix("`", x + ("`" + b), 1);
    Seqs.SliceAfterDrop(s, 1, |x| + 2 - 1, x, "`" + b);
    Seqs.DropPrefix("`" + x + "`", b, |x| + 2);
  }

  lemma CodeAtOf(x: string, b: string)
    requires x != [] && '`' !in x
    ensures CodeAt("`" + x + "`" + b) == Some(|x| + 2)
  {
    var s := "`" + x + "`" + b;
    Seqs.Nest4("`", x, "`", b);
    Seqs.AbsentNest("`", x, "`" + b, '`', 1, |x| + 1);
    Seqs.AtNest("`", x, "`", b, 0, |x| + 1);
    FirstIndexFromIs(s, 1, '`', |x| + 1);
  }

  lemma CodeStep(s: string, n: nat)
    requires CodeAt(s) == Some(n)
    ensures Code(s) == "<code class=\"msg-code\">" + s[1..n - 1] + "</code>" + Code(s[n..])
  {
  }

  // ---------------------------------------------------------------------------
  // Links: /\[([^\]]+)\]\(([^)]+)\)/g -> <a href="$2" ...>$1</a>
  // ---------------------------------------------------------------------------

  /** The anchor both link passes produce. */
  function Anchor(url: string, text: string): string {
    AnchorOpen + url + AnchorMid + text + AnchorClose
  }

  /** The anchor's opening tag up to the address. */
  const AnchorOpen: string := "<a href=\""
  /** The anchor's opening tag from the address to the text. */
  const AnchorMid: string := "\" target=\"_blank\"" + " rel=\"noopener\"" + " class=\"msg-link\">"
  const AnchorClose: string := "</a>"

  /** Where a markdown link's text ends (its `]`) and where the whole match ends. */
  datatype LinkSpan = LinkSpan(close: nat, end: nat)

  /** A markdown link at the start of s.  The text runs to the first `]`,
      which must be followed by `(`; the address runs to the first `)` after that. */
  function LinkAt(s: string): (r: Option<LinkSpan>)
    ensures r.Some? ==> 2 <= r.value.close && r.value.close + 4 <= r.value.end <= |s|
  {
    if s != [] && s[0] == '[' then
      match FirstIndexFrom(s, 1, ']')
      case Some(k) =>
        if k > 1 && k + 1 < |s| && s[k + 1] == '(' then
          match FirstIndexFrom(s, k + 2, ')')
          case Some(m) => if m > k + 2 then Some(LinkSpan(k, m + 1)) else None
          case None => None
        else None
      case None => None
    else None
  }

  /** The markdown-link pass; text without `[` passes unchanged. */
  function Link(s: string): (r: string)
    ensures '[' !in s ==> r == s
    decreases |s|
  {
    if s == [] then []
    else match LinkAt(s)
      case Some(p) => Anchor(s[p.close + 2..p.end - 1], s[1..p.close]) + Link(s[p.end..])
      case None => [s[0]] + Link(s[1..])
  }

  /** Text without `[` passes the link scanner unchanged. */
  lemma {:induction false} LinkSkip(a: string, b: string)
    requires '[' !in a
    ensures Link(a + b) == a + Link(b)
    decreases |a|
  {
    if a == [] {
      Seqs.EmptyJoin(a, b);
    } else {
      Seqs.ConsSplit(a, b);
      LinkCopies(a + b);
      LinkSkip(a[1..], b);
      Seqs.ConsJoin(a, Link(b));
    }
  }

  lemma LinkCopies(s: string)
    requires s != [] && s[0] != '['
    ensures Link(s) == [s[0]] + Link(s[1..])
  {
  }

  /** `[text](url)` becomes one anchor to url showing text. */
  lemma LinkHit(text: string, url: string, b: string)
    requires text != [] && ']' !in text && url != [] && ')' !in url
    ensures Link("[" + text + "](" + url + ")" + b) == Anchor(url, text) + Link(b)
  {
    var s := "[" + text + "](" + url + ")" + b;
    var k := |text|;
    LinkAtOf(text, url, b);
    LinkParts(text, url, b);
    LinkStepParts(s, k + 1, k + |url| + 4, url, text, b);
  }

  /** The address, the text and the rest of a markdown link read back by position. */
  lemma LinkParts(text: string, url: string, b: string)
    ensures var s := "[" + text + "](" + url + ")" + b; var k := |text|;
      s[1..k + 1] == text && s[k + 1 + 2..k + |url| + 4 - 1] == url && s[k + |url| + 4..] == b
  {
    var s := "[" + text + "](" + url + ")" + b;
    var k := |text|;
    var r1 := "](" + (url + (")" + b));
    Seqs.Nest6("[", text, "](", url, ")", b);
    Seqs.DropPrefix("[", text + r1, 1);
    Seqs.SliceAfterDrop(s, 1, k + 1, text, r1);
    Seqs.DropNest("[", text, "](", url + (")" + b), k + 1 + 2);
    Seqs.SliceAfterDrop(s, k + 1 + 2, k + |url| + 4 - 1, url, ")" + b);
    Seqs.DropPrefix("[" + text + "](" + url + ")", b, k + |url| + 4);
  }

  lemma LinkStepParts(s: string, close: nat, end: nat, url: string, text: string, b: string)
    requires LinkAt(s) == Some(LinkSpan(close, end)) && close + 4 <= end <= |s|
    requires s[close + 2..end - 1] == url && s[1..close] == text && s[end..] == b
    ensures Link(s) == Anchor(url, text) + Link(b)
  {
    LinkStep(s, close, end);
  }

  lemma LinkAtOf(text: string, url: string, b: string)
    requires text != [] && ']' !in text && url != [] && ')' !in url
    ensures LinkAt("[" + text + "](" + url + ")" + b) == Some(LinkSpan(|text| + 1, |text| + |url| + 4))
  {
    var s := "[" + text + "](" + url + ")" + b;
    var r := url + (")" + b);
    Seqs.Nest6("[", text, "](", url, ")", b);
    Seqs.AbsentNest("[", text, "](" + r, ']', 1, |text| + 1);
    Seqs.AtNest("[", text, "](", r, 0, |text| + 1);
    FirstIndexFromIs(s, 1, ']', |text| + 1);
    Seqs.AtNest("[", text, "](", r, 1, |text| + 1 + 1);
    LinkUrlEnd(text, url, b);
  }

  lemma LinkUrlEnd(text: string, url: string, b: string)
    requires ')' !in url
    ensures var s := "[" + text + "](" + url + ")" + b;
      |text| + 1 + 2 <= |s| && FirstIndexFrom(s, |text| + 1 + 2, ')') == Some(|text| + |url| + 3)
  {
    var s := "[" + text + "](" + url + ")" + b;
    var p := "[" + text + "](";
    Seqs.Nest4(p, url, ")", b);
    Seqs.AbsentNest(p, url, ")" + b, ')', |text| + 1 + 2, |text| + |url| + 3);
    Seqs.AtNest(p, url, ")", b, 0, |text| + |url| + 3);
    FirstIndexFromIs(s, |text| + 1 + 2, ')', |text| + |url| + 3);
  }

  lemma LinkStep(s: string, close: nat, end: nat)
    requires LinkAt(s) == Some(LinkSpan(close, end))
    ensures close + 4 <= end <= |s| && Link(s) == Anchor(s[close + 2..end - 1], s[1..close]) + Link(s[end..])
  {
    var p := LinkSpan(close, end);
    SpanFields(s, p, close, end);
    LinkSpanStep(s, p);
  }

  lemma SpanFields(s: string, p: LinkSpan, close: nat, end: nat)
    requires p == LinkSpan(close, end) && 2 <= close && close + 4 <= end <= |s|
    ensures s[p.close + 2..p.end - 1] == s[close + 2..end - 1]
    ensures s[1..p.close] == s[1..close] && s[p.end..] == s[end..]
  {
  }

  lemma LinkSpanStep(s: string, p: LinkSpan)
    requires LinkAt(s) == Some(p)
    ensures Link(s) == Anchor(s[p.close + 2..p.end - 1], s[1..p.close]) + Link(s[p.end..])
  {
  }

  // ---------------------------------------------------------------------------
  // Bare URLs: /(?<!href="|">)(https?:\/\/[^\s<>"]+)(?![^<]*<\/a>)/g
  // ---------------------------------------------------------------------------

  /** `(?<!href="|">)`: the text read so far ends in neither. */
  predicate Blocked(before: string) {
    var n := |before|;
    (n >= 6 && before[n - 6] == 'h' && before[n - 5] == 'r' && before[n - 4] == 'e'
       && before[n - 3] == 'f' && before[n - 2] == '=' && before[n - 1] == '"')
    || (n >= 2 && before[n - 2] == '"' && before[n - 1] == '>')
  }

  /** `[^\s<>"]`. */
  predicate UrlChar(c: char) {
    !JsSpace(c) && c != '<' && c != '>' && c != '"'
  }

  function UrlRun(s: string): (n: nat)
    ensures n <= |s|
  {
    if s != [] && UrlChar(s[0]) then 1 + UrlRun(s[1..]) else 0
  }

  /** The run holds only URL characters, and it is maximal. */
  lemma {:induction false} UrlRunChars(s: string)
    ensures forall i :: 0 <= i < UrlRun(s) ==> UrlChar(s[i])
    ensures UrlRun(s) < |s| ==> !UrlChar(s[UrlRun(s)])
    decreases |s|
  {
    if s != [] && UrlChar(s[0]) {
      UrlRunChars(s[1..]);
    }
  }

  /** `[^<]*<\/a>` matches at the start of s: the first `<` opens `</a>`. */
  predicate ClosesAnchor(s: string) {
    match FirstIndex(s, '<')
    case Some(p) => StartsWith(s[p..], "</a>")
    case None => false
  }

  /** The scheme length: `https?:\/\/` tries `https://` before `http://`. */
  function Scheme(s: string): (k: nat)
    ensures k <= |s|
  {
    if |s| >= 7 && s[0] == 'h' && s[1] == 't' && s[2] == 't' && s[3] == 'p' then
      if |s| >= 8 && s[4] == 's' && s[5] == ':' && s[6] == '/' && s[7] == '/' then 8
      else if s[4] == ':' && s[5] == '/' && s[6] == '/' then 7
      else 0
    else 0
  }

  /** The end of a bare URL at the start of s.  The URL characters run as far
      as they go; stopping earlier cannot help the lookahead, because the
      first `<` after any shorter stop is the same `<`. */
  function AutoAt(before: string, s: string): (r: Option<nat>)
    ensures r.Some? ==> 8 <= r.value <= |s|
  {
    var k := Scheme(s);
    if Blocked(before) || k == 0 then None
    else
      var n := k + UrlRun(s[k..]);
      if n > k && !ClosesAnchor(s[n..]) then Some(n) else None
  }

  /** The linking pass, given the text it has read so far; text with no
      `:` passes unchanged. */
  function Autolink(before: string, s: string): (r: string)
    ensures ':' !in s ==> r == s
    decreases |s|
  {
    if s == [] then []
    else
      if ':' !in s then AutoAtNoColon(before, s); [s[0]] + Autolink(before + [s[0]], s[1..])
      else
      match AutoAt(before, s)
      case Some(n) => Anchor(s[..n], s[..n]) + Autolink(before + s[..n], s[n..])
      case None => [s[0]] + Autolink(before + [s[0]], s[1..])
  }

  /** No URL starts where the text does not start with `ht`. */
  lemma AutoAtNoScheme(before: string, s: string)
    requires s == [] || s[0] != 'h' || (|s| > 1 && s[1] != 't')
    ensures AutoAt(before, s).None?
  {
  }

  /** Text with no `:` holds no URL. */
  lemma AutoAtNoColon(before: string, s: string)
    requires ':' !in s
    ensures AutoAt(before, s).None?
  {
    if |s| >= 7 {
      assert s[4] != ':' && s[5] != ':';
    }
  }

  /** Where no URL starts, the linking pass copies one character. */
  lemma AutolinkCopies(before: string, s: string)
    requires s != [] && AutoAt(before, s).None?
    ensures Autolink(before, s) == [s[0]] + Autolink(before + [s[0]], s[1..])
  {
  }

  /** No position of a starts `ht`, and a does not end in `h`. */
  predicate NoSchemeStart(a: string)
    decreases |a|
  {
    a == [] || ((a[0] != 'h' || (|a| > 1 && a[1] != 't')) && NoSchemeStart(a[1..]))
  }

  /** At every position of m, followed by t, no URL starts. */
  predicate NoUrlAhead(before: string, m: string, t: string)
    decreases |m|
  {
    m == [] || (AutoAt(before, m + t).None? && NoUrlAhead(before + [m[0]], m[1..], t))
  }

  /** Where no URL starts anywhere in m, the linking pass copies m. */
  lemma {:induction false} AutoCopiesRun(before: string, m: string, t: string)
    requires NoUrlAhead(before, m, t)
    ensures Autolink(before, m + t) == m + Autolink(before + m, t)
    decreases |m|
  {
    if m == [] {
      Seqs.EmptyJoin(m, t);
      Seqs.EmptyJoin(m, before);
    } else {
      var s := m + t;
      var c, m' := m[0], m[1..];
      Seqs.ConsSplit(m, t);
      AutolinkCopies(before, s);
      AutoCopiesRun(before + [c], m', t);
      Seqs.SnocJoin(before, m);
      var tail := Autolink(before + m, t);
      Seqs.ConsJoin(m, tail);
    }
  }

  /** A text where no `h` is followed by `t` starts no URL. */
  lemma {:induction false} NoSchemeNoUrl(before: string, a: string, b: string)
    requires NoSchemeStart(a)
    ensures NoUrlAhead(before, a, b)
    decreases |a|
  {
    if a != [] {
      var s := a + b;
      assert s[0] == a[0] && s[1..] == a[1..] + b;
      assert |a| > 1 ==> s[1] == a[1];
      AutoAtNoScheme(before, s);
      NoSchemeNoUrl(before + [a[0]], a[1..], b);
    }
  }

  /** Two stretches with no URL start make one. */
  lemma {:induction false} NoUrlAheadConcat(before: string, a: string, b: string, t: string)
    requires NoUrlAhead(before, a, b + t) && NoUrlAhead(before + a, b, t)
    ensures NoUrlAhead(before, a + b, t)
    decreases |a|
  {
    if a == [] {
      Seqs.EmptyJoin(a, b);
      Seqs.EmptyJoin(a, before);
    } else {
      var c, a' := a[0], a[1..];
      Seqs.Assoc(a, b, t);
      Seqs.ConsSplit(a, b);
      Seqs.Assoc(a', b, t);
      Seqs.SnocJoin(before, a);
      NoUrlAheadConcat(before + [c], a', b, t);
    }
  }

  /** Where no `h` is followed by `t`, the linking pass copies. */
  lemma AutoNoScheme(before: string, a: string, b: string)
    requires NoSchemeStart(a)
    ensures Autolink(before, a + b) == a + Autolink(before + a, b)
  {
    NoSchemeNoUrl(before, a, b);
    AutoCopiesRun(before, a, b);
  }

  /** Up to the `</a>` its lookahead sees, no URL starts. */
  lemma {:induction false} ClosingNoUrl(before: string, m: string, t: string)
    requires '<' !in m && ClosesAnchor(m + t)
    ensures NoUrlAhead(before, m, t)
    decreases |m|
  {
    if m != [] {
      var s := m + t;
      assert s[0] == m[0] && s[1..] == m[1..] + t;
      AutoAtClosing(before, s);
      ClosesAnchorTail(s);
      ClosingNoUrl(before + [m[0]], m[1..], t);
    }
  }

  /** Up to the `</a>` its lookahead sees, the linking pass copies. */
  lemma AutoBeforeClose(before: string, m: string, t: string)
    requires '<' !in m && ClosesAnchor(m + t)
    ensures Autolink(before, m + t) == m + Autolink(before + m, t)
  {
    ClosingNoUrl(before, m, t);
    AutoCopiesRun(before, m, t);
  }

  /** Dropping a character other than `<` keeps the same `<` ahead. */
  lemma ClosesAnchorTail(s: string)
    requires s != [] && s[0] != '<' && ClosesAnchor(s)
    ensures ClosesAnchor(s[1..])
  {
    var p := FirstIndex(s, '<').value;
    assert p >= 1;
    FirstIndexShift(s, 1, p);
    assert s[1..][p - 1..] == s[p..];
  }

  /** Inside an anchor, wherever the lookahead sees `</a>` before any other
      tag opens, no URL is linked. */
  lemma AutoAtClosing(before: string, s: string)
    requires ClosesAnchor(s)
    ensures AutoAt(before, s).None?
  {
    var k := Scheme(s);
    if !Blocked(before) && k != 0 {
      var n := k + UrlRun(s[k..]);
      var p := FirstIndex(s, '<').value;
      assert forall i :: 0 <= i < k ==> s[i] != '<';
      UrlRunChars(s[k..]);
      assert forall i :: k <= i < n ==> s[i] == s[k..][i - k];
      assert p >= n;
      assert '<' !in s[..n];
      FirstIndexShift(s, n, p);
      assert s[n..][p - n..] == s[p..];
    }
  }

  lemma FirstIndexShift(s: string, n: nat, p: nat)
    requires n <= p && FirstIndex(s, '<') == Some(p)
    ensures FirstIndex(s[n..], '<') == Some(p - n)
  {
    assert s[n..] == s[n..p] + s[p..];
    assert '<' !in s[n..p] by {
      assert forall i :: 0 <= i < p - n ==> s[n..p][i] == s[..p][n + i];
    }
    FirstIndexAfter(s[n..p], '<', s[p..]);
  }

  /** After text with no `<`, the first `<` is the closing `</a>`. */
  lemma ClosesAnchorAfter(m: string, rest: string)
    requires '<' !in m
    ensures ClosesAnchor(m + "</a>" + rest)
  {
    var s := m + "</a>" + rest;
    assert s == m + ("</a>" + rest);
    FirstIndexAfter(m, '<', "</a>" + rest);
    assert s[|m|..][..4] == "</a>";
  }

  /** The opening tag's only `h` is followed by `r`. */
  lemma {:induction false} AnchorOpenNoScheme()
    ensures NoSchemeStart(AnchorOpen)
  {
    var a := AnchorOpen;
    assert NoSchemeStart(a[9..]);
    assert NoSchemeStart(a[8..]);
    assert NoSchemeStart(a[7..]);
    assert NoSchemeStart(a[6..]);
    assert NoSchemeStart(a[5..]);
    assert NoSchemeStart(a[4..]);
    assert a[3] == 'h' && a[4] == 'r';
    assert NoSchemeStart(a[3..]);
    assert NoSchemeStart(a[2..]);
    assert NoSchemeStart(a[1..]);
  }

  /** The middle of the anchor markup opens no tag. */
  lemma AnchorMidNoAngle()
    ensures '<' !in AnchorMid
  {
    assert '<' !in "\" target=\"_blank\"";
    assert '<' !in " rel=\"noopener\"";
    assert '<' !in " class=\"msg-link\">";
  }

  /** The closing tag has no `h`. */
  lemma CloseNoScheme()
    ensures NoSchemeStart("</a>")
  {
    var a := "</a>";
    assert NoSchemeStart(a[3..]);
    assert NoSchemeStart(a[2..]);
    assert NoSchemeStart(a[1..]);
  }

  lemma AnchorParts(url: string, text: string)
    ensures Anchor(url, text) == AnchorOpen + (url + AnchorMid + text) + "</a>"
  {
    Seqs.Assoc(AnchorOpen, url, AnchorMid);
    Seqs.Assoc(AnchorOpen, url + AnchorMid, text);
  }

  /** An anchor that the markdown link pass made is not linked a second time:
      the linking pass copies it whole, as long as neither its address nor its
      text holds `<` (they come from escaped text, so they never do). */
  lemma AutolinkKeepsAnchor(before: string, url: string, text: string, rest: string)
    requires '<' !in url && '<' !in text
    ensures Autolink(before, Anchor(url, text) + rest)
         == Anchor(url, text) + Autolink(before + Anchor(url, text), rest)
  {
    var m := url + AnchorMid + text;
    AnchorMidNoAngle();
    assert '<' !in m;
    AnchorParts(url, text);
    Seqs.Assoc(AnchorOpen, m, "</a>");
    AnchorNoUrl(before, m, rest);
    AutoCopiesRun(before, AnchorOpen + (m + "</a>"), rest);
  }

  /** No bare URL starts anywhere inside an anchor whose inner part m holds no `<`. */
  lemma AnchorNoUrl(before: string, m: string, rest: string)
    requires '<' !in m
    ensures NoUrlAhead(before, AnchorOpen + (m + "</a>"), rest)
  {
    // the opening tag: its only `h` is followed by `r`
    InnerNoUrl(before + AnchorOpen, m, rest);
    AnchorOpenNoScheme();
    NoSchemeNoUrl(before, AnchorOpen, (m + "</a>") + rest);
    NoUrlAheadConcat(before, AnchorOpen, m + "</a>", rest);
  }

  /** The address, the rest of the tag and the text have `</a>` ahead of them,
      and the closing tag has no `h`. */
  lemma InnerNoUrl(open: string, m: string, rest: string)
    requires '<' !in m
    ensures NoUrlAhead(open, m + "</a>", rest)
  {
    ClosesAnchorAfter(m, rest);
    Seqs.Assoc(m, "</a>", rest);
    ClosingNoUrl(open, m, "</a>" + rest);
    CloseNoScheme();
    NoSchemeNoUrl(open + m, "</a>", rest);
    NoUrlAheadConcat(open, m, "</a>", rest);
  }

  // ---------------------------------------------------------------------------
  // Emoji
  // ---------------------------------------------------------------------------

  const CheckMark: string := "\U{2705}"
  const Memo: string := "\U{1F4DD}"
  const Calendar: string := "\U{1F4C5}"
  const CrossMark: string := "\U{274C}"
  const Warning: string := "\U{26A0}\U{FE0F}"
  const Smile: string := "\U{1F60A}"

  function ColorSpan(color: string, e: string): string {
    "<span style=\"color: " + color + ";\">" + e + "</span>"
  }

  function SmileSpan(): string {
    "<span style=\"font-size: 1.2em;\">" + Smile + "</span>"
  }

  /** The six emoji replacements in the renderer's order; the result is the
      per-character wrapping EmojiRef describes. */
  function Emoji(s: string): (r: string)
    ensures r == EmojiRef(s)
  {
    var s1 := ReplaceAll(s, CheckMark, ColorSpan("#28a745", CheckMark));
    var s2 := ReplaceAll(s1, Memo, ColorSpan("#17a2b8", Memo));
    var s3 := ReplaceAll(s2, Calendar, ColorSpan("#ffc107", Calendar));
    var s4 := ReplaceAll(s3, CrossMark, ColorSpan("#dc3545", CrossMark));
    var s5 := ReplaceAll(s4, Warning, ColorSpan("#ff9800", Warning));
    var r := ReplaceAll(s5, Smile, SmileSpan());
    ChainAsMaps(s);
    EmojiChainIsRef(s);
    r
  }

  /** The code points that begin one of the six emoji. */
  const EmojiStarts: set<char> := {'\U{2705}', '\U{1F4DD}', '\U{1F4C5}', '\U{274C}', '\U{26A0}', '\U{1F60A}'}

  predicate NoEmoji(s: string) {
    forall i :: 0 <= i < |s| ==> s[i] !in EmojiStarts
  }

  /** What one character becomes: each of the five one-character emoji in
      its span, anything else (a lone U+26A0 included) as it is. */
  function EmojiOf(c: char): (r: string)
    ensures r != []
    ensures c !in EmojiStarts || c == '\U{26A0}' ==> r == [c]
  {
    if c == '\U{2705}' then ColorSpan("#28a745", CheckMark)
    else if c == '\U{1F4DD}' then ColorSpan("#17a2b8", Memo)
    else if c == '\U{1F4C5}' then ColorSpan("#ffc107", Calendar)
    else if c == '\U{274C}' then ColorSpan("#dc3545", CrossMark)
    else if c == '\U{1F60A}' then SmileSpan()
    else [c]
  }

  /** The reference emoji stage: U+26A0 followed by U+FE0F becomes the
      warning span, every other character is replaced by EmojiOf. */
  function EmojiRef(s: string): (r: string)
    ensures NoEmoji(s) ==> r == s
    decreases |s|
  {
    if s == [] then []
    else if |s| >= 2 && s[0] == '\U{26A0}' && s[1] == '\U{FE0F}' then ColorSpan("#ff9800", Warning) + EmojiRef(s[2..])
    else EmojiOf(s[0]) + EmojiRef(s[1..])
  }

  /** An emoji next to plain text: the text is kept on either side and the
      emoji is wrapped. */
  lemma EmojiWraps(a: string, c: char, b: string)
    requires NoEmoji(a) && c in EmojiStarts && c != '\U{26A0}'
    ensures Emoji(a + [c] + b) == a + EmojiOf(c) + Emoji(b)
    ensures EmojiOf(c) != [c]
  {
    EmojiRefConcat(a, [c] + b);
    Seqs.Assoc(a, [c], b);
    EmojiRefCons(c, b);
    Seqs.Assoc(a, EmojiOf(c), EmojiRef(b));
    EmojiOfWraps(c);
  }

  lemma EmojiRefCons(c: char, b: string)
    requires c != '\U{26A0}'
    ensures EmojiRef([c] + b) == EmojiOf(c) + EmojiRef(b)
  {
    Seqs.Cons(c, b);
  }

  lemma EmojiOfWraps(c: char)
    requires c in EmojiStarts && c != '\U{26A0}'
    ensures EmojiOf(c) != [c]
  {
    SpansOpen(c);
    if c == '\U{1F60A}' {
      assert SmileSpan()[0] == '<';
    } else {
      assert EmojiOf(c) == FourOf(c);
    }
  }

  /** The warning sign with its variation selector is wrapped; without the
      selector it is kept. */
  lemma WarningWraps(a: string, b: string)
    requires NoEmoji(a)
    ensures Emoji(a + Warning + b) == a + ColorSpan("#ff9800", Warning) + Emoji(b)
    ensures b == [] || b[0] != '\U{FE0F}' ==> Emoji(a + ['\U{26A0}'] + b) == a + ['\U{26A0}'] + Emoji(b)
  {
    EmojiRefConcat(a, Warning + b);
    Seqs.Assoc(a, Warning, b);
    assert (Warning + b)[2..] == b;
    Seqs.Assoc(a, ColorSpan("#ff9800", Warning), EmojiRef(b));
    EmojiRefConcat(a, ['\U{26A0}'] + b);
    Seqs.Assoc(a, ['\U{26A0}'], b);
    assert (['\U{26A0}'] + b)[1..] == b;
    Seqs.Assoc(a, ['\U{26A0}'], EmojiRef(b));
  }

  /** Text without emoji in front is copied by the reference stage. */
  lemma {:induction false} EmojiRefConcat(a: string, b: string)
    requires NoEmoji(a)
    ensures EmojiRef(a + b) == a + EmojiRef(b)
    decreases |a|
  {
    if a == [] {
      Seqs.EmptyJoin(a, b);
    } else {
      assert a[0] !in EmojiStarts;
      Seqs.ConsSplit(a, b);
      EmojiRefConcat(a[1..], b);
      Seqs.ConsJoin(a, EmojiRef(b));
    }
  }

  /** Text without emoji passes the emoji stage unchanged. */
  lemma EmojiPlain(s: string)
    requires NoEmoji(s)
    ensures Emoji(s) == s
  {
  }

  // The proof that the six global replacements are the reference stage.

  /** The four one-character replacements that run before the warning. */
  function FirstFour(s: string): string {
    MapChar(MapChar(MapChar(MapChar(s, '\U{2705}', ColorSpan("#28a745", CheckMark)),
      '\U{1F4DD}', ColorSpan("#17a2b8", Memo)), '\U{1F4C5}', ColorSpan("#ffc107", Calendar)),
      '\U{274C}', ColorSpan("#dc3545", CrossMark))
  }

  /** What FirstFour makes of one character. */
  function FourOf(c: char): string {
    if c == '\U{2705}' || c == '\U{1F4DD}' || c == '\U{1F4C5}' || c == '\U{274C}' then EmojiOf(c) else [c]
  }

  function WarningPass(s: string): string {
    ReplaceAll(s, Warning, ColorSpan("#ff9800", Warning))
  }

  function SmilePass(s: string): string {
    MapChar(s, '\U{1F60A}', SmileSpan())
  }

  /** Characters below 128: the markup of the spans. */
  predicate Ascii(s: string) {
    forall i :: 0 <= i < |s| ==> s[i] as int < 128
  }

  lemma SpanParts()
    ensures Ascii("<span style=\"color: ") && Ascii(";\">") && Ascii("</span>")
    ensures Ascii("<span style=\"font-size: 1.2em;\">")
  {
  }

  lemma AsciiLacks(s: string, c: char)
    requires Ascii(s) && c as int >= 128
    ensures c !in s
  {
  }

  /** A span holds no emoji other than its own. */
  lemma ColorSpanLacks(color: string, e: string, c: char)
    requires Ascii(color) && c as int >= 128 && c !in e
    ensures c !in ColorSpan(color, e)
  {
    SpanParts();
    AsciiLacks("<span style=\"color: ", c);
    AsciiLacks(color, c);
    AsciiLacks(";\">", c);
    AsciiLacks("</span>", c);
  }

  lemma SmileSpanLacks(c: char)
    requires c as int >= 128 && c != '\U{1F60A}'
    ensures c !in SmileSpan()
  {
    SpanParts();
    AsciiLacks("<span style=\"font-size: 1.2em;\">", c);
    AsciiLacks("</span>", c);
  }

  lemma ColorsAscii()
    ensures Ascii("#28a745") && Ascii("#17a2b8") && Ascii("#ffc107") && Ascii("#dc3545") && Ascii("#ff9800")
  {
  }

  /** Each span starts with `<`. */
  lemma SpansOpen(c: char)
    ensures FourOf(c)[0] == (if c == '\U{2705}' || c == '\U{1F4DD}' || c == '\U{1F4C5}' || c == '\U{274C}' then '<' else c)
    ensures ColorSpan("#ff9800", Warning)[0] == '<'
  {
  }

  lemma FirstFourConcat(a: string, b: string)
    ensures FirstFour(a + b) == FirstFour(a) + FirstFour(b)
  {
    var r1, r2, r3, r4 := ColorSpan("#28a745", CheckMark), ColorSpan("#17a2b8", Memo),
      ColorSpan("#ffc107", Calendar), ColorSpan("#dc3545", CrossMark);
    MapCharConcat(a, b, '\U{2705}', r1);
    var a1, b1 := MapChar(a, '\U{2705}', r1), MapChar(b, '\U{2705}', r1);
    MapCharConcat(a1, b1, '\U{1F4DD}', r2);
    var a2, b2 := MapChar(a1, '\U{1F4DD}', r2), MapChar(b1, '\U{1F4DD}', r2);
    MapCharConcat(a2, b2, '\U{1F4C5}', r3);
    var a3, b3 := MapChar(a2, '\U{1F4C5}', r3), MapChar(b2, '\U{1F4C5}', r3);
    MapCharConcat(a3, b3, '\U{274C}', r4);
  }

  /** A span made by one replacement is left alone by the later ones. */
  lemma FirstFourOne(x: char)
    ensures FirstFour([x]) == FourOf(x)
  {
    ColorsAscii();
    var r1, r2, r3, r4 := ColorSpan("#28a745", CheckMark), ColorSpan("#17a2b8", Memo),
      ColorSpan("#ffc107", Calendar), ColorSpan("#dc3545", CrossMark);
    MapCharOne(x, '\U{2705}', r1);
    var s1 := MapChar([x], '\U{2705}', r1);
    if x == '\U{2705}' {
      ColorSpanLacks("#28a745", CheckMark, '\U{1F4DD}');
      ColorSpanLacks("#28a745", CheckMark, '\U{1F4C5}');
      ColorSpanLacks("#28a745", CheckMark, '\U{274C}');
      MapCharAbsent(s1, '\U{1F4DD}', r2);
      MapCharAbsent(s1, '\U{1F4C5}', r3);
      MapCharAbsent(s1, '\U{274C}', r4);
    } else {
      MapCharOne(x, '\U{1F4DD}', r2);
      var s2 := MapChar(s1, '\U{1F4DD}', r2);
      if x == '\U{1F4DD}' {
        ColorSpanLacks("#17a2b8", Memo, '\U{1F4C5}');
        ColorSpanLacks("#17a2b8", Memo, '\U{274C}');
        MapCharAbsent(s2, '\U{1F4C5}', r3);
        MapCharAbsent(s2, '\U{274C}', r4);
      } else {
        MapCharOne(x, '\U{1F4C5}', r3);
        var s3 := MapChar(s2, '\U{1F4C5}', r3);
        if x == '\U{1F4C5}' {
          ColorSpanLacks("#ffc107", Calendar, '\U{274C}');
          MapCharAbsent(s3, '\U{274C}', r4);
        } else {
          MapCharOne(x, '\U{274C}', r4);
        }
      }
    }
  }

  /** The warning and smile replacements leave a one-character piece as
      EmojiOf says. */
  lemma LastTwoOne(x: char)
    ensures WarningPass(FourOf(x)) == FourOf(x)
    ensures SmilePass(FourOf(x)) == EmojiOf(x)
  {
    ColorsAscii();
    var f := FourOf(x);
    if x == '\U{2705}' || x == '\U{1F4DD}' || x == '\U{1F4C5}' || x == '\U{274C}' {
      var color := if x == '\U{2705}' then "#28a745" else if x == '\U{1F4DD}' then "#17a2b8"
        else if x == '\U{1F4C5}' then "#ffc107" else "#dc3545";
      assert f == ColorSpan(color, [x]);
      ColorSpanLacks(color, [x], '\U{26A0}');
      ColorSpanLacks(color, [x], '\U{1F60A}');
      if Contains(f, Warning) {
        ContainsFirstChar(f, Warning);
      }
      ReplaceAbsent(f, Warning, ColorSpan("#ff9800", Warning));
      MapCharAbsent(f, '\U{1F60A}', SmileSpan());
    } else {
      MapCharOne(x, '\U{1F60A}', SmileSpan());
    }
  }

  /** The warning span is left alone by the smile replacement. */
  lemma WarningSpanQuiet()
    ensures SmilePass(ColorSpan("#ff9800", Warning)) == ColorSpan("#ff9800", Warning)
    ensures FirstFour(Warning) == Warning
  {
    ColorsAscii();
    ColorSpanLacks("#ff9800", Warning, '\U{1F60A}');
    MapCharAbsent(ColorSpan("#ff9800", Warning), '\U{1F60A}', SmileSpan());
    assert Warning == ['\U{26A0}'] + ['\U{FE0F}'];
    FirstFourConcat(['\U{26A0}'], ['\U{FE0F}']);
    FirstFourOne('\U{26A0}');
    FirstFourOne('\U{FE0F}');
  }

  /** The chain with the one-character replacements read as character maps. */
  lemma ChainAsMaps(s: string)
    ensures ReplaceAll(ReplaceAll(ReplaceAll(ReplaceAll(ReplaceAll(ReplaceAll(s,
        CheckMark, ColorSpan("#28a745", CheckMark)), Memo, ColorSpan("#17a2b8", Memo)),
        Calendar, ColorSpan("#ffc107", Calendar)), CrossMark, ColorSpan("#dc3545", CrossMark)),
        Warning, ColorSpan("#ff9800", Warning)), Smile, SmileSpan())
      == SmilePass(WarningPass(FirstFour(s)))
  {
    ReplaceOneChar(s, '\U{2705}', ColorSpan("#28a745", CheckMark));
    var s1 := ReplaceAll(s, CheckMark, ColorSpan("#28a745", CheckMark));
    ReplaceOneChar(s1, '\U{1F4DD}', ColorSpan("#17a2b8", Memo));
    var s2 := ReplaceAll(s1, Memo, ColorSpan("#17a2b8", Memo));
    ReplaceOneChar(s2, '\U{1F4C5}', ColorSpan("#ffc107", Calendar));
    var s3 := ReplaceAll(s2, Calendar, ColorSpan("#ffc107", Calendar));
    ReplaceOneChar(s3, '\U{274C}', ColorSpan("#dc3545", CrossMark));
    var s4 := ReplaceAll(s3, CrossMark, ColorSpan("#dc3545", CrossMark));
    ReplaceOneChar(WarningPass(s4), '\U{1F60A}', SmileSpan());
  }

  lemma {:induction false} EmojiChainIsRef(s: string)
    ensures SmilePass(WarningPass(FirstFour(s))) == EmojiRef(s)
    decreases |s|
  {
    if s == [] {
    } else if |s| >= 2 && s[0] == '\U{26A0}' && s[1] == '\U{FE0F}' {
      EmojiChainIsRef(s[2..]);
      ChainWarningHead(s);
    } else {
      EmojiChainIsRef(s[1..]);
      ChainOtherHead(s);
    }
  }

  /** One step of the proof: a leading warning sign with its selector. */
  lemma ChainWarningHead(s: string)
    requires |s| >= 2 && s[0] == '\U{26A0}' && s[1] == '\U{FE0F}'
    ensures SmilePass(WarningPass(FirstFour(s)))
      == ColorSpan("#ff9800", Warning) + SmilePass(WarningPass(FirstFour(s[2..])))
  {
    var rest := s[2..];
    assert s == Warning + rest;
    FirstFourConcat(Warning, rest);
    WarningSpanQuiet();
    var w := ColorSpan("#ff9800", Warning);
    ReplaceMatchJoin(Warning, FirstFour(rest), Warning, w);
    assert Warning[2..] + FirstFour(rest) == FirstFour(rest);
    MapCharConcat(w, WarningPass(FirstFour(rest)), '\U{1F60A}', SmileSpan());
  }

  /** One step of the proof: any other leading character. */
  lemma ChainOtherHead(s: string)
    requires s != [] && !(|s| >= 2 && s[0] == '\U{26A0}' && s[1] == '\U{FE0F}')
    ensures SmilePass(WarningPass(FirstFour(s))) == EmojiOf(s[0]) + SmilePass(WarningPass(FirstFour(s[1..])))
  {
    var rest := s[1..];
    Seqs.HeadTail(s);
    FirstFourConcat([s[0]], rest);
    FirstFourOne(s[0]);
    var f := FourOf(s[0]);
    SpansOpen(s[0]);
    if rest != [] {
      Seqs.HeadTail(rest);
      FirstFourConcat([rest[0]], rest[1..]);
      FirstFourOne(rest[0]);
      SpansOpen(rest[0]);
    }
    ReplacePairConcat(f, FirstFour(rest), Warning, ColorSpan("#ff9800", Warning));
    LastTwoOne(s[0]);
    MapCharConcat(f, WarningPass(FirstFour(rest)), '\U{1F60A}', SmileSpan());
  }
}
