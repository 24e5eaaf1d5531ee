/** `formatMessage` as a whole: the block stage of the renderer followed by the
    six inline passes in the order the renderer applies them, and what the
    composition does to a plain line, to bold and italic markup side by side
    and to a markdown link. */
module Format {
  import opened Text
  import opened Render
  import opened Inline
  import Seqs

  /** Bold, italic, inline code, markdown links, bare URLs, emoji: in this order. */
  function InlinePasses(html: string): string {
    Emoji(Autolink("", Link(Code(Italic(false, Bold(html))))))
  }

  /** The HTML the chat shows for one assistant message; a plain line comes
      out as one paragraph holding the line. */
  function FormatMessage(content: string): (r: string)
    ensures PlainLine(content) ==> r == OpenTag(Paragraph) + content + CloseTag(Paragraph)
  {
    var r := InlinePasses(BlocksHtml(content));
    if PlainLine(content) then PlainLinePasses(content); r else r
  }

  /** A character that no stage of the renderer reacts to. */
  predicate Inert(c: char) {
    c !in {'\n', '<', '>', '&', '*', '`', '[', ':'} && c !in EmojiStarts
  }

  /** A line of ordinary prose: only inert characters, and a first character
      that opens no block marker. */
  predicate PlainLine(s: string) {
    s != [] && (forall i :: 0 <= i < |s| ==> Inert(s[i]))
    && !JsSpace(s[0]) && !IsDigit(s[0]) && s[0] !in {'#', '>', '-', '•'}
  }

  /** A line the block stage shows as one paragraph holding it unchanged:
      no line break, no angle bracket and no ampersand, and a first
      character that opens no block marker. */
  predicate ParagraphLine(s: string) {
    s != [] && '\n' !in s && '<' !in s && '>' !in s && '&' !in s
    && !JsSpace(s[0]) && !IsDigit(s[0]) && s[0] !in {'#', '>', '-', '•', '*'}
  }

  lemma PlainIsParagraphLine(s: string)
    requires PlainLine(s)
    ensures ParagraphLine(s)
  {
    InertAbsent(s, '<');
    InertAbsent(s, '>');
    InertAbsent(s, '&');
    InertAbsent(s, '\n');
  }

  /** Such a line is a paragraph that shows its text unchanged. */
  lemma PlainParagraph(s: string)
    requires ParagraphLine(s)
    ensures Classify(s) == Paragraph && Payload(s) == s
  {
    PlainStart(s);
    NoBulletNoNumber(s);
    ClassifyMarkup(s);
    assert s[0..] == s;
  }

  /** The renderer's stages leave a plain message as one paragraph holding
      the text as it was. */
  lemma PlainLinePasses(s: string)
    requires PlainLine(s)
    ensures InlinePasses(BlocksHtml(s)) == OpenTag(Paragraph) + s + CloseTag(Paragraph)
  {
    var h := OpenTag(Paragraph) + s + CloseTag(Paragraph);
    PlainIsParagraphLine(s);
    ParagraphBlock(s);
    ParagraphTagsQuiet();
    PlainQuiet(s);
    NoEmojiConcat(OpenTag(Paragraph), s);
    NoEmojiConcat(OpenTag(Paragraph) + s, CloseTag(Paragraph));
    InertPasses(h);
  }

  /** The block stage turns a plain line into one paragraph fragment. */
  lemma ParagraphBlock(s: string)
    requires ParagraphLine(s)
    ensures BlocksHtml(s) == OpenTag(Paragraph) + s + CloseTag(Paragraph)
  {
    PlainOneLine(s);
    assert BlocksHtml(s) == Fragments([s]);
    PlainParagraph(s);
    EscapePlain(s);
    assert Fragment(s) == OpenTag(Paragraph) + s + CloseTag(Paragraph);
    FragmentsCons([s]);
    assert [s][1..] == [];
    assert Fragments([s]) == Fragment(s) + "";
  }

  /** A plain line survives the comment stage and stays one line. */
  lemma PlainOneLine(s: string)
    requires ParagraphLine(s)
    ensures SplitLines(Uncomment(s)) == [s]
  {
    SplitLinesSingle(s);
  }

  lemma InertAbsent(s: string, c: char)
    requires (forall i :: 0 <= i < |s| ==> Inert(s[i])) && !Inert(c)
    ensures c !in s
  {
    forall i | 0 <= i < |s|
      ensures s[i] != c
    {
      assert Inert(s[i]);
    }
  }

  lemma PlainQuiet(s: string)
    requires PlainLine(s)
    ensures '*' !in s && '`' !in s && '[' !in s && ':' !in s && NoEmoji(s)
  {
    InertAbsent(s, '*');
    InertAbsent(s, '`');
    InertAbsent(s, '[');
    InertAbsent(s, ':');
  }

  lemma ParagraphTagsQuiet()
    ensures var o, c := OpenTag(Paragraph), CloseTag(Paragraph);
      '*' !in o && '`' !in o && '[' !in o && ':' !in o && NoEmoji(o)
      && '*' !in c && '`' !in c && '[' !in c && ':' !in c && NoEmoji(c)
  {
    TagQuiet(OpenTag(Paragraph));
    TagQuiet(CloseTag(Paragraph));
  }

  /** Lower-case letters, blanks, dashes and the characters of tag syntax. */
  predicate TagChar(c: char) {
    'a' <= c <= 'z' || c == ' ' || c == '-' || c == '<' || c == '>' || c == '/' || c == '=' || c == '"'
  }

  lemma TagQuiet(t: string)
    requires forall i :: 0 <= i < |t| ==> TagChar(t[i])
    ensures '*' !in t && '`' !in t && '[' !in t && ':' !in t && NoEmoji(t)
  {
  }

  lemma NoEmojiConcat(a: string, b: string)
    requires NoEmoji(a) && NoEmoji(b)
    ensures NoEmoji(a + b)
  {
    forall i | 0 <= i < |a + b| ensures (a + b)[i] !in EmojiStarts {
      if i < |a| { assert (a + b)[i] == a[i]; } else { assert (a + b)[i] == b[i - |a|]; }
    }
  }

  /** Inline passes over HTML with no markup character and no emoji. */
  lemma InertPasses(h: string)
    requires '*' !in h && '`' !in h && '[' !in h && ':' !in h && NoEmoji(h)
    ensures InlinePasses(h) == h
  {
    BoldSkip(h, []);
    Seqs.EmptyJoin([], h);
    CodeSkip(h, []);
    LinkSkip(h, []);
    EmojiPlain(h);
  }

  /** Bold runs before italic: `**x** m *y*` gives one `<strong>` and one
      `<em>`, and no `*` is left over. */
  lemma BoldThenItalic(x: string, m: string, y: string)
    requires x != [] && m != [] && y != [] && '*' !in x && '*' !in m && '*' !in y
    ensures Italic(false, Bold("**" + x + "**" + m + "*" + y + "*"))
         == ("<strong>" + x + "</strong>") + m + ("<em>" + y + "</em>")
  {
    BoldStage(x, m, y);
    StrongNoStar(x, m);
    ItalicStage("<strong>" + x + "</strong>" + m, y);
  }

  lemma BoldStage(x: string, m: string, y: string)
    requires x != [] && m != [] && y != [] && '*' !in x && '*' !in m && '*' !in y
    ensures Bold("**" + x + "**" + m + "*" + y + "*") == "<strong>" + x + "</strong>" + m + ("*" + y + "*")
  {
    var u := "*" + y + "*";
    Seqs.Regroup5("**" + x + "**", m, "*", y, "*");
    BoldHit(x, m + u);
    BoldSkip(m, u);
    BoldStarWord(y);
    Seqs.Assoc("<strong>" + x + "</strong>", m, u);
  }

  lemma StrongNoStar(x: string, m: string)
    requires '*' !in x && '*' !in m
    ensures '*' !in "<strong>" + x + "</strong>" + m
  {
    assert '*' !in "<strong>" && '*' !in "</strong>";
  }

  lemma ItalicStage(a: string, y: string)
    requires a != [] && '*' !in a && y != [] && '*' !in y
    ensures Italic(false, a + ("*" + y + "*")) == a + ("<em>" + y + "</em>")
  {
    var u := "*" + y + "*";
    ItalicSkip(false, a, u);
    ItalicHit(y, []);
    Seqs.EmptyJoin([], u);
  }

  /** A single-starred word has no `**` pair for the bold pass to take. */
  lemma BoldStarWord(y: string)
    requires y != [] && '*' !in y
    ensures Bold("*" + y + "*") == "*" + y + "*"
  {
    var u := "*" + y + "*";
    assert u[1] == y[0] && u[1..] == y + "*";
    BoldLoneStar(u);
    BoldSkip(y, "*");
    assert Bold("*") == "*";
  }

  /** Links run before bare URLs: a markdown link becomes exactly one anchor,
      and the bare-URL pass does not link its address a second time. */
  lemma LinkedOnce(text: string, url: string)
    requires text != [] && ']' !in text && '<' !in text
    requires url != [] && ')' !in url && '<' !in url
    ensures Autolink("", Link("[" + text + "](" + url + ")")) == Anchor(url, text)
  {
    var s := "[" + text + "](" + url + ")";
    Seqs.EmptyJoin([], s);
    LinkHit(text, url, []);
    Seqs.EmptyJoin([], Anchor(url, text));
    AutolinkKeepsAnchor("", url, text, []);
  }

  /** A markdown link alone on a line, say `[site](https://x.com)`, comes out
      as one paragraph holding exactly one anchor: the link pass makes it and
      the bare-URL pass does not link its address a second time. */
  lemma FormatLinkLine(text: string, url: string)
    requires text != [] && forall i :: 0 <= i < |text| ==> Inert(text[i]) && text[i] != ']'
    requires url != [] && forall i :: 0 <= i < |url| ==> (Inert(url[i]) || url[i] == ':') && url[i] != ')'
    ensures FormatMessage("[" + text + "](" + url + ")")
         == OpenTag(Paragraph) + Anchor(url, text) + CloseTag(Paragraph)
  {
    var s := "[" + text + "](" + url + ")";
    var o, c := OpenTag(Paragraph), CloseTag(Paragraph);
    var a := Anchor(url, text);
    LinkLineChars(text, url);
    ParagraphBlock(s);
    ParagraphTagsQuiet();
    var h := o + s + c;
    assert '*' !in h && '`' !in h;
    assert Code(Italic(false, Bold(h))) == h;
    Seqs.Assoc(o, s, c);
    LinkSkip(o, s + c);
    LinkHit(text, url, c);
    assert Link(h) == o + (a + c);
    ParagraphOpenNoScheme();
    AutoNoScheme("", o, a + c);
    Seqs.EmptyJoin([], o);
    AutolinkKeepsAnchor(o, url, text, c);
    assert Autolink("", Link(h)) == o + (a + c);
    AnchorNoEmoji(url, text);
    NoEmojiConcat(a, c);
    NoEmojiConcat(o, a + c);
    EmojiPlain(o + (a + c));
    Seqs.Assoc(o, a, c);
  }

  /** What the link line holds: a paragraph line without stars, backticks
      or emoji, its address and text without `<`. */
  lemma LinkLineChars(text: string, url: string)
    requires text != [] && forall i :: 0 <= i < |text| ==> Inert(text[i]) && text[i] != ']'
    requires url != [] && forall i :: 0 <= i < |url| ==> (Inert(url[i]) || url[i] == ':') && url[i] != ')'
    ensures var s := "[" + text + "](" + url + ")";
      ParagraphLine(s) && '*' !in s && '`' !in s
    ensures '<' !in url && '<' !in text && NoEmoji(url) && NoEmoji(text)
  {
    forall ch | ch in {'\n', '<', '>', '&', '*', '`'} ensures ch !in text && ch !in url {
      assert !Inert(ch) && ch != ':';
    }
    var s := "[" + text + "](" + url + ")";
    assert s[0] == '[';
  }

  /** The paragraph's opening tag: its only `h` is followed by a quote. */
  lemma ParagraphOpenNoScheme()
    ensures NoSchemeStart(OpenTag(Paragraph))
  {
    var o := OpenTag(Paragraph);
    assert forall i :: 0 <= i < |o| && o[i] == 'h' ==> i == 22;
    NoSchemeByPairs(o);
  }

  /** A text where every `h` is followed by something other than `t` starts
      no URL scheme. */
  lemma {:induction false} NoSchemeByPairs(a: string)
    requires forall i :: 0 <= i < |a| && a[i] == 'h' ==> i + 1 < |a| && a[i + 1] != 't'
    ensures NoSchemeStart(a)
    decreases |a|
  {
    if a != [] {
      assert forall i :: 0 <= i < |a[1..]| ==> a[1..][i] == a[i + 1];
      NoSchemeByPairs(a[1..]);
    }
  }

  /** An anchor of an address and a text without emoji holds none. */
  lemma AnchorNoEmoji(url: string, text: string)
    requires NoEmoji(url) && NoEmoji(text)
    ensures NoEmoji(Anchor(url, text))
  {
    assert Ascii(AnchorOpen) && Ascii(AnchorMid) && Ascii(AnchorClose);
    NoEmojiConcat(AnchorOpen, url);
    NoEmojiConcat(AnchorOpen + url, AnchorMid);
    NoEmojiConcat(AnchorOpen + url + AnchorMid, text);
    NoEmojiConcat(AnchorOpen + url + AnchorMid + text, AnchorClose);
  }
}
