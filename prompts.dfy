/** The system prompts: how a channel's template is put together from the
    core prompt and the channel's format rules, and how `str.format_map` /
    `str.format` fill its `{context}` and `{urls}` fields. The prose of the
    prompts is a parameter (`Prose`); the model holds how it is assembled. */
module Prompts {
  import opened Wrappers
  import opened Text
  import opened Json
  import PyRe
  import Seqs

  // ---------------------------------------------------------------------------
  // Python's replacement fields
  // ---------------------------------------------------------------------------

  /** A field name the model formats: a plain key. Empty and numeric names
      are positional, and names with a conversion, a format spec, an
      attribute or an index are not modelled; all of them fail. */
  predicate SimpleField(f: string) {
    f != [] && !AllDigits(f) && forall i :: 0 <= i < |f| ==> NameChar(f[i])
  }

  predicate NameChar(c: char) {
    c != ':' && c != '!' && c != '.' && c != '[' && c != ']' && c != '{' && c != '}'
  }

  /** The value of a field: the mapping's, else "" for `_SafeDict`; plain
      `str.format` raises KeyError on a missing name. */
  function Lookup(m: map<string, string>, name: string, safe: bool): (r: Result<string, string>)
    ensures name in m ==> r == Success(m[name])
    ensures name !in m ==> r == (if safe then Success("") else Failure("KeyError"))
  {
    if name in m then Success(m[name]) else if safe then Success("") else Failure("KeyError")
  }

  function Prefixed(p: string, r: Result<string, string>): (q: Result<string, string>)
    ensures q.Success? <==> r.Success?
    ensures q.Success? ==> q.value == p + r.value
  {
    match r
    case Success(v) => Success(p + v)
    case Failure(e) => Failure(e)
  }

  /** `template.format_map(m)` (safe) or `template.format(**m)`: doubled
      braces stand for one, a field is replaced by its value, and a brace
      left alone is a ValueError. */
  function Format(s: string, m: map<string, string>, safe: bool): (r: Result<string, string>)
    decreases |s|
  {
    if s == [] then Success("")
    else if s[0] == '{' then
      if |s| > 1 && s[1] == '{' then Prefixed("{", Format(s[2..], m, safe))
      else match FirstIndex(s[1..], '}')
        case None => Failure("ValueError: expected '}' before end of string")
        case Some(k) =>
          var name := s[1..1 + k];
          if !SimpleField(name) then Failure("ValueError: unsupported field")
          else match Lookup(m, name, safe)
            case Failure(e) => Failure(e)
            case Success(v) => Prefixed(v, Format(s[2 + k..], m, safe))
    else if s[0] == '}' then
      if |s| > 1 && s[1] == '}' then Prefixed("}", Format(s[2..], m, safe))
      else Failure("ValueError: Single '}' encountered in format string")
    else Prefixed([s[0]], Format(s[1..], m, safe))
  }

  predicate NoBraces(s: string) {
    forall i :: 0 <= i < |s| ==> s[i] != '{' && s[i] != '}'
  }

  lemma PrefixedTwice(x: string, y: string, r: Result<string, string>)
    ensures Prefixed(x, Prefixed(y, r)) == Prefixed(x + y, r)
  {
    if r.Success? {
      assert x + (y + r.value) == (x + y) + r.value;
    }
  }

  /** Text without braces is copied. */
  lemma {:induction false} FormatPlain(a: string, rest: string, m: map<string, string>, safe: bool)
    requires NoBraces(a)
    ensures Format(a + rest, m, safe) == Prefixed(a, Format(rest, m, safe))
    decreases |a|
  {
    if a == [] {
      assert a + rest == rest;
      var r := Format(rest, m, safe);
      if r.Success? {
        assert a + r.value == r.value;
      }
    } else {
      assert (a + rest)[0] == a[0];
      assert (a + rest)[1..] == a[1..] + rest;
      FormatPlain(a[1..], rest, m, safe);
      PrefixedTwice([a[0]], a[1..], Format(rest, m, safe));
      assert [a[0]] + a[1..] == a;
    }
  }

  /** `{name}` */
  function Field(name: string): string { "{" + name + "}" }

  /** A field is replaced by its value, "" when the safe mapping lacks it. */
  lemma FormatField(name: string, rest: string, m: map<string, string>, safe: bool)
    requires SimpleField(name)
    ensures Lookup(m, name, safe).Failure? ==> Format(Field(name) + rest, m, safe) == Lookup(m, name, safe)
    ensures Lookup(m, name, safe).Success? ==>
      Format(Field(name) + rest, m, safe) == Prefixed(Lookup(m, name, safe).value, Format(rest, m, safe))
  {
    var s := Field(name) + rest;
    var n := |name|;
    assert s == ['{'] + (name + (['}'] + rest));
    assert s[1..1 + n] == name;
    assert s[1 + n] == '}';
    assert s[2 + n..] == rest;
    FieldAt(s, name, rest, m, safe);
  }

  /** The same, for a text already known to be a field and what follows it. */
  lemma FieldAt(s: string, name: string, rest: string, m: map<string, string>, safe: bool)
    requires SimpleField(name)
    requires 2 + |name| <= |s| && s[0] == '{' && s[1..1 + |name|] == name && s[1 + |name|] == '}' && s[2 + |name|..] == rest
    ensures Lookup(m, name, safe).Failure? ==> Format(s, m, safe) == Lookup(m, name, safe)
    ensures Lookup(m, name, safe).Success? ==> Format(s, m, safe) == Prefixed(Lookup(m, name, safe).value, Format(rest, m, safe))
  {
    var n := |name|;
    assert s[1] == name[0] && NameChar(name[0]);
    assert s[1..] == name + s[1 + n..];
    assert forall i :: 0 <= i < n ==> NameChar(name[i]);
    FirstIndexAfter(name, '}', s[1 + n..]);
  }

  /** A brace left alone makes formatting fail. */
  lemma LoneCloseFails(a: string, rest: string, m: map<string, string>, safe: bool)
    requires NoBraces(a) && (rest == [] || rest[0] != '}')
    ensures Format(a + "}" + rest, m, safe).Failure?
  {
    FormatPlain(a, "}" + rest, m, safe);
    assert a + "}" + rest == a + ("}" + rest);
  }

  lemma ContextIsSimple()
    ensures SimpleField("context")
  {
    var f := "context";
    assert f[0] == 'c' && !IsDigit(f[0]);
    assert forall i :: 0 <= i < |f| ==> f[i] in {'c', 'o', 'n', 't', 'e', 'x'};
  }

  lemma UrlsIsSimple()
    ensures SimpleField("urls")
  {
    var f := "urls";
    assert f[0] == 'u' && !IsDigit(f[0]);
    assert forall i :: 0 <= i < |f| ==> f[i] in {'u', 'r', 'l', 's'};
  }

  // ---------------------------------------------------------------------------
  // The templates
  // ---------------------------------------------------------------------------

  /** The prompt prose: the core prompt around its two fields (the context
      line, then the resources at the very end) and each channel's rules. */
  datatype Prose = Prose(head: string, middle: string, whatsappRules: string, smsRules: string, rcsRules: string)

  /** The prose has no brace outside the two fields, as the deployed prompts. */
  predicate Plain(p: Prose) {
    NoBraces(p.head) && NoBraces(p.middle) && NoBraces(p.whatsappRules) && NoBraces(p.smsRules) && NoBraces(p.rcsRules)
  }

  /** `CORE_PROMPT`, to be formatted. */
  function CorePrompt(p: Prose): string {
    p.head + Field("context") + p.middle + Field("urls")
  }

  /** The rules appended for a channel (`f"{base}\n\n{RULES}"`), none for the web. */
  function Rules(p: Prose, channel: string): (r: string)
    ensures channel !in {"whatsapp", "sms", "rcs"} ==> r == ""
  {
    if channel == "whatsapp" then "\n\n" + p.whatsappRules
    else if channel == "sms" then "\n\n" + p.smsRules
    else if channel == "rcs" then "\n\n" + p.rcsRules
    else ""
  }

  /** The template `build_system_prompt` picks: the channel's own for
      whatsapp, sms and rcs, the web `SYSTEM_PROMPT` for any other channel. */
  function Template(p: Prose, channel: string): string {
    CorePrompt(p) + Rules(p, channel)
  }

  lemma RulesPlain(p: Prose, channel: string)
    requires Plain(p)
    ensures NoBraces(Rules(p, channel))
  {
    assert NoBraces("\n\n");
  }

  /** Plain text, a field, plain text, a field and plain text format to the
      texts around the two values. */
  lemma TwoFields(head: string, c: string, middle: string, u: string, rules: string, m: map<string, string>, safe: bool)
    requires NoBraces(head) && NoBraces(middle) && NoBraces(rules)
    requires SimpleField(c) && SimpleField(u) && c in m && u in m
    ensures Format(head + Field(c) + middle + Field(u) + rules, m, safe) == Success(head + m[c] + middle + m[u] + rules)
  {
    FormatPlain(rules, "", m, safe);
    assert rules + "" == rules;
    FormatField(u, rules, m, safe);
    var tail := middle + (Field(u) + rules);
    FormatPlain(middle, Field(u) + rules, m, safe);
    FormatField(c, tail, m, safe);
    FormatPlain(head, Field(c) + tail, m, safe);
    Seqs.Nest5(head, Field(c), middle, Field(u), rules);
    Seqs.Nest5(head, m[c], middle, m[u], rules);
  }

  /** The core prompt followed by plain rules formats to its prose around
      the two values. */
  lemma CoreFormatsWith(p: Prose, rules: string, m: map<string, string>, safe: bool)
    requires NoBraces(p.head) && NoBraces(p.middle) && NoBraces(rules)
    requires "context" in m && "urls" in m
    ensures Format(CorePrompt(p) + rules, m, safe) == Success(p.head + m["context"] + p.middle + m["urls"] + rules)
  {
    ContextIsSimple();
    UrlsIsSimple();
    TwoFields(p.head, "context", p.middle, "urls", rules, m, safe);
  }

  /** With plain prose, every template formats to its prose around the two values. */
  lemma CoreFormats(p: Prose, channel: string, m: map<string, string>, safe: bool)
    requires Plain(p)
    requires "context" in m && "urls" in m
    ensures Format(Template(p, channel), m, safe)
         == Success(p.head + m["context"] + p.middle + m["urls"] + Rules(p, channel))
  {
    RulesPlain(p, channel);
    CoreFormatsWith(p, Rules(p, channel), m, safe);
  }

  // ---------------------------------------------------------------------------
  // prompt_service
  // ---------------------------------------------------------------------------

  /** `build_system_prompt`: the channel's template formatted with the
      context and the URLs; when formatting fails, the template as it is. */
  function BuildSystemPrompt(p: Prose, channel: string, context: string, urlsText: string): (r: string)
    ensures Format(Template(p, channel), map["context" := context, "urls" := urlsText], true).Failure?
      ==> r == Template(p, channel)
  {
    var m := map["context" := context, "urls" := urlsText];
    match Format(Template(p, channel), m, true)
    case Failure(_) => Template(p, channel)
    case Success(r) => r
  }

  /** With plain prose, the prompt is the prose around the context and the
      URLs, followed by the channel's rules. */
  lemma SystemPromptPlain(p: Prose, channel: string, context: string, urlsText: string)
    requires Plain(p)
    ensures BuildSystemPrompt(p, channel, context, urlsText) == p.head + context + p.middle + urlsText + Rules(p, channel)
  {
    CoreFormats(p, channel, map["context" := context, "urls" := urlsText], true);
  }

  /** `prompt_service.build_urls_block`: None gives "", a text is kept and
      anything else is serialised by json.dumps (a parameter). */
  function ServiceUrlsBlock(urls: Json, dumps: Json -> string): (r: string)
    ensures urls == JNull ==> r == ""
    ensures urls.JStr? ==> r == urls.s
    ensures !urls.JStr? && urls != JNull ==> r == dumps(urls)
  {
    match urls
    case JNull => ""
    case JStr(s) => s
    case _ => dumps(urls)
  }

  /** `is_aprende_intent` of the prompt service: false for an empty text,
      else whether the lower-cased text has the whole word "aprende". */
  predicate IsAprendeWord(text: string) {
    text != [] && HasWord(LowerStr(text), "aprende")
  }

  /** `re.search(r"\bw\b", t) is not None` */
  predicate HasWord(t: string, w: string) {
    PyRe.Search(PyRe.Whole(PyRe.Lit(w)), t).Some?
  }

  /** `\bw\b` is found exactly where w occurs as a whole word. */
  lemma HasWordIff(t: string, w: string)
    requires w != []
    ensures HasWord(t, w) <==> exists i :: 0 <= i <= |t| && PyRe.WordAt(w, t, i)
  {
    PyRe.WholeWordSearch(w, t);
  }

  /** Lower-casing leaves a text without capitals as it is. */
  lemma LowerKeeps(s: string)
    requires forall i :: 0 <= i < |s| ==> 'a' <= s[i] <= 'z'
    ensures LowerStr(s) == s
  {
  }

  /** A word is not found where it only begins a longer word and its
      first character occurs nowhere else. */
  lemma {:induction false} LongerWordIsNot(w: string, x: string)
    requires w != [] && x != [] && PyWord(w[|w| - 1]) && PyWord(x[0])
    requires w[0] !in (w + x)[1..]
    ensures !HasWord(w + x, w)
  {
    var t := w + x;
    HasWordIff(t, w);
    forall i | 0 <= i <= |t| ensures !PyRe.WordAt(w, t, i) {
      if i == 0 {
        assert t[|w| - 1] == w[|w| - 1] && t[|w|] == x[0];
      } else if i + |w| <= |t| {
        assert t[i] == t[1..][i - 1];
        FirstDiffers(t, w, i);
      }
    }
  }

  /** A word is not found in a text without its first character. */
  lemma AbsentWordIsNot(t: string, w: string)
    requires w != [] && w[0] !in t
    ensures !HasWord(t, w)
  {
    HasWordIff(t, w);
    forall i | 0 <= i <= |t| ensures !PyRe.WordAt(w, t, i) {
      if i + |w| <= |t| {
        FirstDiffers(t, w, i);
      }
    }
  }

  lemma FirstDiffers(t: string, w: string, i: nat)
    requires w != [] && i + |w| <= |t| && t[i] != w[0]
    ensures !PyRe.WordAt(w, t, i)
  {
    assert t[i..i + |w|][0] == t[i];
  }

  /** A longer word that begins with "aprende" is not about aprende. */
  lemma AprendemosIsNot()
    ensures !IsAprendeWord("aprendemos")
  {
    var t := "aprendemos";
    assert forall i :: 0 <= i < |t| ==> 'a' <= t[i] <= 'z';
    LowerKeeps(t);
    AprendemosHasNoWord();
  }

  lemma AprendemosHasNoWord()
    ensures !HasWord("aprendemos", "aprende")
  {
    var w, x := "aprende", "mos";
    assert PyWord(w[6]) && PyWord(x[0]);
    var t := w + x;
    assert t[1..] == "prendemos";
    assert forall i :: 0 <= i < |t[1..]| ==> t[1..][i] != 'a';
    LongerWordIsNot(w, x);
    assert t == "aprendemos";
  }

  /** A word that only ends like "aprende" is not about aprende. */
  lemma EmprendeIsNot()
    ensures !IsAprendeWord("emprende")
  {
    var t := "emprende";
    assert forall i :: 0 <= i < |t| ==> 'a' <= t[i] <= 'z' && t[i] != 'a';
    LowerKeeps(t);
    AbsentWordIsNot(t, "aprende");
  }

  // ---------------------------------------------------------------------------
  // prompts.render_prompt
  // ---------------------------------------------------------------------------

  /** `prompts.build_urls_block`: None gives "{}", a text is kept and
      anything else is serialised by json.dumps (a parameter). */
  function PromptsUrlsBlock(urls: Json, dumps: Json -> string): (r: string)
    ensures urls == JNull ==> r == "{}"
    ensures urls.JStr? ==> r == urls.s
    ensures !urls.JStr? && urls != JNull ==> r == dumps(urls)
  {
    match urls
    case JNull => "{}"
    case JStr(s) => s
    case _ => dumps(urls)
  }

  /** `render_prompt`: the formatted core prompt for "default", followed by
      a blank line and the channel's rules for whatsapp, sms and rcs; any
      other channel raises ValueError. */
  function RenderPrompt(p: Prose, channel: string, context: string, urls: Json, dumps: Json -> string): (r: Result<string, string>)
    ensures channel !in {"default", "whatsapp", "sms", "rcs"} ==> r.Failure?
  {
    var m := map["context" := context, "urls" := PromptsUrlsBlock(urls, dumps)];
    match Format(CorePrompt(p), m, false)
    case Failure(e) => Failure(e)
    case Success(base) =>
      if channel == "default" then Success(base)
      else if channel in {"whatsapp", "sms", "rcs"} then Success(base + Rules(p, channel))
      else Failure("ValueError: Canal no soportado: " + channel)
  }

  /** With plain prose, every supported channel renders. */
  lemma RenderPlain(p: Prose, channel: string, context: string, urls: Json, dumps: Json -> string)
    requires Plain(p) && channel in {"default", "whatsapp", "sms", "rcs"}
    ensures RenderPrompt(p, channel, context, urls, dumps)
         == Success(p.head + context + p.middle + PromptsUrlsBlock(urls, dumps) + Rules(p, channel))
  {
    var m := map["context" := context, "urls" := PromptsUrlsBlock(urls, dumps)];
    assert NoBraces("");
    CoreFormatsWith(p, "", m, false);
    assert CorePrompt(p) + "" == CorePrompt(p);
    var base := p.head + context + p.middle + PromptsUrlsBlock(urls, dumps);
    assert base + "" == base;
    assert Format(CorePrompt(p), m, false) == Success(base);
    if channel == "default" {
      assert Rules(p, channel) == "";
    }
  }

  /** The two prompt builders agree: for a supported channel and a text of
      URLs, the service's prompt is the one `render_prompt` renders (the web
      prompt being the "default" one). */
  lemma BuildersAgree(p: Prose, channel: string, context: string, urlsText: string, dumps: Json -> string)
    requires Plain(p)
    requires channel in {"whatsapp", "sms", "rcs"}
    ensures RenderPrompt(p, channel, context, JStr(urlsText), dumps) == Success(BuildSystemPrompt(p, channel, context, urlsText))
    ensures RenderPrompt(p, "default", context, JStr(urlsText), dumps) == Success(BuildSystemPrompt(p, "web", context, urlsText))
  {
    SystemPromptPlain(p, channel, context, urlsText);
    SystemPromptPlain(p, "web", context, urlsText);
    RenderPlain(p, channel, context, JStr(urlsText), dumps);
    RenderPlain(p, "default", context, JStr(urlsText), dumps);
  }
}
