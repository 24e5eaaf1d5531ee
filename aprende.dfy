/** The Aprende course search entry points: the heuristic that switches the
    assistant into course mode, and the flow that asks the vector store for
    candidate courses and keeps the first few. */
module AprendeSearch {
  import opened Wrappers
  import opened Text
  import opened Json
  import Prompts
  import Lists

  /** `x or ""` for an optional text. */
  function OrEmpty(s: Option<string>): string {
    if s.Some? then s.value else ""
  }

  /** `is_aprende_intent(user_message, action)`: the action is "aprende", or
      the message mentions "aprende" or "cursos" anywhere, ignoring case. */
  predicate IsAprendeIntent(msg: Option<string>, action: Option<string>) {
    var t := LowerStr(OrEmpty(msg));
    LowerStr(OrEmpty(action)) == "aprende" || Contains(t, "aprende") || Contains(t, "cursos")
  }

  /** Without a message and without the "aprende" action, the heuristic is
      off; any text containing "aprende" switches it on, even a longer word,
      where the prompt service's whole-word test stays off. */
  lemma IntentIsSubstring()
    ensures !IsAprendeIntent(None, None) && !IsAprendeIntent(Some(""), Some(""))
    ensures IsAprendeIntent(Some("aprendemos"), None) && !Prompts.IsAprendeWord("aprendemos")
  {
    LowerFixed("aprendemos");
    assert StartsWith("aprendemos", "aprende") by {
      assert "aprendemos"[..7] == "aprende";
    }
    assert !Contains("", "aprende") && !Contains("", "cursos");
    Prompts.AprendemosIsNot();
  }

  /** What `run_aprende_flow` returns. */
  datatype Flow = Flow(query: Option<string>, candidates: seq<Json>, top: seq<Json>)

  function Max0(n: int): nat { if n < 0 then 0 else n }

  /** `run_aprende_flow(user_message, k, fetch_top_n)`. The vector-store
      search is a parameter: the candidate list it returns for the message
      and k, or None. */
  function RunAprendeFlow(msg: Option<string>, k: int, fetchTopN: int,
                          search: (string, int) -> Option<seq<Json>>): (r: Flow)
    ensures r.query == msg
    ensures msg.None? || msg.value == "" ==> r.candidates == [] && r.top == []
    ensures msg.Some? && msg.value != "" ==>
      r.candidates == (match search(msg.value, k) case None => [] case Some(c) => c)
    ensures |r.top| == (if Max0(fetchTopN) < |r.candidates| then Max0(fetchTopN) else |r.candidates|)
    ensures r.top == r.candidates[..|r.top|]
  {
    if msg.None? || msg.value == "" then Flow(msg, [], [])
    else
      var candidates := match search(msg.value, k) case None => [] case Some(c) => c;
      var top := if candidates != [] then Lists.Prefix(candidates, Max0(fetchTopN)) else [];
      Flow(msg, candidates, top)
  }

  /** An empty message never reaches the search: the flow is the same
      whatever the search would have returned. */
  lemma EmptyMessageSkipsSearch(msg: Option<string>, k: int, fetchTopN: int,
                                s1: (string, int) -> Option<seq<Json>>, s2: (string, int) -> Option<seq<Json>>)
    requires msg.None? || msg.value == ""
    ensures RunAprendeFlow(msg, k, fetchTopN, s1) == RunAprendeFlow(msg, k, fetchTopN, s2) == Flow(msg, [], [])
  {
  }

  /** A negative top count keeps nothing; a count covering all candidates
      keeps them all. */
  lemma TopBounds(msg: Option<string>, k: int, fetchTopN: int, search: (string, int) -> Option<seq<Json>>)
    ensures fetchTopN <= 0 ==> RunAprendeFlow(msg, k, fetchTopN, search).top == []
    ensures var r := RunAprendeFlow(msg, k, fetchTopN, search);
      |r.candidates| <= fetchTopN ==> r.top == r.candidates
  {
  }
}

/** The Aprende assistant's answer post-processing: the first Aprende.org
    link in the model's answer becomes the resource, and the resource's
    path tells what kind of resource it is. */
module AprendeResources {
  import opened Wrappers
  import opened Text
  import Lists

  // ---------------------------------------------------------------------------
  // detectar_tipo_recurso
  // ---------------------------------------------------------------------------

  const Kinds: set<string> := {"curso", "diplomado", "ruta", "especialidad", "general"}

  predicate IsCurso(u: string) { Contains(u, "/cursos/") || Contains(u, "/curso/") }
  predicate IsDiplomado(u: string) { Contains(u, "/diplomado/") || Contains(u, "/diplomados/") }
  predicate IsRuta(u: string) { Contains(u, "/ruta/") || Contains(u, "/rutas/") }
  predicate IsEspecialidad(u: string) { Contains(u, "/especialidad/") || Contains(u, "/especialidades/") }

  /** `detectar_tipo_recurso(url)`: the first kind, in the order curso,
      diplomado, ruta, especialidad, whose path segment occurs in the
      lower-cased URL; "general" when none does. */
  function DetectarTipoRecurso(url: string): (r: string)
    ensures r in Kinds
    ensures var u := LowerStr(url);
      (r == "curso" <==> IsCurso(u))
      && (r == "diplomado" <==> !IsCurso(u) && IsDiplomado(u))
      && (r == "ruta" <==> !IsCurso(u) && !IsDiplomado(u) && IsRuta(u))
      && (r == "especialidad" <==> !IsCurso(u) && !IsDiplomado(u) && !IsRuta(u) && IsEspecialidad(u))
      && (r == "general" <==> !IsCurso(u) && !IsDiplomado(u) && !IsRuta(u) && !IsEspecialidad(u))
  {
    var u := LowerStr(url);
    if IsCurso(u) then "curso"
    else if IsDiplomado(u) then "diplomado"
    else if IsRuta(u) then "ruta"
    else if IsEspecialidad(u) then "especialidad"
    else "general"
  }

  // ---------------------------------------------------------------------------
  // re.findall(r'https?://[^\s\)\]\}\>\,\;\"\']+', texto)
  // ---------------------------------------------------------------------------

  /** The characters a link may contain: anything but whitespace and the
      closing punctuation `)]}>,;"'`. */
  predicate UrlChar(c: char) {
    !PySpace(c) && c != ')' && c != ']' && c != '}' && c != '>' && c != ',' && c != ';' && c != '"' && c != '\''
  }

  /** Where the link characters starting at j end. */
  function UrlEnd(s: string, j: nat): (e: nat)
    requires j <= |s|
    ensures j <= e <= |s|
    ensures forall m :: j <= m < e ==> UrlChar(s[m])
    ensures e < |s| ==> !UrlChar(s[e])
    decreases |s| - j
  {
    if j == |s| || !UrlChar(s[j]) then j else UrlEnd(s, j + 1)
  }

  /** Where the scheme `https?://` starting at i ends, if one starts there. */
  function SchemeEnd(s: string, i: nat): (j: Option<nat>)
    requires i <= |s|
    ensures j.Some? ==> j.value <= |s| && (StartsWith(s[i..], "https://") || StartsWith(s[i..], "http://"))
    ensures j.Some? ==> forall m :: i <= m < j.value ==> UrlChar(s[m])
    ensures StartsWith(s[i..], "https://") ==> j == Some(i + 8)
    ensures !StartsWith(s[i..], "https://") && StartsWith(s[i..], "http://") ==> j == Some(i + 7)
    ensures j.None? ==> !StartsWith(s[i..], "https://") && !StartsWith(s[i..], "http://")
  {
    if StartsWith(s[i..], "https://") then
      assert forall m :: i <= m < i + 8 ==> s[m] == s[i..][..8][m - i];
      Some(i + 8)
    else if StartsWith(s[i..], "http://") then
      assert forall m :: i <= m < i + 7 ==> s[m] == s[i..][..7][m - i];
      Some(i + 7)
    else None
  }

  predicate IsLink(u: string) {
    (StartsWith(u, "https://") || StartsWith(u, "http://"))
    && forall m :: 0 <= m < |u| ==> UrlChar(u[m])
  }

  /** The scheme followed by at least one link character, as the regex
      matches it at position i: the end of the match, if any. */
  function LinkAt(s: string, i: nat): (e: Option<nat>)
    requires i <= |s|
    ensures e.Some? ==> i < e.value <= |s| && IsLink(s[i..e.value])
  {
    match SchemeEnd(s, i)
    case None => None
    case Some(j) =>
      var e := UrlEnd(s, j);
      if e == j then None
      else
        assert s[i..e][..j - i] == s[i..][..j - i];
        Some(e)
  }

  /** The match at i is greedy, and there is one exactly when a scheme
      starting at i is followed by a link character. */
  lemma LinkAtExact(s: string, i: nat)
    requires i <= |s|
    ensures LinkAt(s, i).Some? ==> LinkAt(s, i).value == |s| || !UrlChar(s[LinkAt(s, i).value])
    ensures LinkAt(s, i).Some? <==>
      (StartsWith(s[i..], "https://") && i + 8 < |s| && UrlChar(s[i + 8]))
      || (StartsWith(s[i..], "http://") && i + 7 < |s| && UrlChar(s[i + 7]))
  {
    if StartsWith(s[i..], "https://") {
      assert s[i..][4] == 's';
    }
  }

  /** `re.findall` from position i: leftmost matches, none overlapping. */
  function Links(s: string, i: nat): (r: seq<string>)
    requires i <= |s|
    ensures forall k :: 0 <= k < |r| ==> IsLink(r[k]) && Contains(s, r[k])
    decreases |s| - i
  {
    if i == |s| then []
    else match LinkAt(s, i)
      case Some(e) =>
        ContainsAt(s, s[i..e], i);
        [s[i..e]] + Links(s, e)
      case None => Links(s, i + 1)
  }

  /** `re.findall` finds nothing exactly when no match starts at or after
      i, and its first match is the one that starts leftmost. */
  lemma {:induction false} LinksLeftmost(s: string, i: nat) returns (k: nat)
    requires i <= |s|
    ensures Links(s, i) == [] <==> forall m :: i <= m < |s| ==> LinkAt(s, m).None?
    ensures Links(s, i) != [] ==>
      && i <= k < |s| && LinkAt(s, k).Some?
      && Links(s, i)[0] == s[k..LinkAt(s, k).value]
      && forall m :: i <= m < k ==> LinkAt(s, m).None?
    decreases |s| - i
  {
    if i == |s| {
      return i;
    }
    match LinkAt(s, i)
    case Some(e) =>
      k := i;
      assert Links(s, i) == [s[i..e]] + Links(s, e);
    case None =>
      assert Links(s, i) == Links(s, i + 1);
      k := LinksLeftmost(s, i + 1);
      NoneExtends(s, i, |s|);
      if Links(s, i) != [] {
        NoneExtends(s, i, k);
      }
  }

  /** No match from i + 1 up to j and none at i is none from i up to j. */
  lemma NoneExtends(s: string, i: nat, j: nat)
    requires i < j <= |s| && LinkAt(s, i).None?
    ensures (forall m :: i <= m < j ==> LinkAt(s, m).None?) <==> forall m :: i + 1 <= m < j ==> LinkAt(s, m).None?
  {
  }

  // ---------------------------------------------------------------------------
  // ask_about_vector_store, after the model has answered
  // ---------------------------------------------------------------------------

  predicate OnAprende(u: string) { Contains(LowerStr(u), "aprende.org") }

  /** `url_recurso`: the first link that mentions aprende.org (in any case),
      "" when there is none. */
  function UrlRecurso(texto: string): (r: string)
    ensures r == "" <==> forall k :: 0 <= k < |Links(texto, 0)| ==> !OnAprende(Links(texto, 0)[k])
    ensures r != "" ==> exists k :: (0 <= k < |Links(texto, 0)| && r == Links(texto, 0)[k]
      && OnAprende(r) && forall j :: 0 <= j < k ==> !OnAprende(Links(texto, 0)[j]))
    ensures r != "" ==> IsLink(r) && Contains(texto, r)
  {
    var links := Links(texto, 0);
    match Lists.FindFirst(OnAprende, links)
    case None => ""
    case Some(k) =>
      assert |links[k]| >= 7 by { assert IsLink(links[k]); }
      links[k]
  }

  /** What the page scraper reports for a resource: the kind of content and
      its address. */
  datatype Media = Media(tipo: string, url: string)

  datatype Answer = Answer(respuesta: string, urlRecurso: string, urlVideo: string, urlPdf: string,
                           tipoContenido: string, tipoRecurso: string)

  /** `ask_about_vector_store` once the model has produced its text. The
      scraper is a parameter; a failure of it falls back to the web page. */
  function AskAboutVectorStore(outputText: string, scrape: string -> Result<Media, string>): (r: Answer)
    ensures r.respuesta == PyStrip(outputText)
    ensures r.urlRecurso == UrlRecurso(PyStrip(outputText))
    ensures r.urlRecurso == "" ==>
      r.tipoRecurso == "general" && r.tipoContenido == "webpage" && r.urlVideo == "" && r.urlPdf == ""
    ensures r.urlRecurso != "" ==> r.tipoRecurso == DetectarTipoRecurso(r.urlRecurso)
    ensures r.tipoRecurso in Kinds
    ensures r.urlVideo != "" ==> r.tipoContenido == "video"
    ensures r.urlPdf != "" ==> r.tipoContenido == "pdf"
  {
    var texto := PyStrip(outputText);
    var url := UrlRecurso(texto);
    var media := if url != "" then scrape(url) else Failure("");
    var tipo := if media.Success? then media.value.tipo else "webpage";
    Answer(texto, url,
           if tipo == "video" then media.value.url else "",
           if tipo == "pdf" then media.value.url else "",
           tipo,
           if url != "" then DetectarTipoRecurso(url) else "general")
  }
}
