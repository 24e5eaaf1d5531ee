/** The first-generation web backend: keyword detectors for country,
    operator and topic, the reference-URL selection, and the `/chat` route
    with its per-client memory of the last three messages. */
module FlaskApp {
  import opened Wrappers
  import opened Text
  import Lists
  import ContextService
  import ChannelMessages
  import Prompts

  // ---------------------------------------------------------------------------
  // Detection
  // ---------------------------------------------------------------------------

  const Countries: seq<string> :=
    ["argentina", "peru", "chile", "mexico", "el_salvador", "colombia", "nicaragua", "honduras",
     "guatemala", "austria", "bulgaria", "croacia", "bielorrusia", "serbia", "eslovenia", "macedonia"]
  const CountryKeywords: seq<seq<string>> := [
    ["argentina", "argentino", "buenos aires", "arg"],
    ["peru", "perú", "peruano", "lima"],
    ["chile", "chileno", "santiago"],
    ["mexico", "méxico", "mexicano", "cdmx", "ciudad de mexico"],
    ["el salvador", "salvador", "salvadoreño", "san salvador"],
    ["colombia", "colombiano", "bogota", "bogotá"],
    ["nicaragua", "nicaraguense", "managua"],
    ["honduras", "hondureño", "tegucigalpa"],
    ["guatemala", "guatemalteco"],
    ["austria", "austriaco", "viena"],
    ["bulgaria", "bulgaro", "sofia"],
    ["croacia", "croata", "zagreb"],
    ["bielorrusia", "belarus", "bielorruso", "minsk"],
    ["serbia", "serbio", "belgrado"],
    ["eslovenia", "esloveno", "liubliana"],
    ["macedonia", "macedonio", "skopje"]]

  const HealthTopics: seq<string> :=
    ["diabetes", "obesidad_nutricion", "hipertension_corazon", "cancer", "salud_mental", "edad"]
  const HealthKeywords: seq<seq<string>> := [
    ["diabetes", "diabetico", "diabética", "glucosa", "insulina", "azucar en sangre"],
    ["obesidad", "sobrepeso", "nutricion", "dieta", "alimentacion", "bajar de peso"],
    ["hipertension", "presion alta", "corazon", "cardiaco", "cardiovascular"],
    ["cancer", "cáncer", "tumor", "oncologia", "oncológico", "mama", "prostata"],
    ["depresion", "ansiedad", "estres", "mental", "psicologico", "psicológico"],
    ["niño", "niña", "bebe", "bebé", "adolescente", "adulto", "anciano", "tercera edad"]]

  const EducationTopics: seq<string> :=
    ["digital_tech", "finanzas", "emprendimiento", "basica", "superior", "idiomas", "capacitacion"]
  const EducationKeywords: seq<seq<string>> := [
    ["programacion", "programación", "tecnologia", "tecnología", "digital", "computacion", "computación", "software"],
    ["finanzas", "dinero", "inversion", "inversión", "ahorro", "credito", "crédito"],
    ["emprender", "negocio", "empresa", "autoempleo", "emprendedor"],
    ["primaria", "secundaria", "basica", "básica", "niños", "escolar"],
    ["universidad", "licenciatura", "carrera", "profesional", "superior"],
    ["ingles", "inglés", "idioma", "lenguaje"],
    ["curso", "capacitacion", "capacitación", "aprender", "estudiar", "diplomado"]]

  /** `detect_country`: the first country of the table one of whose keywords
      occurs in the lower-cased text. */
  function DetectCountry(text: string): (c: Option<string>)
    ensures c.Some? ==> c.value in Countries
    ensures c.None? <==> forall i :: 0 <= i < |CountryKeywords| ==> !ContainsAny(LowerStr(text), CountryKeywords[i])
    ensures c.Some? ==> exists i :: 0 <= i < |CountryKeywords| && c.value == Countries[i]
                                    && ContainsAny(LowerStr(text), CountryKeywords[i])
                                    && forall j :: 0 <= j < i ==> !ContainsAny(LowerStr(text), CountryKeywords[j])
  {
    ContextService.FirstMentioned(LowerStr(text), Countries, CountryKeywords)
  }

  /** `detect_health_topic`: the first health topic one of whose keywords
      occurs in the lower-cased text. */
  function DetectHealthTopic(text: string): (c: Option<string>)
    ensures c.Some? ==> c.value in HealthTopics
    ensures c.None? <==> forall i :: 0 <= i < |HealthKeywords| ==> !ContainsAny(LowerStr(text), HealthKeywords[i])
    ensures c.Some? ==> exists i :: 0 <= i < |HealthKeywords| && c.value == HealthTopics[i]
                                    && ContainsAny(LowerStr(text), HealthKeywords[i])
                                    && forall j :: 0 <= j < i ==> !ContainsAny(LowerStr(text), HealthKeywords[j])
  {
    ContextService.FirstMentioned(LowerStr(text), HealthTopics, HealthKeywords)
  }

  /** `detect_education_topic`: the first education topic one of whose
      keywords occurs in the lower-cased text. */
  function DetectEducationTopic(text: string): (c: Option<string>)
    ensures c.Some? ==> c.value in EducationTopics
    ensures c.None? <==> forall i :: 0 <= i < |EducationKeywords| ==> !ContainsAny(LowerStr(text), EducationKeywords[i])
    ensures c.Some? ==> exists i :: 0 <= i < |EducationKeywords| && c.value == EducationTopics[i]
                                    && ContainsAny(LowerStr(text), EducationKeywords[i])
                                    && forall j :: 0 <= j < i ==> !ContainsAny(LowerStr(text), EducationKeywords[j])
  {
    ContextService.FirstMentioned(LowerStr(text), EducationTopics, EducationKeywords)
  }

  /** `detect_operator`: "claro", else "telcel", else "a1", as substrings of
      the lower-cased text. */
  function DetectOperator(text: string): (r: Option<string>)
    ensures var t := LowerStr(text);
      (r == Some("claro") <==> Contains(t, "claro"))
      && (r == Some("telcel") <==> !Contains(t, "claro") && Contains(t, "telcel"))
      && (r == Some("a1") <==> !Contains(t, "claro") && !Contains(t, "telcel") && Contains(t, "a1"))
      && (r.None? <==> !Contains(t, "claro") && !Contains(t, "telcel") && !Contains(t, "a1"))
  {
    var t := LowerStr(text);
    if Contains(t, "claro") then Some("claro")
    else if Contains(t, "telcel") then Some("telcel")
    else if Contains(t, "a1") then Some("a1")
    else None
  }

  // ---------------------------------------------------------------------------
  // The URL table and extract_relevant_urls
  // ---------------------------------------------------------------------------

  /** A value of the nested URL table: a list of URLs, a dict (its entries
      in insertion order), or a key that is not there. */
  datatype Node = Urls(list: seq<string>) | Dict(entries: seq<(string, Node)>) | Missing

  /** `node.get(key)`: the value under the key, Missing when there is none. */
  function Get(n: Node, key: string): (v: Node)
  {
    if n.Dict? then
      match Lists.FindFirst((e: (string, Node)) => e.0 == key, n.entries)
      case None => Missing
      case Some(i) => n.entries[i].1
      else Missing
  }

  function Has(n: Node, key: string): bool {
    !Get(n, key).Missing?
  }

  /** The URLs of a list value, none for anything else. */
  function ListOf(n: Node): seq<string> {
    if n.Urls? then n.list else []
  }

  /** Every list of a dict, one after another (`for v in d.values(): extend(v)`). */
  function AllLists(entries: seq<(string, Node)>): seq<string> {
    if entries == [] then [] else ListOf(entries[0].1) + AllLists(entries[1..])
  }

  function Values(n: Node): seq<string> {
    if n.Dict? then AllLists(n.entries) else []
  }

  /** The URLs of the health branch. */
  function HealthUrls(urls: Node, topic: string): seq<string> {
    var health := Get(urls, "health");
    if topic == "edad" then Values(Get(health, "manual_por_edad_clikisalud"))
    else
      ListOf(Get(health, "cuidado_personal_y_profesional"))
      + (if Has(Get(health, "prevencion_y_enfermedades"), topic)
         then ListOf(Get(Get(health, "prevencion_y_enfermedades"), topic)) else [])
      + Lists.Prefix(ListOf(Get(health, "cursos_cuidado_salud")), 3)
  }

  /** The URLs of the education branch. */
  function EducationUrls(urls: Node, topic: string, country: Option<string>): seq<string> {
    var edu := Get(urls, "education_career");
    var general := Get(edu, "aprende_org_general");
    var national := Get(edu, "plataformas_nacionales");
    ListOf(Get(general, "principal")) + ListOf(Get(general, "areas_principales"))
    + (if country.Some? && country.value != "" && Has(national, country.value) then ListOf(Get(national, country.value)) else [])
    + (if topic == "digital_tech" then ListOf(Get(Get(edu, "rutas_y_oficios"), "digital_tech"))
       else if topic == "finanzas" then
         ListOf(Get(Get(edu, "rutas_y_oficios"), "administracion_finanzas"))
         + Lists.Prefix(ListOf(Get(Get(edu, "diplomados_especialidades"), "administracion_finanzas")), 5)
       else if topic == "emprendimiento" then ListOf(Get(Get(edu, "diplomados_especialidades"), "autoempleo_negocio"))
       else if topic == "basica" then ListOf(Get(Get(edu, "educacion_detallada"), "basica_y_media"))
       else if topic == "superior" then ListOf(Get(Get(edu, "educacion_detallada"), "superior"))
       else [])
  }

  /** The URLs of the telecom branch: Telcel's list, or the operator's list
      for the country (every country's when the country is not listed);
      Claro and A1 add nothing without a country. */
  function OperatorUrls(urls: Node, operator: string, country: Option<string>): seq<string> {
    if operator == "telcel" then ListOf(Get(urls, "telcel"))
    else if (operator == "claro" || operator == "a1") && country.Some? && country.value != "" then
      var block := Get(urls, operator);
      if Has(block, country.value) then ListOf(Get(block, country.value)) else Values(block)
    else []
  }

  /** What the branches collect, before duplicates are dropped: health
      first, then education, then telecom. */
  function Collected(urls: Node, prompt: string): seq<string> {
    var country := DetectCountry(prompt);
    var operator := DetectOperator(prompt);
    var health := DetectHealthTopic(prompt);
    var education := DetectEducationTopic(prompt);
    if health.Some? then HealthUrls(urls, health.value)
    else if education.Some? then EducationUrls(urls, education.value, country)
    else if operator.Some? then OperatorUrls(urls, operator.value, country)
    else []
  }

  /** Python truthiness of the table. */
  predicate Truthy(urls: Node) {
    (urls.Dict? && urls.entries != []) || (urls.Urls? && urls.list != [])
  }

  /** `extract_relevant_urls` run against the table it was meant to read:
      an empty table gives nothing; otherwise the collected URLs with every
      duplicate dropped. `list(set(...))` leaves the order unspecified; the
      model keeps each URL at its first occurrence. */
  function ExtractRelevantUrls(urls: Node, prompt: string): (r: seq<string>)
    ensures Lists.Distinct(r)
    ensures !Truthy(urls) ==> r == []
    ensures Truthy(urls) ==> forall u :: u in r <==> u in Collected(urls, prompt)
  {
    if !Truthy(urls) then [] else Lists.Dedup(Collected(urls, prompt))
  }

  /** A health topic decides alone: education words, operator and country
      in the same prompt add nothing. */
  lemma HealthPreempts(urls: Node, prompt: string)
    requires Truthy(urls) && DetectHealthTopic(prompt).Some?
    ensures ExtractRelevantUrls(urls, prompt) == Lists.Dedup(HealthUrls(urls, DetectHealthTopic(prompt).value))
  {
  }

  /** A Telcel prompt with no health or education topic yields the Telcel
      list of the table, each URL once. */
  lemma TelcelGivesTelcelList(urls: Node, prompt: string)
    requires Truthy(urls) && DetectHealthTopic(prompt).None? && DetectEducationTopic(prompt).None?
    requires DetectOperator(prompt) == Some("telcel")
    ensures ExtractRelevantUrls(urls, prompt) == Lists.Dedup(ListOf(Get(urls, "telcel")))
    ensures ListOf(Get(urls, "telcel")) != [] ==> ExtractRelevantUrls(urls, prompt) != []
  {
    var t := ListOf(Get(urls, "telcel"));
    if t != [] {
      assert t[0] in Lists.Dedup(t);
    }
  }

  // ---------------------------------------------------------------------------
  // The code as it stands: the table is bound to RLS, the functions read URLS
  // ---------------------------------------------------------------------------

  const NameErrorUrls: string := "NameError: name 'URLS' is not defined"

  /** `extract_relevant_urls` as written: its first statement reads the
      unbound name URLS, so every call raises NameError. */
  function ExtractRelevantUrlsAsWritten(prompt: string): (r: Result<seq<string>, string>)
    ensures r.Failure?
  {
    Failure(NameErrorUrls)
  }

  /** `get_context_for_query` as written: it too starts by reading URLS. */
  function GetContextForQueryAsWritten(prompt: string): (r: Result<string, string>)
    ensures r.Failure?
  {
    Failure(NameErrorUrls)
  }

  const FallbackContext: string := "Información general disponible"

  /** The `try: return f(prompt) except Exception: return fallback` of the
      safe wrappers. */
  function OrFallback<T>(attempt: Result<T, string>, fallback: T): (r: T)
    ensures attempt.Success? ==> r == attempt.value
    ensures attempt.Failure? ==> r == fallback
  {
    match attempt
    case Success(v) => v
    case Failure(_) => fallback
  }

  /** `safe_extract_relevant_urls`: as written, the call it guards always
      raises, so it always gives no URLs. */
  function SafeExtractRelevantUrls(prompt: string): (r: seq<string>)
    ensures ExtractRelevantUrlsAsWritten(prompt).Failure?
    ensures r == []
  {
    OrFallback(ExtractRelevantUrlsAsWritten(prompt), [])
  }

  /** `safe_get_context_for_query`: as written, the call it guards always
      raises, so it always gives the general context. */
  function SafeGetContextForQuery(prompt: string): (r: string)
    ensures GetContextForQueryAsWritten(prompt).Failure?
    ensures r == FallbackContext
  {
    OrFallback(GetContextForQueryAsWritten(prompt), FallbackContext)
  }

  /** Whatever the prompt, the safe wrappers return no URLs and the
      fallback context, although the table holds URLs for many prompts. */
  lemma WrappersNeverSucceed(prompt: string)
    ensures SafeExtractRelevantUrls(prompt) == []
    ensures SafeGetContextForQuery(prompt) == FallbackContext
  {
  }

  // ---------------------------------------------------------------------------
  // /chat
  // ---------------------------------------------------------------------------

  const MemorySize: nat := 3

  /** The memory after a message: the message appended, then only the last
      three kept. */
  function Remember(history: seq<string>, msg: string): (r: seq<string>)
    ensures 1 <= |r| <= MemorySize && r[|r| - 1] == msg
    ensures |r| <= |history| + 1 && r == (history + [msg])[|history| + 1 - |r|..]
    ensures |history| < MemorySize ==> r == history + [msg]
  {
    Last(history + [msg], MemorySize)
  }

  /** The previous messages offered to the model: the last three stored. */
  function Previous(history: seq<string>): (r: seq<string>)
    ensures |r| == (if |history| < MemorySize then |history| else MemorySize)
    ensures |r| <= |history| && r == history[|history| - |r|..]
  {
    if history != [] then Last(history, MemorySize) else []
  }

  /** The previous messages are the memory before the current message: the
      memory after it is their last two, or all of them, and the message. */
  lemma RememberAfterPrevious(history: seq<string>, msg: string)
    ensures var p := Previous(history);
      Remember(history, msg) == (if |p| < MemorySize then p else p[1..]) + [msg]
  {
    var p := Previous(history);
    var r := Remember(history, msg);
    var h := history + [msg];
    if |history| >= MemorySize {
      assert r == h[|h| - 3..];
      assert p == history[|history| - 3..];
      assert p[1..] == history[|history| - 2..];
      assert h[|h| - 3..] == history[|history| - 2..] + [msg];
    }
  }

  const ExploreText: string := "Explora nuestras áreas: Telecomunicaciones, Educación (aprende.org) y Salud (clikisalud.net)"

  function Bullets(urls: seq<string>): seq<string> {
    if urls == [] then [] else ["- " + urls[0]] + Bullets(urls[1..])
  }

  /** The links block of the prompt: the first ten URLs as a list, or an
      invitation to explore when there are none. */
  function UrlsText(urls: seq<string>): (r: string)
    ensures urls == [] ==> r == ExploreText
  {
    if urls != [] then "Enlaces útiles:\n" + Join("\n", Bullets(Lists.Prefix(urls, 10))) else ExploreText
  }

  /** The system prompt: the template with the context and the links filled
      in, or a minimal prompt when the template cannot be formatted. */
  function SystemMessage(template: string, context: string, urlsText: string): string {
    match Prompts.Format(template, map["context" := context, "urls" := urlsText], false)
    case Success(p) => p
    case Failure(_) => "Eres un asistente. Contexto:\n" + context + "\n\n" + urlsText
  }

  /** The message list the route sends for a message and the stored
      history: the system prompt, the usable previous messages, the message.
      It is the list the channel layer builds with a window of three. */
  function Sent(template: string, history: seq<string>, msg: string): seq<ChannelMessages.Message> {
    var system := SystemMessage(template, SafeGetContextForQuery(msg), UrlsText(SafeExtractRelevantUrls(msg)));
    ChannelMessages.ChatMessages(system, msg, Some(history), MemorySize)
  }

  /** What the route sends, as it stands: the fallback context and the
      invitation to explore, the current message last, and in between only
      previous messages that are not blank and differ from it. */
  lemma SentMessages(template: string, history: seq<string>, msg: string)
    ensures var sent := Sent(template, history, msg);
      2 <= |sent| <= 2 + MemorySize
      && sent[0] == ChannelMessages.Message("system", SystemMessage(template, FallbackContext, ExploreText))
      && sent[|sent| - 1] == ChannelMessages.Message("user", msg)
      && forall j :: 1 <= j < |sent| - 1 ==>
           sent[j].role == "user" && sent[j].content in Previous(history) && ChannelMessages.Usable(sent[j].content, msg)
  {
    WrappersNeverSucceed(msg);
    var system := SystemMessage(template, SafeGetContextForQuery(msg), UrlsText(SafeExtractRelevantUrls(msg)));
    assert ChannelMessages.Window(Some(history), MemorySize) == Previous(history);
  }

  /** The reply of `/chat`. */
  datatype ChatReply =
    | ChatError(status: nat, error: string)
    | ChatOk(response: string, context: string, relevantUrls: seq<string>, memoryUsed: seq<string>)

  /** The reply once the model has answered, or failed with an error text. */
  function Outcome(answer: Result<string, string>, msg: string, prev: seq<string>): (r: ChatReply)
    ensures answer.Failure? ==> r == ChatError(500, answer.error)
    ensures answer.Success? ==> r == ChatOk(answer.value, SafeGetContextForQuery(msg), Lists.Prefix(SafeExtractRelevantUrls(msg), 5), prev)
  {
    match answer
    case Success(a) => ChatOk(a, SafeGetContextForQuery(msg), Lists.Prefix(SafeExtractRelevantUrls(msg), 5), prev)
    case Failure(e) => ChatError(500, e)
  }

  /** The per-client chat memory (CHAT_MEMORY) and the route that uses it. */
  class ChatServer {
    var memory: map<string, seq<string>>

    constructor()
      ensures memory == map[]
    {
      memory := map[];
    }

    function History(key: string): seq<string>
      reads this
    {
      if key in memory then memory[key] else []
    }

    /** `/chat`. The client key (address and user agent), the configured
        template and the model are parameters; the model sees the message
        list and answers or fails. The memory is updated before the model is
        called, so a failing call still leaves the message remembered. */
    method Chat(userKey: string, message: Option<string>, aiReady: bool, template: string,
                model: seq<ChannelMessages.Message> -> Result<string, string>)
      returns (reply: ChatReply, sent: seq<ChannelMessages.Message>)
      modifies this
      ensures !aiReady ==> reply == ChatError(503, "Servicio de IA no disponible") && memory == old(memory)
      ensures aiReady && (message.None? || message.value == "") ==>
        reply == ChatError(400, "Mensaje vacío") && memory == old(memory)
      ensures aiReady && message.Some? && message.value != "" ==>
        var history := if userKey in old(memory) then old(memory)[userKey] else [];
        memory == old(memory)[userKey := Remember(history, message.value)]
        && sent == Sent(template, history, message.value)
        && reply == Outcome(model(sent), message.value, Previous(history))
    {
      sent := [];
      if !aiReady {
        return ChatError(503, "Servicio de IA no disponible"), sent;
      }
      if message.None? || message.value == "" {
        return ChatError(400, "Mensaje vacío"), sent;
      }
      var msg := message.value;
      var mem := History(userKey);
      var prev := Previous(mem);
      memory := memory[userKey := Remember(mem, msg)];
      var system := SystemMessage(template, SafeGetContextForQuery(msg), UrlsText(SafeExtractRelevantUrls(msg)));
      sent := ChannelMessages.BuildChatMessages(system, msg, Some(mem), MemorySize);
      assert sent == Sent(template, mem, msg);
      reply := Outcome(model(sent), msg, prev);
    }
  }
}
