/** The context of a query: the country, operator and topic it mentions,
    the reference URLs chosen for it and the label shown with the answer.
    The URL table is a parameter: a key maps to a list of URLs, to a table
    of lists by country, or to anything else. */
module ContextService {
  import opened Wrappers
  import opened Text
  import Lists

  // ---------------------------------------------------------------------------
  // Detection
  // ---------------------------------------------------------------------------

  /** The countries, in the order they are tried, and their keywords. */
  const Countries: seq<string> :=
    ["mexico", "argentina", "peru", "chile", "austria", "bulgaria", "croacia",
     "bielorrusia", "serbia", "eslovenia", "macedonia"]
  const CountryKeywords: seq<seq<string>> :=
    [["mexico", "méxico", "cdmx"], ["argentina", "buenos aires"], ["peru", "perú", "lima"],
     ["chile", "santiago"], ["austria", "viena"], ["bulgaria", "sofia"], ["croacia", "zagreb"],
     ["bielorrusia", "belarus", "minsk"], ["serbia", "belgrado"], ["eslovenia", "liubliana"],
     ["macedonia", "skopje"]]

  function MentionedIn(t: string): seq<string> -> bool {
    kws => ContainsAny(t, kws)
  }

  /** The first name, in order, one of whose keywords occurs in t. */
  function FirstMentioned(t: string, names: seq<string>, kws: seq<seq<string>>): (r: Option<string>)
    requires |names| == |kws|
    ensures r.None? <==> forall i :: 0 <= i < |kws| ==> !ContainsAny(t, kws[i])
    ensures r.Some? ==> exists i :: 0 <= i < |kws| && r.value == names[i] && ContainsAny(t, kws[i])
                                    && forall j :: 0 <= j < i ==> !ContainsAny(t, kws[j])
    ensures r.Some? ==> r.value in names
  {
    match Lists.FindFirst(MentionedIn(t), kws)
    case None => None
    case Some(i) => Some(names[i])
  }

  /** `detect_country`: the first country of the table one of whose keywords
      occurs in the lower-cased text, none when there is none. */
  function DetectCountry(text: string): (c: Option<string>)
    ensures c.Some? ==> c.value in Countries
    ensures c.None? <==> forall i :: 0 <= i < |CountryKeywords| ==> !ContainsAny(LowerStr(text), CountryKeywords[i])
    ensures c.Some? ==> exists i :: 0 <= i < |CountryKeywords| && c.value == Countries[i]
                                    && ContainsAny(LowerStr(text), CountryKeywords[i])
                                    && forall j :: 0 <= j < i ==> !ContainsAny(LowerStr(text), CountryKeywords[j])
  {
    FirstMentioned(LowerStr(text), Countries, CountryKeywords)
  }

  datatype Operator = Claro | Telcel | A1

  /** `detect_operator`: "claro" first, then "telcel", then "a1" or "a one". */
  function DetectOperator(text: string): (r: Option<Operator>)
    ensures var t := LowerStr(text);
      (r == Some(Claro) <==> Contains(t, "claro"))
      && (r == Some(Telcel) <==> !Contains(t, "claro") && Contains(t, "telcel"))
      && (r == Some(A1) <==> !Contains(t, "claro") && !Contains(t, "telcel") && (Contains(t, "a1") || Contains(t, "a one")))
  {
    var t := LowerStr(text);
    if Contains(t, "claro") then Some(Claro)
    else if Contains(t, "telcel") then Some(Telcel)
    else if Contains(t, "a1") || Contains(t, "a one") then Some(A1)
    else None
  }

  /** The name of an operator in the URL table. */
  function OperatorKey(o: Operator): string {
    match o
    case Claro => "claro"
    case Telcel => "telcel"
    case A1 => "a1"
  }

  datatype Topic = Health | Education

  /** The name of a topic in the URL table. */
  function TopicKey(t: Topic): string {
    match t
    case Health => "health"
    case Education => "education"
  }

  const HealthWords: seq<string> := ["salud", "medico", "médico", "hospital", "doctor", "enfermedad", "tratamiento"]
  const EducationWords: seq<string> :=
    ["educacion", "educación", "curso", "aprender", "estudiar", "clase", "capacitacion", "capacitación"]

  /** Health words are tried before education words. */
  function TopicOf(t: string, health: seq<string>, education: seq<string>): (r: Option<Topic>)
    ensures r == Some(Health) <==> ContainsAny(t, health)
    ensures r == Some(Education) <==> !ContainsAny(t, health) && ContainsAny(t, education)
  {
    if ContainsAny(t, health) then Some(Health)
    else if ContainsAny(t, education) then Some(Education)
    else None
  }

  /** `detect_topic` */
  function DetectTopic(text: string): (r: Option<Topic>)
    ensures r == Some(Health) <==> ContainsAny(LowerStr(text), HealthWords)
    ensures r == Some(Education) <==> !ContainsAny(LowerStr(text), HealthWords) && ContainsAny(LowerStr(text), EducationWords)
  {
    TopicOf(LowerStr(text), HealthWords, EducationWords)
  }

  /** "cuidado de la salud en el hospital" is about health whatever else it says. */
  lemma HealthBeforeEducation(text: string, w: string)
    requires w in HealthWords && Contains(LowerStr(text), w)
    ensures DetectTopic(text) == Some(Health)
  {
  }

  // ---------------------------------------------------------------------------
  // get_relevant_urls
  // ---------------------------------------------------------------------------

  /** A value of the URL table. */
  datatype Entry =
    | UrlList(urls: seq<string>)
    | ByCountry(lists: map<string, seq<string>>)
    | OtherValue

  type Table = map<string, Entry>

  /** `URLS.get(key, [])` when it is a list, nothing otherwise. */
  function ListAt(table: Table, key: string): (u: seq<string>)
    ensures key in table && table[key].UrlList? ==> u == table[key].urls
    ensures !(key in table && table[key].UrlList?) ==> u == []
  {
    if key in table && table[key].UrlList? then table[key].urls else []
  }

  /** The first n URLs the operator's block lists for a (non-empty) country
      it has; nothing otherwise. */
  function CountryUrls(table: Table, op: string, country: Option<string>, n: nat): (u: seq<string>)
    ensures |u| <= n
    ensures op in table && table[op].ByCountry? && country.Some? && country.value != "" && country.value in table[op].lists
      ==> u == Lists.Prefix(table[op].lists[country.value], n)
    ensures !(op in table && table[op].ByCountry? && country.Some? && country.value != "" && country.value in table[op].lists)
      ==> u == []
  {
    if op in table && table[op].ByCountry? && country.Some? && country.value != "" && country.value in table[op].lists
    then Lists.Prefix(table[op].lists[country.value], n)
    else []
  }

  /** The topic branch applies: a topic that is a key of the table. */
  predicate TopicBranch(prompt: string, table: Table) {
    DetectTopic(prompt).Some? && TopicKey(DetectTopic(prompt).value) in table
  }

  /** The telecom branch of Telcel: the operator or the country says so. */
  predicate TelcelBranch(prompt: string) {
    DetectOperator(prompt) == Some(Telcel) || DetectCountry(prompt) == Some("mexico")
  }

  /** What the branches select before the fallback. */
  function Selected(prompt: string, table: Table): (sel: seq<string>)
  {
    var country := DetectCountry(prompt);
    var operator := DetectOperator(prompt);
    if TopicBranch(prompt, table) then Lists.Prefix(ListAt(table, TopicKey(DetectTopic(prompt).value)), 2)
    else if TelcelBranch(prompt) then ListAt(table, "telcel")
    else if operator == Some(Claro) then CountryUrls(table, "claro", country, 2)
    else if operator == Some(A1) then CountryUrls(table, "a1", country, 1)
    else []
  }

  /** `get_relevant_urls`: the selection, or the Telcel list when it is
      empty, each URL once in the order of its first occurrence. */
  function GetRelevantUrls(prompt: string, table: Table): (r: seq<string>)
    ensures Lists.Distinct(r)
    ensures var sel := Selected(prompt, table);
      forall u :: u in r <==> u in (if sel == [] then ListAt(table, "telcel") else sel)
  {
    var sel := Selected(prompt, table);
    Lists.Dedup(if sel == [] then ListAt(table, "telcel") else sel)
  }

  /** A topic that is a key of the table decides alone: its first two URLs
      when its value is a list that has some, the Telcel list otherwise,
      whatever operator or country the prompt names. */
  lemma TopicPreempts(prompt: string, table: Table)
    requires TopicBranch(prompt, table)
    ensures var top := Lists.Prefix(ListAt(table, TopicKey(DetectTopic(prompt).value)), 2);
      GetRelevantUrls(prompt, table) == Lists.Dedup(if top == [] then ListAt(table, "telcel") else top)
    ensures |GetRelevantUrls(prompt, table)| <= 2 || GetRelevantUrls(prompt, table) == Lists.Dedup(ListAt(table, "telcel"))
  {
  }

  /** Operator Telcel, or Mexico without the topic branch, gives the Telcel list. */
  lemma TelcelGivesTelcelList(prompt: string, table: Table)
    requires !TopicBranch(prompt, table) && TelcelBranch(prompt)
    ensures GetRelevantUrls(prompt, table) == Lists.Dedup(ListAt(table, "telcel"))
  {
  }

  /** Claro with a country it lists contributes at most two URLs; otherwise
      the Telcel list stands in. */
  lemma ClaroAtMostTwo(prompt: string, table: Table)
    requires !TopicBranch(prompt, table) && !TelcelBranch(prompt) && DetectOperator(prompt) == Some(Claro)
    ensures var cu := CountryUrls(table, "claro", DetectCountry(prompt), 2);
      GetRelevantUrls(prompt, table) == Lists.Dedup(if cu == [] then ListAt(table, "telcel") else cu)
    ensures |GetRelevantUrls(prompt, table)| <= 2 || GetRelevantUrls(prompt, table) == Lists.Dedup(ListAt(table, "telcel"))
  {
  }

  /** A1 with a country it lists contributes at most one URL; otherwise the
      Telcel list stands in. */
  lemma A1AtMostOne(prompt: string, table: Table)
    requires !TopicBranch(prompt, table) && !TelcelBranch(prompt) && DetectOperator(prompt) == Some(A1)
    ensures var cu := CountryUrls(table, "a1", DetectCountry(prompt), 1);
      GetRelevantUrls(prompt, table) == Lists.Dedup(if cu == [] then ListAt(table, "telcel") else cu)
    ensures |GetRelevantUrls(prompt, table)| <= 1 || GetRelevantUrls(prompt, table) == Lists.Dedup(ListAt(table, "telcel"))
  {
  }

  /** A prompt that names no topic, operator or country gets the Telcel list. */
  lemma NothingDetectedFallsBack(prompt: string, table: Table)
    requires DetectTopic(prompt).None? && DetectOperator(prompt).None?
    ensures GetRelevantUrls(prompt, table) == Lists.Dedup(ListAt(table, "telcel"))
  {
  }

  /** With a non-empty Telcel list there is always some URL. */
  lemma NeverEmpty(prompt: string, table: Table)
    requires ListAt(table, "telcel") != []
    ensures GetRelevantUrls(prompt, table) != []
  {
    var sel := Selected(prompt, table);
    var chosen := if sel == [] then ListAt(table, "telcel") else sel;
    assert chosen[0] in GetRelevantUrls(prompt, table);
  }

  /** The shape of the table the service is deployed with: "health" maps to
      a table of tables, there is no "education" key, and the Claro block is
      keyed by capitalised country names, none of which detection returns. */
  predicate DeployedShape(table: Table) {
    && "health" in table && !table["health"].UrlList?
    && "education" !in table
    && (forall c :: c in Countries ==> !("claro" in table && table["claro"].ByCountry? && c in table["claro"].lists))
  }

  /** With the deployed table every query that is not about A1 gets the
      Telcel list: the health list, the education list and the Claro lists
      are never reached. */
  lemma DeployedOnlyTelcelOrA1(prompt: string, table: Table)
    requires DeployedShape(table)
    requires DetectOperator(prompt) != Some(A1)
    ensures GetRelevantUrls(prompt, table) == Lists.Dedup(ListAt(table, "telcel"))
  {
    if TopicBranch(prompt, table) {
      assert DetectTopic(prompt) == Some(Health);
    } else if !TelcelBranch(prompt) && DetectOperator(prompt) == Some(Claro) {
      var c := DetectCountry(prompt);
      assert c.Some? ==> c.value in Countries;
    }
  }

  // ---------------------------------------------------------------------------
  // _build_context_label and get_context_for_query
  // ---------------------------------------------------------------------------

  const EducationLabel: string := "🎓 Educación y cursos"
  const HealthLabel: string := "🩺 Salud y bienestar"
  const TelcelLabel: string := "📶 Telecom (Telcel/México)"
  const ClaroLabel: string := "📶 Telecom (Claro)"
  const A1Label: string := "📶 Telecom (A1)"
  const GeneralLabel: string := "ℹ️ Asistente general disponible"

  /** `_build_context_label`: the topic first (education, then health), then
      Telcel or Mexico, Claro, A1, and the general label last. */
  function ContextLabel(topic: Option<Topic>, operator: Option<Operator>, country: Option<string>): (l: string)
    ensures topic.Some? ==> l == (if topic.value == Education then EducationLabel else HealthLabel)
    ensures topic.None? && (operator == Some(Telcel) || country == Some("mexico")) ==> l == TelcelLabel
    ensures topic.None? && operator == Some(Claro) && country != Some("mexico") ==> l == ClaroLabel
    ensures topic.None? && operator == Some(A1) && country != Some("mexico") ==> l == A1Label
    ensures topic.None? && operator.None? && country != Some("mexico") ==> l == GeneralLabel
  {
    if topic.Some? then (if topic.value == Education then EducationLabel else HealthLabel)
    else if operator == Some(Telcel) || country == Some("mexico") then TelcelLabel
    else if operator == Some(Claro) then ClaroLabel
    else if operator == Some(A1) then A1Label
    else GeneralLabel
  }

  /** What `get_context_for_query` returns (its "label" is the title here). */
  datatype Context = Context(title: string, relevantUrls: seq<string>, country: Option<string>,
                             operator: Option<Operator>, topic: Option<Topic>)

  /** `get_context_for_query`. The label and the URLs agree: a Telcel label
      comes with no topic and the Telcel list, and a query that names nothing
      gets the general label and the Telcel list; the URLs never repeat. */
  function GetContextForQuery(prompt: string, table: Table): (c: Context)
    ensures Lists.Distinct(c.relevantUrls)
    ensures c.title == TelcelLabel ==> c.topic.None? && c.relevantUrls == Lists.Dedup(ListAt(table, "telcel"))
    ensures c.topic.None? && c.operator.None? && c.country.None? ==>
      c.title == GeneralLabel && c.relevantUrls == Lists.Dedup(ListAt(table, "telcel"))
  {
    var country := DetectCountry(prompt);
    var operator := DetectOperator(prompt);
    var topic := DetectTopic(prompt);
    var title := ContextLabel(topic, operator, country);
    if title == TelcelLabel then
      assert topic.None? && (operator == Some(Telcel) || country == Some("mexico"));
      TelcelGivesTelcelList(prompt, table);
      Context(title, GetRelevantUrls(prompt, table), country, operator, topic)
    else if topic.None? && operator.None? then
      NothingDetectedFallsBack(prompt, table);
      Context(title, GetRelevantUrls(prompt, table), country, operator, topic)
    else Context(title, GetRelevantUrls(prompt, table), country, operator, topic)
  }
}
