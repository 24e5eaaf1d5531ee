/** The older URL selection of the first backend, kept beside the service
    for its own endpoints. It reads its table with `URLS[key]`, so a missing
    key raises, and it keeps repeated URLs. */
module LegacyServices {
  import opened Wrappers
  import opened Text
  import Lists
  import opened ContextService

  /** The countries in this table's order: Argentina, Peru and Chile come
      before Mexico. */
  const LegacyCountries: seq<string> :=
    ["argentina", "peru", "chile", "mexico", "austria", "bulgaria", "croacia",
     "bielorrusia", "serbia", "eslovenia", "macedonia"]
  const LegacyCountryKeywords: seq<seq<string>> :=
    [["argentina", "buenos aires"], ["peru", "perú", "lima"], ["chile", "santiago"],
     ["mexico", "méxico", "cdmx"], ["austria", "viena"], ["bulgaria", "sofia"], ["croacia", "zagreb"],
     ["bielorrusia", "belarus", "minsk"], ["serbia", "belgrado"], ["eslovenia", "liubliana"],
     ["macedonia", "skopje"]]

  /** `detect_country` of the first backend. */
  function LegacyCountry(text: string): (c: Option<string>)
    ensures c.Some? ==> c.value in LegacyCountries
    ensures c.None? <==> forall i :: 0 <= i < |LegacyCountryKeywords| ==> !ContainsAny(LowerStr(text), LegacyCountryKeywords[i])
    ensures c.Some? ==> exists i :: (0 <= i < |LegacyCountryKeywords| && c.value == LegacyCountries[i]
      && ContainsAny(LowerStr(text), LegacyCountryKeywords[i])
      && forall j :: 0 <= j < i ==> !ContainsAny(LowerStr(text), LegacyCountryKeywords[j]))
  {
    FirstMentioned(LowerStr(text), LegacyCountries, LegacyCountryKeywords)
  }

  /** A text naming both Lima and Mexico City is Peru's here and Mexico's
      in the service. */
  lemma CountryOrderDiffers(text: string)
    requires Contains(LowerStr(text), "lima") && Contains(LowerStr(text), "cdmx")
    ensures LegacyCountry(text) != DetectCountry(text)
    ensures DetectCountry(text) == Some("mexico")
  {
    assert ContainsAny(LowerStr(text), CountryKeywords[0]) by {
      assert CountryKeywords[0][2] == "cdmx";
    }
    assert ContainsAny(LowerStr(text), LegacyCountryKeywords[1]) by {
      assert LegacyCountryKeywords[1][2] == "lima";
    }
  }

  const LegacyHealthWords: seq<string> := ["salud", "medico", "hospital", "doctor", "enfermedad", "tratamiento"]
  const LegacyEducationWords: seq<string> := ["educacion", "curso", "aprender", "estudiar", "clase", "capacitacion"]

  /** `detect_topic` of the first backend: the same order, without the
      accented spellings. */
  function LegacyTopic(text: string): (r: Option<Topic>)
    ensures r == Some(Health) <==> ContainsAny(LowerStr(text), LegacyHealthWords)
    ensures r == Some(Education) <==> !ContainsAny(LowerStr(text), LegacyHealthWords) && ContainsAny(LowerStr(text), LegacyEducationWords)
  {
    TopicOf(LowerStr(text), LegacyHealthWords, LegacyEducationWords)
  }

  /** `URLS[key]` used as a list: a missing key raises KeyError and a value
      that is not a list is refused. */
  function ListValue(table: Table, key: string): (r: Result<seq<string>, string>)
    ensures r.Success? <==> key in table && table[key].UrlList?
    ensures r.Success? ==> r.value == table[key].urls
  {
    if key !in table then Failure("KeyError: " + key)
    else if table[key].UrlList? then Success(table[key].urls)
    else Failure("TypeError: not a list")
  }

  /** `country in URLS[op]` followed by `URLS[op][country][:n]`: the first n
      URLs of a listed country, nothing for another country. */
  function BlockUrls(table: Table, op: string, c: string, n: nat): (r: Result<seq<string>, string>)
    ensures r.Success? ==> |r.value| <= n
    ensures op in table && table[op].ByCountry? ==> r.Success?
    ensures op in table && table[op].ByCountry? && c in table[op].lists ==> r.value == Lists.Prefix(table[op].lists[c], n)
  {
    if op !in table then Failure("KeyError: " + op)
    else match table[op]
      case ByCountry(m) => Success(if c in m then Lists.Prefix(m[c], n) else [])
      case _ => Failure("TypeError: not a table of countries")
  }

  /** What the branches select before the fallback, from what was
      detected. */
  function Choose(country: Option<string>, operator: Option<Operator>, topic: Option<Topic>, table: Table): (r: Result<seq<string>, string>)
  {
    if topic.Some? && TopicKey(topic.value) in table then
      match ListValue(table, TopicKey(topic.value))
      case Failure(e) => Failure(e)
      case Success(u) => Success(Lists.Prefix(u, 2))
    else if operator == Some(Telcel) || country == Some("mexico") then ListValue(table, "telcel")
    else if operator == Some(Claro) && country.Some? && country.value != "" then BlockUrls(table, "claro", country.value, 2)
    else if operator == Some(A1) && country.Some? && country.value != "" then BlockUrls(table, "a1", country.value, 1)
    else Success([])
  }

  /** The selection, or the Telcel list when it is empty; repeated URLs are
      kept. */
  function UrlsFor(country: Option<string>, operator: Option<Operator>, topic: Option<Topic>, table: Table): (r: Result<seq<string>, string>)
    ensures r.Success? && Choose(country, operator, topic, table) == Success([]) ==> r == ListValue(table, "telcel")
    ensures Choose(country, operator, topic, table).Failure? ==> r == Choose(country, operator, topic, table)
  {
    match Choose(country, operator, topic, table)
    case Failure(e) => Failure(e)
    case Success(sel) => if sel == [] then ListValue(table, "telcel") else Success(sel)
  }

  /** `get_relevant_urls` of the first backend. */
  function LegacyRelevantUrls(prompt: string, table: Table): (r: Result<seq<string>, string>)
    ensures LegacyShape(table) ==> r.Success? && r.value != []
    ensures LegacyShape(table) && LegacyTopic(prompt).None?
      && (DetectOperator(prompt) == Some(Telcel) || LegacyCountry(prompt) == Some("mexico"))
      ==> r == Success(table["telcel"].urls)
  {
    var u := UrlsFor(LegacyCountry(prompt), DetectOperator(prompt), LegacyTopic(prompt), table);
    if LegacyShape(table) then
      LegacyNeverEmpty(LegacyCountry(prompt), DetectOperator(prompt), LegacyTopic(prompt), table);
      u
    else u
  }

  /** The shape of the first backend's table: Telcel a non-empty list,
      Claro and A1 tables of countries, health and education lists. */
  predicate LegacyShape(table: Table) {
    && "telcel" in table && table["telcel"].UrlList? && table["telcel"].urls != []
    && "claro" in table && table["claro"].ByCountry?
    && "a1" in table && table["a1"].ByCountry?
    && "health" in table && table["health"].UrlList?
    && "education" in table && table["education"].UrlList?
  }

  /** With a table of that shape the selection never raises and is never
      empty. */
  lemma LegacyNeverEmpty(country: Option<string>, operator: Option<Operator>, topic: Option<Topic>, table: Table)
    requires LegacyShape(table)
    ensures UrlsFor(country, operator, topic, table).Success?
    ensures UrlsFor(country, operator, topic, table).value != []
  {
  }

  /** A detected topic decides alone: its first two URLs (the Telcel list
      when it has none), whatever operator or country was named. */
  lemma LegacyTopicFirst(country: Option<string>, operator: Option<Operator>, topic: Topic, table: Table)
    requires LegacyShape(table)
    ensures var u := table[TopicKey(topic)].urls;
      UrlsFor(country, operator, Some(topic), table) == Success(if u == [] then table["telcel"].urls else Lists.Prefix(u, 2))
  {
  }

  /** Operator Telcel, or Mexico even without an operator, gives the whole
      Telcel list. */
  lemma LegacyTelcelOrMexico(country: Option<string>, operator: Option<Operator>, table: Table)
    requires LegacyShape(table)
    requires operator == Some(Telcel) || country == Some("mexico")
    ensures UrlsFor(country, operator, None, table) == Success(table["telcel"].urls)
  {
  }

  /** Claro with a country of its table gives that country's first two URLs. */
  lemma LegacyClaroAtMostTwo(c: string, table: Table)
    requires LegacyShape(table) && c != "" && c != "mexico"
    requires c in table["claro"].lists && table["claro"].lists[c] != []
    ensures UrlsFor(Some(c), Some(Claro), None, table) == Success(Lists.Prefix(table["claro"].lists[c], 2))
    ensures 1 <= |UrlsFor(Some(c), Some(Claro), None, table).value| <= 2
  {
  }

  /** A1 with a country of its table gives that country's first URL. */
  lemma LegacyA1AtMostOne(c: string, table: Table)
    requires LegacyShape(table) && c != "" && c != "mexico"
    requires c in table["a1"].lists && table["a1"].lists[c] != []
    ensures UrlsFor(Some(c), Some(A1), None, table) == Success([table["a1"].lists[c][0]])
  {
    var l := table["a1"].lists[c];
    assert Lists.Prefix(l, 1) == [l[0]];
  }

  /** Claro or A1 with a country its table does not list, or with none,
      falls back to the Telcel list. */
  lemma LegacyUnlistedFallsBack(country: Option<string>, operator: Operator, table: Table)
    requires LegacyShape(table) && operator != Telcel && country != Some("mexico")
    requires country.None? || country.value !in table[OperatorKey(operator)].lists
    ensures UrlsFor(country, Some(operator), None, table) == Success(table["telcel"].urls)
  {
  }
}
