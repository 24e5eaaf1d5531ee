/** The Claro agent's country detector: the message is lower-cased, its
    accents are removed and its whitespace is collapsed, and the first
    country name of a fixed table that occurs in it gives a two-letter code. */
module ClaroCountry {
  import opened Wrappers
  import opened Text
  import Lists

  // ---------------------------------------------------------------------------
  // normalize
  // ---------------------------------------------------------------------------

  /** The combining diacritical marks U+0300 to U+036F
      (`unicodedata.combining(c) != 0` on the Latin scripts). */
  predicate Combining(c: char) {
    '\U{300}' <= c <= '\U{36F}'
  }

  /** The lower-case Latin-1 letters that compatibility decomposition
      splits into a base letter and one combining mark. */
  predicate Accented(c: char) {
    ('à' <= c <= 'å') || c == 'ç' || ('è' <= c <= 'ï') || c == 'ñ'
    || ('ò' <= c <= 'ö') || ('ù' <= c <= 'ý') || c == 'ÿ'
  }

  /** The base letter of an accented letter. */
  function Base(c: char): (b: char)
    requires Accented(c)
    ensures 'a' <= b <= 'z'
  {
    if c <= 'å' then 'a'
    else if c == 'ç' then 'c'
    else if c <= 'ë' then 'e'
    else if c <= 'ï' then 'i'
    else if c == 'ñ' then 'n'
    else if c <= 'ö' then 'o'
    else if c <= 'ü' then 'u'
    else 'y'
  }

  /** The mark an accented letter carries. */
  function Mark(c: char): (m: char)
    requires Accented(c)
    ensures Combining(m)
  {
    if c == 'ç' then '\U{327}'
    else if c == 'ñ' then '\U{303}'
    else if c == 'ý' then '\U{301}'
    else if c == 'ÿ' || c == 'ä' || c == 'ë' || c == 'ï' || c == 'ö' || c == 'ü' then '\U{308}'
    else if c == 'å' then '\U{30A}'
    else if c == 'à' || c == 'è' || c == 'ì' || c == 'ò' || c == 'ù' then '\U{300}'
    else if c == 'á' || c == 'é' || c == 'í' || c == 'ó' || c == 'ú' then '\U{301}'
    else if c == 'â' || c == 'ê' || c == 'î' || c == 'ô' || c == 'û' then '\U{302}'
    else '\U{303}'
  }

  /** The texts f gives for the characters of s, one after another and in
      their order. */
  function PerChar(s: string, f: char -> string): string {
    if s == [] then [] else f(s[0]) + PerChar(s[1..], f)
  }

  lemma {:induction false} PerCharConcat(a: string, b: string, f: char -> string)
    ensures PerChar(a + b, f) == PerChar(a, f) + PerChar(b, f)
    decreases |a|
  {
    if a == [] {
      assert a + b == b;
    } else {
      assert (a + b)[0] == a[0] && (a + b)[1..] == a[1..] + b;
      PerCharConcat(a[1..], b, f);
    }
  }

  /** The decomposition of one character: an accented letter splits into
      its base letter and its mark, any other character stays. */
  function Decompose(c: char): string {
    if Accented(c) then [Base(c), Mark(c)] else [c]
  }

  /** One character with its combining marks dropped. */
  function Unmarked(c: char): string {
    if Combining(c) then [] else [c]
  }

  /** One character with its accent folded away: the base letter of an
      accented letter, nothing for a combining mark, the character itself
      otherwise. */
  function Plain(c: char): string {
    if Accented(c) then [Base(c)] else Unmarked(c)
  }

  /** `unicodedata.normalize("NFKD", s)` on Latin-1 text: each accented
      letter becomes its base letter followed by its mark, in place, and
      every other character stays (`NfkdPerChar`). */
  function Nfkd(s: string): (r: string)
    ensures forall i :: 0 <= i < |r| ==> !Accented(r[i])
  {
    if s == [] then []
    else
      (if Accented(s[0]) then [Base(s[0]), Mark(s[0])] else [s[0]]) + Nfkd(s[1..])
  }

  /** `"".join(c for c in s if not unicodedata.combining(c))`: exactly the
      characters of s that are not combining marks, in their order
      (`DropMarksPerChar`). */
  function DropMarks(s: string): (r: string)
    ensures |r| <= |s|
    ensures forall i :: 0 <= i < |r| ==> !Combining(r[i])
    ensures (forall i :: 0 <= i < |s| ==> !Accented(s[i])) ==> forall i :: 0 <= i < |r| ==> !Accented(r[i])
  {
    if s == [] then []
    else
      (if Combining(s[0]) then [] else [s[0]]) + DropMarks(s[1..])
  }

  /** Decomposition works character by character: each accented letter is
      replaced by its base letter and its mark, any other character stays. */
  lemma {:induction false} NfkdPerChar(s: string)
    ensures Nfkd(s) == PerChar(s, Decompose)
    decreases |s|
  {
    if s != [] {
      NfkdPerChar(s[1..]);
    }
  }

  /** A text without accented letters is its own decomposition. */
  lemma {:induction false} NfkdFixed(s: string)
    requires Avoids(s, Accented)
    ensures Nfkd(s) == s
    decreases |s|
  {
    if s != [] {
      assert Avoids(s[1..], Accented) by {
        forall i | 0 <= i < |s| - 1 ensures !Accented(s[1..][i]) {
          assert s[1..][i] == s[i + 1];
        }
      }
      NfkdFixed(s[1..]);
      assert [s[0]] + s[1..] == s;
    }
  }

  /** Dropping the marks keeps exactly the characters that are not marks,
      in their order. */
  lemma {:induction false} DropMarksPerChar(s: string)
    ensures DropMarks(s) == PerChar(s, Unmarked)
    decreases |s|
  {
    if s != [] {
      DropMarksPerChar(s[1..]);
    }
  }

  lemma DropMarksConcat(a: string, b: string)
    ensures DropMarks(a + b) == DropMarks(a) + DropMarks(b)
  {
    DropMarksPerChar(a + b);
    DropMarksPerChar(a);
    DropMarksPerChar(b);
    PerCharConcat(a, b, Unmarked);
  }

  /** Decomposing and then dropping the marks folds each accented letter
      to its base letter and drops the marks the text already had. */
  lemma {:induction false} FoldAccents(s: string)
    ensures DropMarks(Nfkd(s)) == PerChar(s, Plain)
    decreases |s|
  {
    if s != [] {
      var n := Nfkd(s[1..]);
      NfkdCons(s);
      DropMarksConcat(Decompose(s[0]), n);
      DropDecomposed(s[0]);
      FoldAccents(s[1..]);
    }
  }

  lemma NfkdCons(s: string)
    requires s != []
    ensures Nfkd(s) == Decompose(s[0]) + Nfkd(s[1..])
  {
  }

  /** Dropping the marks of one decomposed character leaves its folding. */
  lemma DropDecomposed(c: char)
    ensures DropMarks(Decompose(c)) == Plain(c)
  {
    if Accented(c) {
      assert Decompose(c) == [Base(c)] + [Mark(c)];
      DropMarksConcat([Base(c)], [Mark(c)]);
    }
  }

  /** The characters `normalize` never leaves: accented letters and marks. */
  predicate Marked(c: char) {
    Accented(c) || Combining(c)
  }

  /** `normalize`: lower case, no accents, and single blanks between words.
      The result has no whitespace at either end, no two neighbouring
      whitespace characters, and no accented letter or combining mark. */
  function Normalize(text: string): (r: string)
    ensures Tidy(r)
    ensures Avoids(r, Marked)
  {
    var plain := DropMarks(Nfkd(LowerStr(text)));
    FoldedAvoids(LowerStr(text));
    CollapsedWords(plain, Marked);
    Join(" ", Words(plain))
  }

  /** Decomposing and dropping the marks leaves no accented letter and no
      mark. */
  lemma FoldedAvoids(s: string)
    ensures Avoids(DropMarks(Nfkd(s)), Marked)
  {
    var n := Nfkd(s);
    assert forall i :: 0 <= i < |n| ==> !Accented(n[i]);
  }

  /** `normalize` keeps the words of the lower-cased, decomposed text with
      its marks dropped: only the whitespace between them changes. */
  lemma NormalizeWords(text: string)
    ensures Words(Normalize(text)) == Words(DropMarks(Nfkd(LowerStr(text))))
  {
    var plain := DropMarks(Nfkd(LowerStr(text)));
    WordsAreWords(plain);
    WordsOfJoin(Words(plain));
  }

  /** `normalize` is `" ".join(...split())` of the lower-cased text with
      every accent folded away character by character. */
  lemma NormalizeFolds(text: string)
    ensures Normalize(text) == Join(" ", Words(PerChar(LowerStr(text), Plain)))
  {
    FoldAccents(LowerStr(text));
  }

  /** A text without accents or marks is its own folding. */
  lemma {:induction false} PlainFixed(w: string)
    requires Avoids(w, Marked)
    ensures PerChar(w, Plain) == w
    decreases |w|
  {
    if w != [] {
      assert Avoids(w[1..], Marked) by {
        forall i | 0 <= i < |w| - 1 ensures !Marked(w[1..][i]) {
          assert w[1..][i] == w[i + 1];
        }
      }
      PlainFixed(w[1..]);
      assert [w[0]] + w[1..] == w;
    }
  }

  /** Folding accents keeps every occurrence of an unaccented word. */
  lemma {:induction false} PlainContains(s: string, w: string)
    requires Avoids(w, Marked) && Contains(s, w)
    ensures Contains(PerChar(s, Plain), w)
    decreases |s|
  {
    if StartsWith(s, w) {
      assert s == w + s[|w|..];
      PerCharConcat(w, s[|w|..], Plain);
      PlainFixed(w);
      ContainsAt(w, w, 0);
      ContainsPrefix(w, PerChar(s[|w|..], Plain), w);
    } else {
      PlainContains(s[1..], w);
      ContainsSuffix(Plain(s[0]), PerChar(s[1..], Plain), w);
    }
  }

  // ---------------------------------------------------------------------------
  // detect_country
  // ---------------------------------------------------------------------------

  /** CLARO_COUNTRIES in insertion order: the names and their codes. */
  const Names: seq<string> :=
    ["argentina", "brasil", "chile", "colombia", "costa rica", "ecuador", "el salvador",
     "guatemala", "honduras", "nicaragua", "paraguay", "perú", "peru", "puerto rico",
     "república dominicana", "republica dominicana", "uruguay", "estados unidos", "usa",
     "eeuu", "españa", "espana"]
  const Codes: seq<string> :=
    ["ar", "br", "cl", "co", "cr", "ec", "sv", "gt", "hn", "ni", "py", "pe", "pe", "pr",
     "do", "do", "uy", "us", "us", "us", "es", "es"]

  const Unknown: string := "unknown"

  function OccursIn(t: string): string -> bool {
    name => Contains(t, name)
  }

  /** The code of the first name of a table that occurs in t, `unknown`
      when none does. */
  function FirstCode(t: string, names: seq<string>, codes: seq<string>, unknown: string): (r: string)
    requires |names| == |codes| && unknown !in codes
    ensures r == unknown <==> forall i :: 0 <= i < |names| ==> !Contains(t, names[i])
    ensures r != unknown ==> exists i :: (0 <= i < |names| && r == codes[i]
      && Contains(t, names[i])
      && forall j :: 0 <= j < i ==> !Contains(t, names[j]))
    ensures r == unknown || r in codes
  {
    match Lists.FindFirst(OccursIn(t), names)
    case None => unknown
    case Some(i) => codes[i]
  }

  /** Every name has its code, and "unknown" is none of them. */
  lemma CodesWellFormed()
    ensures |Names| == |Codes| && Unknown !in Codes
  {
  }

  /** `detect_country`: the code of the first table name that occurs in the
      normalised message, "unknown" when none does. */
  function DetectCountry(msg: string): (r: string)
    ensures r == Unknown <==> forall i :: 0 <= i < |Names| ==> !Contains(Normalize(msg), Names[i])
    ensures r != Unknown ==> exists i :: (0 <= i < |Names| && r == Codes[i]
      && Contains(Normalize(msg), Names[i])
      && forall j :: 0 <= j < i ==> !Contains(Normalize(msg), Names[j]))
    ensures r == Unknown || r in Codes
  {
    CodesWellFormed();
    FirstCode(Normalize(msg), Names, Codes, Unknown)
  }

  /** A message naming Argentina, in any letter case and wherever in the
      message, is detected as Argentina, whose name heads the table. */
  lemma ArgentinaDetected(msg: string)
    requires Contains(LowerStr(msg), "argentina")
    ensures DetectCountry(msg) == "ar"
  {
    ArgentinaIsPlainWord();
    NameSurvives(msg, Names[0]);
    FirstNameWins(msg);
  }

  lemma ArgentinaIsPlainWord()
    ensures Names[0] == "argentina" && Codes[0] == "ar"
    ensures IsWord(Names[0]) && Avoids(Names[0], Marked)
  {
  }

  /** A word without accents in the lower-cased message is still in the
      normalised one. */
  lemma NameSurvives(msg: string, w: string)
    requires IsWord(w) && Avoids(w, Marked) && Contains(LowerStr(msg), w)
    ensures Contains(Normalize(msg), w)
  {
    var l := LowerStr(msg);
    PlainContains(l, w);
    NormalizeFolds(msg);
    JoinWordsContains(PerChar(l, Plain), w);
  }

  /** The first name of the table wins whenever it occurs. */
  lemma FirstNameWins(msg: string)
    requires Contains(Normalize(msg), Names[0])
    ensures DetectCountry(msg) == Codes[0]
  {
    var t := Normalize(msg);
    var r := DetectCountry(msg);
    var i :| 0 <= i < |Names| && r == Codes[i] && Contains(t, Names[i])
      && forall j :: 0 <= j < i ==> !Contains(t, Names[j]);
    assert i == 0;
  }

  /** A text without accents never contains a name that has one. */
  lemma NoAccentNoMatch(t: string, name: string, k: nat)
    requires Avoids(t, Marked) && k < |name| && Accented(name[k])
    ensures !Contains(t, name)
    decreases |t|
  {
    if |name| <= |t| {
      assert t[..|name|][k] == t[k] && !Marked(t[k]);
    }
    if t != [] {
      assert Avoids(t[1..], Marked) by {
        forall i | 0 <= i < |t| - 1 ensures !Marked(t[1..][i]) {
          assert t[1..][i] == t[i + 1];
        }
      }
      NoAccentNoMatch(t[1..], name, k);
    }
  }

  /** The table's accented names ("perú", "república dominicana", "españa")
      can never match, since normalising removes their accents; their
      unaccented twins, listed right after them with the same code, take
      their place. */
  lemma AccentedNamesNeverMatch(msg: string)
    ensures !Contains(Normalize(msg), Names[11])
    ensures !Contains(Normalize(msg), Names[14])
    ensures !Contains(Normalize(msg), Names[20])
    ensures Codes[11] == Codes[12] && Codes[14] == Codes[15] && Codes[20] == Codes[21]
  {
    AccentedNamesNeverIn(Normalize(msg));
  }

  /** A text without accented letters or marks holds none of the table's
      accented names. */
  lemma AccentedNamesNeverIn(t: string)
    requires Avoids(t, Marked)
    ensures !Contains(t, Names[11]) && !Contains(t, Names[14]) && !Contains(t, Names[20])
  {
    AccentedNamesAt();
    NoAccentNoMatch(t, Names[11], 3);
    NoAccentNoMatch(t, Names[14], 3);
    NoAccentNoMatch(t, Names[20], 4);
  }

  lemma AccentedNamesAt()
    ensures Names[11] == "perú" && Names[14] == "república dominicana" && Names[20] == "españa"
    ensures Codes[11] == Codes[12] && Codes[14] == Codes[15] && Codes[20] == Codes[21]
  {
  }
}

/** The per-country configuration of the Claro knowledge base: which
    document collection and which vector index to search. */
module ClaroCollections {
  import opened Wrappers
  import ClaroCountry

  datatype VectorConfig = VectorConfig(collection: string, vectorIndex: string)

  /** CLARO_VECTOR_CONFIG: Argentina, Colombia and Brazil only. */
  const ClaroVectorConfig: map<string, VectorConfig> := map[
    "ar" := VectorConfig("embeddings_claro_argentina", "claro_argentina"),
    "co" := VectorConfig("embeddings_claro_colombia", "claro_colombia"),
    "br" := VectorConfig("embeddings_claro_brasil", "claro_brasil")]

  predicate Configured(country: string) {
    country == "ar" || country == "co" || country == "br"
  }

  /** `resolve_claro_vector_config`: the configuration, for the three
      configured countries only. */
  function ResolveVectorConfig(country: string): (r: Option<VectorConfig>)
    ensures r.Some? <==> Configured(country)
    ensures country == "ar" ==> r == Some(VectorConfig("embeddings_claro_argentina", "claro_argentina"))
    ensures country == "co" ==> r == Some(VectorConfig("embeddings_claro_colombia", "claro_colombia"))
    ensures country == "br" ==> r == Some(VectorConfig("embeddings_claro_brasil", "claro_brasil"))
  {
    if country in ClaroVectorConfig then Some(ClaroVectorConfig[country]) else None
  }

  /** `resolve_claro_collection`: the configured collection, None for any
      other country. */
  function ResolveCollection(country: string): (r: Option<string>)
    ensures r.Some? <==> Configured(country)
    ensures r.Some? ==> r.value == ResolveVectorConfig(country).value.collection
  {
    match ResolveVectorConfig(country)
    case None => None
    case Some(c) => Some(c.collection)
  }

  /** `resolve_claro_vector_index`: the configured index, None for any
      other country. */
  function ResolveVectorIndex(country: string): (r: Option<string>)
    ensures r.Some? <==> Configured(country)
    ensures r.Some? ==> r.value == ResolveVectorConfig(country).value.vectorIndex
  {
    match ResolveVectorConfig(country)
    case None => None
    case Some(c) => Some(c.vectorIndex)
  }

  /** The three resolvers agree: each succeeds exactly when the others do,
      and the collection and index are those of the configuration. */
  lemma ResolversAgree(country: string)
    ensures ResolveCollection(country).Some? == ResolveVectorIndex(country).Some? == ResolveVectorConfig(country).Some?
    ensures ResolveVectorConfig(country).Some? ==>
      ResolveVectorConfig(country).value == VectorConfig(ResolveCollection(country).value, ResolveVectorIndex(country).value)
  {
  }

  /** Of the countries the detector can name, only Argentina, Colombia and
      Brazil have a knowledge base; "unknown" and every other code resolve
      to nothing. */
  lemma DetectedCountryResolves(msg: string)
    ensures var c := ClaroCountry.DetectCountry(msg);
      ResolveCollection(c).Some? <==> c == "ar" || c == "co" || c == "br"
    ensures ResolveCollection(ClaroCountry.Unknown).None?
  {
  }
}
