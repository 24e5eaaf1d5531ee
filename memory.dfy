/** The short conversation memory of the backend: the topic a message is
    about, whether a message changes the topic of the stored ones, and the
    per-user store of recent messages that is cleared on a change of topic. */
module Memory {
  import opened Text

  // ---------------------------------------------------------------------------
  // detect_main_topic
  // ---------------------------------------------------------------------------

  datatype Topic = Telecom | Education | Health | TaskTopic | General

  const TelecomKeywords: seq<string> :=
    ["claro", "telcel", "a1", "plan", "internet", "telefon", "móvil", "movil",
     "datos", "paquete", "recarga", "operador", "señal"]
  const EducationKeywords: seq<string> :=
    ["curso", "aprender", "estudiar", "educaci", "diploma", "universidad",
     "inglés", "ingles", "programa", "capacita", "aprende.org", "clase",
     "enseña", "profesor", "escuela", "carrera", "profesional"]
  const HealthKeywords: seq<string> :=
    ["salud", "medic", "doctor", "enfermedad", "diabetes", "presión", "presion",
     "nutrición", "nutricion", "dieta", "ejercicio", "hospital", "sintoma",
     "tratamiento", "clikisalud", "clinica"]
  const TaskKeywords: seq<string> :=
    ["recordar", "recuerdame", "recuérdame", "agenda", "agendar", "nota", "anota",
     "guardar", "programa"]

  /** How many keywords of the list occur in t (a keyword listed twice counts twice). */
  function Count(t: string, kws: seq<string>): (n: nat)
    ensures n <= |kws|
    ensures n == 0 <==> forall i :: 0 <= i < |kws| ==> !Contains(t, kws[i])
  {
    if kws == [] then 0
    else
      var rest := Count(t, kws[1..]);
      assert forall i :: 1 <= i < |kws| ==> kws[i] == kws[1..][i - 1];
      (if Contains(t, kws[0]) then 1 else 0) + rest
  }

  /** The four counts of a lower-cased text, in the order the topics are tried. */
  datatype Counts = Counts(telecom: nat, education: nat, health: nat, task: nat)

  function CountsOf(text: string): (c: Counts)
  {
    var t := LowerStr(text);
    Counts(Count(t, TelecomKeywords), Count(t, EducationKeywords), Count(t, HealthKeywords), Count(t, TaskKeywords))
  }

  function MaxOf(a: nat, b: nat): nat { if a < b then b else a }

  /** `detect_main_topic`: the topic with the most keywords in the text, the
      first in the order telecom, education, health, task on a tie, and the
      general topic when no keyword occurs at all. */
  function DetectMainTopic(text: string): (r: Topic)
    ensures var c := CountsOf(text);
      r == General <==> c.telecom == 0 && c.education == 0 && c.health == 0 && c.task == 0
    ensures var c := CountsOf(text);
      r == Telecom <==> 0 < c.telecom && c.education <= c.telecom && c.health <= c.telecom && c.task <= c.telecom
    ensures var c := CountsOf(text);
      r == Education <==> 0 < c.education && c.telecom < c.education && c.health <= c.education && c.task <= c.education
    ensures var c := CountsOf(text);
      r == Health <==> 0 < c.health && c.telecom < c.health && c.education < c.health && c.task <= c.health
    ensures var c := CountsOf(text);
      r == TaskTopic <==> 0 < c.task && c.telecom < c.task && c.education < c.task && c.health < c.task
  {
    var c := CountsOf(text);
    var top := MaxOf(MaxOf(c.telecom, c.education), MaxOf(c.health, c.task));
    if top == 0 then General
    else if c.telecom == top then Telecom
    else if c.education == top then Education
    else if c.health == top then Health
    else TaskTopic
  }

  // ---------------------------------------------------------------------------
  // detect_context_change
  // ---------------------------------------------------------------------------

  /** The topics of the stored messages, in order. */
  function Topics(msgs: seq<string>): (ts: seq<Topic>)
    ensures |ts| == |msgs|
    ensures forall i :: 0 <= i < |msgs| ==> ts[i] == DetectMainTopic(msgs[i])
  {
    seq(|msgs|, i requires 0 <= i < |msgs| => DetectMainTopic(msgs[i]))
  }

  /** `detect_context_change`: with no previous message nothing changes;
      otherwise the topic changes when no previous message shares the
      current one's topic. */
  function DetectContextChange(current: string, previous: seq<string>): (b: bool)
    ensures previous == [] ==> !b
    ensures b <==> previous != [] && forall i :: 0 <= i < |previous| ==> DetectMainTopic(previous[i]) != DetectMainTopic(current)
  {
    previous != [] && DetectMainTopic(current) !in Topics(previous)
  }

  /** A message on the topic of any stored message keeps the memory. */
  lemma SameTopicKeeps(current: string, previous: seq<string>, i: nat)
    requires i < |previous| && DetectMainTopic(previous[i]) == DetectMainTopic(current)
    ensures !DetectContextChange(current, previous)
  {
  }

  // ---------------------------------------------------------------------------
  // append_memory's trimming
  // ---------------------------------------------------------------------------

  function Min(a: int, b: int): int { if a < b then a else b }

  /** `mem[-n:] if len(mem) > n else mem`, with Python's slicing: a positive n
      keeps the last n messages, `mem[-0:]` is the whole list and a negative n
      drops the first -n. */
  function Trimmed(mem: seq<string>, n: int): (r: seq<string>)
    ensures |mem| <= n ==> r == mem
    ensures 0 < n ==> |r| == Min(n, |mem|) && mem == mem[..|mem| - |r|] + r
    ensures n == 0 ==> r == mem
    ensures n < 0 ==> r == mem[Min(-n, |mem|)..]
  {
    if |mem| > n then
      if n > 0 then mem[|mem| - n..]
      else if n == 0 then mem
      else mem[Min(-n, |mem|)..]
    else mem
  }

  /** Appending one message and trimming is the same whether or not the
      stored list had been trimmed before: a user's memory only ever depends
      on the newest messages. */
  lemma {:induction false} TrimmedTwice(s: seq<string>, m: string, n: nat)
    ensures Trimmed(Trimmed(s, n) + [m], n) == Trimmed(s + [m], n)
  {
    if n > 0 && |s| > n {
      var t := s[|s| - n..];
      assert Trimmed(s, n) == t;
      assert |t + [m]| == n + 1;
      assert Trimmed(t + [m], n) == (t + [m])[1..];
      assert (t + [m])[1..] == s[|s| - n + 1..] + [m];
      assert (s + [m])[|s| + 1 - n..] == s[|s| - n + 1..] + [m];
    }
  }

  /** With the default length, the memory holds the last two messages, the
      newest last. */
  lemma DefaultKeepsLastTwo(s: seq<string>, a: string, b: string)
    ensures Trimmed(Trimmed(s + [a], 2) + [b], 2) == [a, b]
  {
    TrimmedTwice(s + [a], b, 2);
    assert (s + [a]) + [b] == s + [a, b];
    assert Trimmed(s + [a, b], 2) == [a, b];
  }

  // ---------------------------------------------------------------------------
  // The store (CHAT_MEMORY)
  // ---------------------------------------------------------------------------

  /** The messages stored for a user (`CHAT_MEMORY.get(user_key, [])`). */
  function Stored(chats: map<string, seq<string>>, userKey: string): (mem: seq<string>)
    ensures userKey !in chats ==> mem == []
  {
    if userKey in chats then chats[userKey] else []
  }

  class ChatMemory {
    var chats: map<string, seq<string>>

    constructor()
      ensures chats == map[]
    {
      chats := map[];
    }

    /** `get_relevant_memory`: nothing when nothing is stored; nothing, and
        the user's memory cleared, when the message changes the topic; the
        newest stored message otherwise. */
    method GetRelevantMemory(userKey: string, current: string) returns (r: seq<string>)
      modifies this
      ensures |r| <= 1
      ensures var mem := Stored(old(chats), userKey);
        if mem == [] then r == [] && chats == old(chats)
        else if DetectContextChange(current, mem) then r == [] && chats == old(chats)[userKey := []]
        else r == [mem[|mem| - 1]] && chats == old(chats)
    {
      var mem := Stored(chats, userKey);
      if mem == [] {
        return [];
      }
      if DetectContextChange(current, mem) {
        chats := chats[userKey := []];
        return [];
      }
      r := mem[|mem| - 1..];
    }

    /** `append_memory`: the message goes last and the list is trimmed to
        maxLen; the other users' memories are unchanged. */
    method AppendMemory(userKey: string, message: string, maxLen: int)
      modifies this
      ensures chats == old(chats)[userKey := Trimmed(Stored(old(chats), userKey) + [message], maxLen)]
      ensures 0 < maxLen ==> |chats[userKey]| <= maxLen && chats[userKey][|chats[userKey]| - 1] == message
    {
      var mem := Stored(chats, userKey) + [message];
      if |mem| > maxLen {
        mem := Trimmed(mem, maxLen);
      }
      chats := chats[userKey := mem];
    }
  }
}
