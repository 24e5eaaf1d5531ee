/** The browser-side conversation archive: the current chat history and the
    list of saved conversations, each kept under its own storage key. Browser
    storage is an in-memory slot per key that is either empty, holds text the
    JSON parser rejects, or holds a parsed value. */
module ChatStorage {
  import opened Wrappers
  import Lists

  /** A chat message as the client keeps it; `kind` is the optional `type`
      field ("" when absent). */
  datatype ChatMessage = ChatMessage(id: string, role: string, kind: string, content: string, timestamp: string)

  datatype Conversation = Conversation(
    id: string, title: string, messages: seq<ChatMessage>, timestamp: string, messageCount: nat)

  /** One storage key: nothing stored, unparsable text, or a parsed list. */
  datatype Slot<T> = Missing | Unparsable | Parsed(value: seq<T>)

  /** The number of conversations the archive keeps. */
  const MaxConversations: nat := 20
  /** How many characters of the first user message make a title. */
  const TitleLength: nat := 50
  const Untitled := "Conversación sin título"

  /** Reading a key: an empty or unparsable slot reads as the empty list. */
  function Loaded<T>(slot: Slot<T>): (r: seq<T>)
    ensures slot.Parsed? ==> r == slot.value
    ensures !slot.Parsed? ==> r == []
  {
    if slot.Parsed? then slot.value else []
  }

  predicate IsUser(m: ChatMessage) {
    m.role == "user" || m.kind == "user"
  }

  function IsUserFn(): ChatMessage -> bool {
    m => IsUser(m)
  }

  /** The title a saved conversation gets: an explicit non-empty title wins;
      otherwise the first user message cut to 50 characters, with "..." when
      it was longer; otherwise the untitled placeholder. */
  function Title(messages: seq<ChatMessage>, title: Option<string>): (r: string)
    ensures title.Some? && title.value != "" ==> r == title.value
    ensures (title.None? || title.value == "") && Lists.Find(IsUserFn(), messages).None? ==> r == Untitled
    ensures (title.None? || title.value == "") && Lists.Find(IsUserFn(), messages).Some? ==>
      var m := Lists.Find(IsUserFn(), messages).value;
      IsUser(m) && m in messages
      && (|m.content| <= TitleLength ==> r == m.content)
      && (|m.content| > TitleLength ==> r == m.content[..TitleLength] + "...")
    ensures (title.None? || title.value == "") ==> |r| <= TitleLength + 3
  {
    if title.Some? && title.value != "" then title.value
    else match Lists.Find(IsUserFn(), messages)
      case None => Untitled
      case Some(m) =>
        if |m.content| > TitleLength then m.content[..TitleLength] + "..." else m.content
  }

  /** The record `saveConversation` builds; the id and the timestamp come from
      the clock and the random generator and are given. */
  function NewConversation(messages: seq<ChatMessage>, title: Option<string>, id: string, timestamp: string): (c: Conversation)
    ensures c.id == id && c.messages == messages && c.timestamp == timestamp
    ensures c.messageCount == |messages|
    ensures c.title == Title(messages, title)
  {
    Conversation(id, Title(messages, title), messages, timestamp, |messages|)
  }

  /** The list after `unshift(c)` and `slice(0, 20)`: the new conversation
      first, then the most recent older ones, the oldest dropped. */
  function Saved(list: seq<Conversation>, c: Conversation): (r: seq<Conversation>)
    ensures r != [] && r[0] == c
    ensures |r| == if |list| < MaxConversations then |list| + 1 else MaxConversations
    ensures forall i :: 1 <= i < |r| ==> r[i] == list[i - 1]
  {
    var all := [c] + list;
    if |all| <= MaxConversations then all else all[..MaxConversations]
  }

  predicate HasId(id: string, c: Conversation) {
    c.id == id
  }

  function HasIdFn(id: string): Conversation -> bool {
    c => HasId(id, c)
  }

  function OtherIdFn(id: string): Conversation -> bool {
    c => !HasId(id, c)
  }

  /** `conversations.find(c => c.id === id)`. */
  function ById(list: seq<Conversation>, id: string): (r: Option<Conversation>)
    ensures r.Some? ==> r.value.id == id && r.value in list
    ensures r.None? <==> forall i :: 0 <= i < |list| ==> list[i].id != id
  {
    var p := HasIdFn(id);
    assert forall c :: p(c) == (c.id == id);
    Lists.Find(p, list)
  }

  /** `conversations.filter(c => c.id !== id)`. */
  function Deleted(list: seq<Conversation>, id: string): (r: seq<Conversation>)
    ensures |r| <= |list|
    ensures forall i :: 0 <= i < |r| ==> r[i].id != id && r[i] in list
    ensures forall c :: c in list && c.id != id ==> c in r
  {
    var p := OtherIdFn(id);
    assert forall c :: p(c) == (c.id != id);
    Lists.Filter(p, list)
  }

  /** A conversation is found by its id right after it is saved. */
  lemma SaveThenFind(list: seq<Conversation>, c: Conversation)
    ensures ById(Saved(list, c), c.id) == Some(c)
  {
    var r := Saved(list, c);
    assert HasIdFn(c.id)(r[0]);
    Lists.FindIsFirst(HasIdFn(c.id), r, 0);
  }

  /** The first match wins: an earlier entry with the same id hides later ones. */
  lemma FindFirstOfId(list: seq<Conversation>, id: string, k: nat)
    requires k < |list| && list[k].id == id
    requires forall j :: 0 <= j < k ==> list[j].id != id
    ensures ById(list, id) == Some(list[k])
  {
    var p := HasIdFn(id);
    assert p(list[k]);
    assert forall j :: 0 <= j < k ==> !p(list[j]);
    Lists.FindIsFirst(p, list, k);
  }

  /** Saving a conversation with a fresh id and deleting it again leaves the
      older list, cut by the one place the new entry took. */
  lemma SaveThenDelete(list: seq<Conversation>, c: Conversation)
    requires forall i :: 0 <= i < |list| ==> list[i].id != c.id
    ensures Deleted(Saved(list, c), c.id) == Saved(list, c)[1..]
    ensures |list| < MaxConversations ==> Deleted(Saved(list, c), c.id) == list
  {
    var r := Saved(list, c);
    var p := OtherIdFn(c.id);
    Lists.FilterCons(p, r);
    assert forall i :: 0 <= i < |r[1..]| ==> p(r[1..][i]) by {
      forall i | 0 <= i < |r[1..]|
        ensures p(r[1..][i])
      {
        assert r[1..][i] == list[i];
      }
    }
    Lists.FilterAll(p, r[1..]);
    if |list| < MaxConversations {
      assert r[1..] == list;
    }
  }

  /** Deleting keeps the order: deleting from a concatenation deletes from
      each part. */
  lemma DeleteConcat(a: seq<Conversation>, b: seq<Conversation>, id: string)
    ensures Deleted(a + b, id) == Deleted(a, id) + Deleted(b, id)
  {
    Lists.FilterConcat(OtherIdFn(id), a, b);
  }

  /** Deleting an id twice is deleting it once. */
  lemma DeleteTwice(list: seq<Conversation>, id: string)
    ensures Deleted(Deleted(list, id), id) == Deleted(list, id)
  {
    Lists.FilterTwice(OtherIdFn(id), list);
  }

  /** The two storage keys of the archive. */
  class Storage {
    var history: Slot<ChatMessage>
    var conversations: Slot<Conversation>

    constructor (history0: Slot<ChatMessage>, conversations0: Slot<Conversation>)
      ensures history == history0 && conversations == conversations0
    {
      history := history0;
      conversations := conversations0;
    }

    /** `loadChatHistory`. */
    method LoadChatHistory() returns (r: seq<ChatMessage>)
      ensures r == Loaded(history)
    {
      if history.Parsed? {
        r := history.value;
      } else {
        r := [];
      }
    }

    /** `saveChatHistory`. */
    method SaveChatHistory(messages: seq<ChatMessage>)
      modifies this
      ensures history == Parsed(messages) && conversations == old(conversations)
    {
      history := Parsed(messages);
    }

    /** `clearChatHistory`. */
    method ClearChatHistory()
      modifies this
      ensures history == Missing && conversations == old(conversations)
    {
      history := Missing;
    }

    /** `loadConversations`. */
    method LoadConversations() returns (r: seq<Conversation>)
      ensures r == Loaded(conversations)
    {
      if conversations.Parsed? {
        r := conversations.value;
      } else {
        r := [];
      }
    }

    /** `saveConversation`: the read, the `unshift`, the cap, the write back;
        the new conversation's id is returned. */
    method SaveConversation(messages: seq<ChatMessage>, title: Option<string>, id: string, timestamp: string)
      returns (r: string)
      modifies this
      ensures conversations == Parsed(Saved(old(Loaded(conversations)), NewConversation(messages, title, id, timestamp)))
      ensures history == old(history)
      ensures r == id
    {
      var list := LoadConversations();
      var conversationTitle := "";
      if title.Some? && title.value != "" {
        conversationTitle := title.value;
      } else {
        var first := Lists.Find(IsUserFn(), messages);
        if first.Some? {
          var content := first.value.content;
          if |content| > TitleLength {
            conversationTitle := content[..TitleLength] + "...";
          } else {
            conversationTitle := content;
          }
        } else {
          conversationTitle := Untitled;
        }
      }
      var c := Conversation(id, conversationTitle, messages, timestamp, |messages|);
      var all := [c] + list;
      var limited := if |all| <= MaxConversations then all else all[..MaxConversations];
      conversations := Parsed(limited);
      r := id;
    }

    /** `loadConversationById`. */
    method LoadConversationById(id: string) returns (r: Option<Conversation>)
      ensures r == ById(Loaded(conversations), id)
    {
      var list := LoadConversations();
      r := Lists.Find(HasIdFn(id), list);
    }

    /** `deleteConversation`. */
    method DeleteConversation(id: string)
      modifies this
      ensures conversations == Parsed(Deleted(old(Loaded(conversations)), id))
      ensures history == old(history)
    {
      var list := LoadConversations();
      conversations := Parsed(Lists.Filter(OtherIdFn(id), list));
    }

    /** `clearConversations`. */
    method ClearConversations()
      modifies this
      ensures conversations == Missing && history == old(history)
    {
      conversations := Missing;
    }
  }
}
