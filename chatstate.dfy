/** The client's current conversation: the list of messages loaded from the
    archive at start-up, appended to as the chat goes on and written back to
    the archive after each change. */
module ChatState {
  import opened Wrappers
  import opened ChatStorage

  class Chat {
    var messages: seq<ChatMessage>
    const storage: Storage

    /** Module start-up: `messages = loadChatHistory()`. */
    constructor (storage0: Storage)
      ensures storage == storage0
      ensures messages == Loaded(storage0.history)
    {
      var loaded := storage0.LoadChatHistory();
      storage := storage0;
      messages := loaded;
    }

    /** `addMessage`: one message with the given role and content goes at the
        end, and the history is saved. The id and the timestamp come from the
        random generator and the clock and are given. */
    method AddMessage(role: string, content: string, id: string, timestamp: string) returns (msg: ChatMessage)
      modifies this, storage
      ensures msg == ChatMessage(id, role, "", content, timestamp)
      ensures messages == old(messages) + [msg]
      ensures storage.history == Parsed(messages)
      ensures storage.conversations == old(storage.conversations)
    {
      msg := ChatMessage(id, role, "", content, timestamp);
      messages := messages + [msg];
      storage.SaveChatHistory(messages);
    }

    /** `resetChat`. */
    method ResetChat()
      modifies this, storage
      ensures messages == [] && storage.history == Parsed([])
      ensures storage.conversations == old(storage.conversations)
    {
      messages := [];
      storage.SaveChatHistory(messages);
    }

    /** `saveCurrentConversation`: the archive receives exactly the current
        messages. */
    method SaveCurrentConversation(title: Option<string>, id: string, timestamp: string) returns (r: string)
      modifies storage
      ensures storage.conversations
        == Parsed(Saved(old(Loaded(storage.conversations)), NewConversation(messages, title, id, timestamp)))
      ensures storage.history == old(storage.history)
      ensures r == id
    {
      r := storage.SaveConversation(messages, title, id, timestamp);
    }

    /** `getAllConversations`. */
    method GetAllConversations() returns (r: seq<Conversation>)
      ensures r == Loaded(storage.conversations)
    {
      r := storage.LoadConversations();
    }

    /** `loadConversation`: a known id replaces the messages by that
        conversation's and saves them; an unknown id changes nothing. */
    method LoadConversation(id: string) returns (r: Option<Conversation>)
      modifies this, storage
      ensures r == ById(Loaded(storage.conversations), id)
      ensures r.Some? ==> messages == r.value.messages && storage.history == Parsed(messages)
      ensures r.None? ==> messages == old(messages) && storage.history == old(storage.history)
      ensures storage.conversations == old(storage.conversations)
    {
      r := storage.LoadConversationById(id);
      if r.Some? {
        messages := r.value.messages;
        storage.SaveChatHistory(messages);
      }
    }

    /** `removeConversation`. */
    method RemoveConversation(id: string)
      modifies storage
      ensures storage.conversations == Parsed(Deleted(old(Loaded(storage.conversations)), id))
      ensures storage.history == old(storage.history)
    {
      storage.DeleteConversation(id);
    }

    /** `clearAllConversations`. */
    method ClearAllConversations()
      modifies storage
      ensures storage.conversations == Missing && storage.history == old(storage.history)
    {
      storage.ClearConversations();
    }
  }

  /** Saving the current chat and loading it back by its id restores the
      same messages. */
  lemma SaveThenLoadRestores(list: seq<Conversation>, messages: seq<ChatMessage>, title: Option<string>, id: string, timestamp: string)
    ensures ById(Saved(list, NewConversation(messages, title, id, timestamp)), id).Some?
    ensures ById(Saved(list, NewConversation(messages, title, id, timestamp)), id).value.messages == messages
  {
    SaveThenFind(list, NewConversation(messages, title, id, timestamp));
  }
}
