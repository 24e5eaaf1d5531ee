/** The server's conversation-state cache: one state per user key, kept for
    five minutes after it was last saved. The clock is a parameter (`now`,
    in whole seconds). */
module ConvStore {
  import opened Wrappers
  import opened Json

  /** What the server remembers between two messages of a conversation:
      the pending intent, the task fields gathered so far, the slot the next
      reply should fill, the query that started it, and when it was saved. */
  datatype ConversationState = ConversationState(
    intent: Option<string>,
    slots: map<string, Json>,
    awaitingSlot: Option<string>,
    originalQuery: Option<string>,
    updatedAt: int)

  /** Seconds a saved state stays valid. */
  const TtlSeconds: int := 300

  /** `ConversationState()`: nothing pending, stamped with the current time. */
  function Fresh(now: int): (s: ConversationState)
    ensures s.intent.None? && s.slots == map[] && s.awaitingSlot.None? && s.originalQuery.None?
    ensures s.updatedAt == now
  {
    ConversationState(None, map[], None, None, now)
  }

  /** A cached state is still live when at most the TTL has passed since it
      was saved. */
  predicate Live(s: ConversationState, now: int) {
    now - s.updatedAt <= TtlSeconds
  }

  /** What `load_state` returns for a cache and a key at a given time. */
  function Loaded(cache: map<string, ConversationState>, key: string, now: int): (r: ConversationState)
    ensures key != "" && key in cache && Live(cache[key], now) ==> r == cache[key]
    ensures !(key != "" && key in cache && Live(cache[key], now)) ==> r == Fresh(now)
  {
    if key != "" && key in cache && Live(cache[key], now) then cache[key] else Fresh(now)
  }

  /** What a `save_state` at time t leaves in the cache. */
  function SavedIn(cache: map<string, ConversationState>, key: string, s: ConversationState, t: int)
    : (r: map<string, ConversationState>)
    ensures key == "" ==> r == cache
    ensures key != "" ==> key in r && r[key] == s.(updatedAt := t)
    ensures forall k :: k != key ==> (k in r <==> k in cache) && (k in r ==> r[k] == cache[k])
  {
    if key == "" then cache else cache[key := s.(updatedAt := t)]
  }

  /** A state saved at t is loaded back, with every field as saved, exactly
      while no more than the TTL has passed; afterwards the load is fresh. */
  lemma SaveThenLoad(cache: map<string, ConversationState>, key: string, s: ConversationState, t: int, now: int)
    requires key != ""
    ensures now - t <= TtlSeconds ==> Loaded(SavedIn(cache, key, s, t), key, now) == s.(updatedAt := t)
    ensures now - t > TtlSeconds ==> Loaded(SavedIn(cache, key, s, t), key, now) == Fresh(now)
  {
  }

  /** The anonymous user never gets anything stored nor loaded. */
  lemma AnonymousNeverStored(cache: map<string, ConversationState>, s: ConversationState, t: int, now: int)
    ensures SavedIn(cache, "", s, t) == cache
    ensures Loaded(cache, "", now) == Fresh(now)
  {
  }

  /** The cache `_CACHE` and its three operations. */
  class Store {
    var cache: map<string, ConversationState>

    constructor ()
      ensures cache == map[]
    {
      cache := map[];
    }

    /** `load_state`: an empty key or a missing entry gives a fresh state and
        changes nothing; an expired entry is evicted and a fresh state is
        given; a live entry is returned as stored. */
    method LoadState(key: string, now: int) returns (r: ConversationState)
      modifies this
      ensures r == Loaded(old(cache), key, now)
      ensures key != "" && key in old(cache) && !Live(old(cache)[key], now) ==> cache == old(cache) - {key}
      ensures !(key != "" && key in old(cache) && !Live(old(cache)[key], now)) ==> cache == old(cache)
    {
      if key == "" {
        return Fresh(now);
      }
      if key !in cache {
        return Fresh(now);
      }
      var state := cache[key];
      if now - state.updatedAt > TtlSeconds {
        cache := cache - {key};
        return Fresh(now);
      }
      return state;
    }

    /** `save_state`: the state is stamped with the current time and stored
        under the key; an empty key stores nothing and leaves the state as it
        was. The stamped state is returned, since the caller's object is the
        one that gets stamped. */
    method SaveState(key: string, state: ConversationState, now: int) returns (stamped: ConversationState)
      modifies this
      ensures cache == SavedIn(old(cache), key, state, now)
      ensures key != "" ==> stamped == state.(updatedAt := now)
      ensures key == "" ==> stamped == state
    {
      if key == "" {
        return state;
      }
      stamped := state.(updatedAt := now);
      cache := cache[key := stamped];
    }

    /** `clear_state`. */
    method ClearState(key: string)
      modifies this
      ensures key != "" ==> cache == old(cache) - {key}
      ensures key == "" ==> cache == old(cache)
    {
      if key == "" {
        return;
      }
      cache := cache - {key};
    }
  }
}
