/** The message list handed to the language model: the system prompt, a
    short window of previous user messages and the current message. */
module ChannelMessages {
  import opened Wrappers
  import opened Text
  import Seqs

  datatype Message = Message(role: string, content: string)

  /** A previous message worth sending: not blank, and not the current
      message again once both are stripped. */
  predicate Usable(pm: string, user: string) {
    PyStrip(pm) != "" && PyStrip(pm) != PyStrip(user)
  }

  /** `prev[-max_prev:]` when max_prev is positive and there is a history
      (`previous_messages or []`), nothing otherwise. */
  function Window(previous: Option<seq<string>>, maxPrev: int): (ws: seq<string>)
    ensures maxPrev <= 0 || previous.None? ==> ws == []
    ensures previous.Some? && 0 < maxPrev ==>
      |ws| == (if maxPrev < |previous.value| then maxPrev else |previous.value|)
      && previous.value == previous.value[..|previous.value| - |ws|] + ws
  {
    match previous
    case None => []
    case Some(prev) => if 0 < maxPrev && prev != [] then Last(prev, maxPrev) else []
  }

  /** The usable messages of a window, in order, as user messages. */
  function Kept(ws: seq<string>, user: string): (ms: seq<Message>)
    ensures |ms| <= |ws|
    ensures forall j :: 0 <= j < |ms| ==> ms[j].role == "user" && ms[j].content in ws && Usable(ms[j].content, user)
    ensures forall w :: w in ws && Usable(w, user) ==> Message("user", w) in ms
  {
    if ws == [] then []
    else
      var init := Kept(ws[..|ws| - 1], user);
      var w := ws[|ws| - 1];
      assert ws == ws[..|ws| - 1] + [w];
      init + (if Usable(w, user) then [Message("user", w)] else [])
  }

  /** What `build_chat_messages` returns: the system prompt first and the
      current message last; in between come at most maxPrev previous
      messages, each a usable one from the end of the history, and every
      usable message of that window. */
  function ChatMessages(system: string, user: string, previous: Option<seq<string>>, maxPrev: int): (r: seq<Message>)
    ensures 2 <= |r| <= 2 + (if maxPrev < 0 then 0 else maxPrev)
    ensures r[0] == Message("system", system) && r[|r| - 1] == Message("user", user)
    ensures forall j :: 1 <= j < |r| - 1 ==>
      r[j].role == "user" && r[j].content in Window(previous, maxPrev) && Usable(r[j].content, user)
    ensures forall w :: w in Window(previous, maxPrev) && Usable(w, user) ==> Message("user", w) in r[1..|r| - 1]
    ensures maxPrev <= 0 || previous.None? ==> r == [Message("system", system), Message("user", user)]
  {
    var k := Kept(Window(previous, maxPrev), user);
    Seqs.Framed(Message("system", system), k, Message("user", user));
    [Message("system", system)] + k + [Message("user", user)]
  }

  /** One more message of the window: kept when usable. */
  lemma KeptStep(ws: seq<string>, i: nat, user: string)
    requires i < |ws|
    ensures Kept(ws[..i + 1], user) == Kept(ws[..i], user) + (if Usable(ws[i], user) then [Message("user", ws[i])] else [])
  {
    assert ws[..i + 1][..i] == ws[..i];
  }

  /** `build_chat_messages`. */
  method BuildChatMessages(system: string, user: string, previous: Option<seq<string>>, maxPrev: int)
    returns (msgs: seq<Message>)
    ensures msgs == ChatMessages(system, user, previous, maxPrev)
  {
    var kept: seq<Message> := [];
    var prev := if previous.Some? then previous.value else [];
    if 0 < maxPrev && prev != [] {
      var ws := Last(prev, maxPrev);
      assert ws == Window(previous, maxPrev);
      var i := 0;
      while i < |ws|
        invariant 0 <= i <= |ws|
        invariant kept == Kept(ws[..i], user)
      {
        var pm := ws[i];
        KeptStep(ws, i, user);
        if Usable(pm, user) {
          kept := kept + [Message("user", pm)];
        }
        i := i + 1;
      }
      assert ws[..i] == ws;
    }
    msgs := [Message("system", system)] + kept + [Message("user", user)];
  }
}
