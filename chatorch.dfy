/** The chat orchestrators of the service: the web chat and the chat of the
    messaging channels. Each refuses a blank message, builds the context and
    the system prompt, sends the model the system prompt and the message,
    and shapes the reply for its channel. The language model, json.dumps,
    the URL table and the prompt prose are parameters. */
module ChatOrchestrator {
  import opened Wrappers
  import opened Text
  import opened Json
  import Lists
  import ContextService
  import Prompts
  import ChannelMessages

  datatype Channel = Web | WhatsApp | Sms | Rcs

  function ChannelName(c: Channel): string {
    match c
    case Web => "web"
    case WhatsApp => "whatsapp"
    case Sms => "sms"
    case Rcs => "rcs"
  }

  /** `not user_message or not user_message.strip()` */
  predicate Blank(msg: string) {
    PyStrip(msg) == ""
  }

  const EmptyMessage: string := "Mensaje vacío"

  /** How many previous messages a channel sends: none for SMS, one otherwise. */
  function MaxPrev(c: Channel): (n: int)
    ensures n == 0 <==> c == Sms
    ensures c != Sms ==> n == 1
  {
    if c == Sms then 0 else 1
  }

  // ---------------------------------------------------------------------------
  // Per-channel truncation
  // ---------------------------------------------------------------------------

  /** `" ".join(text.split())` */
  function Collapsed(t: string): string {
    Join(" ", Words(t))
  }

  /** Where a long SMS is cut: at the last space of its first 137 characters,
      or at 137 when the only space there is the first character or there is
      none. */
  function SmsCut(c: string): (n: nat)
    requires |c| > 140
    ensures 0 < n <= 137
    ensures (n < 137 && c[n] == ' ' && forall j :: n < j < 137 ==> c[j] != ' ')
         || (n == 137 && forall j :: 0 < j < 137 ==> c[j] != ' ')
  {
    match LastIndex(c[..137], ' ')
    case Some(k) => if k > 0 then k else 137
    case None => 137
  }

  /** The SMS text: whitespace collapsed and, when longer than 140
      characters, cut by SmsCut and ended with "...". */
  function SmsText(t: string): (r: string)
    ensures |r| <= 140
    ensures |Collapsed(t)| <= 140 ==> r == Collapsed(t)
    ensures |Collapsed(t)| > 140 ==> r == Collapsed(t)[..SmsCut(Collapsed(t))] + "..." && EndsWith(r, "...")
  {
    var c := Collapsed(t);
    if |c| > 140 then c[..SmsCut(c)] + "..." else c
  }

  /** A short SMS text is already collapsed: formatting it again changes
      nothing. */
  lemma SmsShortIsFixed(t: string)
    requires |Collapsed(t)| <= 140
    ensures SmsText(SmsText(t)) == SmsText(t)
  {
    WordsAreWords(t);
    WordsOfJoin(Words(t));
  }

  /** `text[:keep] + "..."` above the limit, the text unchanged otherwise. */
  function Clip(t: string, limit: nat): (r: string)
    requires limit >= 3
    ensures |r| <= limit || r == t
    ensures |t| <= limit ==> r == t
    ensures |t| > limit ==> |r| == limit && r[..limit - 3] == t[..limit - 3] && EndsWith(r, "...")
  {
    if |t| > limit then t[..limit - 3] + "..." else t
  }

  /** The reply shaped for its channel: SMS collapsed and at most 140
      characters, WhatsApp at most 1500, RCS at most 1000, the web as it is. */
  function ShapeReply(c: Channel, t: string): (r: string)
    ensures c == Sms ==> |r| <= 140
    ensures c == WhatsApp ==> |r| <= 1500 && (|t| <= 1500 ==> r == t)
    ensures c == Rcs ==> |r| <= 1000 && (|t| <= 1000 ==> r == t)
    ensures c == Web ==> r == t
  {
    match c
    case Sms => SmsText(t)
    case WhatsApp => Clip(t, 1500)
    case Rcs => Clip(t, 1000)
    case Web => t
  }

  // ---------------------------------------------------------------------------
  // The orchestrators
  // ---------------------------------------------------------------------------

  /** What the service needs from outside: the URL table, the prose of the
      templates, json.dumps and the language model. */
  datatype Env = Env(table: ContextService.Table, prose: Prompts.Prose, dumps: Json -> string,
                     llm: seq<ChannelMessages.Message> -> string)

  /** The reply of either orchestrator; `channel` is None for the web. */
  datatype ChatReply = ChatReply(response: string, context: string, relevantUrls: seq<string>,
                                 memoryUsed: nat, contextReset: bool, action: string, channel: Option<Channel>)

  function UrlsJson(urls: seq<string>): (j: Json)
    ensures j.JArr? && |j.items| == |urls|
  {
    JArr(seq(|urls|, i requires 0 <= i < |urls| => JStr(urls[i])))
  }

  /** The system prompt for a message on a channel. */
  function SystemPromptFor(env: Env, c: Channel, msg: string): string {
    var ctx := ContextService.GetContextForQuery(msg, env.table);
    Prompts.BuildSystemPrompt(env.prose, ChannelName(c), ctx.title,
                              Prompts.ServiceUrlsBlock(UrlsJson(ctx.relevantUrls), env.dumps))
  }

  /** With an empty history the model gets the system prompt and the
      message alone, whatever the depth. */
  lemma NoHistory(system: string, msg: string, maxPrev: int)
    ensures ChannelMessages.ChatMessages(system, msg, Some([]), maxPrev)
      == [ChannelMessages.Message("system", system), ChannelMessages.Message("user", msg)]
  {
    assert ChannelMessages.Window(Some([]), maxPrev) == [];
  }

  /** What the model answers for a message: with an empty history it is
      asked with the system prompt and the message alone, whatever the depth. */
  function Answer(env: Env, c: Channel, msg: string, maxPrev: int): (a: string)
    ensures a == env.llm([ChannelMessages.Message("system", SystemPromptFor(env, c, msg)), ChannelMessages.Message("user", msg)])
  {
    var system := SystemPromptFor(env, c, msg);
    NoHistory(system, msg, maxPrev);
    env.llm(ChannelMessages.ChatMessages(system, msg, Some([]), maxPrev))
  }

  /** Both orchestrators: exactly a blank message raises; otherwise the
      model is asked with the system prompt and the message alone, its answer
      is shaped for the channel and at most nUrls of the context's URLs come
      back, in order, with no memory reported; the channel is reported only
      when tagged asks for it. */
  function RunChat(env: Env, c: Channel, msg: string, action: string, maxPrev: int, nUrls: nat, tagged: bool): (r: Result<ChatReply, string>)
    ensures r.Failure? <==> Blank(msg)
    ensures r.Failure? ==> r.error == EmptyMessage
    ensures var ctx := ContextService.GetContextForQuery(msg, env.table);
      r.Success? ==>
        && r.value.response == ShapeReply(c, env.llm([ChannelMessages.Message("system", SystemPromptFor(env, c, msg)),
                                                      ChannelMessages.Message("user", msg)]))
        && |r.value.relevantUrls| <= nUrls && r.value.relevantUrls <= ctx.relevantUrls
        && r.value.context == ctx.title
        && r.value.memoryUsed == 0 && r.value.contextReset && r.value.action == action
        && r.value.channel == (if tagged then Some(c) else None)
  {
    if Blank(msg) then Failure(EmptyMessage)
    else
      var ctx := ContextService.GetContextForQuery(msg, env.table);
      var urls := Lists.Prefix(ctx.relevantUrls, nUrls);
      assert urls <= ctx.relevantUrls;
      Success(ChatReply(ShapeReply(c, Answer(env, c, msg, maxPrev)), ctx.title, urls,
                        0, true, action, if tagged then Some(c) else None))
  }

  /** `run_web_chat`: the web reply is the model's answer unchanged, with at
      most five URLs and no channel. */
  function RunWebChat(env: Env, msg: string, action: string): (r: Result<ChatReply, string>)
    ensures r.Failure? <==> Blank(msg)
    ensures r.Success? ==>
      && r.value.channel.None? && |r.value.relevantUrls| <= 5
      && r.value.response == env.llm([ChannelMessages.Message("system", SystemPromptFor(env, Web, msg)),
                                      ChannelMessages.Message("user", msg)])
  {
    RunChat(env, Web, msg, action, 1, 5, false)
  }

  /** `run_channel_chat`; a channel of "web" is shaped like the web. Whatever
      the model answers, an SMS reply fits in 140 characters, a WhatsApp one
      in 1500 and an RCS one in 1000, with at most three URLs, and the reply
      names its channel, "web" included. */
  function RunChannelChat(env: Env, c: Channel, msg: string, action: string): (r: Result<ChatReply, string>)
    ensures r.Failure? <==> Blank(msg)
    ensures r.Success? ==>
      var t := r.value.response;
      && (c == Sms ==> |t| <= 140) && (c == WhatsApp ==> |t| <= 1500) && (c == Rcs ==> |t| <= 1000)
      && |r.value.relevantUrls| <= 3 && r.value.channel == Some(c)
  {
    RunChat(env, c, msg, action, MaxPrev(c), 3, true)
  }
}
