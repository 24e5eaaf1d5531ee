/** The common reply of every agent: what the agent's own resolver returned,
    completed with defaults, extended by the agent's extra fields and its
    `awaiting` state; or an error reply when resolving fails. */
module BaseAgent {
  import opened Wrappers
  import opened Json

  const DefaultContext: string := "Asistente disponible"
  const ErrorContext: string := "Error en la instancia de agente general😣😣"
  const ErrorPrefix: string := "Lo siento, ha ocurrido un error al procesar tu solicitud: "

  /** The keys every reply carries. */
  const ReplyKeys: set<string> :=
    {"action", "context", "context_reset", "memory_used", "relevant_urls", "response", "success"}

  /** The fields under "extra" when it holds a dict, none otherwise. */
  function Extra(res: map<string, Json>): (e: map<string, Json>)
    ensures "extra" in res && res["extra"].JObj? ==> e == res["extra"].fields
    ensures !("extra" in res && res["extra"].JObj?) ==> e == map[]
  {
    if "extra" in res && res["extra"].JObj? then res["extra"].fields else map[]
  }

  /** The reply for an exception whose text is `error`. */
  function ErrorReply(intent: string, error: string): (r: map<string, Json>)
    ensures r.Keys == ReplyKeys
    ensures r["success"] == JBool(false) && r["relevant_urls"] == JArr([])
    ensures r["action"] == JStr(intent) && r["context"] == JStr(ErrorContext)
    ensures r["context_reset"] == JBool(false) && r["memory_used"] == JNum(0)
    ensures r["response"] == JStr(ErrorPrefix + error)
  {
    map["action" := JStr(intent), "context" := JStr(ErrorContext), "context_reset" := JBool(false),
        "memory_used" := JNum(0), "relevant_urls" := JArr([]),
        "response" := JStr(ErrorPrefix + error), "success" := JBool(false)]
  }

  /** `BaseAgent.handle`. The abstract `_resolve` is a parameter: the dict it
      returns, or the text of the exception it raises. A resolution without
      "response" raises KeyError, whose text is the quoted key. */
  method Handle(intent: string, resolution: Result<map<string, Json>, string>) returns (r: map<string, Json>)
    ensures resolution.Failure? ==> r == ErrorReply(intent, resolution.error)
    ensures resolution.Success? && "response" !in resolution.value ==> r == ErrorReply(intent, "'response'")
    ensures resolution.Success? && "response" in resolution.value ==>
      var res := resolution.value;
      var extra := Extra(res);
      r.Keys == ReplyKeys + extra.Keys + (if "awaiting" in res then {"awaiting"} else {})
      // the resolver's fields and the defaults, where no extra field overrides them
      && ("action" !in extra ==> r["action"] == JStr(intent))
      && ("success" !in extra ==> r["success"] == JBool(true))
      && ("response" !in extra ==> r["response"] == res["response"])
      && ("context" !in extra ==> r["context"] == GetOr(res, "context", JStr(DefaultContext)))
      && ("context_reset" !in extra ==> r["context_reset"] == GetOr(res, "context_reset", JBool(false)))
      && ("memory_used" !in extra ==> r["memory_used"] == GetOr(res, "memory_used", JNum(0)))
      && ("relevant_urls" !in extra ==> r["relevant_urls"] == GetOr(res, "relevant_urls", JArr([])))
      // extra fields win over the base ones, and "awaiting" is copied last
      && (forall k :: k in extra && !(k == "awaiting" && "awaiting" in res) ==> r[k] == extra[k])
      && ("awaiting" in res ==> r["awaiting"] == res["awaiting"])
  {
    if resolution.Failure? {
      return ErrorReply(intent, resolution.error);
    }
    var res := resolution.value;
    if "response" !in res {
      return ErrorReply(intent, "'response'");
    }
    r := map["action" := JStr(intent),
             "context" := GetOr(res, "context", JStr(DefaultContext)),
             "context_reset" := GetOr(res, "context_reset", JBool(false)),
             "memory_used" := GetOr(res, "memory_used", JNum(0)),
             "relevant_urls" := GetOr(res, "relevant_urls", JArr([])),
             "response" := res["response"],
             "success" := JBool(true)];
    var extra := GetOr(res, "extra", JObj(map[]));
    if extra.JObj? {
      r := r + extra.fields;
    }
    if "awaiting" in res {
      r := r["awaiting" := res["awaiting"]];
    }
  }
}
