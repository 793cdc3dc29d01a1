/** The task envelope: `{"task_id": ..., "type": ..., "payload": {...}}`, serialized
    with `json.dumps` and pushed onto a queue (src/agents/coordinator.py `_make_task`,
    the literal in src/agents/coordinator/agent.py, and src/voice_handler.py). */
module Envelope {
  import opened Wrappers
  import opened Wire

  const SearchAndParse := "search_and_parse"
  const VoiceInput := "voice_input"

  /** `_make_task`: the id and the serialized envelope. The id is minted by the
      caller (uuid4). */
  function MakeTask(taskId: string, taskType: string, payload: Json): (r: (string, Value))
    ensures r.0 == taskId
    ensures Loads(r.1) == Some(JObj(map["task_id" := JStr(taskId), "type" := JStr(taskType), "payload" := payload]))
  {
    (taskId, Dumps(JObj(map["task_id" := JStr(taskId), "type" := JStr(taskType), "payload" := payload])))
  }

  /** The payload of a research task: `{"query": q, "session_id": sid}`; a missing
      session id is written as `null`. */
  function SearchPayload(query: string, sessionId: Option<string>): Json {
    JObj(map["query" := JStr(query), "session_id" := OptStr(sessionId)])
  }

  function SearchEnvelope(taskId: string, query: string, sessionId: Option<string>): Value {
    MakeTask(taskId, SearchAndParse, SearchPayload(query, sessionId)).1
  }

  /** How a worker reads a popped entry (src/agents/research.py, `listen_and_process`). */
  datatype Decoded =
    | Undecodable                      // json.loads raised: the entry is dropped
    | Malformed                        // `.get` on something that is not an object: the loop dies
    | Ignored                          // a type no handler is registered for
    | Search(query: string)            // a search_and_parse task

  function Decode(raw: Value): (d: Decoded)
    ensures d == Undecodable <==> raw.Text?
    ensures d == Ignored <==> raw.Doc? && raw.doc.JObj? && !IsSearchTask(raw.doc)
    ensures d.Search? <==> raw.Doc? && IsSearchTask(raw.doc) && QueryOf(raw.doc).Some?
    ensures d.Search? ==> d.query == QueryOf(raw.doc).value
    ensures d == Malformed <==> raw.Doc? && (!raw.doc.JObj? || (IsSearchTask(raw.doc) && QueryOf(raw.doc).None?))
  {
    match Loads(raw)
    case None => Undecodable
    case Some(j) =>
      if !j.JObj? then Malformed
      else if GetField(j.fields, "type", JNull) != JStr(SearchAndParse) then Ignored
      else
        var payload := GetField(j.fields, "payload", JObj(map[]));
        if !payload.JObj? then Malformed
        else
          match GetField(payload.fields, "query", JNull)
          case JStr(q) => Search(q)
          case _ => Malformed
  }

  /** An object whose "type" is "search_and_parse". */
  predicate IsSearchTask(j: Json) {
    j.JObj? && GetField(j.fields, "type", JNull) == JStr(SearchAndParse)
  }

  /** `payload.get("query")` when the payload is an object and the query a string. */
  function QueryOf(j: Json): Option<string>
    requires j.JObj?
  {
    var payload := GetField(j.fields, "payload", JObj(map[]));
    if payload.JObj? && GetField(payload.fields, "query", JNull).JStr? then
      Some(GetField(payload.fields, "query", JNull).s)
    else None
  }

  /** Every envelope the coordinator writes is read back as the search task it was
      made from. */
  lemma SearchEnvelopeRoundTrip(taskId: string, query: string, sessionId: Option<string>)
    ensures Decode(SearchEnvelope(taskId, query, sessionId)) == Search(query)
  {
    var fields := map["task_id" := JStr(taskId), "type" := JStr(SearchAndParse), "payload" := SearchPayload(query, sessionId)];
    assert GetField(fields, "type", JNull) == JStr(SearchAndParse);
    assert GetField(fields, "payload", JObj(map[])) == SearchPayload(query, sessionId);
  }
}
