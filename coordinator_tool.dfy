/** The ADK function-tool variant of the coordinator (src/agents/coordinator/agent.py):
    the same dispatch, but the DSPy flag is recomputed on every call instead of being
    kept on an instance. */
module CoordinatorTool {
  import opened Wrappers
  import opened Wire
  import opened Store
  import opened Envelope
  import opened Coordinator

  /** `configured` is whether an API key was present and the model client was created
      during this call. */
  method DecomposeAndDispatch(redis: RedisClient, query: string, sessionId: Option<string>,
                              configured: bool, decomposer: Decomposition, uuid: nat -> string)
    returns (ids: seq<string>)
    modifies redis
    ensures ids == FreshIds(uuid, |Plan(configured, query, decomposer).0|)
    ensures redis.Snapshot() == Dispatched(old(redis.Snapshot()), Plan(configured, query, decomposer).0, ids, sessionId)
  {
    var tasks: seq<string> := [];
    var dspyEnabled := configured;
    if dspyEnabled {
      match decomposer
      case Predicted(ts) => tasks := ts;
      case PredictFailed => dspyEnabled := false;
    }
    if !dspyEnabled {
      tasks := FallbackTasks(query);
    }
    assert tasks == Plan(configured, query, decomposer).0;
    ids := DispatchTasks(redis, tasks, sessionId, uuid);
  }

  /** The tool's push loop, which writes the envelope literally, then the session
      record and the announcement. */
  method DispatchTasks(redis: RedisClient, tasks: seq<string>, sessionId: Option<string>, uuid: nat -> string)
    returns (ids: seq<string>)
    modifies redis
    ensures ids == FreshIds(uuid, |tasks|)
    ensures redis.Snapshot() == Dispatched(old(redis.Snapshot()), tasks, ids, sessionId)
  {
    ghost var s0 := redis.Snapshot();
    ids := [];
    var i := 0;
    while i < |tasks|
      invariant 0 <= i <= |tasks|
      invariant ids == FreshIds(uuid, i)
      invariant redis.Snapshot() == AfterPushAll(s0, ResearchQueue, Envelopes(tasks[..i], ids, sessionId))
    {
      var taskId := uuid(i);
      var taskPayload := Dumps(JObj(map["task_id" := JStr(taskId), "type" := JStr(SearchAndParse),
                                        "payload" := SearchPayload(tasks[i], sessionId)]));
      assert taskPayload == SearchEnvelope(taskId, tasks[i], sessionId);
      redis.PushTask(ResearchQueue, taskPayload);
      PushStep(s0, tasks, ids, i, taskId, sessionId);
      assert FreshIds(uuid, i + 1) == FreshIds(uuid, i) + [uuid(i)];
      ids := ids + [taskId];
      i := i + 1;
    }
    assert tasks[..i] == tasks;

    if Given(sessionId) {
      redis.SetHashField(SessionKey(sessionId.value), "tasks", Dumps(StrList(ids)));
    }
    redis.PublishMessage(ActivityChannel, DispatchedEvent(ids));
  }

  /** The tool keeps no flag between calls: with a working predictor every call uses
      it, so a call after a failed one still gets the predicted tasks, whereas the
      agent class falls back for good after one failure. */
  lemma ToolRetriesPredictor(query: string, failedEarlier: Decomposition, d: Decomposition)
    requires d.Predicted?
    ensures Plan(true, query, d).0 == d.tasks
    ensures failedEarlier.PredictFailed? ==>
      Plan(Plan(true, query, failedEarlier).1, query, d).0 == FallbackTasks(query) && |FallbackTasks(query)| == 5
  {
  }
}
