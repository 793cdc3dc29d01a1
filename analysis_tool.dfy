/** The ADK function-tool variant of the analysis step
    (src/agents/analysis/agent.py `assess_feasibility`): the same computation on the
    shared client, returning the summary to the caller. */
module AnalysisTool {
  import opened Wrappers
  import opened Wire
  import opened Store
  import opened Analysis

  /** The tool's reading loop: the sources and raw scores of the readable
      syntheses, or the error that ended it. */
  method CollectScores(redis: RedisClient, synthesisKeys: seq<string>, now: nat) returns (r: Result<(seq<Source>, seq<Json>)>)
    ensures r == Collect(redis.Snapshot(), synthesisKeys, now)
  {
    var sources: seq<Source> := [];
    var scores: seq<Json> := [];
    for i := 0 to |synthesisKeys|
      invariant Collect(redis.Snapshot(), synthesisKeys[..i], now) == Ok((sources, scores))
    {
      var key := synthesisKeys[i];
      assert synthesisKeys[..i + 1][..i] == synthesisKeys[..i];
      var raw := redis.Get(key, now);
      if raw.Some? && raw.value != Text("") {
        match Loads(raw.value) {
          case None =>
          case Some(data) =>
            if !data.JObj? {
              CollectStopsAtCrash(redis.Snapshot(), synthesisKeys, i + 1, now);
              return Crashed("AttributeError: object has no attribute 'get'");
            }
            sources := sources + [Source(key, GetField(data.fields, "overlap", JArr([])))];
            scores := scores + [GetField(data.fields, "feasibility", JNum(0.0))];
        }
      }
    }
    assert synthesisKeys[..|synthesisKeys|] == synthesisKeys;
    return Ok((sources, scores));
  }

  method AssessFeasibility(redis: RedisClient, synthesisKeys: seq<string>, now: nat) returns (r: Result<Aggregate>)
    modifies redis
    ensures (r, redis.Snapshot()) == Assessed(old(redis.Snapshot()), synthesisKeys, now)
  {
    var collected := CollectScores(redis, synthesisKeys, now);
    if collected.Crashed? {
      return Crashed(collected.reason);
    }
    var sources := collected.value.0;
    var scores := collected.value.1;

    var score := 0.0;
    if scores != [] {
      match Numbers(scores) {
        case None =>
          return Crashed("TypeError: unsupported operand type for +");
        case Some(xs) =>
          score := Sum(xs) / (|xs| as real);
      }
    }
    if !redis.connected {
      return Crashed("AttributeError: 'NoneType' object has no attribute 'time'");
    }
    var aggregated := Aggregate(sources, score);
    var analysisKey := AnalysisKey(now);
    redis.SetWithTtl(analysisKey, Dumps(AggregateJson(aggregated)), AnalysisTtl, now);
    redis.PublishMessage(ActivityChannel, CompletedEvent(analysisKey));
    return Ok(aggregated);
  }
}
