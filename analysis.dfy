/** The analysis agent (src/agents/analysis.py): read the synthesis records named by
    the caller, gather their overlaps, average their feasibility scores, store the
    summary for an hour and announce it.

    `now` is the server's clock in whole seconds: the agent names its record after
    it (`client.time()`), and the store uses it to expire keys. */
module Analysis {
  import opened Wrappers
  import opened Wire
  import opened Store
  import opened Text

  const AnalysisTtl := 3600

  /** One entry of `sources`. */
  datatype Source = Source(key: string, overlap: Json)

  /** The summary: `{"sources": [...], "score": ...}`. */
  datatype Aggregate = Aggregate(sources: seq<Source>, score: real)

  function SourceJson(src: Source): Json {
    JObj(map["key" := JStr(src.key), "overlap" := src.overlap])
  }

  function AggregateJson(a: Aggregate): Json {
    JObj(map["sources" := JArr(seq(|a.sources|, i requires 0 <= i < |a.sources| => SourceJson(a.sources[i]))),
             "score" := JNum(a.score)])
  }

  function AnalysisKey(second: nat): string {
    "analysis:" + Decimal(second)
  }

  function CompletedEvent(key: string): Value {
    Dumps(JObj(map["agent" := JStr("analysis"), "status" := JStr("completed"), "key" := JStr(key)]))
  }

  /** The loop over the keys: the sources and raw scores gathered, or the failure
      raised by `.get` on a stored document that is not an object. Keys that are
      missing, empty or not JSON are skipped. */
  function Collect(s: State, keys: seq<string>, now: int): Result<(seq<Source>, seq<Json>)> {
    if keys == [] then Ok(([], []))
    else
      match Collect(s, keys[..|keys| - 1], now)
      case Crashed(m) => Crashed(m)
      case Ok(acc) =>
        var key := keys[|keys| - 1];
        var raw := GetReply(s, key, now);
        if raw.None? || raw.value == Text("") then Ok(acc)
        else
          match Loads(raw.value)
          case None => Ok(acc)
          case Some(data) =>
            if !data.JObj? then Crashed("AttributeError: object has no attribute 'get'")
            else Ok((acc.0 + [Source(key, GetField(data.fields, "overlap", JArr([])))],
                     acc.1 + [GetField(data.fields, "feasibility", JNum(0.0))]))
  }

  /** A score as `sum` adds it: numbers, and booleans as 0 and 1. */
  function AsNumber(j: Json): Option<real> {
    match j
    case JNum(n) => Some(n)
    case JBool(b) => Some(if b then 1.0 else 0.0)
    case _ => None
  }

  /** `sum(scores)` succeeds exactly when every score is a number; the numbers are
      the scores' values, in order. */
  function Numbers(js: seq<Json>): (r: Option<seq<real>>)
    ensures r.Some? <==> forall i :: 0 <= i < |js| ==> AsNumber(js[i]).Some?
    ensures r.Some? ==> |r.value| == |js| && forall i :: 0 <= i < |js| ==> r.value[i] == AsNumber(js[i]).value
  {
    if js == [] then Some([])
    else
      match (Numbers(js[..|js| - 1]), AsNumber(js[|js| - 1]))
      case (Some(xs), Some(x)) => Some(xs + [x])
      case _ => None
  }

  function Sum(xs: seq<real>): real {
    if xs == [] then 0.0 else Sum(xs[..|xs| - 1]) + xs[|xs| - 1]
  }

  /** The average score, 0.0 when there is none. */
  function Mean(xs: seq<real>): real {
    if xs == [] then 0.0 else Sum(xs) / (|xs| as real)
  }

  /** `assess_feasibility`: the summary (or the failure) and the store afterwards.
      A failure happens before any write, so it leaves the store as it was. */
  function Assessed(s: State, keys: seq<string>, now: nat): (Result<Aggregate>, State) {
    match Collect(s, keys, now)
    case Crashed(m) => (Crashed(m), s)
    case Ok(acc) =>
      match Numbers(acc.1)
      case None => (Crashed("TypeError: unsupported operand type for +"), s)
      case Some(xs) =>
        if !s.connected then (Crashed("AttributeError: 'NoneType' object has no attribute 'time'"), s)
        else
          var agg := Aggregate(acc.0, Mean(xs));
          var key := AnalysisKey(now);
          (Ok(agg), AfterPublish(AfterSetEx(s, key, Dumps(AggregateJson(agg)), AnalysisTtl, now), ActivityChannel, CompletedEvent(key)))
  }

  /** The keys whose stored value is a JSON object, in the caller's order. */
  function ObjectKeys(s: State, keys: seq<string>, now: int): seq<string> {
    if keys == [] then []
    else
      var key := keys[|keys| - 1];
      var raw := GetReply(s, key, now);
      ObjectKeys(s, keys[..|keys| - 1], now) +
        (if raw.Some? && raw.value.Doc? && raw.value.doc.JObj? then [key] else [])
  }

  function SourceKeys(sources: seq<Source>): seq<string> {
    seq(|sources|, i requires 0 <= i < |sources| => sources[i].key)
  }

  class AnalysisAgent {
    const redis: RedisClient

    constructor (redis: RedisClient)
      ensures this.redis == redis
    {
      this.redis := redis;
    }

    /** The reading loop of `assess_feasibility`: the sources and raw scores of the
        readable syntheses, or the error that ended it. */
    method CollectScores(synthesisKeys: seq<string>, now: nat) returns (r: Result<(seq<Source>, seq<Json>)>)
      ensures r == Collect(redis.Snapshot(), synthesisKeys, now)
    {
      var sources: seq<Source> := [];
      var scores: seq<Json> := [];
      var i := 0;
      while i < |synthesisKeys|
        invariant 0 <= i <= |synthesisKeys|
        invariant Collect(redis.Snapshot(), synthesisKeys[..i], now) == Ok((sources, scores))
      {
        var key := synthesisKeys[i];
        assert synthesisKeys[..i + 1][..i] == synthesisKeys[..i];
        var raw := redis.Get(key, now);
        i := i + 1;
        if raw.None? || raw.value == Text("") {
          continue;
        }
        match Loads(raw.value) {
          case None =>
            continue;
          case Some(data) =>
            if !data.JObj? {
              assert Collect(redis.Snapshot(), synthesisKeys[..i], now).Crashed?;
              r := Crashed("AttributeError: object has no attribute 'get'");
              CollectStopsAtCrash(redis.Snapshot(), synthesisKeys, i, now);
              return;
            }
            sources := sources + [Source(key, GetField(data.fields, "overlap", JArr([])))];
            scores := scores + [GetField(data.fields, "feasibility", JNum(0.0))];
        }
      }
      assert synthesisKeys[..i] == synthesisKeys;
      return Ok((sources, scores));
    }

    method AssessFeasibility(synthesisKeys: seq<string>, now: nat) returns (r: Result<Aggregate>)
      modifies redis
      ensures (r, redis.Snapshot()) == Assessed(old(redis.Snapshot()), synthesisKeys, now)
    {
      var collected := CollectScores(synthesisKeys, now);
      if collected.Crashed? {
        return Crashed(collected.reason);
      }
      var sources := collected.value.0;
      var scores := collected.value.1;

      var score := 0.0;
      if scores != [] {
        match Numbers(scores) {
          case None =>
            return Crashed("TypeError: unsupported operand type for +");
          case Some(xs) =>
            score := Sum(xs) / (|xs| as real);
        }
      }
      if !redis.connected {
        return Crashed("AttributeError: 'NoneType' object has no attribute 'time'");
      }
      var aggregated := Aggregate(sources, score);
      var analysisKey := AnalysisKey(now);
      redis.SetWithTtl(analysisKey, Dumps(AggregateJson(aggregated)), AnalysisTtl, now);
      redis.PublishMessage(ActivityChannel, CompletedEvent(analysisKey));
      return Ok(aggregated);
    }
  }

  /** Once the loop has failed on a key, the keys after it do not matter. */
  lemma {:induction false} CollectStopsAtCrash(s: State, keys: seq<string>, i: nat, now: int)
    requires i <= |keys| && Collect(s, keys[..i], now).Crashed?
    ensures Collect(s, keys, now) == Collect(s, keys[..i], now)
    decreases |keys| - i
  {
    if i < |keys| {
      assert keys[..i + 1][..i] == keys[..i];
      CollectStopsAtCrash(s, keys, i + 1, now);
    } else {
      assert keys[..i] == keys;
    }
  }

  // ---------------------------------------------------------------------------
  // Properties

  /** One source and one score per key that holds a JSON object, in key order. */
  lemma {:induction false} CollectPairsSourcesWithScores(s: State, keys: seq<string>, now: int)
    requires Collect(s, keys, now).Ok?
    ensures |Collect(s, keys, now).value.0| == |Collect(s, keys, now).value.1|
    ensures SourceKeys(Collect(s, keys, now).value.0) == ObjectKeys(s, keys, now)
  {
    if keys != [] {
      CollectPairsSourcesWithScores(s, keys[..|keys| - 1], now);
    }
  }

  lemma {:induction false} SumBounds(xs: seq<real>, lo: real, hi: real)
    requires forall i :: 0 <= i < |xs| ==> lo <= xs[i] <= hi
    ensures lo * (|xs| as real) <= Sum(xs) <= hi * (|xs| as real)
  {
    if xs != [] {
      SumBounds(xs[..|xs| - 1], lo, hi);
    }
  }

  /** The average lies between the smallest and the largest possible score, so
      feasibility scores on a 0 to 10 scale give a summary score on that scale. */
  lemma MeanWithinBounds(xs: seq<real>, lo: real, hi: real)
    requires xs != []
    requires forall i :: 0 <= i < |xs| ==> lo <= xs[i] <= hi
    ensures lo <= Mean(xs) <= hi
  {
    SumBounds(xs, lo, hi);
    var n := |xs| as real;
    assert lo * n <= Sum(xs);
    assert Sum(xs) / n >= lo by {
      assert (lo * n) / n == lo;
    }
    assert Sum(xs) / n <= hi by {
      assert (hi * n) / n == hi;
    }
  }

  /** A successful run stores exactly the summary it returns, readable for an hour
      under the key it announces, and publishes one event. */
  lemma AssessedStoresWhatItReturns(s: State, keys: seq<string>, now: nat, later: int)
    requires Assessed(s, keys, now).0.Ok?
    requires now <= later
    ensures var (r, s') := Assessed(s, keys, now);
      && s.connected
      && GetReply(s', AnalysisKey(now), later) == (if later < now + AnalysisTtl then Some(Dumps(AggregateJson(r.value))) else None)
      && s'.log == s.log + [Message(ActivityChannel, CompletedEvent(AnalysisKey(now)))]
      && s'.strings == SetEx(s.strings, AnalysisKey(now), Dumps(AggregateJson(r.value)), AnalysisTtl, now)
      && s'.queues == s.queues && s'.hashes == s.hashes
  {
    var (r, s') := Assessed(s, keys, now);
    var st := AfterSetEx(s, AnalysisKey(now), Dumps(AggregateJson(r.value)), AnalysisTtl, now);
    TtlWindow(s, AnalysisKey(now), Dumps(AggregateJson(r.value)), AnalysisTtl, now, later);
  }

  /** A failed run writes and publishes nothing; without a connection every run fails. */
  lemma AssessedFailsCleanly(s: State, keys: seq<string>, now: nat)
    ensures Assessed(s, keys, now).0.Crashed? ==> Assessed(s, keys, now).1 == s
    ensures !s.connected ==> Assessed(s, keys, now).0.Crashed?
  {
  }

  /** The key is missing, expired, empty or not JSON: the loop skips it. */
  predicate Skipped(s: State, key: string, now: int) {
    GetReply(s, key, now).None? || GetReply(s, key, now).value.Text?
  }

  /** When no key holds a document, the summary is empty with score 0.0. */
  lemma {:induction false} NothingReadableScoresZero(s: State, keys: seq<string>, now: nat)
    requires s.connected
    requires forall i :: 0 <= i < |keys| ==> Skipped(s, keys[i], now)
    ensures Assessed(s, keys, now).0 == Ok(Aggregate([], 0.0))
  {
    NothingReadableCollectsNothing(s, keys, now);
  }

  lemma {:induction false} NothingReadableCollectsNothing(s: State, keys: seq<string>, now: int)
    requires forall i :: 0 <= i < |keys| ==> Skipped(s, keys[i], now)
    ensures Collect(s, keys, now) == Ok(([], []))
  {
    if keys != [] {
      NothingReadableCollectsNothing(s, keys[..|keys| - 1], now);
      assert Skipped(s, keys[|keys| - 1], now);
    }
  }
}
