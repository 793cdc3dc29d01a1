/** How the planning and analysis agents meet in the store: the synthesis the
    planning agent writes (src/agents/planning/agent.py) is the input the analysis
    agent reads back by key (src/agents/analysis.py). */
module Pipeline {
  import opened Wrappers
  import opened Wire
  import opened Store
  import Planning
  import Analysis

  /** Assessing one synthesis key while the synthesis is still live reports that
      synthesis's overlap as the single source and its feasibility as the score,
      which is therefore between 0 and 10. */
  lemma AssessmentOfOneSynthesis(s: State, ids: seq<string>, synthesisKey: Option<string>,
                                 stop: set<string>, order: seq<string>, now: nat, later: nat)
    requires s.connected && now <= later < now + Planning.SynthesisTtl
    requires Planning.ListsShared(order, Planning.ReadTexts(s, ids), stop)
    ensures var s' := Planning.AfterSynthesis(s, ids, synthesisKey, stop, order, now);
      var key := Planning.ResultKey(ids, synthesisKey);
      var x := Planning.Synthesized(Planning.ReadTexts(s, ids), stop, order);
      var r := Analysis.Assessed(s', [key], later).0;
      && r == Ok(Analysis.Aggregate([Analysis.Source(key, StrList(x.overlap))], x.feasibility))
      && 0.0 <= r.value.score <= 10.0
  {
    var s' := Planning.AfterSynthesis(s, ids, synthesisKey, stop, order, now);
    var key := Planning.ResultKey(ids, synthesisKey);
    var texts := Planning.ReadTexts(s, ids);
    var x := Planning.Synthesized(texts, stop, order);
    Planning.SynthesisIsStored(s, ids, synthesisKey, stop, order, now, later);
    assert s'.connected;
    var fields := map["overlap" := StrList(x.overlap), "feasibility" := JNum(x.feasibility), "applications" := StrList(x.applications)];
    assert Planning.SynthesisJson(x) == JObj(fields);
    ReadBackOne(s', key, later, fields);
    assert GetField(fields, "overlap", JArr([])) == StrList(x.overlap);
    assert GetField(fields, "feasibility", JNum(0.0)) == JNum(x.feasibility);
    AssessOne(s', key, later, StrList(x.overlap), x.feasibility);
    if texts != [] {
      Planning.FeasibilityRange(texts);
    }
  }

  /** A key holding a JSON object is read as one source and one score. */
  lemma ReadBackOne(s: State, key: string, now: int, fields: map<string, Json>)
    requires GetReply(s, key, now) == Some(Dumps(JObj(fields)))
    ensures Analysis.Collect(s, [key], now)
         == Ok(([Analysis.Source(key, GetField(fields, "overlap", JArr([])))], [GetField(fields, "feasibility", JNum(0.0))]))
  {
    assert [key][..0] == [];
    assert Analysis.Collect(s, [key][..0], now) == Ok(([], []));
    assert Loads(Dumps(JObj(fields))) == Some(JObj(fields));
    var src := Analysis.Source(key, GetField(fields, "overlap", JArr([])));
    var score := GetField(fields, "feasibility", JNum(0.0));
    var noSources: seq<Analysis.Source> := [];
    var noScores: seq<Json> := [];
    assert Analysis.Collect(s, [key], now) == Ok((noSources + [src], noScores + [score]));
    assert noSources + [src] == [src] && noScores + [score] == [score];
  }

  /** One numeric score is its own mean, and the aggregate is returned. */
  lemma AssessOne(s: State, key: string, now: nat, overlap: Json, f: real)
    requires s.connected
    requires Analysis.Collect(s, [key], now) == Ok(([Analysis.Source(key, overlap)], [JNum(f)]))
    ensures Analysis.Assessed(s, [key], now).0 == Ok(Analysis.Aggregate([Analysis.Source(key, overlap)], f))
  {
    assert [JNum(f)][..0] == [];
    assert Analysis.Numbers([]) == Some([]);
    assert Analysis.AsNumber(JNum(f)) == Some(f);
    assert Analysis.Numbers([JNum(f)]) == Some([] + [f]);
    assert [f][..0] == [];
    assert Analysis.Sum([f]) == Analysis.Sum([]) + f;
    assert Analysis.Mean([f]) == f;
  }
}
