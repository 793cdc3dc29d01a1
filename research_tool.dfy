/** The ADK function-tool variant of the research step
    (src/agents/research/agent.py `search_and_parse`): the search goes through the
    MCP client, hits are read by "url" and "title" only, and the ids found are
    returned to the caller. */
module ResearchTool {
  import opened Wrappers
  import opened Wire
  import opened Store
  import opened Text
  import opened Research
  import McpClient

  method SearchAndParse(redis: RedisClient, query: string, outcome: SearchOutcome,
                        extract: string -> string, clock: nat -> nat)
    returns (found: seq<string>)
    modifies redis
    ensures (found, redis.Snapshot()) == Searched(old(redis.Snapshot()), query, outcome, false, extract, clock)
  {
    match outcome
    case Raised(m) =>
      redis.PublishMessage(ActivityChannel, SearchFailedEvent(m));
      return [];
    case Found(hits) =>
      found := StorePapers(redis, query, Take(hits, MaxHits), extract, clock);
      if found != [] {
        redis.SetHashField(LastSearch, query, Dumps(StrList(found)));
        redis.PublishMessage(ActivityChannel, CompletedEvent(found));
      } else {
        redis.PublishMessage(ActivityChannel, NoPdfsEvent(query));
      }
  }

  /** The loop over the first hits: a hit with a url whose text extracts is stored. */
  method StorePapers(redis: RedisClient, query: string, top: seq<Hit>, extract: string -> string, clock: nat -> nat)
    returns (found: seq<string>)
    modifies redis
    ensures (found, redis.Snapshot()) == Harvest(old(redis.Snapshot()), query, top, false, extract, clock)
  {
    ghost var s0 := redis.Snapshot();
    found := [];
    var k := 0;
    while k < |top|
      invariant 0 <= k <= |top|
      invariant (found, redis.Snapshot()) == Harvest(s0, query, top[..k], false, extract, clock)
    {
      var url := top[k].url;
      var title := top[k].title;
      if url != "" {
        var text := extract(url);
        if text != "" {
          var paperId := PaperId(query, clock(k));
          redis.SetHashField(PaperKey(paperId), "title", Text(title));
          redis.SetHashField(PaperKey(paperId), "url", Text(url));
          redis.SetHashField(PaperKey(paperId), "text", Text(Take(text, MaxText)));
          found := found + [paperId];
        }
      }
      assert top[..k + 1][..k] == top[..k];
      k := k + 1;
    }
    assert top[..k] == top;
  }

  /** A hit the two variants read the same way: it has its own url, or no "link"
      to fall back on, and likewise for the title. */
  predicate Plain(h: Hit) {
    (h.url != "" || h.link == "") && (h.title != "" || h.heading == "")
  }

  lemma {:induction false} HarvestVariantsAgree(s: State, query: string, hits: seq<Hit>,
                                                extract: string -> string, clock: nat -> nat)
    requires forall i :: 0 <= i < |hits| ==> Plain(hits[i])
    ensures Harvest(s, query, hits, true, extract, clock) == Harvest(s, query, hits, false, extract, clock)
  {
    if hits != [] {
      HarvestVariantsAgree(s, query, hits[..|hits| - 1], extract, clock);
      var h := hits[|hits| - 1];
      assert UrlOf(h, true) == UrlOf(h, false) && TitleOf(h, true) == TitleOf(h, false);
    }
  }

  /** On results that carry no "link"/"heading" fallbacks the tool and the worker
      class store and announce the same thing; the tool's return value is then the
      `found` list of the worker's event. */
  lemma VariantsAgreeOnPlainHits(s: State, query: string, outcome: SearchOutcome,
                                 extract: string -> string, clock: nat -> nat)
    requires outcome.Found? ==> forall i :: 0 <= i < |outcome.hits| ==> Plain(outcome.hits[i])
    ensures Searched(s, query, outcome, true, extract, clock) == Searched(s, query, outcome, false, extract, clock)
  {
    if outcome.Found? {
      HarvestVariantsAgree(s, query, Take(outcome.hits, MaxHits), extract, clock);
    }
  }

  /** A hit whose only url is under "link" is kept by the worker class and skipped
      by the tool. */
  lemma LinkOnlyHitSkippedByTool(s: State, query: string, h: Hit, extract: string -> string, clock: nat -> nat)
    requires s.connected && h.url == "" && h.link != "" && extract(h.link) != ""
    ensures |Searched(s, query, Found([h]), true, extract, clock).0| == 1
    ensures Searched(s, query, Found([h]), false, extract, clock).0 == []
  {
    assert Take([h], MaxHits) == [h];
    assert [h][..0] == [];
    assert Harvest(s, query, [], true, extract, clock).0 == [];
    assert Harvest(s, query, [h], true, extract, clock).0 == [PaperId(query, clock(0))];
    assert Harvest(s, query, [h], false, extract, clock).0 == [];
  }

  /** A parsed MCP record as a hit: it only ever has "title", "url" and "content". */
  function ToHit(r: McpClient.Record): (h: Hit)
    ensures h.link == "" && h.heading == ""
  {
    Hit(if "url" in r then r["url"] else "", "", if "title" in r then r["title"] else "", "")
  }

  function ToHits(rs: seq<McpClient.Record>): (hs: seq<Hit>)
    ensures |hs| == |rs|
    ensures forall i :: 0 <= i < |rs| ==> hs[i] == ToHit(rs[i])
  {
    seq(|rs|, i requires 0 <= i < |rs| => ToHit(rs[i]))
  }

  /** What the tool's search through the MCP client gives the rest of the step. */
  function McpOutcome(reply: Option<string>): SearchOutcome {
    Found(ToHits(McpClient.SearchResults(reply)))
  }

  /** Results from the MCP server never need the fallbacks, so the tool handles them
      exactly as the worker class would. */
  lemma McpResultsReadAlike(s: State, query: string, reply: Option<string>,
                            extract: string -> string, clock: nat -> nat)
    ensures Searched(s, query, McpOutcome(reply), true, extract, clock)
         == Searched(s, query, McpOutcome(reply), false, extract, clock)
  {
    var hits := McpOutcome(reply).hits;
    assert forall i :: 0 <= i < |hits| ==> Plain(hits[i]);
    VariantsAgreeOnPlainHits(s, query, McpOutcome(reply), extract, clock);
  }
}
