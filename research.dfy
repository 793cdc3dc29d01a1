/** The research worker (src/agents/research.py): drain `tasks:research`, run one web
    search per task, keep up to five hits whose document yields text, store each as
    `paper:<id>` and announce the outcome on `agent:activity`.

    The search client, the text extractor and the wall clock are oracles:
    `SearchOutcome` is what `search` returned or raised, `extract(url)` is the text
    extracted from a url ("" when there is none), and `clock(k)` is the second,
    truncated to an integer, read while handling the hit at index k of the first
    five hits (skipped hits included). */
module Research {
  import opened Wrappers
  import opened Wire
  import opened Store
  import opened Envelope
  import opened Text

  const MaxHits := 5
  const MaxText := 4000
  const QueryPrefix := 32
  const LastSearch := "last_search"

  /** One search result; "" stands for a missing or empty field. */
  datatype Hit = Hit(url: string, link: string, title: string, heading: string)

  /** What the search client gave: the `results` list (empty when absent), or the
      message of the exception it raised. */
  datatype SearchOutcome = Found(hits: seq<Hit>) | Raised(message: string)

  /** `hit.get("url") or hit.get("link")`; the function-tool variant reads only
      "url" (`fallbacks` false). */
  function UrlOf(h: Hit, fallbacks: bool): (u: string)
    ensures u != "" ==> u == h.url || (fallbacks && u == h.link)
  {
    if h.url != "" then h.url else if fallbacks then h.link else ""
  }

  /** `hit.get("title") or hit.get("heading")`, then `or ""`. */
  function TitleOf(h: Hit, fallbacks: bool): string {
    if h.title != "" then h.title else if fallbacks then h.heading else ""
  }

  /** `query[:32] + ":" + str(int(time.time()))` */
  function PaperId(query: string, second: nat): string {
    Take(query, QueryPrefix) + ":" + Decimal(second)
  }

  function PaperKey(id: string): string {
    "paper:" + id
  }

  /** The three fields written for a kept hit, in source order. */
  function StorePaper(s: State, id: string, title: string, url: string, text: string): State {
    var key := PaperKey(id);
    AfterHSet(AfterHSet(AfterHSet(s, key, "title", Text(title)), key, "url", Text(url)), key, "text", Text(Take(text, MaxText)))
  }

  /** A hit is kept when it has a url and the extractor finds text there. */
  predicate Usable(h: Hit, fallbacks: bool, extract: string -> string) {
    UrlOf(h, fallbacks) != "" && extract(UrlOf(h, fallbacks)) != ""
  }

  /** The loop over the hits: the ids found, in hit order, and the store afterwards. */
  function Harvest(s: State, query: string, hits: seq<Hit>, fallbacks: bool,
                   extract: string -> string, clock: nat -> nat): (seq<string>, State)
  {
    if hits == [] then ([], s)
    else
      var k := |hits| - 1;
      var (found, s1) := Harvest(s, query, hits[..k], fallbacks, extract, clock);
      var h := hits[k];
      if !Usable(h, fallbacks, extract) then (found, s1)
      else
        var id := PaperId(query, clock(k));
        (found + [id], StorePaper(s1, id, TitleOf(h, fallbacks), UrlOf(h, fallbacks), extract(UrlOf(h, fallbacks))))
  }

  function CompletedEvent(found: seq<string>): Value {
    Dumps(JObj(map["agent" := JStr("research"), "status" := JStr("completed"), "found" := StrList(found)]))
  }

  function NoPdfsEvent(query: string): Value {
    Dumps(JObj(map["agent" := JStr("research"), "status" := JStr("no_pdfs_found"), "query" := JStr(query)]))
  }

  function SearchFailedEvent(meta: string): Value {
    Dumps(JObj(map["agent" := JStr("research"), "status" := JStr("search_failed"), "meta" := JStr(meta)]))
  }

  /** One search-and-parse task: the ids found (none when the search raised) and the
      store afterwards. */
  function Searched(s: State, query: string, outcome: SearchOutcome, fallbacks: bool,
                    extract: string -> string, clock: nat -> nat): (seq<string>, State)
  {
    match outcome
    case Raised(m) => ([], AfterPublish(s, ActivityChannel, SearchFailedEvent(m)))
    case Found(hits) =>
      var (found, s1) := Harvest(s, query, Take(hits, MaxHits), fallbacks, extract, clock);
      if found != [] then
        (found, AfterPublish(AfterHSet(s1, LastSearch, query, Dumps(StrList(found))), ActivityChannel, CompletedEvent(found)))
      else
        (found, AfterPublish(s1, ActivityChannel, NoPdfsEvent(query)))
  }

  /** The event a task ends with. */
  function Outcome(query: string, outcome: SearchOutcome, found: seq<string>): Value {
    match outcome
    case Raised(m) => SearchFailedEvent(m)
    case Found(_) => if found != [] then CompletedEvent(found) else NoPdfsEvent(query)
  }

  /** The hits among `hits` that are kept. */
  function CountUsable(hits: seq<Hit>, fallbacks: bool, extract: string -> string): (n: nat)
    ensures n <= |hits|
  {
    if hits == [] then 0
    else CountUsable(hits[..|hits| - 1], fallbacks, extract) + (if Usable(hits[|hits| - 1], fallbacks, extract) then 1 else 0)
  }

  /** Every stored paper text is plain text of at most 4000 characters. */
  predicate PapersBounded(hs: Hashes) {
    forall h :: h in hs && StartsWith(h, "paper:") && "text" in hs[h] ==>
      hs[h]["text"].Text? && |hs[h]["text"].text| <= MaxText
  }

  /** The worker loop over queue `q`: the store when it stops, and whether it stopped
      by an exception. `n` counts the search tasks handled so far; the search and the
      clock of the n-th one are `search(n, query)` and `clock(n, _)`. */
  function Drain(s: State, q: string, n: nat, search: (nat, string) -> SearchOutcome,
                 extract: string -> string, clock: (nat, nat) -> nat): (r: (State, bool))
    decreases |Entries(s.queues, q)|
  {
    var raw := PopReply(s, q);
    var s1 := AfterPop(s, q);
    if raw.None? || raw.value == Text("") then (s1, false)
    else
      assert |Entries(s1.queues, q)| < |Entries(s.queues, q)|;
      match Decode(raw.value)
      case Undecodable => Drain(s1, q, n, search, extract, clock)
      case Ignored => Drain(s1, q, n, search, extract, clock)
      case Malformed => (s1, true)
      case Search(query) =>
        var s2 := Searched(s1, query, search(n, query), true, extract, k => clock(n, k)).1;
        SearchedKeepsQueues(s1, query, search(n, query), true, extract, k => clock(n, k));
        Drain(s2, q, n + 1, search, extract, clock)
  }

  // ---------------------------------------------------------------------------
  // What a task touches

  lemma {:induction false} HarvestTouchesOnlyPapers(s: State, query: string, hits: seq<Hit>, fallbacks: bool,
                                                    extract: string -> string, clock: nat -> nat)
    ensures Harvest(s, query, hits, fallbacks, extract, clock).1.connected == s.connected
    ensures Harvest(s, query, hits, fallbacks, extract, clock).1.queues == s.queues
    ensures Harvest(s, query, hits, fallbacks, extract, clock).1.strings == s.strings
    ensures Harvest(s, query, hits, fallbacks, extract, clock).1.log == s.log
    ensures forall h :: !StartsWith(h, "paper:") ==>
      Fields(Harvest(s, query, hits, fallbacks, extract, clock).1.hashes, h) == Fields(s.hashes, h)
  {
    if hits != [] {
      HarvestTouchesOnlyPapers(s, query, hits[..|hits| - 1], fallbacks, extract, clock);
    }
  }

  /** A task changes neither the queues nor the connection. */
  lemma SearchedKeepsQueues(s: State, query: string, outcome: SearchOutcome, fallbacks: bool,
                            extract: string -> string, clock: nat -> nat)
    ensures Searched(s, query, outcome, fallbacks, extract, clock).1.queues == s.queues
    ensures Searched(s, query, outcome, fallbacks, extract, clock).1.connected == s.connected
  {
    if outcome.Found? {
      HarvestTouchesOnlyPapers(s, query, Take(outcome.hits, MaxHits), fallbacks, extract, clock);
    }
  }

  // ---------------------------------------------------------------------------
  // Properties of one task

  /** One id per kept hit, so at most five, each made from the query's first 32
      characters. */
  lemma {:induction false} HarvestKeepsUsableHits(s: State, query: string, hits: seq<Hit>, fallbacks: bool,
                                                  extract: string -> string, clock: nat -> nat)
    ensures |Harvest(s, query, hits, fallbacks, extract, clock).0| == CountUsable(hits, fallbacks, extract)
    ensures forall i :: 0 <= i < |Harvest(s, query, hits, fallbacks, extract, clock).0| ==>
      StartsWith(Harvest(s, query, hits, fallbacks, extract, clock).0[i], Take(query, QueryPrefix) + ":")
  {
    if hits != [] {
      HarvestKeepsUsableHits(s, query, hits[..|hits| - 1], fallbacks, extract, clock);
    }
  }

  lemma SearchedFindsAtMostFive(s: State, query: string, outcome: SearchOutcome, fallbacks: bool,
                                extract: string -> string, clock: nat -> nat)
    ensures outcome.Found? ==>
      |Searched(s, query, outcome, fallbacks, extract, clock).0| == CountUsable(Take(outcome.hits, MaxHits), fallbacks, extract)
    ensures |Searched(s, query, outcome, fallbacks, extract, clock).0| <= MaxHits
    ensures outcome.Raised? ==> Searched(s, query, outcome, fallbacks, extract, clock).0 == []
  {
    if outcome.Found? {
      HarvestKeepsUsableHits(s, query, Take(outcome.hits, MaxHits), fallbacks, extract, clock);
    }
  }

  /** Every task ends with exactly one event on `agent:activity`, and it says which
      way the task went. */
  lemma SearchedPublishesOnce(s: State, query: string, outcome: SearchOutcome, fallbacks: bool,
                              extract: string -> string, clock: nat -> nat)
    requires s.connected
    ensures var (found, s') := Searched(s, query, outcome, fallbacks, extract, clock);
      s'.log == s.log + [Message(ActivityChannel, Outcome(query, outcome, found))]
  {
    if outcome.Found? {
      HarvestTouchesOnlyPapers(s, query, Take(outcome.hits, MaxHits), fallbacks, extract, clock);
    }
  }

  /** `last_search[query]` records the ids exactly when some were found; otherwise
      it keeps its old value. A failed search writes no hash at all. */
  lemma SearchedRecordsLastSearch(s: State, query: string, outcome: SearchOutcome, fallbacks: bool,
                                  extract: string -> string, clock: nat -> nat)
    requires s.connected
    ensures var (found, s') := Searched(s, query, outcome, fallbacks, extract, clock);
      && (found != [] ==> HGetReply(s', LastSearch, query) == Some(Dumps(StrList(found))))
      && (found == [] ==> HGetReply(s', LastSearch, query) == HGetReply(s, LastSearch, query))
      && (outcome.Raised? ==> s'.hashes == s.hashes)
  {
    if outcome.Found? {
      var hits := Take(outcome.hits, MaxHits);
      HarvestTouchesOnlyPapers(s, query, hits, fallbacks, extract, clock);
      assert LastSearch[0] != "paper:"[0];
    }
  }

  lemma {:induction false} HarvestKeepsPapersBounded(s: State, query: string, hits: seq<Hit>, fallbacks: bool,
                                                     extract: string -> string, clock: nat -> nat)
    requires PapersBounded(s.hashes)
    ensures PapersBounded(Harvest(s, query, hits, fallbacks, extract, clock).1.hashes)
  {
    if hits != [] {
      var k := |hits| - 1;
      HarvestKeepsPapersBounded(s, query, hits[..k], fallbacks, extract, clock);
      var (found, s1) := Harvest(s, query, hits[..k], fallbacks, extract, clock);
      if Usable(hits[k], fallbacks, extract) && s1.connected {
        var id := PaperId(query, clock(k));
        var key := PaperKey(id);
        var a := AfterHSet(s1, key, "title", Text(TitleOf(hits[k], fallbacks)));
        var b := AfterHSet(a, key, "url", Text(UrlOf(hits[k], fallbacks)));
        var c := AfterHSet(b, key, "text", Text(Take(extract(UrlOf(hits[k], fallbacks)), MaxText)));
        TextFieldWriteBounded(s1.hashes, key, "title", Text(TitleOf(hits[k], fallbacks)));
        TextFieldWriteBounded(a.hashes, key, "url", Text(UrlOf(hits[k], fallbacks)));
        TextFieldWriteBounded(b.hashes, key, "text", Text(Take(extract(UrlOf(hits[k], fallbacks)), MaxText)));
      }
    }
  }

  /** A write keeps the bound when it is not the `text` field of a paper, or when
      it is a short enough text. */
  lemma TextFieldWriteBounded(hs: Hashes, h: string, f: string, v: Value)
    requires PapersBounded(hs)
    requires StartsWith(h, "paper:") && f == "text" ==> v.Text? && |v.text| <= MaxText
    ensures PapersBounded(HSet(hs, h, f, v))
  {
    var hs': Hashes := HSet(hs, h, f, v);
    forall h' | h' in hs' && StartsWith(h', "paper:") && "text" in hs'[h']
      ensures hs'[h']["text"].Text? && |hs'[h']["text"].text| <= MaxText
    {
      if h' != h {
        assert hs'[h'] == hs[h'];
      }
    }
  }

  /** No task ever stores a paper text longer than 4000 characters. */
  lemma SearchedKeepsPapersBounded(s: State, query: string, outcome: SearchOutcome, fallbacks: bool,
                                   extract: string -> string, clock: nat -> nat)
    requires PapersBounded(s.hashes)
    ensures PapersBounded(Searched(s, query, outcome, fallbacks, extract, clock).1.hashes)
  {
    if outcome.Found? {
      var hits := Take(outcome.hits, MaxHits);
      HarvestKeepsPapersBounded(s, query, hits, fallbacks, extract, clock);
      var (found, s1) := Harvest(s, query, hits, fallbacks, extract, clock);
      if found != [] && s1.connected {
        assert LastSearch[0] != "paper:"[0];
        TextFieldWriteBounded(s1.hashes, LastSearch, query, Dumps(StrList(found)));
      }
    }
  }

  /** Paper ids of one query differ exactly when their seconds differ. */
  lemma PaperIdDistinguishesSeconds(query: string, a: nat, b: nat)
    ensures PaperId(query, a) == PaperId(query, b) <==> a == b
  {
    if PaperId(query, a) == PaperId(query, b) {
      var p := Take(query, QueryPrefix) + ":";
      assert PaperId(query, a)[|p|..] == Decimal(a);
      assert PaperId(query, b)[|p|..] == Decimal(b);
      DecimalInjective(a, b);
    }
  }

  /** Two kept hits handled within the same second get the same id: the id is
      reported twice and the second hit's fields replace the first's. */
  lemma SameSecondOverwrites(s: State, query: string, h1: Hit, h2: Hit,
                             extract: string -> string, clock: nat -> nat)
    requires s.connected
    requires Usable(h1, true, extract) && Usable(h2, true, extract)
    requires clock(0) == clock(1)
    ensures var (found, s') := Harvest(s, query, [h1, h2], true, extract, clock);
      && found == [PaperId(query, clock(0)), PaperId(query, clock(0))]
      && HGetReply(s', PaperKey(PaperId(query, clock(0))), "url") == Some(Text(UrlOf(h2, true)))
  {
    var id := PaperId(query, clock(0));
    var t1, u1, t2, u2 := TitleOf(h1, true), UrlOf(h1, true), TitleOf(h2, true), UrlOf(h2, true);
    assert Harvest(s, query, [], true, extract, clock) == ([], s);
    HarvestSnoc(s, query, [h1], true, extract, clock);
    assert [h1][..0] == [];
    var s1 := StorePaper(s, id, t1, u1, extract(u1));
    assert Harvest(s, query, [h1], true, extract, clock) == ([] + [id], s1);
    StorePaperFields(s, id, t1, u1, extract(u1));
    HarvestSnoc(s, query, [h1, h2], true, extract, clock);
    assert [h1, h2][..1] == [h1];
    assert PaperId(query, clock(1)) == id;
    StorePaperFields(s1, id, t2, u2, extract(u2));
  }

  /** One more kept hit adds its id and stores its paper. */
  lemma HarvestSnoc(s: State, query: string, hits: seq<Hit>, fallbacks: bool,
                    extract: string -> string, clock: nat -> nat)
    requires hits != [] && Usable(hits[|hits| - 1], fallbacks, extract)
    ensures var k := |hits| - 1;
      var h := hits[k];
      var r := Harvest(s, query, hits[..k], fallbacks, extract, clock);
      var id := PaperId(query, clock(k));
      Harvest(s, query, hits, fallbacks, extract, clock)
        == (r.0 + [id], StorePaper(r.1, id, TitleOf(h, fallbacks), UrlOf(h, fallbacks), extract(UrlOf(h, fallbacks))))
  {
  }

  /** The paper hash of `id` holds the title, the url and the first 4000 characters
      of the extracted text. */
  predicate StoredAs(hs: Hashes, id: string, title: string, url: string, text: string) {
    var m := Fields(hs, PaperKey(id));
    && "title" in m && m["title"] == Text(title)
    && "url" in m && m["url"] == Text(url)
    && "text" in m && m["text"] == Text(Take(text, MaxText))
  }

  /** Storing one paper fills its hash and leaves every other hash as it was. */
  lemma StorePaperFields(s: State, id: string, title: string, url: string, text: string)
    requires s.connected
    ensures var s' := StorePaper(s, id, title, url, text);
      && s'.connected
      && StoredAs(s'.hashes, id, title, url, text)
      && forall h :: h != PaperKey(id) ==> Fields(s'.hashes, h) == Fields(s.hashes, h)
  {
  }

  /** No kept hit after index `i` was handled in the same second as hit `i`. */
  predicate LastInItsSecond(hits: seq<Hit>, fallbacks: bool, extract: string -> string, clock: nat -> nat, i: nat) {
    forall j :: i < j < |hits| && Usable(hits[j], fallbacks, extract) ==> clock(j) != clock(i)
  }

  /** Hit `i`'s fields as stored. */
  predicate HitStored(hs: Hashes, query: string, hits: seq<Hit>, fallbacks: bool, extract: string -> string,
                      clock: nat -> nat, i: nat)
    requires i < |hits|
  {
    var url := UrlOf(hits[i], fallbacks);
    StoredAs(hs, PaperId(query, clock(i)), TitleOf(hits[i], fallbacks), url, extract(url))
  }

  /** Each kept hit's paper hash holds that hit's title, url and text, unless a later
      kept hit was handled in the same second and so wrote the same hash. */
  lemma {:induction false} HarvestStoresPapers(s: State, query: string, hits: seq<Hit>, fallbacks: bool,
                                               extract: string -> string, clock: nat -> nat)
    requires s.connected
    ensures forall i :: 0 <= i < |hits| && Usable(hits[i], fallbacks, extract) && LastInItsSecond(hits, fallbacks, extract, clock, i) ==>
      HitStored(Harvest(s, query, hits, fallbacks, extract, clock).1.hashes, query, hits, fallbacks, extract, clock, i)
  {
    if hits != [] {
      var k := |hits| - 1;
      var init := hits[..k];
      HarvestStoresPapers(s, query, init, fallbacks, extract, clock);
      forall i | 0 <= i < |hits| && Usable(hits[i], fallbacks, extract) && LastInItsSecond(hits, fallbacks, extract, clock, i)
        ensures HitStored(Harvest(s, query, hits, fallbacks, extract, clock).1.hashes, query, hits, fallbacks, extract, clock, i)
      {
        if i < k {
          assert init[i] == hits[i];
          forall j | i < j < |init| && Usable(init[j], fallbacks, extract) ensures clock(j) != clock(i) {
            assert init[j] == hits[j];
          }
          assert LastInItsSecond(init, fallbacks, extract, clock, i);
          assert HitStored(Harvest(s, query, init, fallbacks, extract, clock).1.hashes, query, init, fallbacks, extract, clock, i);
        }
        HarvestStep(s, query, hits, fallbacks, extract, clock, i);
      }
    }
  }

  /** The last hit of `hits` keeps hit `i`'s hash as the earlier hits left it, or
      writes it when `i` is the last hit. */
  lemma HarvestStep(s: State, query: string, hits: seq<Hit>, fallbacks: bool,
                    extract: string -> string, clock: nat -> nat, i: nat)
    requires s.connected && i < |hits| && Usable(hits[i], fallbacks, extract)
    requires LastInItsSecond(hits, fallbacks, extract, clock, i)
    requires i < |hits| - 1 ==>
      HitStored(Harvest(s, query, hits[..|hits| - 1], fallbacks, extract, clock).1.hashes, query, hits[..|hits| - 1], fallbacks, extract, clock, i)
    ensures HitStored(Harvest(s, query, hits, fallbacks, extract, clock).1.hashes, query, hits, fallbacks, extract, clock, i)
  {
    var k := |hits| - 1;
    var init := hits[..k];
    HarvestTouchesOnlyPapers(s, query, init, fallbacks, extract, clock);
    var s1 := Harvest(s, query, init, fallbacks, extract, clock).1;
    var s' := Harvest(s, query, hits, fallbacks, extract, clock).1;
    var h := hits[k];
    if i < k {
      assert init[i] == hits[i];
    }
    if Usable(h, fallbacks, extract) {
      var id := PaperId(query, clock(k));
      assert s' == StorePaper(s1, id, TitleOf(h, fallbacks), UrlOf(h, fallbacks), extract(UrlOf(h, fallbacks)));
      StorePaperFields(s1, id, TitleOf(h, fallbacks), UrlOf(h, fallbacks), extract(UrlOf(h, fallbacks)));
      if i < k {
        PaperIdDistinguishesSeconds(query, clock(i), clock(k));
        var other := PaperId(query, clock(i));
        assert PaperKey(other)[|"paper:"|..] == other;
        assert PaperKey(id)[|"paper:"|..] == id;
        assert Fields(s'.hashes, PaperKey(other)) == Fields(s1.hashes, PaperKey(other));
      }
    } else {
      assert s' == s1;
    }
  }

  /** When no hit is kept, no hash changes. */
  lemma {:induction false} HarvestWithoutHitsKeepsHashes(s: State, query: string, hits: seq<Hit>, fallbacks: bool,
                                                         extract: string -> string, clock: nat -> nat)
    requires CountUsable(hits, fallbacks, extract) == 0
    ensures Harvest(s, query, hits, fallbacks, extract, clock).1.hashes == s.hashes
  {
    if hits != [] {
      HarvestWithoutHitsKeepsHashes(s, query, hits[..|hits| - 1], fallbacks, extract, clock);
    }
  }

  // ---------------------------------------------------------------------------
  // Properties of the worker loop

  /** Without a connection the loop stops at once and changes nothing. */
  lemma DrainDisconnected(s: State, q: string, n: nat, search: (nat, string) -> SearchOutcome,
                          extract: string -> string, clock: (nat, nat) -> nat)
    requires !s.connected
    ensures Drain(s, q, n, search, extract, clock) == (s, false)
  {
  }

  /** A queue of entries that are neither empty strings nor malformed envelopes is
      drained completely and the loop returns normally. */
  lemma {:induction false} DrainEmptiesWellFormedQueue(s: State, q: string, n: nat, search: (nat, string) -> SearchOutcome,
                                                       extract: string -> string, clock: (nat, nat) -> nat)
    requires s.connected
    requires forall i :: 0 <= i < |Pending(s.queues, q)| ==>
      Pending(s.queues, q)[i] != Text("") && Decode(Pending(s.queues, q)[i]) != Malformed
    ensures !Drain(s, q, n, search, extract, clock).1
    ensures Drain(s, q, n, search, extract, clock).0.connected
    ensures Pending(Drain(s, q, n, search, extract, clock).0.queues, q) == []
    decreases |Entries(s.queues, q)|
  {
    PopTaskDequeues(s, q);
    var raw := PopReply(s, q);
    var s1 := AfterPop(s, q);
    if raw.Some? {
      var rest := Pending(s1.queues, q);
      assert forall i :: 0 <= i < |rest| ==> rest[i] == Pending(s.queues, q)[i + 1];
      assert |Entries(s1.queues, q)| < |Entries(s.queues, q)|;
      match Decode(raw.value)
      case Undecodable => DrainEmptiesWellFormedQueue(s1, q, n, search, extract, clock);
      case Ignored => DrainEmptiesWellFormedQueue(s1, q, n, search, extract, clock);
      case Search(query) =>
        var s2 := Searched(s1, query, search(n, query), true, extract, k => clock(n, k)).1;
        SearchedKeepsQueues(s1, query, search(n, query), true, extract, k => clock(n, k));
        DrainEmptiesWellFormedQueue(s2, q, n + 1, search, extract, clock);
    }
  }

  /** The coordinator's envelopes are all well formed, so a worker started on a queue
      holding only them handles every one and empties the queue. */
  lemma DrainHandlesDispatch(s: State, tasks: seq<string>, ids: seq<string>, sessionId: Option<string>,
                             search: (nat, string) -> SearchOutcome, extract: string -> string, clock: (nat, nat) -> nat)
    requires s.connected && |ids| == |tasks| && Pending(s.queues, ResearchQueue) == []
    ensures var s' := AfterPushAll(s, ResearchQueue, seq(|tasks|, i requires 0 <= i < |tasks| => SearchEnvelope(ids[i], tasks[i], sessionId)));
      var r := Drain(s', ResearchQueue, 0, search, extract, clock);
      !r.1 && Pending(r.0.queues, ResearchQueue) == []
  {
    var es := seq(|tasks|, i requires 0 <= i < |tasks| => SearchEnvelope(ids[i], tasks[i], sessionId));
    PushAllEnqueues(s, ResearchQueue, es);
    var s' := AfterPushAll(s, ResearchQueue, es);
    forall i | 0 <= i < |es| ensures es[i] != Text("") && Decode(es[i]) != Malformed {
      SearchEnvelopeRoundTrip(ids[i], tasks[i], sessionId);
    }
    assert Pending(s'.queues, ResearchQueue) == es;
    DrainEmptiesWellFormedQueue(s', ResearchQueue, 0, search, extract, clock);
  }

  // ---------------------------------------------------------------------------
  // The agent

  class ResearchAgent {
    const redis: RedisClient
    const tavilyApiKey: Option<string>
    /** Whether the local stand-in is used instead of the web search client. */
    const usesMock: bool

    /** The key passed in wins over `TAVILY_API_KEY` from the environment; without
        a usable key, or with the key "mock", the stand-in client is used. */
    constructor (redis: RedisClient, apiKey: Option<string>, environmentKey: Option<string>)
      ensures this.redis == redis
      ensures tavilyApiKey == (if Given(apiKey) then apiKey else environmentKey)
      ensures usesMock <==> !(Given(tavilyApiKey) && tavilyApiKey.value != "mock")
    {
      this.redis := redis;
      var key := if Given(apiKey) then apiKey else environmentKey;
      tavilyApiKey := key;
      usesMock := !(Given(key) && key.value != "mock");
    }

    /** `_execute_search_and_parse` for a task whose query is `query`, given what the
        client's `search(query)` did. */
    method ExecuteSearchAndParse(query: string, outcome: SearchOutcome, extract: string -> string, clock: nat -> nat)
      modifies redis
      ensures redis.Snapshot() == Searched(old(redis.Snapshot()), query, outcome, true, extract, clock).1
    {
      match outcome
      case Raised(m) =>
        redis.PublishMessage(ActivityChannel, SearchFailedEvent(m));
      case Found(hits) =>
        var found := StorePapers(query, Take(hits, MaxHits), extract, clock);
        if found != [] {
          redis.SetHashField(LastSearch, query, Dumps(StrList(found)));
          redis.PublishMessage(ActivityChannel, CompletedEvent(found));
        } else {
          redis.PublishMessage(ActivityChannel, NoPdfsEvent(query));
        }
    }

    /** The loop over the first hits: each usable hit is stored as a paper. */
    method StorePapers(query: string, top: seq<Hit>, extract: string -> string, clock: nat -> nat)
      returns (found: seq<string>)
      modifies redis
      ensures (found, redis.Snapshot()) == Harvest(old(redis.Snapshot()), query, top, true, extract, clock)
    {
      ghost var s0 := redis.Snapshot();
      found := [];
      var k := 0;
      while k < |top|
        invariant 0 <= k <= |top|
        invariant (found, redis.Snapshot()) == Harvest(s0, query, top[..k], true, extract, clock)
      {
        var hit := top[k];
        var url := UrlOf(hit, true);
        var title := TitleOf(hit, true);
        if url != "" {
          var text := extract(url);
          if text != "" {
            var paperId := PaperId(query, clock(k));
            redis.SetHashField(PaperKey(paperId), "title", Text(title));
            redis.SetHashField(PaperKey(paperId), "url", Text(url));
            redis.SetHashField(PaperKey(paperId), "text", Text(Take(text, MaxText)));
            found := found + [paperId];
          }
        }
        assert top[..k + 1][..k] == top[..k];
        k := k + 1;
      }
      assert top[..k] == top;
    }

    /** `listen_and_process`: pops until the queue is empty or yields an empty
        string; `crashed` is true when a malformed envelope raised out of the loop. */
    method ListenAndProcess(queueName: string, search: (nat, string) -> SearchOutcome,
                            extract: string -> string, clock: (nat, nat) -> nat)
      returns (crashed: bool)
      modifies redis
      ensures (redis.Snapshot(), crashed) == Drain(old(redis.Snapshot()), queueName, 0, search, extract, clock)
    {
      var n := 0;
      while true
        invariant Drain(redis.Snapshot(), queueName, n, search, extract, clock)
               == Drain(old(redis.Snapshot()), queueName, 0, search, extract, clock)
        decreases |Entries(redis.queues, queueName)|
      {
        ghost var before := redis.Snapshot();
        var raw := redis.PopTask(queueName);
        if raw.None? || raw.value == Text("") {
          return false;
        }
        assert |Entries(redis.queues, queueName)| < |Entries(before.queues, queueName)|;
        match Decode(raw.value)
        case Undecodable =>
        case Ignored =>
        case Malformed =>
          return true;
        case Search(query) =>
          ghost var s1 := redis.Snapshot();
          ExecuteSearchAndParse(query, search(n, query), extract, k => clock(n, k));
          SearchedKeepsQueues(s1, query, search(n, query), true, extract, k => clock(n, k));
          n := n + 1;
      }
    }
  }
}
