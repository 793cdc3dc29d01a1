/** The planning step (src/agents/planning/agent.py `synthesize`): read the text of
    each paper hash, find the words that occur in more than one paper, score how
    many papers are long, store the synthesis for an hour and announce it.

    Three inputs stand for things outside the function: `stop` is the English stop
    word list of scikit-learn, `order` is the order in which the set of shared words
    happens to be listed, and `now` is the server's clock for the expiry. */
module Planning {
  import opened Wrappers
  import opened Wire
  import opened Store
  import opened Text

  const MaxText := 5000
  const MaxOverlap := 10
  const LongDoc := 1000
  const SynthesisTtl := 3600

  datatype Synthesis = Synthesis(overlap: seq<string>, feasibility: real, applications: seq<string>)

  function SynthesisJson(x: Synthesis): Json {
    JObj(map["overlap" := StrList(x.overlap), "feasibility" := JNum(x.feasibility), "applications" := StrList(x.applications)])
  }

  /** `paper.get("text", "")[:5000]`; a field holding a JSON document is read as
      empty (only plain text is ever stored there). */
  function PaperText(paper: map<string, Value>): (t: string)
    ensures "text" !in paper || !paper["text"].Text? ==> t == ""
    ensures "text" in paper && paper["text"].Text? ==>
      var text := paper["text"].text;
      t <= text && |t| == (if |text| < MaxText then |text| else MaxText)
  {
    if "text" in paper && paper["text"].Text? then Take(paper["text"].text, MaxText) else ""
  }

  /** The texts read for the given hash names (`get_all_hash_fields(pid) or {}`). */
  function ReadTexts(s: State, ids: seq<string>): (texts: seq<string>)
    ensures |texts| == |ids|
  {
    seq(|ids|, i requires 0 <= i < |ids| => PaperText(HGetAllReply(s, ids[i]).GetOr(map[])))
  }

  // ---------------------------------------------------------------------------
  // Words

  /** Characters kept by `re.sub(r'[^a-zA-Z\s]', '', doc.lower())`. */
  predicate Kept(c: char) {
    'a' <= AsciiLower(c) <= 'z' || IsSpace(c)
  }

  predicate LowerLetter(c: char) {
    'a' <= c <= 'z'
  }

  function Clean(doc: string): (r: string)
    ensures forall i :: 0 <= i < |r| ==> LowerLetter(r[i]) || IsSpace(r[i])
    ensures |r| <= |doc|
  {
    if doc == [] then []
    else (if Kept(doc[0]) then [AsciiLower(doc[0])] else []) + Clean(doc[1..])
  }

  /** The longest prefix without whitespace. */
  function Run(s: string): (r: string)
    ensures r <= s
    ensures forall i :: 0 <= i < |r| ==> !IsSpace(r[i])
    ensures s != [] && !IsSpace(s[0]) ==> r != []
    ensures r == s || IsSpace(s[|r|])
  {
    if s == [] || IsSpace(s[0]) then [] else [s[0]] + Run(s[1..])
  }

  /** `s.split()`: the maximal runs of non-whitespace characters. */
  function Words(s: string): (ws: seq<string>)
    ensures forall i :: 0 <= i < |ws| ==> ws[i] != []
    ensures forall i, j :: 0 <= i < |ws| && 0 <= j < |ws[i]| ==> ws[i][j] in s && !IsSpace(ws[i][j])
    decreases |s|
  {
    if s == [] then []
    else if IsSpace(s[0]) then Words(s[1..])
    else
      var w := Run(s);
      assert forall j :: 0 <= j < |w| ==> w[j] == s[j];
      var rest := s[|w|..];
      assert forall c :: c in rest ==> c in s;
      [w] + Words(rest)
  }

  /** The word set of one document. */
  function WordSet(doc: string, stop: set<string>): set<string> {
    set w | w in Words(Clean(doc)) && w !in stop && w != ""
  }

  function WordSets(texts: seq<string>, stop: set<string>): (sets: seq<set<string>>)
    ensures |sets| == |texts|
  {
    seq(|texts|, i requires 0 <= i < |texts| => WordSet(texts[i], stop))
  }

  // ---------------------------------------------------------------------------
  // Counting documents

  function Get(counts: map<string, nat>, w: string): nat {
    if w in counts then counts[w] else 0
  }

  /** `counter.update(word_set)` */
  function AddAll(counts: map<string, nat>, ws: set<string>): map<string, nat> {
    map w | w in counts.Keys + ws :: Get(counts, w) + (if w in ws then 1 else 0)
  }

  /** The counter after all word sets. */
  function DocCounts(sets: seq<set<string>>): map<string, nat> {
    if sets == [] then map[] else AddAll(DocCounts(sets[..|sets| - 1]), sets[|sets| - 1])
  }

  /** Reference count: in how many of the sets `w` occurs. */
  function CountContaining(sets: seq<set<string>>, w: string): nat {
    if sets == [] then 0
    else CountContaining(sets[..|sets| - 1], w) + (if w in sets[|sets| - 1] then 1 else 0)
  }

  function MultiDoc(counts: map<string, nat>): set<string> {
    set w | w in counts && counts[w] > 1
  }

  /** `list(the_set)`: the members of `pool` in the order `order` lists them. */
  function ListOrder(order: seq<string>, pool: set<string>): (r: seq<string>)
    ensures forall i :: 0 <= i < |r| ==> r[i] in pool && r[i] in order
    ensures forall i, j :: 0 <= i < j < |r| ==> r[i] != r[j]
    ensures forall w :: w in pool && w in order ==> w in r
  {
    if order == [] then []
    else
      var init := ListOrder(order[..|order| - 1], pool);
      var w := order[|order| - 1];
      assert forall x :: x in order[..|order| - 1] ==> x in order;
      if w in pool && w !in init then init + [w] else init
  }

  function LongCount(texts: seq<string>): (n: nat)
    ensures n <= |texts|
  {
    if texts == [] then 0 else LongCount(texts[..|texts| - 1]) + (if |texts[|texts| - 1]| > LongDoc then 1 else 0)
  }

  /** `min(10.0, long / max(1, n) * 10)`, before rounding to two places. */
  function Feasibility(texts: seq<string>): real {
    var ratio := (LongCount(texts) as real) / (if |texts| > 1 then |texts| as real else 1.0) * 10.0;
    if ratio < 10.0 then ratio else 10.0
  }

  /** `str(words)` for a list of plain words: `['a', 'b']`. */
  function ListRepr(ws: seq<string>): string {
    "[" + Join(seq(|ws|, i requires 0 <= i < |ws| => "'" + ws[i] + "'"), ", ") + "]"
  }

  function Applications(overlap: seq<string>): seq<string> {
    if overlap != [] then ["Use " + ListRepr(Take(overlap, 3)) + " for optimization workflows"] else []
  }

  /** `order` lists every word shared by two of the texts, as iterating over the
      set of shared words does. */
  predicate ListsShared(order: seq<string>, texts: seq<string>, stop: set<string>) {
    forall w :: w in MultiDoc(DocCounts(WordSets(texts, stop))) ==> w in order
  }

  /** The synthesis of the texts read. */
  function Synthesized(texts: seq<string>, stop: set<string>, order: seq<string>): Synthesis
    requires ListsShared(order, texts, stop)
  {
    if texts == [] then Synthesis([], 0.0, [])
    else
      var overlap := Take(ListOrder(order, MultiDoc(DocCounts(WordSets(texts, stop)))), MaxOverlap);
      Synthesis(overlap, Feasibility(texts), Applications(overlap))
  }

  /** `synthesis_key or f"synthesis:{','.join(paper_ids)}"` */
  function ResultKey(ids: seq<string>, synthesisKey: Option<string>): string {
    if Given(synthesisKey) then synthesisKey.value else "synthesis:" + Join(ids, ",")
  }

  function SynthesizedEvent(key: string): Value {
    Dumps(JObj(map["agent" := JStr("planning"), "status" := JStr("synthesized"), "key" := JStr(key)]))
  }

  /** The store after a synthesis. */
  function AfterSynthesis(s: State, ids: seq<string>, synthesisKey: Option<string>, stop: set<string>,
                          order: seq<string>, now: int): State
    requires ListsShared(order, ReadTexts(s, ids), stop)
  {
    var key := ResultKey(ids, synthesisKey);
    var x := Synthesized(ReadTexts(s, ids), stop, order);
    AfterPublish(AfterSetEx(s, key, Dumps(SynthesisJson(x)), SynthesisTtl, now), ActivityChannel, SynthesizedEvent(key))
  }

  /** The reading loop of `synthesize`: the text of each paper, in order. */
  method ReadPapers(redis: RedisClient, paperIds: seq<string>) returns (texts: seq<string>)
    ensures texts == ReadTexts(redis.Snapshot(), paperIds)
  {
    texts := [];
    for i := 0 to |paperIds|
      invariant texts == ReadTexts(redis.Snapshot(), paperIds[..i])
    {
      var paper := redis.GetAllHashFields(paperIds[i]);
      texts := texts + [PaperText(paper.GetOr(map[]))];
    }
    assert paperIds[..|paperIds|] == paperIds;
  }

  /** The counting loop of `synthesize`: `word_doc_counts` after every document. */
  method CountDocuments(docWordSets: seq<set<string>>) returns (wordDocCounts: map<string, nat>)
    ensures wordDocCounts == DocCounts(docWordSets)
  {
    wordDocCounts := map[];
    for i := 0 to |docWordSets|
      invariant wordDocCounts == DocCounts(docWordSets[..i])
    {
      assert docWordSets[..i + 1][..i] == docWordSets[..i];
      wordDocCounts := AddAll(wordDocCounts, docWordSets[i]);
    }
    assert docWordSets[..|docWordSets|] == docWordSets;
  }

  method Synthesize(redis: RedisClient, paperIds: seq<string>, synthesisKey: Option<string>,
                    stop: set<string>, order: seq<string>, now: int)
    returns (synth: Synthesis)
    requires ListsShared(order, ReadTexts(redis.Snapshot(), paperIds), stop)
    modifies redis
    ensures synth == Synthesized(ReadTexts(old(redis.Snapshot()), paperIds), stop, order)
    ensures redis.Snapshot() == AfterSynthesis(old(redis.Snapshot()), paperIds, synthesisKey, stop, order, now)
  {
    var texts := ReadPapers(redis, paperIds);
    synth := Synthesis([], 0.0, []);
    if texts != [] {
      var docWordSets := WordSets(texts, stop);
      var wordDocCounts := CountDocuments(docWordSets);
      var multiDocWords := MultiDoc(wordDocCounts);
      var overlap := Take(ListOrder(order, multiDocWords), MaxOverlap);
      synth := Synthesis(overlap, Feasibility(texts), Applications(overlap));
    }

    var resultKey := ResultKey(paperIds, synthesisKey);
    redis.SetWithTtl(resultKey, Dumps(SynthesisJson(synth)), SynthesisTtl, now);
    redis.PublishMessage(ActivityChannel, SynthesizedEvent(resultKey));
  }

  // ---------------------------------------------------------------------------
  // Properties

  /** Cleaning works character by character: a letter is lowered, whitespace is
      kept, anything else is dropped, and the pieces are kept in order. */
  lemma {:induction false} CleanAppend(a: string, b: string)
    ensures Clean(a + b) == Clean(a) + Clean(b)
    ensures |a| == 1 ==> Clean(a) == if Kept(a[0]) then [AsciiLower(a[0])] else []
  {
    if a == [] {
      assert a + b == b;
    } else {
      ConsAppend(a, b);
      CleanAppend(a[1..], b);
      var head := if Kept(a[0]) then [AsciiLower(a[0])] else [];
      Assoc(head, Clean(a[1..]), Clean(b));
      if |a| == 1 {
        assert a[1..] == [];
      }
    }
  }

  /** A run in front of whitespace is cut at the first whitespace character of `a`. */
  lemma {:induction false} RunAppendSpace(a: string, c: char, b: string)
    requires IsSpace(c)
    ensures Run(a + [c] + b) == Run(a)
  {
    var s := a + [c] + b;
    if a == [] {
      assert s[0] == c;
    } else if IsSpace(a[0]) {
      assert s[0] == a[0];
    } else {
      assert s[0] == a[0] && s[1..] == a[1..] + [c] + b;
      RunAppendSpace(a[1..], c, b);
    }
  }

  /** A whitespace character separates the words before it from the words after it. */
  lemma {:induction false} WordsAppendSpace(a: string, c: char, b: string)
    requires IsSpace(c)
    ensures Words(a + [c] + b) == Words(a) + Words(b)
    decreases |a|
  {
    var s := a + [c] + b;
    if a == [] {
      assert s[0] == c && s[1..] == b;
    } else if IsSpace(a[0]) {
      assert s[0] == a[0] && s[1..] == a[1..] + [c] + b;
      WordsAppendSpace(a[1..], c, b);
    } else {
      assert s[0] == a[0];
      RunAppendSpace(a, c, b);
      var w := Run(a);
      assert s[|w|..] == a[|w|..] + [c] + b;
      WordsAppendSpace(a[|w|..], c, b);
      Assoc([w], Words(a[|w|..]), Words(b));
    }
  }

  /** A non-empty text without whitespace is one word, and a text of whitespace alone
      has none. */
  lemma {:induction false} WordsOfOneRun(s: string)
    ensures s != [] && (forall i :: 0 <= i < |s| ==> !IsSpace(s[i])) ==> Words(s) == [s]
    ensures (forall i :: 0 <= i < |s| ==> IsSpace(s[i])) ==> Words(s) == []
    decreases |s|
  {
    if s != [] && forall i :: 0 <= i < |s| ==> !IsSpace(s[i]) {
      assert Run(s) == s;
      assert s[|s|..] == [];
    }
    if s != [] && forall i :: 0 <= i < |s| ==> IsSpace(s[i]) {
      WordsOfOneRun(s[1..]);
    }
  }

  /** The counter holds, for every word, the number of documents containing it. */
  lemma {:induction false} DocCountsCountDocuments(sets: seq<set<string>>, w: string)
    ensures Get(DocCounts(sets), w) == CountContaining(sets, w)
  {
    if sets != [] {
      DocCountsCountDocuments(sets[..|sets| - 1], w);
    }
  }

  lemma {:induction false} CountPositive(sets: seq<set<string>>, w: string)
    ensures CountContaining(sets, w) >= 1 <==> exists i :: 0 <= i < |sets| && w in sets[i]
  {
    if sets != [] {
      var init := sets[..|sets| - 1];
      CountPositive(init, w);
      if exists i :: 0 <= i < |sets| && w in sets[i] {
        var i :| 0 <= i < |sets| && w in sets[i];
        if i < |init| {
          assert init[i] == sets[i];
        }
      }
      if exists i :: 0 <= i < |init| && w in init[i] {
        var i :| 0 <= i < |init| && w in init[i];
        assert sets[i] == init[i];
      }
    }
  }

  lemma {:induction false} CountAtLeastTwo(sets: seq<set<string>>, w: string)
    ensures CountContaining(sets, w) >= 2 <==> exists i, j :: 0 <= i < j < |sets| && w in sets[i] && w in sets[j]
  {
    if sets != [] {
      var k := |sets| - 1;
      var init := sets[..k];
      CountAtLeastTwo(init, w);
      CountPositive(init, w);
      if CountContaining(sets, w) >= 2 {
        if CountContaining(init, w) >= 2 {
          var i, j :| 0 <= i < j < |init| && w in init[i] && w in init[j];
          assert sets[i] == init[i] && sets[j] == init[j];
        } else {
          var i :| 0 <= i < |init| && w in init[i];
          assert sets[i] == init[i];
          assert w in sets[k];
        }
      }
      if exists i, j :: 0 <= i < j < |sets| && w in sets[i] && w in sets[j] {
        var i, j :| 0 <= i < j < |sets| && w in sets[i] && w in sets[j];
        assert init[i] == sets[i];
        if j < k {
          assert init[j] == sets[j];
        }
      }
    }
  }

  /** A word is shared exactly when two different documents contain it. */
  lemma MultiDocIsShared(sets: seq<set<string>>, w: string)
    ensures w in MultiDoc(DocCounts(sets)) <==> exists i, j :: 0 <= i < j < |sets| && w in sets[i] && w in sets[j]
  {
    DocCountsCountDocuments(sets, w);
    CountAtLeastTwo(sets, w);
  }

  /** Every word of a document's set is a non-empty run of lower-case ASCII letters
      that is not a stop word. */
  lemma WordSetMembers(doc: string, stop: set<string>, w: string)
    requires w in WordSet(doc, stop)
    ensures w != "" && w !in stop
    ensures forall j :: 0 <= j < |w| ==> LowerLetter(w[j])
  {
    var clean := Clean(doc);
    var ws := Words(clean);
    var i :| 0 <= i < |ws| && ws[i] == w;
    forall j | 0 <= j < |w| ensures LowerLetter(w[j]) {
      assert w[j] in clean && !IsSpace(w[j]);
      var k :| 0 <= k < |clean| && clean[k] == w[j];
    }
  }

  /** The overlap has at most ten distinct words, each a lower-case word that is not
      a stop word and occurs in two different papers; when the listing order covers
      the shared words, it holds all of them or ten of them. */
  lemma OverlapIsShared(texts: seq<string>, stop: set<string>, order: seq<string>)
    requires ListsShared(order, texts, stop)
    ensures var x := Synthesized(texts, stop, order);
      && |x.overlap| <= MaxOverlap
      && (forall i, j :: 0 <= i < j < |x.overlap| ==> x.overlap[i] != x.overlap[j])
      && (forall w :: w in x.overlap ==>
            && w != "" && w !in stop && (forall j :: 0 <= j < |w| ==> LowerLetter(w[j]))
            && exists a, b :: 0 <= a < b < |texts| && w in WordSet(texts[a], stop) && w in WordSet(texts[b], stop))
  {
    var x := Synthesized(texts, stop, order);
    if texts != [] {
      var all := ListOrder(order, MultiDoc(DocCounts(WordSets(texts, stop))));
      assert x.overlap == Take(all, MaxOverlap) && x.overlap <= all;
      forall w | w in x.overlap
        ensures && w != "" && w !in stop && (forall j :: 0 <= j < |w| ==> LowerLetter(w[j]))
                && exists a, b :: 0 <= a < b < |texts| && w in WordSet(texts[a], stop) && w in WordSet(texts[b], stop)
      {
        var k :| 0 <= k < |x.overlap| && x.overlap[k] == w;
        assert all[k] == w;
        SharedWord(texts, stop, w);
      }
    }
  }

  /** A word counted in two documents is a cleaned, non-stop word of two papers. */
  lemma SharedWord(texts: seq<string>, stop: set<string>, w: string)
    requires w in MultiDoc(DocCounts(WordSets(texts, stop)))
    ensures w != "" && w !in stop && (forall j :: 0 <= j < |w| ==> LowerLetter(w[j]))
    ensures exists a, b :: 0 <= a < b < |texts| && w in WordSet(texts[a], stop) && w in WordSet(texts[b], stop)
  {
    var sets := WordSets(texts, stop);
    MultiDocIsShared(sets, w);
    var a, b :| 0 <= a < b < |sets| && w in sets[a] && w in sets[b];
    assert sets[a] == WordSet(texts[a], stop) && sets[b] == WordSet(texts[b], stop);
    WordSetMembers(texts[a], stop, w);
  }

  /** When every shared word appears in the listing order, the overlap is all of
      them, or ten of them when there are more. */
  lemma OverlapIsComplete(texts: seq<string>, stop: set<string>, order: seq<string>)
    requires texts != []
    requires ListsShared(order, texts, stop)
    ensures var x := Synthesized(texts, stop, order);
      var shared := MultiDoc(DocCounts(WordSets(texts, stop)));
      |x.overlap| == if |shared| < MaxOverlap then |shared| else MaxOverlap
  {
    var shared := MultiDoc(DocCounts(WordSets(texts, stop)));
    var all := ListOrder(order, shared);
    DistinctCoversSet(all, shared);
  }

  lemma {:induction false} DistinctCoversSet(xs: seq<string>, pool: set<string>)
    requires forall i :: 0 <= i < |xs| ==> xs[i] in pool
    requires forall i, j :: 0 <= i < j < |xs| ==> xs[i] != xs[j]
    requires forall w :: w in pool ==> w in xs
    ensures |xs| == |pool|
  {
    if xs != [] {
      var last := xs[|xs| - 1];
      var init := xs[..|xs| - 1];
      assert last !in init;
      forall w | w in pool - {last} ensures w in init {
        var i :| 0 <= i < |xs| && xs[i] == w;
      }
      DistinctCoversSet(init, pool - {last});
    } else {
      assert forall w :: w !in pool;
      assert pool == {};
    }
  }

  lemma {:induction false} LongCountExtremes(texts: seq<string>)
    ensures LongCount(texts) == |texts| <==> forall i :: 0 <= i < |texts| ==> |texts[i]| > LongDoc
    ensures LongCount(texts) == 0 <==> forall i :: 0 <= i < |texts| ==> |texts[i]| <= LongDoc
  {
    if texts != [] {
      var init := texts[..|texts| - 1];
      LongCountExtremes(init);
      assert forall i :: 0 <= i < |init| ==> init[i] == texts[i];
    }
  }

  /** The feasibility lies between 0 and 10; it is 10 exactly when every paper is
      longer than 1000 characters and 0 exactly when none is. */
  lemma FeasibilityRange(texts: seq<string>)
    requires texts != []
    ensures 0.0 <= Feasibility(texts) <= 10.0
    ensures Feasibility(texts) == 10.0 <==> forall i :: 0 <= i < |texts| ==> |texts[i]| > LongDoc
    ensures Feasibility(texts) == 0.0 <==> forall i :: 0 <= i < |texts| ==> |texts[i]| <= LongDoc
  {
    LongCountExtremes(texts);
    RatioRange(LongCount(texts) as real, if |texts| > 1 then |texts| as real else 1.0);
  }

  /** `c / n * 10`, capped at 10, for 0 <= c <= n: in [0, 10], 10 iff c = n, 0 iff c = 0. */
  lemma RatioRange(c: real, n: real)
    requires 0.0 <= c <= n && n > 0.0
    ensures var f := if c / n * 10.0 < 10.0 then c / n * 10.0 else 10.0;
      0.0 <= f <= 10.0 && (f == 10.0 <==> c == n) && (f == 0.0 <==> c == 0.0)
  {
    var q := c / n;
    assert q * n == c;
    assert (1.0 - q) * n == n - c;
  }

  /** An application line is proposed exactly when there is an overlap. */
  lemma ApplicationsNeedOverlap(texts: seq<string>, stop: set<string>, order: seq<string>)
    requires ListsShared(order, texts, stop)
    ensures var x := Synthesized(texts, stop, order);
      (x.applications != [] <==> x.overlap != []) && |x.applications| <= 1
  {
  }

  /** No paper ids: nothing shared, feasibility 0.0, no applications. */
  lemma NoPapersNoSynthesis(s: State, stop: set<string>, order: seq<string>)
    ensures Synthesized(ReadTexts(s, []), stop, order) == Synthesis([], 0.0, [])
  {
  }

  /** What is stored under the result key is what was returned, readable until the
      hour is over, and exactly one event names that key. */
  lemma SynthesisIsStored(s: State, ids: seq<string>, synthesisKey: Option<string>, stop: set<string>,
                          order: seq<string>, now: int, later: int)
    requires s.connected && now <= later
    requires ListsShared(order, ReadTexts(s, ids), stop)
    ensures var s' := AfterSynthesis(s, ids, synthesisKey, stop, order, now);
      var x := Synthesized(ReadTexts(s, ids), stop, order);
      && s'.strings == SetEx(s.strings, ResultKey(ids, synthesisKey), Dumps(SynthesisJson(x)), SynthesisTtl, now)
      && GetReply(s', ResultKey(ids, synthesisKey), later) == (if later < now + SynthesisTtl then Some(Dumps(SynthesisJson(x))) else None)
      && s'.log == s.log + [Message(ActivityChannel, SynthesizedEvent(ResultKey(ids, synthesisKey)))]
      && s'.hashes == s.hashes && s'.queues == s.queues
  {
    var x := Synthesized(ReadTexts(s, ids), stop, order);
    TtlWindow(s, ResultKey(ids, synthesisKey), Dumps(SynthesisJson(x)), SynthesisTtl, now, later);
  }
}
