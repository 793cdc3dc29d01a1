/** The coordinator (src/agents/coordinator.py): turn a query into search tasks, push
    one envelope per task onto `tasks:research`, record the task ids of the session
    and announce the batch on `agent:activity`.

    The language-model decomposer is an oracle: it either yields a list of task
    strings or fails. Task ids (uuid4) come from `uuid`, the i-th id minted. */
module Coordinator {
  import opened Wrappers
  import opened Wire
  import opened Store
  import opened Envelope
  import opened Text

  /** What the DSPy predictor produced for the query. */
  datatype Decomposition = Predicted(tasks: seq<string>) | PredictFailed

  /** The heuristic used whenever the predictor is off or fails. */
  function FallbackTasks(query: string): seq<string> {
    [query, query + " arXiv pdf", query + " review article", query + " survey", query + " site:arxiv.org"]
  }

  /** The task list and the value of the DSPy flag afterwards. A failing predictor
      switches the flag off. */
  function Plan(enabled: bool, query: string, d: Decomposition): (r: (seq<string>, bool))
    ensures r.1 ==> enabled && d.Predicted?
  {
    if enabled && d.Predicted? then (d.tasks, true) else (FallbackTasks(query), false)
  }

  /** The ids minted for n tasks, in minting order. */
  function FreshIds(uuid: nat -> string, n: nat): (ids: seq<string>)
    ensures |ids| == n
  {
    seq(n, (i: int) requires 0 <= i < n => uuid(i))
  }

  /** The i-th envelope carries the i-th id and the i-th task. */
  function Envelopes(tasks: seq<string>, ids: seq<string>, sessionId: Option<string>): (es: seq<Value>)
    requires |ids| == |tasks|
    ensures |es| == |tasks|
  {
    seq(|tasks|, i requires 0 <= i < |tasks| => SearchEnvelope(ids[i], tasks[i], sessionId))
  }

  function SessionKey(sessionId: string): string {
    "session:" + sessionId
  }

  function DispatchedEvent(ids: seq<string>): Value {
    Dumps(JObj(map["agent" := JStr("coordinator"), "status" := JStr("dispatched"), "tasks" := StrList(ids)]))
  }

  /** The store after dispatching `tasks` under `ids`: all pushes, then the session
      record when a session id is given, then one event. */
  function Dispatched(s: State, tasks: seq<string>, ids: seq<string>, sessionId: Option<string>): State
    requires |ids| == |tasks|
  {
    var pushed := AfterPushAll(s, ResearchQueue, Envelopes(tasks, ids, sessionId));
    var recorded := if Given(sessionId) then AfterHSet(pushed, SessionKey(sessionId.value), "tasks", Dumps(StrList(ids))) else pushed;
    AfterPublish(recorded, ActivityChannel, DispatchedEvent(ids))
  }

  class CoordinatorAgent {
    const redis: RedisClient
    var dspyEnabled: bool

    /** `configured` is whether DSPy could be configured (an API key was present and
        the model client was created). */
    constructor (redis: RedisClient, configured: bool)
      ensures this.redis == redis && dspyEnabled == configured
    {
      this.redis := redis;
      dspyEnabled := configured;
    }

    method DecomposeAndDispatch(query: string, sessionId: Option<string>, decomposer: Decomposition, uuid: nat -> string)
      returns (ids: seq<string>)
      modifies this, redis
      ensures dspyEnabled == Plan(old(dspyEnabled), query, decomposer).1
      ensures ids == FreshIds(uuid, |Plan(old(dspyEnabled), query, decomposer).0|)
      ensures redis.Snapshot() == Dispatched(old(redis.Snapshot()), Plan(old(dspyEnabled), query, decomposer).0, ids, sessionId)
    {
      var tasks: seq<string> := [];
      if dspyEnabled {
        match decomposer
        case Predicted(ts) => tasks := ts;
        case PredictFailed => dspyEnabled := false;
      }
      if !dspyEnabled {
        tasks := FallbackTasks(query);
      }

      assert (tasks, dspyEnabled) == Plan(old(dspyEnabled), query, decomposer);
      ids := DispatchTasks(tasks, sessionId, uuid);
    }

    /** The second half of `decompose_and_dispatch`: one envelope per task, the
        session record, and the announcement. */
    method DispatchTasks(tasks: seq<string>, sessionId: Option<string>, uuid: nat -> string) returns (ids: seq<string>)
      modifies redis
      ensures ids == FreshIds(uuid, |tasks|)
      ensures redis.Snapshot() == Dispatched(old(redis.Snapshot()), tasks, ids, sessionId)
    {
      ghost var s0 := redis.Snapshot();
      ids := [];
      var i := 0;
      while i < |tasks|
        invariant 0 <= i <= |tasks|
        invariant ids == FreshIds(uuid, i)
        invariant redis.Snapshot() == AfterPushAll(s0, ResearchQueue, Envelopes(tasks[..i], ids, sessionId))
      {
        var (taskId, payload) := MakeTask(uuid(i), SearchAndParse, SearchPayload(tasks[i], sessionId));
        redis.PushTask(ResearchQueue, payload);
        PushStep(s0, tasks, ids, i, taskId, sessionId);
        assert FreshIds(uuid, i + 1) == FreshIds(uuid, i) + [uuid(i)];
        ids := ids + [taskId];
        i := i + 1;
      }
      assert tasks[..i] == tasks;

      if Given(sessionId) {
        redis.SetHashField(SessionKey(sessionId.value), "tasks", Dumps(StrList(ids)));
      }
      redis.PublishMessage(ActivityChannel, DispatchedEvent(ids));
    }
  }

  lemma EnvelopesSnoc(tasks: seq<string>, ids: seq<string>, i: nat, id: string, sessionId: Option<string>)
    requires i < |tasks| && |ids| == i
    ensures Envelopes(tasks[..i + 1], ids + [id], sessionId)
         == Envelopes(tasks[..i], ids, sessionId) + [SearchEnvelope(id, tasks[i], sessionId)]
  {
  }

  /** One more push of the dispatch loop. */
  lemma PushStep(s0: State, tasks: seq<string>, ids: seq<string>, i: nat, id: string, sessionId: Option<string>)
    requires i < |tasks| && |ids| == i
    ensures AfterPushAll(s0, ResearchQueue, Envelopes(tasks[..i + 1], ids + [id], sessionId))
         == AfterPush(AfterPushAll(s0, ResearchQueue, Envelopes(tasks[..i], ids, sessionId)), ResearchQueue, SearchEnvelope(id, tasks[i], sessionId))
  {
    EnvelopesSnoc(tasks, ids, i, id, sessionId);
    var es := Envelopes(tasks[..i], ids, sessionId);
    var e := SearchEnvelope(id, tasks[i], sessionId);
    assert (es + [e])[..|es|] == es;
  }

  // ---------------------------------------------------------------------------
  // Properties of a dispatch

  /** Without the predictor, or when it fails, the task list is the five variants
      and the flag is off afterwards; otherwise it is exactly what the predictor gave. */
  lemma PlanShape(enabled: bool, query: string, d: Decomposition)
    ensures !enabled || d.PredictFailed? ==>
      Plan(enabled, query, d) == ([query, query + " arXiv pdf", query + " review article", query + " survey", query + " site:arxiv.org"], false)
    ensures enabled && d.Predicted? ==> Plan(enabled, query, d) == (d.tasks, true)
  {
  }

  /** Once the flag is off it stays off, whatever the predictor would say. */
  lemma FlagIsSticky(query: string, d: Decomposition)
    ensures !Plan(false, query, d).1 && |Plan(false, query, d).0| == 5
  {
  }

  /** One envelope per task, in task order, behind whatever was waiting; no other
      queue changes. */
  lemma {:induction false} DispatchPushesOnePerTask(s: State, tasks: seq<string>, ids: seq<string>, sessionId: Option<string>)
    requires s.connected && |ids| == |tasks|
    ensures Pending(Dispatched(s, tasks, ids, sessionId).queues, ResearchQueue)
         == Pending(s.queues, ResearchQueue) + Envelopes(tasks, ids, sessionId)
    ensures forall q :: q != ResearchQueue ==> Entries(Dispatched(s, tasks, ids, sessionId).queues, q) == Entries(s.queues, q)
    ensures forall i :: 0 <= i < |tasks| ==> Decode(Envelopes(tasks, ids, sessionId)[i]) == Search(tasks[i])
  {
    PushAllEnqueues(s, ResearchQueue, Envelopes(tasks, ids, sessionId));
    forall i | 0 <= i < |tasks| ensures Decode(Envelopes(tasks, ids, sessionId)[i]) == Search(tasks[i]) {
      SearchEnvelopeRoundTrip(ids[i], tasks[i], sessionId);
    }
  }

  /** The session record holds exactly the returned ids when a session id is given;
      otherwise no hash is written. */
  lemma {:induction false} DispatchRecordsSession(s: State, tasks: seq<string>, ids: seq<string>, sessionId: Option<string>)
    requires s.connected && |ids| == |tasks|
    ensures Given(sessionId) ==>
      HGetReply(Dispatched(s, tasks, ids, sessionId), SessionKey(sessionId.value), "tasks") == Some(Dumps(StrList(ids)))
    ensures !Given(sessionId) ==> Dispatched(s, tasks, ids, sessionId).hashes == s.hashes
  {
    PushAllEnqueues(s, ResearchQueue, Envelopes(tasks, ids, sessionId));
  }

  /** Exactly one event, published after all pushes, carrying the full id list. */
  lemma {:induction false} DispatchPublishesOnce(s: State, tasks: seq<string>, ids: seq<string>, sessionId: Option<string>)
    requires s.connected && |ids| == |tasks|
    ensures Dispatched(s, tasks, ids, sessionId).log == s.log + [Message(ActivityChannel, DispatchedEvent(ids))]
    ensures Dispatched(s, tasks, ids, sessionId).strings == s.strings
  {
    PushAllEnqueues(s, ResearchQueue, Envelopes(tasks, ids, sessionId));
  }

  /** Without a connection a dispatch changes nothing (and still returns its ids). */
  lemma {:induction false} DispatchDisconnected(s: State, tasks: seq<string>, ids: seq<string>, sessionId: Option<string>)
    requires !s.connected && |ids| == |tasks|
    ensures Dispatched(s, tasks, ids, sessionId) == s
  {
    var es := Envelopes(tasks, ids, sessionId);
    PushAllDisconnected(s, es);
  }

  lemma {:induction false} PushAllDisconnected(s: State, vs: seq<Value>)
    requires !s.connected
    ensures AfterPushAll(s, ResearchQueue, vs) == s
  {
    if vs != [] {
      PushAllDisconnected(s, vs[..|vs| - 1]);
    }
  }

  // ---------------------------------------------------------------------------
  // The line-split fallback of `run_adk_decomposition`

  /** The pieces between line boundaries. Unlike `splitlines`, "\r\n" gives an extra
      empty piece and a trailing boundary gives an empty last piece; both are blank,
      so `LineTasks` is the same either way. */
  function Pieces(text: string): (r: seq<string>)
    ensures |r| >= 1
    ensures forall i, j :: 0 <= i < |r| && 0 <= j < |r[i]| ==> !IsLineBreak(r[i][j])
  {
    if text == [] then [""]
    else if IsLineBreak(text[0]) then [""] + Pieces(text[1..])
    else
      var rest := Pieces(text[1..]);
      [[text[0]] + rest[0]] + rest[1..]
  }

  function StripLeft(s: string): (r: string)
    ensures |r| <= |s| && r == s[|s| - |r|..]
    ensures r != [] ==> !IsSpace(r[0])
    ensures forall i :: 0 <= i < |s| - |r| ==> IsSpace(s[i])
  {
    if s != [] && IsSpace(s[0]) then StripLeft(s[1..]) else s
  }

  function StripRight(s: string): (r: string)
    ensures |r| <= |s| && r == s[..|r|]
    ensures r != [] ==> !IsSpace(r[|r| - 1])
    ensures forall i :: |r| <= i < |s| ==> IsSpace(s[i])
  {
    if s != [] && IsSpace(s[|s| - 1]) then StripRight(s[..|s| - 1]) else s
  }

  function Strip(s: string): string {
    StripRight(StripLeft(s))
  }

  /** What one line contributes: its stripped text, unless that is empty. */
  function Kept(line: string): seq<string> {
    if Strip(line) != "" then [Strip(line)] else []
  }

  function StrippedNonBlank(lines: seq<string>): seq<string> {
    if lines == [] then [] else Kept(lines[0]) + StrippedNonBlank(lines[1..])
  }

  /** `[l.strip() for l in text.splitlines() if l.strip()]` */
  function LineTasks(text: string): seq<string> {
    StrippedNonBlank(Pieces(text))
  }

  lemma {:induction false} StrippedNonBlankAppend(a: seq<string>, b: seq<string>)
    ensures StrippedNonBlank(a + b) == StrippedNonBlank(a) + StrippedNonBlank(b)
  {
    if a != [] {
      assert (a + b)[0] == a[0] && (a + b)[1..] == a[1..] + b;
      StrippedNonBlankAppend(a[1..], b);
      Assoc(Kept(a[0]), StrippedNonBlank(a[1..]), StrippedNonBlank(b));
    } else {
      assert a + b == b;
    }
  }

  lemma {:induction false} PiecesAtBreak(a: string, c: char, b: string)
    requires IsLineBreak(c)
    ensures Pieces(a + [c] + b) == Pieces(a) + Pieces(b)
  {
    var x := a + [c] + b;
    if a == [] {
      assert x == [c] + b && x[0] == c && x[1..] == b;
      assert Pieces(x) == [""] + Pieces(b);
    } else {
      assert x[0] == a[0] && x[1..] == a[1..] + [c] + b;
      PiecesAtBreak(a[1..], c, b);
      var ra := Pieces(a[1..]);
      var rb := Pieces(b);
      if IsLineBreak(a[0]) {
        assert Pieces(x) == [""] + (ra + rb);
        assert Pieces(a) == [""] + ra;
        Assoc([""], ra, rb);
      } else {
        ConsAppend(ra, rb);
        assert Pieces(x) == [[a[0]] + ra[0]] + (ra[1..] + rb);
        assert Pieces(a) == [[a[0]] + ra[0]] + ra[1..];
        Assoc([[a[0]] + ra[0]], ra[1..], rb);
      }
    }
  }

  /** Non-empty, with no whitespace at either end. */
  predicate Trimmed(t: string) {
    t != [] && !IsSpace(t[0]) && !IsSpace(t[|t| - 1])
  }

  /** Every task is a non-empty, stripped piece of one line. */
  lemma {:induction false} LineTasksAreStrippedLines(lines: seq<string>)
    ensures forall i :: 0 <= i < |StrippedNonBlank(lines)| ==> Trimmed(StrippedNonBlank(lines)[i])
  {
    if lines != [] {
      LineTasksAreStrippedLines(lines[1..]);
      var rest := StrippedNonBlank(lines[1..]);
      if Strip(lines[0]) != "" {
        StripTrims(lines[0]);
        assert StrippedNonBlank(lines) == [Strip(lines[0])] + rest;
      } else {
        assert StrippedNonBlank(lines) == rest;
      }
    }
  }

  lemma StripTrims(s: string)
    requires Strip(s) != ""
    ensures Trimmed(Strip(s))
  {
    var l := StripLeft(s);
    assert Strip(s) == l[..|Strip(s)|];
    assert Strip(s)[0] == l[0];
  }

  /** A line is blank, and contributes no task, iff every character of it is whitespace. */
  lemma {:induction false} BlankIffAllSpace(s: string)
    ensures Strip(s) == "" <==> forall i :: 0 <= i < |s| ==> IsSpace(s[i])
  {
    var l := StripLeft(s);
    if Strip(s) == "" {
      // the right strip of `l` is empty, so `l` would start with whitespace
      assert l == [];
    } else {
      assert !IsSpace(Strip(s)[0]);
      assert Strip(s)[0] == l[0] == s[|s| - |l|];
    }
  }

  /** Tasks keep the order of the lines they come from: the tasks of two texts
      joined by a line break are the tasks of the first followed by those of the second. */
  lemma LineTasksConcat(a: string, c: char, b: string)
    requires IsLineBreak(c)
    ensures LineTasks(a + [c] + b) == LineTasks(a) + LineTasks(b)
  {
    PiecesAtBreak(a, c, b);
    StrippedNonBlankAppend(Pieces(a), Pieces(b));
  }

  /** A single non-blank line gives exactly one task. */
  lemma {:induction false} OneLineOneTask(text: string)
    requires forall i :: 0 <= i < |text| ==> !IsLineBreak(text[i])
    requires Strip(text) != ""
    ensures LineTasks(text) == [Strip(text)]
  {
    OneLinePiece(text);
    assert [text][1..] == [];
    assert StrippedNonBlank([text]) == [Strip(text)] + StrippedNonBlank([]);
  }

  lemma {:induction false} OneLinePiece(text: string)
    requires forall i :: 0 <= i < |text| ==> !IsLineBreak(text[i])
    ensures Pieces(text) == [text]
  {
    if text != [] {
      OneLinePiece(text[1..]);
      assert [text[0]] + text[1..] == text;
    }
  }

  // ---------------------------------------------------------------------------
  // Importing the module

  /** Python measures the indentation of a logical line twice: with a tab moving to
      the next multiple of 8 (`col`) and with a tab counting as one column (`alt`). */
  datatype Indent = Indent(col: nat, alt: nat)

  const TabError := "TabError: inconsistent use of tabs and spaces in indentation"
  const UnindentError := "IndentationError: unindent does not match any outer indentation level"

  /** The two measures of a line's leading blanks. */
  function Measure(blanks: string): (m: Indent)
    ensures (forall i :: 0 <= i < |blanks| ==> blanks[i] == ' ') ==> m == Indent(|blanks|, |blanks|)
  {
    if blanks == [] then Indent(0, 0)
    else
      var m := Measure(blanks[..|blanks| - 1]);
      if blanks[|blanks| - 1] == '\t' then Indent((m.col / 8 + 1) * 8, m.alt + 1) else Indent(m.col + 1, m.alt + 1)
  }

  /** The tokenizer's check of one logical line against its stack of open blocks:
      both measures must agree on whether the line stays, indents or dedents. */
  function IndentStep(stack: seq<Indent>, next: Indent): (r: Result<seq<Indent>>)
    requires stack != []
    ensures r.Ok? ==> r.value != [] && r.value[0] == stack[0]
  {
    var top := stack[|stack| - 1];
    if next.col == top.col then
      if next.alt == top.alt then Ok(stack) else Crashed(TabError)
    else if next.col > top.col then
      if next.alt > top.alt then Ok(stack + [next]) else Crashed(TabError)
    else Dedent(stack, next)
  }

  /** Closing blocks until one starts at the line's column. */
  function Dedent(stack: seq<Indent>, next: Indent): (r: Result<seq<Indent>>)
    requires stack != []
    ensures r.Ok? ==> r.value != [] && r.value[0] == stack[0]
    decreases |stack|
  {
    var top := stack[|stack| - 1];
    if next.col < top.col && |stack| > 1 then Dedent(stack[..|stack| - 1], next)
    else if next.col != top.col then Crashed(UnindentError)
    else if next.alt != top.alt then Crashed(TabError)
    else Ok(stack)
  }

  /** The indentation check over the leading blanks of successive logical lines;
      lines inside a string literal are not logical lines. */
  function Tokenize(stack: seq<Indent>, lines: seq<string>): Result<seq<Indent>>
    requires stack != []
    decreases |lines|
  {
    if lines == [] then Ok(stack)
    else
      match IndentStep(stack, Measure(lines[0]))
      case Crashed(e) => Crashed(e)
      case Ok(st) => Tokenize(st, lines[1..])
  }

  /** `create_adk_agent` as written: the class body (0), the `def` line (4 spaces),
      the docstring's first line (8 spaces), then `try:` after two tabs. The module
      raises while it is being imported, so no `CoordinatorAgent` is ever built. */
  lemma ImportAsWrittenFails()
    ensures Tokenize([Indent(0, 0)], ["", "    ", "        ", "\t\t"]) == Crashed(TabError)
  {
    assert Measure("\t") == Indent(8, 1);
    assert Measure("\t\t") == Indent(16, 2);
    var st := [Indent(0, 0), Indent(4, 4), Indent(8, 8)];
    assert Tokenize([Indent(0, 0)], ["", "    ", "        ", "\t\t"]) == Tokenize(st, ["\t\t"]);
  }

  /** The intended layout, with the method body indented by eight spaces, passes the
      check. */
  lemma SpacedLayoutImports()
    ensures Tokenize([Indent(0, 0)], ["", "    ", "        ", "        ", "            "]).Ok?
  {
    var eight := "        ";
    var twelve := "            ";
    var lines := ["", "    ", eight, eight, twelve];
    assert Measure("") == Indent(0, 0) && Measure("    ") == Indent(4, 4);
    assert Measure(eight) == Indent(8, 8) && Measure(twelve) == Indent(12, 12);
    assert IndentStep([Indent(0, 0)], Indent(0, 0)) == Ok([Indent(0, 0)]);
    assert Tokenize([Indent(0, 0)], lines) == Tokenize([Indent(0, 0)], lines[1..]);
    assert [Indent(0, 0)] + [Indent(4, 4)] == [Indent(0, 0), Indent(4, 4)];
    assert IndentStep([Indent(0, 0)], Indent(4, 4)) == Ok([Indent(0, 0), Indent(4, 4)]);
    assert lines[1..][1..] == [eight, eight, twelve];
    assert Tokenize([Indent(0, 0)], lines[1..]) == Tokenize([Indent(0, 0), Indent(4, 4)], [eight, eight, twelve]);
    var st := [Indent(0, 0), Indent(4, 4), Indent(8, 8)];
    assert st[..2] == [Indent(0, 0), Indent(4, 4)] && st[..2] + [Indent(8, 8)] == st;
    assert IndentStep(st[..2], Indent(8, 8)) == Ok(st);
    assert [eight, eight, twelve][1..] == [eight, twelve];
    assert Tokenize(st[..2], [eight, eight, twelve]) == Tokenize(st, [eight, twelve]);
    assert Tokenize(st, [eight, twelve]) == Tokenize(st, [twelve]);
  }

  /** Both measures agree on a block opened by spaces alone. */
  predicate Level(m: Indent) {
    m.col == m.alt
  }

  /** A file indented with spaces alone never raises `TabError`: the two measures
      agree on every line, so they agree on every comparison. */
  lemma {:induction false} SpacesNeverTabError(stack: seq<Indent>, lines: seq<string>)
    requires stack != [] && forall i :: 0 <= i < |stack| ==> Level(stack[i])
    requires forall i, j :: 0 <= i < |lines| && 0 <= j < |lines[i]| ==> lines[i][j] == ' '
    ensures Tokenize(stack, lines) != Crashed(TabError)
    decreases |lines|
  {
    if lines != [] {
      var m := Measure(lines[0]);
      assert Level(m);
      LevelStep(stack, m);
      var r := IndentStep(stack, m);
      if r.Ok? {
        assert forall i, j :: 0 <= i < |lines[1..]| && 0 <= j < |lines[1..][i]| ==> lines[1..][i][j] == lines[i + 1][j];
        SpacesNeverTabError(r.value, lines[1..]);
      }
    }
  }

  lemma {:induction false} LevelStep(stack: seq<Indent>, next: Indent)
    requires stack != [] && forall i :: 0 <= i < |stack| ==> Level(stack[i])
    requires Level(next)
    ensures IndentStep(stack, next) != Crashed(TabError)
    ensures IndentStep(stack, next).Ok? ==> forall i :: 0 <= i < |IndentStep(stack, next).value| ==> Level(IndentStep(stack, next).value[i])
  {
    var top := stack[|stack| - 1];
    if next.col < top.col {
      LevelDedent(stack, next);
    }
  }

  lemma {:induction false} LevelDedent(stack: seq<Indent>, next: Indent)
    requires stack != [] && forall i :: 0 <= i < |stack| ==> Level(stack[i])
    requires Level(next)
    ensures Dedent(stack, next) != Crashed(TabError)
    ensures Dedent(stack, next).Ok? ==> forall i :: 0 <= i < |Dedent(stack, next).value| ==> Level(Dedent(stack, next).value[i])
    decreases |stack|
  {
    var top := stack[|stack| - 1];
    if next.col < top.col && |stack| > 1 {
      LevelDedent(stack[..|stack| - 1], next);
    }
  }
}
