/** The MCP search client (src/mcp_client.py): a session with the search server that
    is opened on demand and closed by its owner, and the parser that turns the
    server's text reply into result records.

    The server process and the call itself are not modelled: what the call returned
    is a parameter, `Some(text)` when its first content block carries text. */
module McpClient {
  import opened Wrappers
  import opened Text

  /** The two characters backslash and `n`: the reply is split on this literal
      sequence, not on line feeds. */
  const Sep := "\\n"

  /** `text.split('\\n')`: the pieces between non-overlapping occurrences of `Sep`,
      scanning from the left. */
  function Split(s: string): (r: seq<string>)
    ensures |r| >= 1 && r[0] <= s
    ensures forall i :: 0 <= i < |r| ==> NoSep(r[i])
  {
    if |s| < 2 then [s]
    else if s[..2] == Sep then [""] + Split(s[2..])
    else
      var rest := Split(s[1..]);
      HeadNoSep(s, rest[0]);
      [[s[0]] + rest[0]] + rest[1..]
  }

  /** The piece contains no backslash followed by `n`. */
  predicate NoSep(t: string) {
    forall k :: 0 <= k < |t| - 1 ==> !(t[k] == '\\' && t[k + 1] == 'n')
  }

  lemma HeadNoSep(s: string, head: string)
    requires |s| >= 2 && s[..2] != Sep && head <= s[1..] && NoSep(head)
    ensures NoSep([s[0]] + head) && [s[0]] + head <= s
  {
    var t := [s[0]] + head;
    forall k | 0 <= k < |t| - 1
      ensures !(t[k] == '\\' && t[k + 1] == 'n')
    {
      if k == 0 {
        assert t[1] == head[0] == s[1];
        assert s[..2] == [s[0], s[1]];
      } else {
        assert t[k] == head[k - 1] && t[k + 1] == head[k];
      }
    }
  }

  /** A text without the separator is one piece. */
  lemma {:induction false} SplitNoSep(s: string)
    requires NoSep(s)
    ensures Split(s) == [s]
  {
    if |s| >= 2 {
      assert s[..2] != Sep by {
        assert !(s[0] == '\\' && s[1] == 'n');
      }
      assert NoSep(s[1..]) by {
        forall k | 0 <= k < |s[1..]| - 1
          ensures !(s[1..][k] == '\\' && s[1..][k + 1] == 'n')
        {
          assert s[1..][k] == s[k + 1] && s[1..][k + 1] == s[k + 2];
        }
      }
      SplitNoSep(s[1..]);
      assert s == [s[0]] + s[1..];
    }
  }

  /** `split` is the only way to cut the text into pieces without the separator
      that join back to it: the pieces are exactly those between the separators. */
  lemma {:induction false} SplitUnique(ps: seq<string>, s: string)
    requires |ps| >= 1 && Join(ps, Sep) == s
    requires forall i :: 0 <= i < |ps| ==> NoSep(ps[i])
    ensures Split(s) == ps
    decreases |s|
  {
    if |ps| == 1 {
      assert s == ps[0];
      SplitNoSep(s);
    } else if ps[0] == [] {
      DropEmptyFirst(ps, s);
      SplitUnique(ps[1..], s[2..]);
      assert ps == [""] + ps[1..];
    } else {
      var ps' := [ps[0][1..]] + ps[1..];
      DropFirstCharacter(ps, s);
      SplitUnique(ps', s[1..]);
      assert ps'[0] == ps[0][1..] && ps'[1..] == ps[1..];
      assert ps[0] == [s[0]] + ps'[0];
      assert ps == [[s[0]] + ps'[0]] + ps'[1..];
    }
  }

  /** Dropping an empty first piece: the text starts with the separator and the
      other pieces join to the rest. */
  lemma DropEmptyFirst(ps: seq<string>, s: string)
    requires |ps| >= 2 && ps[0] == [] && Join(ps, Sep) == s
    requires forall i :: 0 <= i < |ps| ==> NoSep(ps[i])
    ensures |s| >= 2 && s[..2] == Sep && s[2..] == Join(ps[1..], Sep)
    ensures forall i :: 0 <= i < |ps[1..]| ==> NoSep(ps[1..][i])
  {
    var rest := ps[1..];
    assert s == Sep + Join(rest, Sep);
    forall i | 0 <= i < |rest| ensures NoSep(rest[i]) {
      assert rest[i] == ps[i + 1];
    }
  }

  /** Dropping the first character of a non-empty first piece: the text does not
      start with the separator, and the shortened pieces join to the rest. */
  lemma DropFirstCharacter(ps: seq<string>, s: string)
    requires |ps| >= 2 && ps[0] != [] && Join(ps, Sep) == s
    requires forall i :: 0 <= i < |ps| ==> NoSep(ps[i])
    ensures |s| >= 2 && s[..2] != Sep && s[0] == ps[0][0]
    ensures Join([ps[0][1..]] + ps[1..], Sep) == s[1..]
    ensures forall i :: 0 <= i < |[ps[0][1..]] + ps[1..]| ==> NoSep(([ps[0][1..]] + ps[1..])[i])
  {
    var p0 := ps[0];
    var tail := Join(ps[1..], Sep);
    assert s == p0 + Sep + tail;
    assert s[0] == p0[0];
    assert s[..2] != Sep by {
      if |p0| >= 2 {
        assert s[..2] == p0[..2];
        assert !(p0[0] == '\\' && p0[1] == 'n');
      } else {
        assert s[1] == Sep[0];
      }
    }
    var ps' := [p0[1..]] + ps[1..];
    assert ps'[1..] == ps[1..];
    assert s[1..] == p0[1..] + Sep + tail;
    assert Join(ps', Sep) == s[1..];
    forall i | 0 <= i < |ps'| ensures NoSep(ps'[i]) {
      if i == 0 {
        forall k | 0 <= k < |p0[1..]| - 1
          ensures !(p0[1..][k] == '\\' && p0[1..][k + 1] == 'n')
        {
          assert p0[1..][k] == p0[k + 1] && p0[1..][k + 1] == p0[k + 2];
        }
      } else {
        assert ps'[i] == ps[i];
      }
    }
  }

  /** Joining the pieces with the separator gives the reply back. */
  lemma {:induction false} SplitJoin(s: string)
    ensures Join(Split(s), Sep) == s
  {
    if |s| >= 2 {
      if s[..2] == Sep {
        SplitJoin(s[2..]);
        var r := Split(s[2..]);
        assert Split(s) == [""] + r;
        JoinConsEmpty(r);
        assert s == Sep + s[2..];
      } else {
        SplitJoin(s[1..]);
        var r := Split(s[1..]);
        assert Split(s) == [[s[0]] + r[0]] + r[1..];
        JoinConsHead(s[0], r);
        assert s == [s[0]] + s[1..];
      }
    }
  }

  /** An empty first piece puts the separator in front of the join. */
  lemma JoinConsEmpty(r: seq<string>)
    requires |r| >= 1
    ensures Join([""] + r, Sep) == Sep + Join(r, Sep)
  {
    assert ([""] + r)[0] == "" && ([""] + r)[1..] == r;
    assert Join([""] + r, Sep) == "" + Sep + Join(r, Sep);
  }

  /** Putting a character in front of the first piece puts it in front of the join. */
  lemma {:induction false} JoinConsHead(c: char, r: seq<string>)
    requires |r| >= 1
    ensures Join([[c] + r[0]] + r[1..], Sep) == [c] + Join(r, Sep)
  {
    var out := [[c] + r[0]] + r[1..];
    if |r| == 1 {
      assert out == [[c] + r[0]];
    } else {
      var rest := Join(r[1..], Sep);
      assert out[0] == [c] + r[0] && out[1..] == r[1..];
      assert Join(out, Sep) == ([c] + r[0]) + Sep + rest;
      assert Join(r, Sep) == r[0] + Sep + rest;
      Assoc([c], r[0], Sep);
      Assoc([c], r[0] + Sep, rest);
    }
  }

  /** One search result as the parser builds it: "title", "url" and "content". */
  type Record = map<string, string>

  predicate IsTitle(line: string) { StartsWith(line, "Title: ") }
  predicate IsUrl(line: string) { StartsWith(line, "URL: ") }
  predicate IsContent(line: string) { StartsWith(line, "Content: ") }

  /** A line that adds a field to the current record without starting a new one. */
  predicate IsField(line: string) {
    !IsTitle(line) && (IsUrl(line) || IsContent(line))
  }

  /** One iteration of the parser's loop on (finished records, current record). */
  function Step(results: seq<Record>, current: Record, line: string): (seq<Record>, Record) {
    if IsTitle(line) then
      ((if current != map[] then results + [current] else results), map["title" := line[7..]])
    else if IsUrl(line) then (results, current["url" := line[5..]])
    else if IsContent(line) then (results, current["content" := line[9..]])
    else (results, current)
  }

  /** The parser's state after the given lines. */
  function Scan(lines: seq<string>): (seq<Record>, Record) {
    if lines == [] then ([], map[])
    else
      var (results, current) := Scan(lines[..|lines| - 1]);
      Step(results, current, lines[|lines| - 1])
  }

  /** `_parse_tavily_text`: the finished records, then the last one if non-empty. */
  function ParseResults(text: string): seq<Record> {
    var (results, current) := Scan(Split(text));
    if current != map[] then results + [current] else results
  }

  /** `search(...)["results"]` for a given reply. */
  function SearchResults(reply: Option<string>): seq<Record> {
    match reply
    case Some(text) => ParseResults(text)
    case None => []
  }

  // ---------------------------------------------------------------------------
  // Reference counts

  function TitleCount(lines: seq<string>): nat {
    if lines == [] then 0
    else TitleCount(lines[..|lines| - 1]) + (if IsTitle(lines[|lines| - 1]) then 1 else 0)
  }

  /** A "URL: " or "Content: " line comes before the first "Title: " line. */
  predicate Orphan(lines: seq<string>) {
    if lines == [] then false
    else Orphan(lines[..|lines| - 1]) || (TitleCount(lines[..|lines| - 1]) == 0 && IsField(lines[|lines| - 1]))
  }

  /** The text after "Title: " of each title line, in order. */
  function TitleTexts(lines: seq<string>): seq<string> {
    if lines == [] then []
    else TitleTexts(lines[..|lines| - 1]) + (if IsTitle(lines[|lines| - 1]) then [lines[|lines| - 1][7..]] else [])
  }

  /** The "title" of each record that has one, in order. */
  function TitlesOf(rs: seq<Record>): seq<string> {
    if rs == [] then []
    else TitlesOf(rs[..|rs| - 1]) + (if "title" in rs[|rs| - 1] then [rs[|rs| - 1]["title"]] else [])
  }

  lemma TitlesOfSnoc(rs: seq<Record>, r: Record)
    ensures TitlesOf(rs + [r]) == TitlesOf(rs) + TitlesOf([r])
  {
    assert (rs + [r])[..|rs|] == rs;
    assert [r][..0] == [];
  }

  function Pending(current: Record): seq<Record> {
    if current != map[] then [current] else []
  }

  /** What the parser's state says about the lines read so far: `tc` title lines,
      whether a field line came before the first title, and the title texts. */
  predicate Shape(rs: seq<Record>, cur: Record, tc: nat, orphan: bool, texts: seq<string>) {
    && (cur == map[] <==> tc == 0 && !orphan)
    && (tc > 0 ==> "title" in cur)
    && |rs| == (if tc > 0 then tc - 1 + (if orphan then 1 else 0) else 0)
    && TitlesOf(rs) + TitlesOf(Pending(cur)) == texts
  }

  lemma TitlesOfOne(r: Record)
    ensures TitlesOf([r]) == if "title" in r then [r["title"]] else []
  {
    assert [r][..0] == [];
  }

  lemma StepShape(rs: seq<Record>, cur: Record, tc: nat, orphan: bool, texts: seq<string>, line: string)
    requires Shape(rs, cur, tc, orphan, texts)
    ensures Shape(Step(rs, cur, line).0, Step(rs, cur, line).1,
                  tc + (if IsTitle(line) then 1 else 0),
                  orphan || (tc == 0 && IsField(line)),
                  texts + (if IsTitle(line) then [line[7..]] else []))
  {
    TitlesOfOne(cur);
    if IsTitle(line) {
      var t: Record := map["title" := line[7..]];
      TitlesOfOne(t);
      if cur != map[] {
        TitlesOfSnoc(rs, cur);
      }
    } else if IsUrl(line) || IsContent(line) {
      var cur': Record := if IsUrl(line) then cur["url" := line[5..]] else cur["content" := line[9..]];
      TitlesOfOne(cur');
      assert "url" in cur' || "content" in cur';
      assert "title" in cur' <==> "title" in cur;
      assert "title" in cur ==> cur'["title"] == cur["title"];
    }
  }

  lemma {:induction false} ScanShape(lines: seq<string>)
    ensures Shape(Scan(lines).0, Scan(lines).1, TitleCount(lines), Orphan(lines), TitleTexts(lines))
  {
    if lines == [] {
      var none: seq<Record> := [];
      assert TitlesOf(none) + TitlesOf(Pending(map[])) == [];
    } else {
      var init := lines[..|lines| - 1];
      ScanShape(init);
      StepShape(Scan(init).0, Scan(init).1, TitleCount(init), Orphan(init), TitleTexts(init), lines[|lines| - 1]);
    }
  }

  /** One record per title line, plus one when a url or content line precedes the
      first title. */
  lemma ParseCount(text: string)
    ensures |ParseResults(text)| == TitleCount(Split(text)) + (if Orphan(Split(text)) then 1 else 0)
  {
    ScanShape(Split(text));
  }

  /** The titles of the records are the title lines' texts, in order. */
  lemma ParseTitles(text: string)
    ensures TitlesOf(ParseResults(text)) == TitleTexts(Split(text))
  {
    ScanShape(Split(text));
    var (rs, cur) := Scan(Split(text));
    if cur != map[] {
      TitlesOfSnoc(rs, cur);
    }
  }

  /** A reply without any marker line yields no results. */
  lemma NoMarkersNoResults(text: string)
    requires forall i :: 0 <= i < |Split(text)| ==> !IsTitle(Split(text)[i]) && !IsField(Split(text)[i])
    ensures ParseResults(text) == []
  {
    NoMarkers(Split(text));
    ScanShape(Split(text));
  }

  lemma {:induction false} NoMarkers(lines: seq<string>)
    requires forall i :: 0 <= i < |lines| ==> !IsTitle(lines[i]) && !IsField(lines[i])
    ensures TitleCount(lines) == 0 && !Orphan(lines)
  {
    if lines != [] {
      NoMarkers(lines[..|lines| - 1]);
    }
  }

  // ---------------------------------------------------------------------------
  // Reference: records by blocks of lines

  /** The lines cut before every title line: the first block holds the lines before
      the first title (possibly none), every later block starts at a title line. */
  function Blocks(lines: seq<string>): (bs: seq<seq<string>>)
    ensures |bs| >= 1
  {
    if lines == [] then [[]]
    else
      var bs := Blocks(lines[..|lines| - 1]);
      var l := lines[|lines| - 1];
      if IsTitle(l) then bs + [[l]] else bs[..|bs| - 1] + [bs[|bs| - 1] + [l]]
  }

  function Concat(bs: seq<seq<string>>): seq<string> {
    if bs == [] then [] else Concat(bs[..|bs| - 1]) + bs[|bs| - 1]
  }

  /** The text after `prefix` of the last line that starts with it. */
  function LastWith(lines: seq<string>, prefix: string): (r: Option<string>)
    ensures r.Some? <==> exists i :: 0 <= i < |lines| && StartsWith(lines[i], prefix)
  {
    if lines == [] then None
    else if StartsWith(lines[|lines| - 1], prefix) then Some(lines[|lines| - 1][|prefix|..])
    else
      var r := LastWith(lines[..|lines| - 1], prefix);
      assert forall i :: 0 <= i < |lines| - 1 ==> lines[..|lines| - 1][i] == lines[i];
      r
  }

  function Put(m: Record, key: string, v: Option<string>): Record {
    match v
    case Some(x) => m[key := x]
    case None => m
  }

  /** The record a block stands for: its title line's text, and the text of its last
      "URL: " line and of its last "Content: " line. */
  function RecordOf(block: seq<string>): Record {
    Put(Put(TitlePart(block), "url", LastWith(block, "URL: ")), "content", LastWith(block, "Content: "))
  }

  function TitlePart(block: seq<string>): Record {
    if block != [] && IsTitle(block[0]) then map["title" := block[0][7..]] else map[]
  }

  /** The records of the non-empty blocks, in order. */
  function RecordsOf(bs: seq<seq<string>>): seq<Record> {
    if bs == [] then [] else RecordsOf(bs[..|bs| - 1]) + Pending(RecordOf(bs[|bs| - 1]))
  }

  /** A line starts with at most one of the markers. */
  lemma MarkersExclusive(l: string)
    ensures IsTitle(l) ==> !IsUrl(l) && !IsContent(l)
    ensures IsUrl(l) ==> !IsContent(l)
  {
    if IsTitle(l) {
      assert l[0] == 'T';
    }
    if IsUrl(l) {
      assert l[0] == 'U';
    }
  }

  lemma LastWithSnoc(b: seq<string>, l: string, prefix: string)
    ensures LastWith(b + [l], prefix) == if StartsWith(l, prefix) then Some(l[|prefix|..]) else LastWith(b, prefix)
  {
    assert (b + [l])[..|b|] == b;
  }

  lemma TitlePartSnoc(b: seq<string>, l: string)
    requires !IsTitle(l)
    ensures TitlePart(b + [l]) == TitlePart(b)
  {
    if b != [] {
      assert (b + [l])[0] == b[0];
    } else {
      assert (b + [l])[0] == l;
    }
  }

  /** The blocks put back together are the lines. */
  lemma {:induction false} BlocksConcat(lines: seq<string>)
    ensures Concat(Blocks(lines)) == lines
  {
    if lines != [] {
      var init := lines[..|lines| - 1];
      var l := lines[|lines| - 1];
      BlocksConcat(init);
      var bs := Blocks(init);
      var n := |bs|;
      assert lines == init + [l];
      if IsTitle(l) {
        assert (bs + [[l]])[..n] == bs;
      } else {
        var bs' := bs[..n - 1] + [bs[n - 1] + [l]];
        assert Blocks(lines) == bs';
        assert bs'[..n - 1] == bs[..n - 1];
        assert bs == bs[..n - 1] + [bs[n - 1]];
        assert Concat(bs) == Concat(bs[..n - 1]) + bs[n - 1];
        Assoc(Concat(bs[..n - 1]), bs[n - 1], [l]);
      }
    }
  }

  /** Every block but the first starts with a title line, and no block has a title
      line anywhere else. */
  lemma {:induction false} BlocksCutAtTitles(lines: seq<string>)
    ensures CutAtTitles(Blocks(lines))
  {
    if lines != [] {
      var init := lines[..|lines| - 1];
      var l := lines[|lines| - 1];
      BlocksCutAtTitles(init);
      var bs := Blocks(init);
      var n := |bs|;
      if !IsTitle(l) {
        assert Blocks(lines) == bs[..n - 1] + [bs[n - 1] + [l]];
        CutExtendLast(bs, l);
      } else {
        assert Blocks(lines) == bs + [[l]];
        CutAddTitle(bs, l);
      }
    }
  }

  /** Every block after the first starts with a Title line, the first does not, and
      no block has a Title line after its first line. */
  predicate CutAtTitles(bs: seq<seq<string>>) {
    && |bs| >= 1
    && (forall i :: 1 <= i < |bs| ==> bs[i] != [] && IsTitle(bs[i][0]))
    && (forall i, j :: 0 <= i < |bs| && 0 < j < |bs[i]| ==> !IsTitle(bs[i][j]))
    && (bs[0] != [] ==> !IsTitle(bs[0][0]))
  }

  lemma CutExtendLast(bs: seq<seq<string>>, l: string)
    requires CutAtTitles(bs) && !IsTitle(l)
    ensures CutAtTitles(bs[..|bs| - 1] + [bs[|bs| - 1] + [l]])
  {
    var n := |bs|;
    var last := bs[n - 1] + [l];
    var bs' := bs[..n - 1] + [last];
    assert forall i :: 0 <= i < n - 1 ==> bs'[i] == bs[i];
    assert bs'[n - 1] == last;
    assert forall j :: 0 <= j < |bs[n - 1]| ==> last[j] == bs[n - 1][j];
    assert last[|last| - 1] == l;
  }

  lemma CutAddTitle(bs: seq<seq<string>>, l: string)
    requires CutAtTitles(bs) && IsTitle(l)
    ensures CutAtTitles(bs + [[l]])
  {
    var bs' := bs + [[l]];
    assert forall i :: 0 <= i < |bs| ==> bs'[i] == bs[i];
    assert bs'[|bs|] == [l];
  }

  lemma PutSwap(m: Record, k1: string, k2: string, v: Option<string>, x: string)
    requires k1 != k2
    ensures Put(m, k2, v)[k1 := x] == Put(m[k1 := x], k2, v)
  {
  }

  /** A line that is not a title changes the block's record as one step of the
      parser changes the current record. */
  lemma RecordOfSnoc(b: seq<string>, l: string, rs: seq<Record>)
    requires !IsTitle(l)
    ensures RecordOf(b + [l]) == Step(rs, RecordOf(b), l).1
  {
    MarkersExclusive(l);
    TitlePartSnoc(b, l);
    LastWithSnoc(b, l, "URL: ");
    LastWithSnoc(b, l, "Content: ");
    var t := TitlePart(b);
    var u := LastWith(b, "URL: ");
    var c := LastWith(b, "Content: ");
    if IsUrl(l) {
      PutSwap(Put(t, "url", u), "url", "content", c, l[5..]);
    }
  }

  lemma TitleLineRecord(l: string)
    requires IsTitle(l)
    ensures RecordOf([l]) == map["title" := l[7..]]
  {
    MarkersExclusive(l);
    LastWithSnoc([], l, "URL: ");
    LastWithSnoc([], l, "Content: ");
    assert [] + [l] == [l];
  }

  /** The parser's state after some lines: the records of all blocks but the last,
      and the record of the last block as the one being built. */
  lemma {:induction false} ScanIsBlocks(lines: seq<string>)
    ensures Scan(lines) == (RecordsOf(Blocks(lines)[..|Blocks(lines)| - 1]), RecordOf(Blocks(lines)[|Blocks(lines)| - 1]))
  {
    if lines == [] {
      assert RecordOf([]) == map[];
    } else {
      var init := lines[..|lines| - 1];
      var l := lines[|lines| - 1];
      ScanIsBlocks(init);
      var bs := Blocks(init);
      var n := |bs|;
      var rs := Scan(init).0;
      var cur := Scan(init).1;
      assert Scan(lines) == Step(rs, cur, l);
      if IsTitle(l) {
        var bs' := bs + [[l]];
        assert Blocks(lines) == bs';
        assert bs'[..n] == bs;
        TitleLineRecord(l);
        assert bs == bs[..n - 1] + [bs[n - 1]];
        assert bs'[n] == [l];
        assert RecordsOf(bs) == rs + Pending(cur);
        assert Step(rs, cur, l).0 == rs + Pending(cur) by {
          if cur == map[] {
            assert rs + [] == rs;
          }
        }
      } else {
        var bs' := bs[..n - 1] + [bs[n - 1] + [l]];
        assert Blocks(lines) == bs';
        assert bs'[..n - 1] == bs[..n - 1];
        RecordOfSnoc(bs[n - 1], l, rs);
      }
    }
  }

  /** The records of a reply are the records of its blocks: each record holds the
      text of its title line and of the last "URL: " and "Content: " lines before
      the next title line; a block with none of these gives no record. */
  lemma ParseIsBlocks(text: string)
    ensures ParseResults(text) == RecordsOf(Blocks(Split(text)))
  {
    var lines := Split(text);
    var bs := Blocks(lines);
    var n := |bs|;
    ScanIsBlocks(lines);
    var rs := Scan(lines).0;
    var cur := Scan(lines).1;
    assert RecordsOf(bs) == RecordsOf(bs[..n - 1]) + Pending(RecordOf(bs[n - 1]));
    assert ParseResults(text) == if cur != map[] then rs + [cur] else rs;
    if cur == map[] {
      assert rs + [] == rs;
    }
  }

  // ---------------------------------------------------------------------------
  // The client

  class TavilyMCPClient {
    /** Whether `_session` is set. */
    var sessionOpen: bool
    /** Whether `_client_context` is set. */
    var contextOpen: bool

    constructor ()
      ensures !sessionOpen && !contextOpen
    {
      sessionOpen := false;
      contextOpen := false;
    }

    /** Opens the stdio transport and the session unless a session is already open. */
    method Connect()
      modifies this
      ensures sessionOpen
      ensures old(sessionOpen) ==> contextOpen == old(contextOpen)
      ensures !old(sessionOpen) ==> contextOpen
    {
      if !sessionOpen {
        contextOpen := true;
        sessionOpen := true;
      }
    }

    /** Closes whatever is open. */
    method Close()
      modifies this
      ensures !sessionOpen && !contextOpen
    {
      if sessionOpen {
        sessionOpen := false;
      }
      if contextOpen {
        contextOpen := false;
      }
    }

    /** `search`: connects if needed, then parses the reply to the tool call. */
    method Search(query: string, reply: Option<string>) returns (results: seq<Record>)
      modifies this
      ensures sessionOpen
      ensures old(sessionOpen) ==> contextOpen == old(contextOpen)
      ensures !old(sessionOpen) ==> contextOpen
      ensures results == SearchResults(reply)
    {
      if !sessionOpen {
        Connect();
      }
      match reply
      case Some(text) => results := ParseTavilyText(text);
      case None => results := [];
    }

    /** `_parse_tavily_text` */
    method ParseTavilyText(text: string) returns (results: seq<Record>)
      ensures results == ParseResults(text)
    {
      var lines := Split(text);
      results := [];
      var current: Record := map[];
      var i := 0;
      while i < |lines|
        invariant 0 <= i <= |lines|
        invariant (results, current) == Scan(lines[..i])
      {
        var line := lines[i];
        if StartsWith(line, "Title: ") {
          if current != map[] {
            results := results + [current];
          }
          current := map["title" := line[7..]];
        } else if StartsWith(line, "URL: ") {
          current := current["url" := line[5..]];
        } else if StartsWith(line, "Content: ") {
          current := current["content" := line[9..]];
        }
        assert lines[..i + 1][..i] == lines[..i];
        i := i + 1;
      }
      assert lines[..i] == lines;
      if current != map[] {
        results := results + [current];
      }
    }
  }

  /** `get_tavily_mcp_client` used for one search: connect, search, and close on the
      way out. */
  method SearchOnce(query: string, reply: Option<string>) returns (results: seq<Record>, client: TavilyMCPClient)
    ensures fresh(client)
    ensures !client.sessionOpen && !client.contextOpen
    ensures results == SearchResults(reply)
  {
    client := new TavilyMCPClient();
    client.Connect();
    results := client.Search(query, reply);
    client.Close();
  }
}
