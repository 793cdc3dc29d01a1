/** The offline stand-in for the search client (src/mocks/tavily_mock.py): it answers
    every query with the PDF files found among the first five entries of a sample
    directory, or with one fixed placeholder when the directory does not exist.

    The directory listing is a parameter: `None` when listing it raised
    FileNotFoundError, otherwise its entries in the order the file system gave. */
module TavilyMock {
  import opened Wrappers
  import opened Text

  /** One entry of the `results` list. */
  datatype MockHit = MockHit(title: string, url: string, snippet: string)

  /** What `search` returns: `{"results": ..., "query": query}`. */
  datatype MockReply = MockReply(results: seq<MockHit>, query: string)

  const MaxEntries := 5
  const SampleSnippet := "Local sample paper provided for offline testing"
  const Placeholder := MockHit("Mock Paper", "file:///tmp/mock-paper.pdf", "A mock paper used for local testing")

  /** `fname.lower().endswith(".pdf")`, with case folding limited to ASCII. */
  predicate IsPdf(name: string) {
    |name| >= 4 &&
    AsciiLower(name[|name| - 4]) == '.' && AsciiLower(name[|name| - 3]) == 'p' &&
    AsciiLower(name[|name| - 2]) == 'd' && AsciiLower(name[|name| - 1]) == 'f'
  }

  /** The entries that pass the filter, in listing order. */
  function Pdfs(names: seq<string>): seq<string> {
    if names == [] then []
    else Pdfs(names[..|names| - 1]) + (if IsPdf(names[|names| - 1]) then [names[|names| - 1]] else [])
  }

  /** Where the entries that pass the filter sit in the listing: the i-th position
      holds the i-th filtered entry. */
  function PdfPositions(names: seq<string>): (ps: seq<nat>)
    ensures |ps| == |Pdfs(names)|
    ensures forall i :: 0 <= i < |ps| ==> ps[i] < |names| && names[ps[i]] == Pdfs(names)[i]
  {
    if names == [] then []
    else
      var last := |names| - 1;
      var init := names[..last];
      var ps := PdfPositions(init);
      assert forall k :: 0 <= k < last ==> init[k] == names[k];
      ps + (if IsPdf(names[last]) then [last] else [])
  }

  /** The positions increase. */
  lemma {:induction false} PdfPositionsIncrease(names: seq<string>)
    ensures forall i, j :: 0 <= i < j < |PdfPositions(names)| ==> PdfPositions(names)[i] < PdfPositions(names)[j]
  {
    if names != [] {
      var last := |names| - 1;
      var init := names[..last];
      PdfPositionsIncrease(init);
      var ps0 := PdfPositions(init);
      var ps := PdfPositions(names);
      assert ps == ps0 + (if IsPdf(names[last]) then [last] else []);
      forall i, j | 0 <= i < j < |ps| ensures ps[i] < ps[j] {
        assert ps[i] == ps0[i];
        assert ps0[i] < last;
        if j < |ps0| {
          assert ps[j] == ps0[j] && ps0[i] < ps0[j];
        } else {
          assert ps[j] == last;
        }
      }
    }
  }

  /** The positions are exactly those of the PDF entries. */
  lemma PdfPositionsExact(names: seq<string>)
    ensures forall k :: 0 <= k < |names| ==> (IsPdf(names[k]) <==> k in PdfPositions(names))
  {
    forall k | 0 <= k < |names| ensures IsPdf(names[k]) <==> k in PdfPositions(names) {
      PdfPositionAt(names, k);
    }
  }

  lemma {:induction false} PdfPositionAt(names: seq<string>, k: nat)
    requires k < |names|
    ensures IsPdf(names[k]) <==> k in PdfPositions(names)
  {
    var last := |names| - 1;
    var init := names[..last];
    var ps0 := PdfPositions(init);
    var tail := if IsPdf(names[last]) then [last] else [];
    assert PdfPositions(names) == ps0 + tail;
    assert last !in ps0;
    if k < last {
      PdfPositionAt(init, k);
      assert init[k] == names[k] && k !in tail;
    }
  }

  /** `s.replace(old, new)` for one-character strings. */
  function ReplaceChar(s: string, from: char, to: char): (r: string)
    ensures |r| == |s|
    ensures forall i :: 0 <= i < |s| ==> r[i] == (if s[i] == from then to else s[i])
  {
    seq(|s|, i requires 0 <= i < |s| => if s[i] == from then to else s[i])
  }

  /** `s.replace(pat, "")`: removes non-overlapping occurrences from the left. */
  function RemoveAll(s: string, pat: string): (r: string)
    requires pat != []
    ensures |r| <= |s|
    ensures (forall i :: 0 <= i <= |s| ==> !OccursAt(s, pat, i)) ==> r == s
    decreases |s|
  {
    if |s| < |pat| then s
    else if s[..|pat|] == pat then
      assert OccursAt(s, pat, 0);
      RemoveAll(s[|pat|..], pat)
    else
      var rest := RemoveAll(s[1..], pat);
      assert forall i :: 0 <= i <= |s[1..]| && OccursAt(s[1..], pat, i) ==> OccursAt(s, pat, i + 1);
      [s[0]] + rest
  }

  /** `pat` occurs in `s` starting at index i. */
  predicate OccursAt(s: string, pat: string, i: int) {
    0 <= i && i + |pat| <= |s| && s[i..i + |pat|] == pat
  }

  /** `os.path.join(directory, name)` for a bare file name. */
  function PathJoin(directory: string, name: string): string {
    if directory == [] || directory[|directory| - 1] == '/' then directory + name else directory + "/" + name
  }

  /** `fname.replace("_", " ").replace(".pdf", "")` */
  function TitleFor(name: string): string {
    RemoveAll(ReplaceChar(name, '_', ' '), ".pdf")
  }

  function SamplePaper(directory: string, name: string): MockHit {
    MockHit(TitleFor(name), "file://" + PathJoin(directory, name), SampleSnippet)
  }

  function SamplePapers(directory: string, names: seq<string>): (r: seq<MockHit>)
    ensures |r| == |names|
    ensures forall i :: 0 <= i < |names| ==> r[i] == SamplePaper(directory, names[i])
  {
    seq(|names|, i requires 0 <= i < |names| => SamplePaper(directory, names[i]))
  }

  /** The `results` list for a listing. */
  function MockResults(directory: string, listing: Option<seq<string>>): seq<MockHit> {
    match listing
    case None => [Placeholder]
    case Some(names) => SamplePapers(directory, Pdfs(Take(names, MaxEntries)))
  }

  class MockTavilyClient {
    const apiKey: Option<string>
    /** The absolute path of the sample directory next to the package. */
    const sampleDir: string

    constructor (apiKey: Option<string>, sampleDir: string)
      ensures this.apiKey == apiKey && this.sampleDir == sampleDir
    {
      this.apiKey := apiKey;
      this.sampleDir := sampleDir;
    }

    method Search(query: string, listing: Option<seq<string>>) returns (reply: MockReply)
      ensures reply.query == query
      ensures reply.results == MockResults(sampleDir, listing)
    {
      var results: seq<MockHit> := [];
      match listing {
        case None =>
          results := results + [Placeholder];
        case Some(names) =>
          var first := Take(names, MaxEntries);
          var i := 0;
          while i < |first|
            invariant 0 <= i <= |first|
            invariant results == SamplePapers(sampleDir, Pdfs(first[..i]))
          {
            var fname := first[i];
            assert first[..i + 1][..i] == first[..i];
            if IsPdf(fname) {
              results := results + [SamplePaper(sampleDir, fname)];
            }
            i := i + 1;
          }
          assert first[..i] == first;
      }
      reply := MockReply(results, query);
    }
  }

  // ---------------------------------------------------------------------------
  // Properties

  /** An entry is reported exactly when it is among the first five and is a PDF. */
  lemma {:induction false} PdfsAreTheFilteredEntries(names: seq<string>, x: string)
    ensures x in Pdfs(names) <==> x in names && IsPdf(x)
    ensures |Pdfs(names)| <= |names|
  {
    if names != [] {
      var init := names[..|names| - 1];
      PdfsAreTheFilteredEntries(init, x);
      assert names == init + [names[|names| - 1]];
    }
  }

  /** At most five results, one per PDF among the first five entries, each pointing
      at its file in the sample directory, in listing order. */
  lemma MockResultsFromListing(directory: string, names: seq<string>)
    ensures |MockResults(directory, Some(names))| <= MaxEntries
    ensures var ps := PdfPositions(Take(names, MaxEntries));
      && |MockResults(directory, Some(names))| == |ps|
      && forall i :: 0 <= i < |ps| ==> MockResults(directory, Some(names))[i] == SamplePaper(directory, names[ps[i]])
    ensures forall name :: name in Take(names, MaxEntries) && IsPdf(name) ==>
      SamplePaper(directory, name) in MockResults(directory, Some(names))
    ensures forall h :: h in MockResults(directory, Some(names)) ==>
      exists name :: name in Take(names, MaxEntries) && IsPdf(name) && h == SamplePaper(directory, name)
  {
    var first := Take(names, MaxEntries);
    var pdfs := Pdfs(first);
    var results := MockResults(directory, Some(names));
    PdfsAreTheFilteredEntries(first, "");
    forall name | name in first && IsPdf(name)
      ensures SamplePaper(directory, name) in results
    {
      PdfsAreTheFilteredEntries(first, name);
      var i :| 0 <= i < |pdfs| && pdfs[i] == name;
      assert results[i] == SamplePaper(directory, name);
    }
    forall h | h in results
      ensures exists name :: name in first && IsPdf(name) && h == SamplePaper(directory, name)
    {
      var i :| 0 <= i < |results| && results[i] == h;
      PdfsAreTheFilteredEntries(first, pdfs[i]);
      assert pdfs[i] in pdfs;
    }
  }

  /** A missing sample directory gives the placeholder alone. */
  lemma MockResultsWithoutDirectory(directory: string)
    ensures MockResults(directory, None) == [MockHit("Mock Paper", "file:///tmp/mock-paper.pdf", "A mock paper used for local testing")]
  {
  }

  lemma {:induction false} RemoveAllKeepsOnlyItsCharacters(s: string, pat: string, c: char)
    requires pat != []
    requires c !in s
    ensures c !in RemoveAll(s, pat)
    decreases |s|
  {
    if |s| >= |pat| {
      if s[..|pat|] == pat {
        RemoveAllKeepsOnlyItsCharacters(s[|pat|..], pat, c);
      } else {
        RemoveAllKeepsOnlyItsCharacters(s[1..], pat, c);
      }
    }
  }

  /** The leftmost occurrence is removed, with the text before it kept as it is. */
  lemma {:induction false} RemoveAllFirst(a: string, pat: string, b: string)
    requires pat != []
    requires forall i :: 0 <= i < |a| ==> !OccursAt(a + pat + b, pat, i)
    ensures RemoveAll(a + pat + b, pat) == a + RemoveAll(b, pat)
    decreases |a|
  {
    var s := a + pat + b;
    if a == [] {
      assert s == pat + b;
      assert s[..|pat|] == pat && s[|pat|..] == b;
    } else {
      RemoveAllSkipsHead(a, pat, b);
      RemoveAllFirst(a[1..], pat, b);
      Assoc([a[0]], a[1..], RemoveAll(b, pat));
      assert a == [a[0]] + a[1..];
    }
  }

  /** Before the first occurrence, the head character is kept and the rest still has
      no earlier occurrence. */
  lemma RemoveAllSkipsHead(a: string, pat: string, b: string)
    requires pat != [] && a != []
    requires forall i :: 0 <= i < |a| ==> !OccursAt(a + pat + b, pat, i)
    ensures RemoveAll(a + pat + b, pat) == [a[0]] + RemoveAll(a[1..] + pat + b, pat)
    ensures forall i :: 0 <= i < |a[1..]| ==> !OccursAt(a[1..] + pat + b, pat, i)
  {
    var s := a + pat + b;
    var t := a[1..] + pat + b;
    assert s[1..] == t;
    assert !OccursAt(s, pat, 0);
    assert s[..|pat|] != pat by {
      assert s[0..|pat|] == s[..|pat|];
    }
    forall i | 0 <= i < |a[1..]| ensures !OccursAt(t, pat, i) {
      assert !OccursAt(s, pat, i + 1);
      assert s[i + 1..i + 1 + |pat|] == t[i..i + |pat|];
    }
  }

  /** A PDF whose stem has no ".pdf" inside gets the stem, with spaces for
      underscores, as its title. */
  lemma TitleOfPdfName(stem: string)
    requires forall i :: 0 <= i < |stem| ==> !OccursAt(ReplaceChar(stem, '_', ' ') + ".pdf", ".pdf", i)
    ensures TitleFor(stem + ".pdf") == ReplaceChar(stem, '_', ' ')
  {
    var spaced := ReplaceChar(stem, '_', ' ');
    assert spaced + ".pdf" + "" == spaced + ".pdf";
    assert ReplaceChar(stem + ".pdf", '_', ' ') == spaced + ".pdf" + "";
    RemoveAllFirst(spaced, ".pdf", "");
    assert spaced + "" == spaced;
  }

  /** Titles never contain an underscore. */
  lemma TitleHasNoUnderscore(name: string)
    ensures '_' !in TitleFor(name)
  {
    var spaced := ReplaceChar(name, '_', ' ');
    assert forall i :: 0 <= i < |spaced| ==> spaced[i] != '_';
    RemoveAllKeepsOnlyItsCharacters(spaced, ".pdf", '_');
  }
}
