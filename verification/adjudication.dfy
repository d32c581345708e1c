/** One adjudication run of the page (`runAdjudication`): the narrative
    stream arrives as already-decoded text chunks; after every chunk the page
    searches the whole accumulated text for a verdict block, shows the text
    with a parsed block cut out, and keeps the parsed verdict as the summary
    card. The run is modelled as a left fold of `Step` over the chunks. */
module Adjudication {
  import opened Wrappers
  import opened Strings
  import opened Fence
  import Json

  /** `JSON.parse`, left opaque: `Some(v)` when it returns `v`, `None` when it throws. */
  type Parser = string -> Option<Json.Value>

  /** The analysis record the main panel shows (`AIAnalysis`). */
  datatype Analysis = Analysis(summary: string, confidence: int, articles: seq<Json.Value>)

  /** The state one run reads and writes: the run's local accumulated text,
      the `aiAnalysis`, `summaryCardData` and `isAnalyzing` page states.
      `summaryCard == None` stands for the `null` the page stores. */
  datatype RunState = RunState(
    accumulated: string,
    analysis: Option<Analysis>,
    summaryCard: Option<Json.Value>,
    analyzing: bool)

  /** The state at the start of a run: analysis reset to an empty summary
      with confidence 0 and no articles, summary card cleared, analyzing set,
      nothing accumulated. */
  const Started: RunState := RunState("", Some(Analysis("", 0, [])), None, true)

  /** The functional update of `aiAnalysis`: a new summary, with confidence
      and articles taken over from the previous analysis (0 and [] without
      one). `prev.confidence || 0` is the confidence itself on integers. */
  function Carry(prev: Option<Analysis>, summary: string): Analysis {
    match prev
    case None => Analysis(summary, 0, [])
    case Some(a) => Analysis(summary, a.confidence, a.articles)
  }

  /** What one scan of the accumulated text yields. */
  datatype Extraction = Extraction(verdict: Option<Json.Value>, display: string)

  /** The verdict the scan yields: the parsed content of the first complete
      block, or `None` when there is none or it does not parse. */
  function VerdictOf(parse: Parser, acc: string): Option<Json.Value> {
    var found := FindFencedBlock(acc);
    if found.None? then None else parse(Content(acc, found.value))
  }

  /** The scan the page performs after every chunk (page.tsx, lines 57-69):
      a block whose content parses becomes the verdict and is cut out of the
      trimmed display text; without a block, or when the content does not
      parse, the display text is the accumulated text unchanged. */
  function Extract(parse: Parser, acc: string): (e: Extraction)
    ensures (forall i, j :: !MatchesAt(acc, i, j)) ==> e == Extraction(None, acc)
    ensures e.verdict.None? ==> e.display == acc
  {
    var v := VerdictOf(parse, acc);
    if v.None? then Extraction(None, acc)
    else
      var b := FindFencedBlock(acc).value;
      Extraction(v, Trim(RemoveFirst(acc, Matched(acc, b))))
  }

  /** Extraction at the block the regular expression reports: the verdict
      is the parsed content, and the display text is the accumulated text
      with exactly that block cut out, then trimmed; when the content does
      not parse, the verdict is absent and the text is left untrimmed. */
  lemma ExtractAtFirstMatch(parse: Parser, acc: string, i: nat, j: nat)
    requires IsFirstMatch(acc, i, j)
    ensures parse(acc[i + |Opener|..j]).None? ==> Extract(parse, acc) == Extraction(None, acc)
    ensures parse(acc[i + |Opener|..j]).Some? ==>
              Extract(parse, acc) == Extraction(parse(acc[i + |Opener|..j]),
                                                Trim(acc[..i] + acc[j + |Closer|..]))
  {
    FoundAtFirstMatch(acc, i, j);
    var b := Block(i, j);
    var content := acc[i + |Opener|..j];
    assert Content(acc, b) == content;
    assert VerdictOf(parse, acc) == parse(content);
    if parse(content).Some? {
      RemoveMatched(acc, b);
      assert RemoveFirst(acc, Matched(acc, b)) == acc[..i] + acc[j + |Closer|..];
    }
  }

  /** One iteration of the read loop: append the chunk, rescan, update the
      summary text and, on a successful parse, the summary card. */
  function Step(parse: Parser, s: RunState, chunk: string): (r: RunState)
    ensures r.accumulated == s.accumulated + chunk
    ensures r.analyzing == s.analyzing
    ensures r.analysis.Some? && r.analysis.value.summary == Extract(parse, r.accumulated).display
    ensures s.analysis.Some? ==> r.analysis.value.confidence == s.analysis.value.confidence
                                 && r.analysis.value.articles == s.analysis.value.articles
    ensures VerdictOf(parse, r.accumulated).Some? ==> r.summaryCard == VerdictOf(parse, r.accumulated)
    ensures VerdictOf(parse, r.accumulated).None? ==> r.summaryCard == s.summaryCard
  {
    var acc := s.accumulated + chunk;
    var v := VerdictOf(parse, acc);
    RunState(acc, Some(Carry(s.analysis, Extract(parse, acc).display)),
             if v.Some? then v else s.summaryCard,
             s.analyzing)
  }

  /** The read loop over the chunks in arrival order. */
  function Fold(parse: Parser, s: RunState, chunks: seq<string>): RunState
    decreases |chunks|
  {
    if chunks == [] then s else Fold(parse, Step(parse, s, chunks[0]), chunks[1..])
  }

  /** A whole run: reset, read every chunk, then clear the analyzing flag
      (the `finally` block). A failing fetch or read ends the loop early; the
      state is then that of the chunks read so far. */
  function Run(parse: Parser, chunks: seq<string>): RunState {
    Fold(parse, Started, chunks).(analyzing := false)
  }

  /** The accumulated text is every chunk, in order, with nothing dropped. */
  lemma {:induction false} FoldAccumulates(parse: Parser, s: RunState, chunks: seq<string>)
    ensures Fold(parse, s, chunks).accumulated == s.accumulated + Concat(chunks)
    decreases |chunks|
  {
    if chunks != [] {
      FoldAccumulates(parse, Step(parse, s, chunks[0]), chunks[1..]);
    }
  }

  /** Once a verdict has been extracted, more text extracts the same verdict:
      the first complete block stays where it is. */
  lemma ExtractStable(parse: Parser, acc: string, t: string)
    requires VerdictOf(parse, acc).Some?
    ensures VerdictOf(parse, acc + t) == VerdictOf(parse, acc)
  {
    var b := FindFencedBlock(acc).value;
    BlockStable(acc, t);
    var u := acc + t;
    assert FindFencedBlock(u) == Some(b);
    assert u[..|acc|] == acc;
    assert Content(u, b) == u[..|acc|][b.ContentStart()..b.closer] == Content(acc, b);

  }

  /** A first complete block that does not parse is final: the pattern keeps
      finding that same block however much text follows, so no later text
      yields a verdict. */
  lemma UnparsedBlockStays(parse: Parser, acc: string, t: string)
    requires FindFencedBlock(acc).Some? && VerdictOf(parse, acc).None?
    ensures VerdictOf(parse, acc + t).None?
  {
    var b := FindFencedBlock(acc).value;
    BlockStable(acc, t);
    var u := acc + t;
    assert FindFencedBlock(u) == Some(b);
    assert u[..|acc|] == acc;
    assert Content(u, b) == u[..|acc|][b.ContentStart()..b.closer] == Content(acc, b);
  }

  /** Two steps do what one step on the joined chunks does. */
  lemma StepCompose(parse: Parser, s: RunState, a: string, b: string)
    ensures Step(parse, Step(parse, s, a), b) == Step(parse, s, a + b)
  {
    var acc1 := s.accumulated + a;
    assert acc1 + b == s.accumulated + (a + b);
    if VerdictOf(parse, acc1).Some? {
      ExtractStable(parse, acc1, b);
    }
  }

  /** How the stream is cut into chunks does not matter: folding any
      non-empty list of chunks is a single step on their concatenation. */
  lemma {:induction false} ChunkingInvariant(parse: Parser, s: RunState, chunks: seq<string>)
    requires |chunks| > 0
    ensures Fold(parse, s, chunks) == Step(parse, s, Concat(chunks))
    decreases |chunks|
  {
    if |chunks| > 1 {
      var rest := chunks[1..];
      ChunkingInvariant(parse, Step(parse, s, chunks[0]), rest);
      StepCompose(parse, s, chunks[0], Concat(rest));
    } else {
      assert chunks[1..] == [];
      assert Concat(chunks) == chunks[0] + Concat([]) == chunks[0];
      assert Fold(parse, s, chunks) == Fold(parse, Step(parse, s, chunks[0]), []);
    }
  }

  /** The state a run ends in: the summary is the display text of the whole
      narrative, the summary card is the verdict extracted from it (or stays
      `null`), confidence 0 and no articles, and the analyzing flag is off. */
  lemma RunOutcome(parse: Parser, chunks: seq<string>)
    ensures var r := Run(parse, chunks);
            var e := Extract(parse, Concat(chunks));
            && r.accumulated == Concat(chunks)
            && !r.analyzing
            && (chunks == [] ==> r.analysis == Some(Analysis("", 0, [])) && r.summaryCard == None)
            && (chunks != [] ==> r.analysis == Some(Analysis(e.display, 0, [])) && r.summaryCard == e.verdict)
  {
    if chunks != [] {
      ChunkingInvariant(parse, Started, chunks);
    }
  }

  /** Within a run the summary card is never cleared: once set, every later
      state still has one. */
  lemma {:induction false} CardNeverCleared(parse: Parser, s: RunState, chunks: seq<string>)
    requires s.summaryCard.Some?
    ensures Fold(parse, s, chunks).summaryCard.Some?
    decreases |chunks|
  {
    if chunks != [] {
      CardNeverCleared(parse, Step(parse, s, chunks[0]), chunks[1..]);
    }
  }

  /** Once the first complete block has failed to parse, the rest of the run
      leaves the summary card as it is: no later chunk can supply a verdict. */
  lemma UnparsedBlockFreezesCard(parse: Parser, s: RunState, chunks: seq<string>)
    requires FindFencedBlock(s.accumulated).Some? && VerdictOf(parse, s.accumulated).None?
    ensures Fold(parse, s, chunks).summaryCard == s.summaryCard
  {
    if chunks != [] {
      ChunkingInvariant(parse, s, chunks);
      UnparsedBlockStays(parse, s.accumulated, Concat(chunks));
    }
  }

  /** The summary card after a non-empty list of chunks: the verdict of the
      whole accumulated text when there is one, the previous card otherwise. */
  lemma FoldCard(parse: Parser, s: RunState, chunks: seq<string>)
    requires |chunks| > 0
    ensures var v := VerdictOf(parse, s.accumulated + Concat(chunks));
            Fold(parse, s, chunks).summaryCard == if v.Some? then v else s.summaryCard
  {
    ChunkingInvariant(parse, s, chunks);
  }

  /** The first complete block wins: once the text read so far yields a
      verdict, no later chunk changes the summary card, even when it brings
      a further block. */
  lemma FirstBlockWins(parse: Parser, s: RunState, chunks: seq<string>, more: seq<string>)
    requires |chunks| > 0
    requires VerdictOf(parse, s.accumulated + Concat(chunks)).Some?
    ensures Fold(parse, s, chunks + more).summaryCard
            == VerdictOf(parse, s.accumulated + Concat(chunks))
  {
    var all := chunks + more;
    var prefix := s.accumulated + Concat(chunks);
    FoldCard(parse, s, all);
    ConcatAppend(chunks, more);
    assert s.accumulated + Concat(all) == prefix + Concat(more);
    ExtractStable(parse, prefix, Concat(more));
    assert VerdictOf(parse, s.accumulated + Concat(all)) == VerdictOf(parse, prefix);
  }

  /** Each chunk changes the summary text only: confidence and articles
      carry over from the state the run began with. */
  lemma {:induction false} FoldKeepsConfidenceAndArticles(parse: Parser, s: RunState, chunks: seq<string>)
    requires s.analysis.Some?
    ensures Fold(parse, s, chunks).analysis.Some?
    ensures Fold(parse, s, chunks).analysis.value.confidence == s.analysis.value.confidence
    ensures Fold(parse, s, chunks).analysis.value.articles == s.analysis.value.articles
    decreases |chunks|
  {
    if chunks != [] {
      FoldKeepsConfidenceAndArticles(parse, Step(parse, s, chunks[0]), chunks[1..]);
    }
  }

  /** Plain narrative split over two chunks shows as one text. */
  lemma PlainNarrativeExample(parse: Parser)
    ensures Run(parse, ["Hello ", "world"]).analysis == Some(Analysis("Hello world", 0, []))
    ensures Run(parse, ["Hello ", "world"]).summaryCard == None
  {
    RunOutcome(parse, ["Hello ", "world"]);
    assert Concat(["Hello ", "world"]) == "Hello world";
    assert forall i, j :: !MatchesAt("Hello world", i, j);
  }

  /** The narrative of the split-fence example after each of its chunks. */
  const SplitFirst: string := "Ok\n```json\n{}\n`"
  const SplitBoth: string := SplitFirst + "``\n"

  /** The first chunk ends inside the closer: no complete block yet. */
  lemma SplitFirstHasNoBlock()
    ensures forall i, j :: !MatchesAt(SplitFirst, i, j)
  {
    assert |SplitFirst| == 15 && SplitFirst[9..13] == "n\n{}";
    forall i, j
      ensures !MatchesAt(SplitFirst, i, j)
    {
      if OccursAt(SplitFirst, Closer, j) {
        assert SplitFirst[j + 1] == SplitFirst[j..j + |Closer|][1] == '`';
      }
    }
  }

  /** After the second chunk the block spans offsets 3 to 17. */
  lemma SplitBothFirstMatch()
    ensures IsFirstMatch(SplitBoth, 3, 13)
  {
    assert SplitBoth[3..11] == Opener;
    assert SplitBoth[13..17] == Closer;
    assert SplitBoth[0..8][0] == 'O' && SplitBoth[1..9][0] == 'k' && SplitBoth[2..10][0] == '\n';
    assert SplitBoth[11..15][0] == '{' && SplitBoth[12..16][0] == '}';
    forall i, j | MatchesAt(SplitBoth, i, j)
      ensures 3 < i || (3 == i && 13 <= j)
    {
      assert i != 0 && i != 1 && i != 2;
      assert i == 3 ==> j != 11 && j != 12;
    }
  }

  /** The second chunk completes the block: its content is the verdict
      and the display text is what remains around it, trimmed. */
  lemma SplitBothExtract(parse: Parser)
    ensures Extract(parse, SplitBoth) ==
            if parse("{}").Some? then Extraction(parse("{}"), "Ok") else Extraction(None, SplitBoth)
  {
    SplitBothFirstMatch();
    SplitBothPieces();
    ExtractWith(parse, SplitBoth, 3, 13, "{}", "Ok");
  }

  /** `ExtractAtFirstMatch` with the block's content and the trimmed rest
      already worked out. */
  lemma ExtractWith(parse: Parser, acc: string, i: nat, j: nat, content: string, display: string)
    requires IsFirstMatch(acc, i, j)
    requires content == acc[i + |Opener|..j]
    requires display == Trim(acc[..i] + acc[j + |Closer|..])
    ensures Extract(parse, acc) ==
            if parse(content).Some? then Extraction(parse(content), display) else Extraction(None, acc)
  {
    ExtractAtFirstMatch(parse, acc, i, j);
  }

  lemma SplitBothPieces()
    ensures SplitBoth[3 + |Opener|..13] == "{}"
    ensures Trim(SplitBoth[..3] + SplitBoth[13 + |Closer|..]) == "Ok"
  {
    assert SplitBoth[..3] + SplitBoth[13 + |Closer|..] == "Ok\n\n";
    TrimOkExample();
  }

  lemma TrimOkExample()
    ensures Trim("Ok\n\n") == "Ok"
  {
    var s := "Ok\n\n";
    assert SkipLeading(s, 0) == 0;
    assert SkipTrailing(s, 0, 2) == 2;
    assert SkipTrailing(s, 0, 4) == SkipTrailing(s, 0, 3) == 2;
  }

  /** A verdict block cut in the middle of its closer: the first chunk
      leaves the card unset and the text raw; the second completes the
      block, sets the card and cuts the block out of the trimmed text. */
  lemma SplitFenceExample(parse: Parser, v: Json.Value)
    requires parse("{}") == Some(v)
    ensures var s1 := Step(parse, Started, SplitFirst);
            && s1.summaryCard == None
            && s1.analysis == Some(Analysis(SplitFirst, 0, []))
            && Step(parse, s1, "``\n").summaryCard == Some(v)
            && Step(parse, s1, "``\n").analysis == Some(Analysis("Ok", 0, []))
  {
    SplitFirstHasNoBlock();
    assert "" + SplitFirst == SplitFirst;
    var s1 := Step(parse, Started, SplitFirst);
    assert s1 == RunState(SplitFirst, Some(Analysis(SplitFirst, 0, [])), None, true);
    assert SplitFirst + "``\n" == SplitBoth;
    SplitBothExtract(parse);
    assert VerdictOf(parse, SplitBoth) == Some(v);
  }
}
