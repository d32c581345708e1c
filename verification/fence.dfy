/** The verdict block embedded in the narrative: the page looks for it with
    the regular expression /```json\n([\s\S]*?)\n```/, which is unanchored
    and lazy. The match therefore begins at the leftmost position where a
    complete block begins, and among those it ends at the nearest closer. */
module Fence {
  import opened Wrappers
  import opened Strings

  const Opener: string := "```json\n"
  const Closer: string := "\n```"

  /** A match: the opener begins at `start`, the closer at `closer`. */
  datatype Block = Block(start: nat, closer: nat) {
    /** Offset of the first character of the captured content. */
    function ContentStart(): nat { start + |Opener| }
    /** Offset just past the closer. */
    function End(): nat { closer + |Closer| }
  }

  /** The pattern matches `s[i..j + |Closer|]`, capturing `s[i + |Opener|..j]`. */
  predicate MatchesAt(s: string, i: int, j: int) {
    OccursAt(s, Opener, i) && i + |Opener| <= j && OccursAt(s, Closer, j)
  }

  /** `(i, j)` is the match a JavaScript regular expression reports: no match
      starts further left, and none with the same start ends sooner. */
  ghost predicate IsFirstMatch(s: string, i: int, j: int) {
    && MatchesAt(s, i, j)
    && forall i', j' :: MatchesAt(s, i', j') ==> i < i' || (i == i' && j <= j')
  }

  /** `s.match(/```json\n([\s\S]*?)\n```/)`: the leftmost opener followed by
      the nearest closer after it, or `None` when no complete block exists. */
  function FindFencedBlock(s: string): (r: Option<Block>)
    ensures r.Some? ==> IsFirstMatch(s, r.value.start, r.value.closer)
    ensures r.None? <==> forall i, j :: !MatchesAt(s, i, j)
  {
    match IndexOf(s, Opener, 0)
    case None => None
    case Some(i) =>
      match IndexOf(s, Closer, i + |Opener|)
      case None => None
      case Some(j) => Some(Block(i, j))
  }

  /** The text the match covers, fences included (`jsonMatch[0]`). */
  function Matched(s: string, b: Block): string
    requires b.ContentStart() <= b.closer && b.End() <= |s|
  {
    s[b.start..b.End()]
  }

  /** The captured content between the fences (`jsonMatch[1]`). */
  function Content(s: string, b: Block): string
    requires b.ContentStart() <= b.closer <= |s|
  {
    s[b.ContentStart()..b.closer]
  }

  /** There is only one first match. */
  lemma FirstMatchUnique(s: string, i: int, j: int, i': int, j': int)
    requires IsFirstMatch(s, i, j) && IsFirstMatch(s, i', j')
    ensures i == i' && j == j'
  {
  }

  /** The block the search returns is the first match, whichever way the
      first match is described. */
  lemma FoundAtFirstMatch(s: string, i: int, j: int)
    requires IsFirstMatch(s, i, j)
    ensures FindFencedBlock(s) == Some(Block(i, j))
  {

  }

  /** Appending text never moves a block that is already complete: the
      leftmost match of a prefix stays the leftmost match of any extension. */
  lemma {:induction false} BlockStable(s: string, t: string)
    requires FindFencedBlock(s).Some?
    ensures FindFencedBlock(s + t) == FindFencedBlock(s)
  {
    var b := FindFencedBlock(s).value;
    var u := s + t;
    assert u[..|s|] == s;
    forall k | 0 <= k <= |s| - |Opener|
      ensures OccursAt(u, Opener, k) == OccursAt(s, Opener, k)
    {
      assert u[k..k + |Opener|] == u[..|s|][k..k + |Opener|];
    }
    forall k | 0 <= k <= |s| - |Closer|
      ensures OccursAt(u, Closer, k) == OccursAt(s, Closer, k)
    {
      assert u[k..k + |Closer|] == u[..|s|][k..k + |Closer|];
    }
    assert MatchesAt(u, b.start, b.closer);
    forall i, j | MatchesAt(u, i, j)
      ensures b.start < i || (b.start == i && b.closer <= j)
    {
      if i == b.start && j < b.closer {
        assert MatchesAt(s, i, j);
        assert false;
      }
    }
    assert IsFirstMatch(u, b.start, b.closer);
    var r := FindFencedBlock(u);
    assert r.Some?;
    FirstMatchUnique(u, b.start, b.closer, r.value.start, r.value.closer);
  }

  /** `s.replace(jsonMatch[0], "")` removes exactly the matched block: the
      first occurrence of the matched text is the match itself, because an
      earlier one would begin with an earlier opener that has a closer after it. */
  lemma RemoveMatched(s: string, b: Block)
    requires IsFirstMatch(s, b.start, b.closer)
    ensures RemoveFirst(s, Matched(s, b)) == s[..b.start] + s[b.End()..]
  {
    var m := Matched(s, b);
    assert OccursAt(s, m, b.start);
    forall k | 0 <= k < b.start
      ensures !OccursAt(s, m, k)
    {
      if OccursAt(s, m, k) {
        assert s[k..k + |Opener|] == s[k..k + |m|][..|Opener|];
        assert MatchesAt(s, k, b.closer);
      }
    }
    RemoveFirstAt(s, m, b.start);
  }
}
