// Where a text is split into paragraphs and sentences: at every boundary, there only, and the whole
// of the whitespace there (services/chunking.py, the two patterns), and what that makes of short and
// of fitting paragraphs.
module SplitBoundaries {
  import opened Text
  import opened Chunking
  import opened ChunkingProofs
  import opened PackingOptimality
  import opened SentenceGrouping

  // The parts with the separators between them.
  function Weave(parts: seq<string>, seps: seq<string>): string
    requires |parts| == |seps| + 1
  {
    if seps == [] then parts[0] else parts[0] + seps[0] + Weave(parts[1..], seps[1..])
  }

  // ---- sentences --------------------------------------------------------------------------

  // Whitespace after a full stop, exclamation or question mark, all of it.
  predicate SentenceGap(before: string, sep: string, after: string) {
    && before != "" && before[|before| - 1] in {'.', '!', '?'}
    && sep != "" && Blank(sep)
    && (after != "" ==> !IsSpace(after[0]))
  }

  ghost predicate SentenceGaps(parts: seq<string>, seps: seq<string>)
    requires |parts| == |seps| + 1
  {
    forall i, j :: 0 <= i < j < |parts| && j == i + 1 ==> SentenceGap(parts[i], seps[i], parts[j])
  }

  lemma SentenceGapsCons(first: string, sep: string, parts: seq<string>, seps: seq<string>)
    requires |parts| == |seps| + 1 && SentenceGaps(parts, seps) && SentenceGap(first, sep, parts[0])
    ensures SentenceGaps([first] + parts, [sep] + seps)
  {
    hide SentenceGap;
    var p, q := [first] + parts, [sep] + seps;
    forall i, j | 0 <= i < j < |p| && j == i + 1
      ensures SentenceGap(p[i], q[i], p[j])
    {
      if i > 0 {
        assert p[i] == parts[i - 1] && q[i] == seps[i - 1] && p[j] == parts[i];
      }
    }
  }

  // A text is its sentences with whitespace between them; each ends on one of the three marks, and
  // the whitespace after it is all there is there.
  lemma {:induction false} SentencesAreSeparated(s: string) returns (seps: seq<string>)
    ensures |Sentences(s)| == |seps| + 1 && Weave(Sentences(s), seps) == s
    ensures SentenceGaps(Sentences(s), seps)
    ensures s != "" ==> Sentences(s)[0] != "" && Sentences(s)[0][0] == s[0]
    ensures s == "" ==> Sentences(s)[0] == ""
    decreases |s|
  {
    var r := SentenceBreak(s, 0);
    if r.None? {
      seps := [];
    } else {
      var e := SpaceEnd(s, r.value);
      var rest := s[e..];
      var later := SentencesAreSeparated(rest);
      seps := [s[r.value..e]] + later;
      assert seps[1..] == later;
      assert Sentences(s)[1..] == Sentences(rest);
      SentenceGapsCons(s[..r.value], s[r.value..e], Sentences(rest), later);
      Slices(s, r.value, e);
    }
  }

  // ---- paragraphs -------------------------------------------------------------------------

  // Whitespace from one newline to another, the last there is before the text goes on.
  predicate ParagraphGap(sep: string, after: string) {
    && |sep| >= 2 && Blank(sep) && sep[0] == '\n' && sep[|sep| - 1] == '\n'
    && forall j :: 0 <= j < |after| && Blank(after[..j]) ==> after[j] != '\n'
  }

  ghost predicate ParagraphGaps(parts: seq<string>, seps: seq<string>)
    requires |parts| == |seps| + 1
  {
    forall i, j :: 0 <= i < j < |parts| && j == i + 1 ==> ParagraphGap(seps[i], parts[j])
  }

  lemma ParagraphGapsCons(first: string, sep: string, parts: seq<string>, seps: seq<string>)
    requires |parts| == |seps| + 1 && ParagraphGaps(parts, seps) && ParagraphGap(sep, parts[0])
    ensures ParagraphGaps([first] + parts, [sep] + seps)
  {
    hide ParagraphGap;
    var p, q := [first] + parts, [sep] + seps;
    forall i, j | 0 <= i < j < |p| && j == i + 1
      ensures ParagraphGap(q[i], p[j])
    {
      if i > 0 {
        assert q[i] == seps[i - 1] && p[j] == parts[i];
      }
    }
  }

  lemma GapAt(s: string, r: nat, e: nat, after: string)
    requires r < |s| && ParagraphEndsAt(s, r) && e == NewlineEnd(s, r + 1, SpaceEnd(s, r + 1))
    requires after <= s[e..]
    ensures ParagraphGap(s[r..e], after)
  {
    var end := SpaceEnd(s, r + 1);
    forall j | 0 <= j < |after| && Blank(after[..j])
      ensures after[j] != '\n'
    {
      assert after[j] == s[e + j];
      assert forall i :: 0 <= i < j ==> after[..j][i] == s[e + i];
    }
  }

  // A text is its paragraphs with blank lines between them, each from its first newline to its last.
  lemma {:induction false} ParagraphsAreSeparated(s: string) returns (seps: seq<string>)
    ensures |Paragraphs(s)| == |seps| + 1 && Weave(Paragraphs(s), seps) == s
    ensures ParagraphGaps(Paragraphs(s), seps)
    ensures Paragraphs(s)[0] <= s
    decreases |s|
  {
    var r := ParagraphBreak(s, 0);
    if r.None? {
      seps := [];
    } else {
      var e := NewlineEnd(s, r.value + 1, SpaceEnd(s, r.value + 1));
      var rest := s[e..];
      var later := ParagraphsAreSeparated(rest);
      GapAt(s, r.value, e, Paragraphs(rest)[0]);
      seps := [s[r.value..e]] + later;
      assert seps[1..] == later;
      assert Paragraphs(s)[1..] == Paragraphs(rest);
      ParagraphGapsCons(s[..r.value], s[r.value..e], Paragraphs(rest), later);
      Slices(s, r.value, e);
    }
  }

  // ---- what fits is left whole ------------------------------------------------------------

  // A text within the budget is one chunk, a blank one none.
  lemma ShortTextIsOneChunk(text: string, size: nat, overlap: int)
    requires size > 0 && |Strip(text)| <= size
    ensures Split(text, size, overlap) == if Strip(text) == "" then [] else [Strip(text)]
  {
  }

  // Paragraphs within the budget are pieces, each of them whole; blank ones are dropped.
  lemma {:induction false} FittingParagraphsStayWhole(paragraphs: seq<string>, size: nat)
    requires size > 0 && forall i :: 0 <= i < |paragraphs| ==> |Strip(paragraphs[i])| <= size
    ensures Pieces(paragraphs, size) == Worded(paragraphs)
  {
    hide Strip;
    if paragraphs != [] {
      FittingParagraphsStayWhole(paragraphs[1..], size);
    }
  }

  // The pieces of a list of paragraphs are the pieces of each, in order.
  lemma {:induction false} PiecesConcat(a: seq<string>, b: seq<string>, size: nat)
    requires size > 0
    ensures Pieces(a + b, size) == Pieces(a, size) + Pieces(b, size)
  {
    if a == [] {
      assert a + b == b;
    } else {
      assert (a + b)[1..] == a[1..] + b;
      PiecesConcat(a[1..], b, size);
    }
  }

  lemma {:induction false} WordedIsFull(parts: seq<string>, size: nat)
    requires forall i :: 0 <= i < |parts| ==> |Strip(parts[i])| <= size
    ensures FullPieces(Worded(parts), size)
  {
    hide Strip;
    if parts != [] {
      WordedIsFull(parts[1..], size);
    }
  }

  // A long text whose paragraphs fit, without overlap: every chunk is some whole paragraphs with a
  // blank line between them, in order, and no such division has fewer chunks.
  lemma ChunksAreWholeParagraphs(text: string, size: nat) returns (groups: seq<seq<string>>)
    requires size > 0 && |Strip(text)| > size
    requires forall i :: 0 <= i < |Paragraphs(Strip(text))| ==> |Strip(Paragraphs(Strip(text))[i])| <= size
    ensures IsGrouping(groups, Worded(Paragraphs(Strip(text))), size)
    ensures var c := Split(text, size, 0);
            && |c| == |groups|
            && (forall i :: 0 <= i < |c| ==> c[i] == Join(groups[i]))
            && forall other :: IsGrouping(other, Worded(Paragraphs(Strip(text))), size) ==> |c| <= |other|
  {
    var paragraphs := Paragraphs(Strip(text));
    FittingParagraphsStayWhole(paragraphs, size);
    WordedIsFull(paragraphs, size);
    groups := GreedyIsAGrouping(Worded(paragraphs), size);
    forall other | IsGrouping(other, Worded(paragraphs), size)
      ensures |groups| <= |other|
    {
      GreedyIsOptimal(Worded(paragraphs), size, other);
    }
  }

  // An overlap between nothing and half the budget is used as it is; any other as the nearest of
  // the two.
  lemma OverlapIsClamped(overlap: int, size: nat)
    ensures 0 <= overlap <= size / 2 ==> Clamp(overlap, size) == overlap
    ensures overlap < 0 ==> Clamp(overlap, size) == 0
    ensures overlap > size / 2 ==> Clamp(overlap, size) == size / 2
  {
  }
}
