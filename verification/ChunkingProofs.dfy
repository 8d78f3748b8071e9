// What chunking promises: no text lost or reordered, every chunk within the budget and worth
// embedding, cuts inside words only where there is no choice, the overlap, and the fewest chunks.
module ChunkingProofs {
  import opened Text
  import opened Chunking

  // ---- the structural splits lose only whitespace -----------------------------------------

  lemma EraseMiddle(a: string, b: string, c: string)
    requires Blank(b)
    ensures Erase(a + b + c) == Erase(a) + Erase(c)
  {
    EraseBlank(b);
    EraseConcat(a, b);
    EraseConcat(a + b, c);
  }

  lemma Slices(s: string, i: nat, e: nat)
    requires i <= e <= |s|
    ensures s[..i] + s[i..e] + s[e..] == s
  {
  }

  lemma EraseDropped(s: string, i: nat, e: nat)
    requires i <= e <= |s| && Blank(s[i..e])
    ensures Erase(s) == Erase(s[..i]) + Erase(s[e..])
  {
    EraseMiddle(s[..i], s[i..e], s[e..]);
    Slices(s, i, e);
  }

  // A first part, whitespace dropped, and the parts of what follows.
  lemma KeepTextCons(s: string, i: nat, e: nat, later: seq<string>)
    requires i <= e <= |s| && Blank(s[i..e]) && Erase(Concat(later)) == Erase(s[e..])
    ensures Erase(Concat([s[..i]] + later)) == Erase(s)
  {
    EraseDropped(s, i, e);
    EraseConcat(s[..i], Concat(later));
    assert ([s[..i]] + later)[1..] == later;
  }

  lemma KeepTextOne(s: string)
    ensures Erase(Concat([s])) == Erase(s)
  {
    assert Concat([s]) == s + Concat([]) == s;
  }

  lemma {:induction false} SentencesKeepText(s: string)
    ensures Erase(Concat(Sentences(s))) == Erase(s)
    decreases |s|
  {
    hide Erase, Concat;
    var r := SentenceBreak(s, 0);
    if r.None? {
      KeepTextOne(s);
    } else {
      var e := SpaceEnd(s, r.value);
      SentencesKeepText(s[e..]);
      KeepTextCons(s, r.value, e, Sentences(s[e..]));
    }
  }

  lemma {:induction false} ParagraphsKeepText(s: string)
    ensures Erase(Concat(Paragraphs(s))) == Erase(s)
    decreases |s|
  {
    hide Erase, Concat, SpaceEnd, NewlineEnd, ParagraphBreak;
    var r := ParagraphBreak(s, 0);
    if r.None? {
      KeepTextOne(s);
    } else {
      var e := NewlineEnd(s, r.value + 1, SpaceEnd(s, r.value + 1));
      ParagraphsKeepText(s[e..]);
      KeepTextCons(s, r.value, e, Paragraphs(s[e..]));
    }
  }

  // No full stop, exclamation or question mark with whitespace after it.
  predicate NoSentenceBreak(s: string) {
    forall j :: 1 <= j < |s| && s[j - 1] in {'.', '!', '?'} ==> !IsSpace(s[j])
  }

  // No two newlines with nothing but whitespace between them.
  ghost predicate NoParagraphBreak(s: string) {
    forall i, j :: 0 <= i < j < |s| && s[i] == '\n' && s[j] == '\n' ==> !Blank(s[i..j])
  }

  // Every break is taken: no sentence, and no paragraph, has one left inside.
  lemma {:induction false} SentencesAreUnbroken(s: string)
    ensures forall i :: 0 <= i < |Sentences(s)| ==> NoSentenceBreak(Sentences(s)[i])
    decreases |s|
  {
    var r := SentenceBreak(s, 0);
    var n := if r.Some? then r.value else |s|;
    assert NoSentenceBreak(s[..n]) by {
      forall j | 1 <= j < n && s[..n][j - 1] in {'.', '!', '?'}
        ensures !IsSpace(s[..n][j])
      {
        assert !SentenceEndsAt(s, j);
      }
    }
    if r.Some? {
      SentencesAreUnbroken(s[SpaceEnd(s, r.value)..]);
    } else {
      assert s[..n] == s;
    }
  }

  lemma NewlinesBreak(s: string, i: nat, j: nat)
    requires i < j < |s| && s[i] == '\n' && s[j] == '\n' && Blank(s[i..j])
    ensures ParagraphEndsAt(s, i)
  {
    assert forall k :: i <= k < j ==> s[k] == s[i..j][k - i];
    assert SpaceEnd(s, i + 1) > j;
    assert NewlineEnd(s, i + 1, SpaceEnd(s, i + 1)) > j;
  }

  lemma UnbrokenBefore(s: string, n: nat)
    requires n <= |s| && forall j :: 0 <= j < n ==> !ParagraphEndsAt(s, j)
    ensures NoParagraphBreak(s[..n])
  {
    forall i, j | 0 <= i < j < n && s[i] == '\n' && s[j] == '\n'
      ensures !Blank(s[..n][i..j])
    {
      assert s[..n][i..j] == s[i..j];
      if Blank(s[i..j]) {
        NewlinesBreak(s, i, j);
      }
    }
  }

  lemma {:induction false} ParagraphsAreUnbroken(s: string)
    ensures forall i :: 0 <= i < |Paragraphs(s)| ==> NoParagraphBreak(Paragraphs(s)[i])
    decreases |s|
  {
    var r := ParagraphBreak(s, 0);
    if r.Some? {
      ParagraphsAreUnbroken(s[NewlineEnd(s, r.value + 1, SpaceEnd(s, r.value + 1))..]);
      UnbrokenBefore(s, r.value);
    } else {
      UnbrokenBefore(s, |s|);
      assert s[..|s|] == s;
    }
  }

  // ---- pieces -----------------------------------------------------------------------------

  // A piece is empty (the quirk below) or starts on text; it is never over the budget.
  predicate IsPiece(p: string, size: nat) {
    |p| <= size && (p != "" ==> !IsSpace(p[0]))
  }

  predicate ArePieces(pieces: seq<string>, size: nat) {
    forall i :: 0 <= i < |pieces| ==> IsPiece(pieces[i], size)
  }

  lemma StrippedSuffix(s: string, cut: nat)
    requires Stripped(s) && cut < |s|
    ensures var rest := LStrip(s[cut..]); rest != "" && Stripped(rest) && Erase(rest) == Erase(s[cut..])
  {
    var t := s[cut..];
    var k := LStripCut(t);
    assert !Blank(t) by {
      assert t[|t| - 1] == s[|s| - 1];
    }
    EraseBlank(t);
    assert LStrip(t)[|LStrip(t)| - 1] == s[|s| - 1];
  }

  ghost predicate Placed(s: string, piece: string, a: nat, size: nat) {
    && a + |piece| <= |s| && piece == s[a..a + |piece|]
    && 1 <= |piece| <= size && !IsSpace(piece[0])
  }

  ghost predicate NoSpace(s: string, lo: nat, hi: nat) {
    hi < |s| && forall j :: lo <= j <= hi ==> s[j] != ' '
  }

  // A piece of length n at position a, and the next one at b: what was left did not fit, the cut is
  // at the last space of the budget, only whitespace lies between them, and none at all only if the
  // whole budget from a, and the character after it, hold no space.
  ghost predicate Meet(s: string, a: nat, n: nat, b: nat, size: nat) {
    && a + size < |s|
    && (forall j :: a + n < j < a + size ==> s[j] != ' ')
    && a + n <= b <= |s| && Blank(s[a + n..b])
    && (a + n == b ==> NoSpace(s, a, a + size))
  }

  // Where each piece of a hard cut lies in the text.
  ghost predicate CutFrom(s: string, pieces: seq<string>, at: seq<nat>, size: nat) {
    && |at| == |pieces| && pieces != []
    && (forall i :: 0 <= i < |at| ==> Placed(s, pieces[i], at[i], size))
    && (forall i, j :: 0 <= i < j < |at| && j == i + 1 ==> Meet(s, at[i], |pieces[i]|, at[j], size))
    && at[|at| - 1] + |pieces[|at| - 1]| == |s|
  }

  ghost predicate CutAt(s: string, pieces: seq<string>, at: seq<nat>, size: nat) {
    if s == "" then pieces == [] && at == [] else CutFrom(s, pieces, at, size) && at[0] == 0
  }

  // The first cut, and where the text goes on after it.
  lemma FirstCut(s: string, size: nat) returns (from: nat)
    requires 0 < size < |s| && Stripped(s)
    ensures 0 < from < |s| && Stripped(s[from..]) && LStrip(s[Cut(s, size)..]) == s[from..]
    ensures Placed(s, s[..Cut(s, size)], 0, size) && Meet(s, 0, |s[..Cut(s, size)]|, from, size)
  {
    var cut := Cut(s, size);
    var t := s[cut..];
    var k := LStripCut(t);
    StrippedSuffix(s, cut);
    from := cut + k;
    assert t[k..] == s[from..];
    assert t[..k] == s[cut..from];
    assert s[0..cut] == s[..cut];
    if k == 0 {
      assert LStrip(t)[0] == s[cut];
      assert NoSpace(s, 0, size);
    }
  }

  lemma SliceOfSuffix(s: string, from: nat, a: nat, b: nat)
    requires from <= |s| && a <= b <= |s| - from
    ensures s[from..][a..b] == s[a + from..b + from]
  {
  }

  // The pieces of a suffix, seen in the whole text.
  lemma ShiftCut(s: string, rest: string, from: nat, pieces: seq<string>, at: seq<nat>,
                 size: nat) returns (moved: seq<nat>)
    requires from <= |s| && rest == s[from..] && rest != ""
    requires CutAt(rest, pieces, at, size)
    ensures CutFrom(s, pieces, moved, size) && moved[0] == from
  {
    moved := seq(|at|, i requires 0 <= i < |at| => at[i] + from);
    forall i | 0 <= i < |moved|
      ensures Placed(s, pieces[i], moved[i], size)
    {
      assert Placed(rest, pieces[i], at[i], size);
      SliceOfSuffix(s, from, at[i], at[i] + |pieces[i]|);
    }
    forall i, j | 0 <= i < j < |moved| && j == i + 1
      ensures Meet(s, moved[i], |pieces[i]|, moved[j], size)
    {
      assert Meet(rest, at[i], |pieces[i]|, at[j], size);
      SliceOfSuffix(s, from, at[i] + |pieces[i]|, at[j]);
      forall c | moved[i] + |pieces[i]| < c < moved[i] + size ensures s[c] != ' ' {
        assert s[c] == rest[c - from];
      }
      if moved[i] + |pieces[i]| == moved[j] {
        forall c | moved[i] <= c <= moved[i] + size ensures s[c] != ' ' {
          assert s[c] == rest[c - from];
        }
      }
    }
  }

  lemma ConsCut(s: string, first: string, pieces: seq<string>, at: seq<nat>, size: nat) returns (all: seq<nat>)
    requires CutFrom(s, pieces, at, size)
    requires Placed(s, first, 0, size) && Meet(s, 0, |first|, at[0], size)
    ensures CutAt(s, [first] + pieces, all, size)
  {
    assert s != "";
    hide Meet, Placed, Blank;
    all := [0] + at;
    var p := [first] + pieces;
    forall i | 0 <= i < |all|
      ensures Placed(s, p[i], all[i], size)
    {
      if i > 0 {
        assert all[i] == at[i - 1] && p[i] == pieces[i - 1];
      }
    }
    forall i, j | 0 <= i < j < |all| && j == i + 1
      ensures Meet(s, all[i], |p[i]|, all[j], size)
    {
      if i > 0 {
        assert all[i] == at[i - 1] && all[j] == at[i] && p[i] == pieces[i - 1];
      }
    }
    assert all[|all| - 1] == at[|at| - 1] && p[|p| - 1] == pieces[|pieces| - 1];
  }

  // A hard cut covers the text from its first to its last character in pieces of 1..size
  // characters that start on text, and cuts inside a word only where there is no space to cut at.
  lemma {:induction false} HardCutCutsAtSpaces(s: string, size: nat) returns (at: seq<nat>)
    requires size > 0 && Stripped(s)
    ensures CutAt(s, HardCut(s, size), at, size)
    decreases |s|
  {
    if |s| <= size {
      at := if s == "" then [] else [0];
      if s != "" { assert s[0..|s|] == s; }
    } else {
      var from := FirstCut(s, size);
      var rest := s[from..];
      var tail := HardCutCutsAtSpaces(rest, size);
      var moved := ShiftCut(s, rest, from, HardCut(rest, size), tail, size);
      at := ConsCut(s, s[..Cut(s, size)], HardCut(rest, size), moved, size);
    }
  }

  lemma {:induction false} HardCutPieces(s: string, size: nat)
    requires size > 0 && Stripped(s)
    ensures ArePieces(HardCut(s, size), size)
    ensures Erase(Concat(HardCut(s, size))) == Erase(s)
    decreases |s|
  {
    if |s| <= size {
      if s != "" { assert Concat([s]) == s + Concat([]) == s; }
    } else {
      var cut := Cut(s, size);
      StrippedSuffix(s, cut);
      var rest := LStrip(s[cut..]);
      LStripShrinks(s[cut..]);
      HardCutPieces(rest, size);
      assert s == s[..cut] + s[cut..];
      EraseConcat(s[..cut], s[cut..]);
      assert HardCut(s, size)[1..] == HardCut(rest, size);
      EraseConcat(s[..cut], Concat(HardCut(rest, size)));
    }
  }

  // Pieces of a group in progress: it is empty or stripped, within the budget.
  predicate IsGroup(current: string, size: nat) {
    |current| <= size && Stripped(current)
  }

  lemma FlushKeeps(current: string)
    ensures Concat(Flush(current)) == current
  {
  }

  // An overlong sentence: the group in progress, then the cut pieces.
  lemma GroupCuts(sentence: string, size: nat, current: string)
    requires size > 0 && Stripped(sentence) && IsGroup(current, size)
    ensures var out := Flush(current) + HardCut(sentence, size);
            ArePieces(out, size) && Erase(Concat(out)) == Erase(current) + Erase(sentence)
  {
    HardCutPieces(sentence, size);
    hide HardCut;
    ConcatAppend(Flush(current), HardCut(sentence, size));
    FlushKeeps(current);
    EraseConcat(current, Concat(HardCut(sentence, size)));
  }

  lemma GroupExtends(sentence: string, current: string)
    ensures Stripped(Strip(current + " " + sentence)) && |Strip(current + " " + sentence)| <= |current| + |sentence| + 1
    ensures Erase(Strip(current + " " + sentence)) == Erase(current) + Erase(sentence)
  {
    StripFacts(current + " " + sentence);
    EraseBlank(" ");
    EraseMiddle(current, " ", sentence);
  }

  lemma GroupNextKeeps(sentence: string, size: nat, current: string)
    requires size > 0 && Stripped(sentence) && IsGroup(current, size)
    ensures var next := GroupNext(sentence, size, current);
            && ArePieces(next.0, size) && IsGroup(next.1, size)
            && Erase(Concat(next.0)) + Erase(next.1) == Erase(current) + Erase(sentence)
  {
    hide HardCut, Strip;
    if sentence != "" && |sentence| > size {
      GroupCuts(sentence, size, current);
    } else if sentence != "" && |current| + |sentence| + 1 <= size {
      GroupExtends(sentence, current);
    } else if sentence != "" {
      assert Concat([current]) == current + Concat([]) == current;
    }
  }

  lemma GroupAppend(a: seq<string>, b: seq<string>, size: nat)
    requires ArePieces(a, size) && ArePieces(b, size)
    ensures ArePieces(a + b, size)
    ensures Erase(Concat(a + b)) == Erase(Concat(a)) + Erase(Concat(b))
  {
    ConcatAppend(a, b);
    EraseConcat(Concat(a), Concat(b));
  }

  lemma {:induction false} GroupKeeps(sentences: seq<string>, size: nat, current: string)
    requires size > 0 && IsGroup(current, size)
    ensures ArePieces(GroupSentences(sentences, size, current), size)
    ensures Erase(Concat(GroupSentences(sentences, size, current))) == Erase(current) + Erase(Concat(sentences))
    decreases |sentences|
  {
    if sentences == [] {
      FlushKeeps(current);
    } else {
      var sentence := Strip(sentences[0]);
      StripFacts(sentences[0]);
      GroupNextKeeps(sentence, size, current);
      var next := GroupNext(sentence, size, current);
      var later := sentences[1..];
      GroupKeeps(later, size, next.1);
      GroupAppend(next.0, GroupSentences(later, size, next.1), size);
      EraseConcat(sentences[0], Concat(later));
      Assoc(Erase(Concat(next.0)), Erase(next.1), Erase(Concat(later)));
      Assoc(Erase(current), Erase(sentence), Erase(Concat(later)));
    }
  }

  lemma ParagraphKeeps(paragraph: string, size: nat)
    requires size > 0
    ensures ArePieces(ParagraphPieces(paragraph, size), size)
    ensures Erase(Concat(ParagraphPieces(paragraph, size))) == Erase(paragraph)
  {
    var p := Strip(paragraph);
    StripFacts(paragraph);
    if p == "" {
    } else if |p| <= size {
      assert Concat([p]) == p + Concat([]) == p;
    } else {
      GroupKeeps(Sentences(p), size, "");
      SentencesKeepText(p);
    }
  }

  // Splitting into pieces keeps every non-whitespace character, in order.
  lemma {:induction false} PiecesKeepText(paragraphs: seq<string>, size: nat)
    requires size > 0
    ensures ArePieces(Pieces(paragraphs, size), size)
    ensures Erase(Concat(Pieces(paragraphs, size))) == Erase(Concat(paragraphs))
  {
    if paragraphs != [] {
      ParagraphKeeps(paragraphs[0], size);
      PiecesKeepText(paragraphs[1..], size);
      var first, rest := ParagraphPieces(paragraphs[0], size), Pieces(paragraphs[1..], size);
      ConcatAppend(first, rest);
      EraseConcat(Concat(first), Concat(rest));
      EraseConcat(paragraphs[0], Concat(paragraphs[1..]));
    }
  }
}
