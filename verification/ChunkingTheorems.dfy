// The promises of chunking, for every text, budget and overlap.
module ChunkingTheorems {
  import opened Outcome
  import opened Text
  import opened Chunking
  import opened ChunkingProofs
  import opened PackingProofs

  // ---- no text is lost or reordered -------------------------------------------------------

  ghost predicate Conserved(chunks: seq<string>, carried: seq<string>, own: seq<string>, overlap: int) {
    && |carried| == |own| == |chunks|
    && (forall i :: 0 <= i < |chunks| ==> Erase(chunks[i]) == Erase(carried[i]) + Erase(own[i]))
    && (forall i :: 1 <= i < |chunks| ==> CarriedFrom(carried[i], chunks[i - 1], overlap))
    && (chunks != [] ==> carried[0] == "")
  }

  function Carries(origins: seq<Origin>): (c: seq<string>)
    ensures |c| == |origins| && forall i :: 0 <= i < |c| ==> c[i] == origins[i].carried
  {
    if origins == [] then [] else [origins[0].carried] + Carries(origins[1..])
  }

  function Stretches(origins: seq<Origin>): (c: seq<string>)
    ensures |c| == |origins| && forall i :: 0 <= i < |c| ==> c[i] == Concat(origins[i].own)
  {
    if origins == [] then [] else [Concat(origins[0].own)] + Stretches(origins[1..])
  }

  lemma {:induction false} StretchesConcat(origins: seq<Origin>)
    ensures Concat(Stretches(origins)) == Concat(Owned(origins))
  {
    if origins != [] {
      StretchesConcat(origins[1..]);
      ConcatAppend(origins[0].own, Owned(origins[1..]));
    }
  }

  lemma PackConservesText(pieces: seq<string>, size: nat, overlap: int) returns (carried: seq<string>, own: seq<string>)
    requires ArePieces(pieces, size)
    ensures Conserved(PackFrom(pieces, size, overlap, ""), carried, own, overlap)
    ensures Erase(Concat(own)) == Erase(Concat(pieces))
  {
    var origins, left := PackPartitions(pieces, size, overlap, "", "", []);
    assert [] + pieces == pieces;
    carried, own := Carries(origins), Stretches(origins);
    StretchesConcat(origins);
    ConcatAppend(Owned(origins), left);
    EraseConcat(Concat(Owned(origins)), Concat(left));
  }

  // Every chunk of a text is its own stretch of the text, after nothing or after the tail of the
  // chunk before it; the stretches, in order, are the whole text. Whitespace aside.
  lemma SplitConservesText(text: string, size: nat, overlap: int) returns (carried: seq<string>, own: seq<string>)
    requires size > 0
    ensures Conserved(Split(text, size, overlap), carried, own, overlap)
    ensures Erase(Concat(own)) == Erase(text)
  {
    var t := Strip(text);
    StripFacts(text);
    if |t| <= size {
      carried, own := if t == "" then [] else [""], if t == "" then [] else [t];
      if t != "" { assert Concat([t]) == t + Concat([]) == t; }
      assert Split(text, size, overlap) == own;
    } else {
      ParagraphsKeepText(t);
      PiecesKeepText(Paragraphs(t), size);
      carried, own := PackConservesText(Pieces(Paragraphs(t), size), size, overlap);
    }
  }

  lemma {:induction false} EraseStretches(chunks: seq<string>, own: seq<string>)
    requires |chunks| == |own|
    requires forall i :: 0 <= i < |chunks| ==> Erase(chunks[i]) == Erase(own[i])
    ensures Erase(Concat(chunks)) == Erase(Concat(own))
  {
    if chunks != [] {
      EraseStretches(chunks[1..], own[1..]);
      EraseConcat(chunks[0], Concat(chunks[1..]));
      EraseConcat(own[0], Concat(own[1..]));
    }
  }

  // Without overlap, the chunks simply concatenate to the text.
  lemma SplitWithoutOverlapIsExact(text: string, size: nat)
    requires size > 0
    ensures Erase(Concat(Split(text, size, 0))) == Erase(text)
  {
    var carried, own := SplitConservesText(text, size, 0);
    var chunks := Split(text, size, 0);
    forall i | 0 <= i < |chunks|
      ensures Erase(chunks[i]) == Erase(own[i])
    {
      if i > 0 { assert CarriedFrom(carried[i], chunks[i - 1], 0); }
    }
    EraseStretches(chunks, own);
  }

  // ---- the overlap ------------------------------------------------------------------------

  // Every chunk but the first is cut from the text at a piece: it starts with the stripped tail of
  // the one before it, then that piece, unless the two do not fit together, and then with the piece.
  // The pieces it was made of are the chunk's own, and the tail is short.
  lemma OverlapContract(pieces: seq<string>, size: nat, overlap: int)
    returns (origins: seq<Origin>, left: seq<string>)
    requires overlap > 0 && ArePieces(pieces, size)
    ensures Owned(origins) + left == pieces && Erase(Concat(left)) == ""
    ensures var c := PackFrom(pieces, size, overlap, "");
            && MadeOf(c, origins, overlap, "")
            && (forall i :: 1 <= i < |c| ==>
                  origins[i].own != [] && Follows(c[i - 1], c[i], origins[i].own[0], size, overlap))
            && (forall i :: 0 <= i < |c| ==> |Tail(c[i], overlap)| <= overlap)
  {
    origins, left := PackPartitions(pieces, size, overlap, "", "", []);
    assert [] + pieces == pieces;
    var c := PackFrom(pieces, size, overlap, "");
    forall i | 0 <= i < |c|
      ensures |Tail(c[i], overlap)| <= overlap
    {
      TailIsShortSuffix(c[i], overlap);
    }
  }

  // ---- how long the output is -------------------------------------------------------------

  function Total(parts: seq<string>): nat {
    if parts == [] then 0 else |parts[0]| + Total(parts[1..])
  }

  lemma HeadLength(current: string, piece: string, size: nat, overlap: nat)
    ensures |Head(current, piece, size, overlap)| <= |piece| + 2 + overlap
  {
    if overlap > 0 {
      TailIsShortSuffix(current, overlap);
      StripFacts(Tail(current, overlap) + SEPARATOR + piece);
    }
  }

  // n overlaps, written so that only sums are left to reason about.
  function Overlaps(n: nat, overlap: nat): nat {
    if n == 0 then 0 else Overlaps(n - 1, overlap) + overlap
  }

  lemma {:induction false} OverlapsIsProduct(n: nat, overlap: nat)
    ensures Overlaps(n, overlap) == n * overlap
  {
    if n > 0 {
      OverlapsIsProduct(n - 1, overlap);
      assert n * overlap == (n - 1) * overlap + overlap;
    }
  }

  // A list of chunks within a budget, but for one overlap for each of them after the first.
  ghost predicate Within(chunks: seq<string>, budget: nat, overlap: nat) {
    chunks != [] && Total(chunks) <= budget + Overlaps(|chunks| - 1, overlap)
  }

  ghost predicate NoneOrWithin(chunks: seq<string>, budget: nat, overlap: nat) {
    chunks == [] || Within(chunks, budget, overlap)
  }

  lemma OneChunkMore(current: string, rest: seq<string>, budget: nat, overlap: nat)
    requires NoneOrWithin(rest, budget + overlap, overlap)
    ensures Within([current] + rest, |current| + budget, overlap)
  {
  }

  lemma PackLengthEmit(piece: string, later: seq<string>, size: nat, overlap: nat, current: string, budget: nat)
    requires IsPiece(piece, size) && ArePieces(later, size) && InProgress(current, size) && current != ""
    requires |Candidate(current, piece)| > size && budget == |piece| + Total(later) + 2 * |later| + 2
    ensures Within([current] + PackFrom(later, size, overlap, Head(current, piece, size, overlap)), |current| + budget,
                   overlap)
    decreases |later|, 2
  {
    var head := Head(current, piece, size, overlap);
    PackNextInProgress(piece, size, overlap, current);
    assert InProgress(head, size);
    HeadLength(current, piece, size, overlap);
    hide *;
    RestLength(later, size, overlap, head, |piece| + 2 + overlap, budget + overlap);
    OneChunkMore(current, PackFrom(later, size, overlap, head), budget, overlap);
  }

  // From a chunk in progress: its length, and each piece with a separator.
  lemma {:induction false} PackLength(pieces: seq<string>, size: nat, overlap: nat, current: string, budget: nat)
    requires ArePieces(pieces, size) && InProgress(current, size) && current != ""
    requires budget == |current| + Total(pieces) + 2 * |pieces|
    ensures Within(PackFrom(pieces, size, overlap, current), budget, overlap)
    decreases |pieces|, 0
  {
    if pieces == [] {
      OneChunkMore(current, [], budget - |current|, overlap);
      assert [current] + [] == PackFrom(pieces, size, overlap, current);
    } else {
      var piece, later := pieces[0], pieces[1..];
      var grown := Candidate(current, piece);
      PackUnrolls(pieces, size, overlap, current);
      PackNextInProgress(piece, size, overlap, current);
      assert Total(pieces) == |piece| + Total(later) && |grown| == |current| + 2 + |piece|;
      if |grown| <= size {
        assert InProgress(grown, size);
        hide *;
        PackLength(later, size, overlap, grown, budget);
      } else {
        hide *;
        PackLengthEmit(piece, later, size, overlap, current, budget - |current|);
      }
    }
  }

  lemma {:induction false} PackLengthEmpty(pieces: seq<string>, size: nat, overlap: nat)
    requires ArePieces(pieces, size)
    ensures var c := PackFrom(pieces, size, overlap, "");
            c == [] || (pieces != [] && Within(c, Total(pieces) + 2 * (|pieces| - 1), overlap))
    decreases |pieces|, 0
  {
    if pieces != [] {
      var piece, later := pieces[0], pieces[1..];
      PackUnrolls(pieces, size, overlap, "");
      PackNextInProgress(piece, size, overlap, "");
      assert Total(pieces) == |piece| + Total(later);
      if piece == "" {
        PackLengthEmpty(later, size, overlap);
      } else {
        PackLength(later, size, overlap, piece, |piece| + Total(later) + 2 * |later|);
      }
    }
  }

  // What is packed after a new chunk has been started.
  lemma RestLength(later: seq<string>, size: nat, overlap: nat, head: string, most: nat, budget: nat)
    requires ArePieces(later, size) && InProgress(head, size) && |head| <= most
    requires budget == most + Total(later) + 2 * |later|
    ensures NoneOrWithin(PackFrom(later, size, overlap, head), budget, overlap)
    decreases |later|, 1
  {
    if head != "" {
      PackLength(later, size, overlap, head, |head| + Total(later) + 2 * |later|);
    } else {
      PackLengthEmpty(later, size, overlap);
    }
  }

  // Packing adds at most a separator between pieces and an overlap between chunks.
  lemma OutputLength(pieces: seq<string>, size: nat, overlap: nat)
    requires ArePieces(pieces, size) && PackFrom(pieces, size, overlap, "") != []
    ensures var c := PackFrom(pieces, size, overlap, "");
            pieces != [] && Total(c) <= Total(pieces) + 2 * (|pieces| - 1) + (|c| - 1) * overlap
  {
    PackLengthEmpty(pieces, size, overlap);
    OverlapsIsProduct(|PackFrom(pieces, size, overlap, "")| - 1, overlap);
  }

  // ---- chunk_segments ---------------------------------------------------------------------

  // Numbering drops nothing, because nothing it is given is blank.
  lemma {:induction false} NumberKeepsAll(texts: seq<string>, location: Option<string>, from: nat)
    requires forall i :: 0 <= i < |texts| ==> Strip(texts[i]) != ""
    ensures var c := Number(texts, location, from);
            && |c| == |texts|
            && forall i :: 0 <= i < |c| ==> c[i] == Chunk(from + i, Strip(texts[i]), location)
  {
    if texts != [] {
      NumberKeepsAll(texts[1..], location, from + 1);
      var rest := Number(texts[1..], location, from + 1);
      assert Number(texts, location, from) == [Chunk(from, Strip(texts[0]), location)] + rest;
    }
  }

  // A chunk ready to be embedded: text within the budget, with no whitespace at either end.
  predicate Embeddable(c: Chunk, size: nat) {
    c.text != "" && Stripped(c.text) && |c.text| <= size
  }

  predicate AllEmbeddable(chunks: seq<Chunk>, size: nat, from: nat) {
    forall i :: 0 <= i < |chunks| ==> Embeddable(chunks[i], size) && chunks[i].ordinal == from + i
  }

  lemma SegmentIsEmbeddable(segment: Segment, size: nat, overlap: int, from: nat)
    requires size > 0
    ensures var c := SegmentChunks(segment, size, overlap, from);
            && |c| == |Split(segment.text, size, overlap)|
            && AllEmbeddable(c, size, from)
            && forall i :: 0 <= i < |c| ==> c[i].location == segment.location
  {
    SplitIsWorthEmbedding(segment.text, size, overlap);
    NumberKeepsAll(Split(segment.text, size, overlap), segment.location, from);
  }

  lemma NothingEmbeddable(size: nat, from: nat)
    ensures AllEmbeddable([], size, from)
  {
  }

  lemma EmbeddableConcat(a: seq<Chunk>, b: seq<Chunk>, size: nat, from: nat)
    requires AllEmbeddable(a, size, from) && AllEmbeddable(b, size, from + |a|)
    ensures AllEmbeddable(a + b, size, from)
  {
  }

  // Every chunk is embeddable, whatever the overlap, and the ordinals are consecutive.
  lemma {:induction false} EveryChunkEmbeddable(segments: seq<Segment>, size: nat, overlap: int, from: nat)
    requires size > 0
    ensures AllEmbeddable(ChunksFrom(segments, size, overlap, from), size, from)
  {
    hide *;
    if segments == [] {
      NoSegments(size, overlap, from);
      NothingEmbeddable(size, from);
    } else {
      var first := SegmentChunks(segments[0], size, overlap, from);
      SegmentIsEmbeddable(segments[0], size, overlap, from);
      EveryChunkEmbeddable(segments[1..], size, overlap, from + |first|);
      ChunksFromStep(segments, size, overlap, from);
      EmbeddableConcat(first, ChunksFrom(segments[1..], size, overlap, from + |first|), size, from);
    }
  }

  function Renumber(chunks: seq<Chunk>, shift: nat): (out: seq<Chunk>)
    ensures |out| == |chunks|
    ensures forall i :: 0 <= i < |chunks| ==> out[i] == chunks[i].(ordinal := chunks[i].ordinal + shift)
  {
    if chunks == [] then [] else [chunks[0].(ordinal := chunks[0].ordinal + shift)] + Renumber(chunks[1..], shift)
  }

  lemma {:induction false} NumberShift(texts: seq<string>, location: Option<string>, from: nat, shift: nat)
    ensures Number(texts, location, from + shift) == Renumber(Number(texts, location, from), shift)
  {
    hide Strip;
    if texts != [] {
      if Strip(texts[0]) == "" {
        NumberShift(texts[1..], location, from, shift);
      } else {
        NumberShift(texts[1..], location, from + 1, shift);
        var rest := Number(texts[1..], location, from + 1);
        assert from + 1 + shift == from + shift + 1;
        assert ([Chunk(from, Strip(texts[0]), location)] + rest)[1..] == rest;
      }
    }
  }

  lemma RenumberConcat(a: seq<Chunk>, b: seq<Chunk>, shift: nat)
    ensures Renumber(a + b, shift) == Renumber(a, shift) + Renumber(b, shift)
  {
  }

  lemma NumberAllUnrolls(parts: seq<Parts>, from: nat, first: seq<Chunk>, later: seq<Chunk>)
    requires parts != [] && first == Number(parts[0].texts, parts[0].location, from)
    requires later == NumberAll(parts[1..], from + |first|)
    ensures NumberAll(parts, from) == first + later
  {
  }

  lemma {:induction false} NumberAllShift(parts: seq<Parts>, from: nat, shift: nat)
    ensures NumberAll(parts, from + shift) == Renumber(NumberAll(parts, from), shift)
  {
    if parts != [] {
      hide *;
      var first := Number(parts[0].texts, parts[0].location, from);
      var later := NumberAll(parts[1..], from + |first|);
      NumberAllUnrolls(parts, from, first, later);
      NumberShift(parts[0].texts, parts[0].location, from, shift);
      NumberAllShift(parts[1..], from + |first|, shift);
      NumberAllUnrolls(parts, from + shift, Renumber(first, shift), Renumber(later, shift));
      RenumberConcat(first, later, shift);
    }
  }

  lemma {:induction false} NumberAllConcat(a: seq<Parts>, b: seq<Parts>, from: nat) returns (left: seq<Chunk>,
                                           right: seq<Chunk>)
    ensures left == NumberAll(a, from) && right == NumberAll(b, from + |left|)
    ensures NumberAll(a + b, from) == left + right
  {
    if a == [] {
      assert a + b == b;
      left, right := [], NumberAll(b, from);
    } else {
      var both := a + b;
      assert both != [] && both[0] == a[0] && both[1..] == a[1..] + b;
      hide *;
      var first := Number(a[0].texts, a[0].location, from);
      var middle;
      middle, right := NumberAllConcat(a[1..], b, from + |first|);
      left := first + middle;
      NumberAllUnrolls(a, from, first, middle);
      NumberAllUnrolls(both, from, first, middle + right);
      Assoc(first, middle, right);
      assert from + |left| == from + |first| + |middle|;
    }
  }

  lemma {:induction false} SplitAllConcat(a: seq<Segment>, b: seq<Segment>, size: nat, overlap: int)
    requires size > 0
    ensures SplitAll(a + b, size, overlap) == SplitAll(a, size, overlap) + SplitAll(b, size, overlap)
  {
    if a == [] {
      assert a + b == b;
    } else {
      assert (a + b)[1..] == a[1..] + b;
      SplitAllConcat(a[1..], b, size, overlap);
    }
  }

  // Segments are chunked independently: chunking two lists in a row is chunking each, the second
  // numbered on from the first. So no chunk spans a segment, and each keeps its own location.
  lemma SegmentsAreIndependent(a: seq<Segment>, b: seq<Segment>, size: nat, overlap: int)
    requires size > 0
    ensures var left := ChunksFrom(a, size, overlap, 0);
            ChunksFrom(a + b, size, overlap, 0) == left + Renumber(ChunksFrom(b, size, overlap, 0), |left|)
  {
    hide SplitAll, NumberAll;
    var left, right := SplitAll(a, size, overlap), SplitAll(b, size, overlap);
    SplitAllConcat(a, b, size, overlap);
    var l, r := NumberAllConcat(left, right, 0);
    NumberAllShift(right, 0, |NumberAll(left, 0)|);
  }

  function Texts(chunks: seq<Chunk>): (out: seq<string>)
    ensures |out| == |chunks| && forall i :: 0 <= i < |chunks| ==> out[i] == chunks[i].text
  {
    if chunks == [] then [] else [chunks[0].text] + Texts(chunks[1..])
  }

  // One segment's chunks: all of them at its location, and without overlap exactly its text.
  lemma OneSegment(segment: Segment, size: nat, overlap: int)
    requires size > 0
    ensures var c := ChunksFrom([segment], size, overlap, 0);
            && c == SegmentChunks(segment, size, overlap, 0)
            && (forall i :: 0 <= i < |c| ==> c[i].location == segment.location)
            && (overlap == 0 ==> Erase(Concat(Texts(c))) == Erase(segment.text))
  {
    ChunksFromStep([segment], size, overlap, 0);
    SegmentIsEmbeddable(segment, size, overlap, 0);
    var c := SegmentChunks(segment, size, overlap, 0);
    assert ChunksFrom([segment], size, overlap, 0) == c + [] == c;
    var texts := Split(segment.text, size, overlap);
    SplitIsWorthEmbedding(segment.text, size, overlap);
    NumberKeepsAll(texts, segment.location, 0);
    forall i | 0 <= i < |texts|
      ensures Erase(Texts(c)[i]) == Erase(texts[i])
    {
      StripFacts(texts[i]);
    }
    EraseStretches(Texts(c), texts);
    if overlap == 0 {
      SplitWithoutOverlapIsExact(segment.text, size);
    }
  }

  // ---- the quirk --------------------------------------------------------------------------

  // Nothing but blanks since the start of the paragraph, if `unopened`, or since an overlong sentence.
  ghost predicate OpensGroup(sentences: seq<string>, k: nat, size: nat, unopened: bool)
    requires k <= |sentences|
  {
    || (unopened && forall j :: 0 <= j < k ==> Strip(sentences[j]) == "")
    || exists j :: 0 <= j < k && |Strip(sentences[j])| > size && forall i :: j < i < k ==> Strip(sentences[i]) == ""
  }

  // Some sentence of exactly the budget opens a group.
  ghost predicate FullFirst(sentences: seq<string>, size: nat, unopened: bool) {
    exists k :: 0 <= k < |sentences| && |Strip(sentences[k])| == size && OpensGroup(sentences, k, size, unopened)
  }

  lemma OpensShift(sentences: seq<string>, k: nat, size: nat, unopened: bool)
    requires 0 < k <= |sentences|
    ensures var n := |Strip(sentences[0])|;
            OpensGroup(sentences, k, size, unopened) <==>
              OpensGroup(sentences[1..], k - 1, size, n > size || (unopened && n == 0))
  {
    hide Strip;
    var later, n := sentences[1..], |Strip(sentences[0])|;
    assert forall j :: 0 <= j < |later| ==> later[j] == sentences[j + 1];
    assert forall j :: 1 <= j < |sentences| ==> sentences[j] == later[j - 1];
    if OpensGroup(sentences, k, size, unopened) && !(unopened && forall j :: 0 <= j < k ==> Strip(sentences[j]) == "") {
      var j :| 0 <= j < k && |Strip(sentences[j])| > size && forall i :: j < i < k ==> Strip(sentences[i]) == "";
      if j > 0 {
        assert |Strip(later[j - 1])| > size;
      }
    }
    if exists j :: 0 <= j < k - 1 && |Strip(later[j])| > size && forall i :: j < i < k - 1 ==> Strip(later[i]) == "" {
      var j :| 0 <= j < k - 1 && |Strip(later[j])| > size && forall i :: j < i < k - 1 ==> Strip(later[i]) == "";
      assert |Strip(sentences[j + 1])| > size;
    }
  }

  lemma OpensAtStart(sentences: seq<string>, size: nat, unopened: bool)
    ensures OpensGroup(sentences, 0, size, unopened) <==> unopened
  {
  }

  // Which way the first sentence decides, and what it leaves to the others.
  lemma FullFirstUnrolls(sentences: seq<string>, size: nat, unopened: bool)
    requires size > 0 && sentences != []
    ensures var n := |Strip(sentences[0])|;
            FullFirst(sentences, size, unopened) <==>
            (unopened && n == size) || FullFirst(sentences[1..], size, n > size || (unopened && n == 0))
  {
    OpensAtStart(sentences, size, unopened);
    hide Strip, OpensGroup;
    var later, n := sentences[1..], |Strip(sentences[0])|;
    if FullFirst(sentences, size, unopened) {
      var k :| 0 <= k < |sentences| && |Strip(sentences[k])| == size && OpensGroup(sentences, k, size, unopened);
      if k > 0 {
        assert later[k - 1] == sentences[k];
        OpensShift(sentences, k, size, unopened);
      }
    }
    var opens := n > size || (unopened && n == 0);
    if FullFirst(later, size, opens) {
      var k :| 0 <= k < |later| && |Strip(later[k])| == size && OpensGroup(later, k, size, opens);
      assert later[k] == sentences[k + 1];
      OpensShift(sentences, k + 1, size, unopened);
    }
  }

  // One pass emits an empty piece only there, and it leaves a group in progress or none.
  lemma OnePassEmpty(sentence: string, size: nat, current: string)
    requires size > 0 && Stripped(sentence) && IsGroup(current, size)
    ensures "" in GroupNext(sentence, size, current).0 <==> current == "" && |sentence| == size
    ensures GroupNext(sentence, size, current).1 == "" <==> |sentence| > size || (current == "" && sentence == "")
  {
    if |sentence| > size {
      var at := HardCutCutsAtSpaces(sentence, size);
      var pieces := HardCut(sentence, size);
      forall i | 0 <= i < |pieces|
        ensures pieces[i] != ""
      {
        assert Placed(sentence, pieces[i], at[i], size);
      }
    } else if sentence != "" && |current| + |sentence| + 1 <= size {
      GroupExtends(sentence, current);
      assert Erase(sentence) != "";
    }
  }

  lemma {:induction false} EmptyPieceFrom(sentences: seq<string>, size: nat, current: string)
    requires size > 0 && IsGroup(current, size)
    ensures "" in GroupSentences(sentences, size, current) <==> FullFirst(sentences, size, current == "")
    decreases |sentences|
  {
    if sentences != [] {
      var sentence := Strip(sentences[0]);
      StripFacts(sentences[0]);
      GroupNextKeeps(sentence, size, current);
      var next := GroupNext(sentence, size, current);
      hide Strip, GroupNext, FullFirst, Stripped;
      OnePassEmpty(sentence, size, current);
      EmptyPieceFrom(sentences[1..], size, next.1);
      FullFirstUnrolls(sentences, size, current == "");
    }
  }

  // Splitting a paragraph emits an empty piece if and only if one of its sentences has exactly the
  // budget once stripped, and is the first that is not blank or the first after an overlong one.
  lemma EmptyPieceExactlyOnFullSentence(paragraph: string, size: nat)
    requires size > 0
    ensures "" in GroupSentences(Sentences(paragraph), size, "") <==> FullFirst(Sentences(paragraph), size, true)
  {
    EmptyPieceFrom(Sentences(paragraph), size, "");
  }

  lemma NoBreakBefore(p: string)
    requires p == "aaa. bb"
    ensures forall i :: 0 <= i < 4 ==> !SentenceEndsAt(p, i)
  {
    assert p[0] == p[1] == p[2] == 'a';
  }

  lemma StrippedStays(s: string)
    requires Stripped(s)
    ensures Strip(s) == s
  {
  }

  // For instance: two sentences, the first exactly as long as the budget.
  lemma FullSentenceFirst()
    ensures GroupSentences(Sentences("aaa. bb"), 4, "") == ["", "aaa.", "bb"]
  {
    var p := "aaa. bb";
    assert SentenceEndsAt(p, 4) && SpaceEnd(p, 4) == 5;
    assert SentenceBreak(p, 0) == Some(4) by {
      NoBreakBefore(p);
    }
    assert p[..4] == "aaa." && p[5..] == "bb";
    assert SentenceBreak("bb", 0).None?;
    assert Sentences("bb") == ["bb"];
    var sentences := Sentences(p);
    assert sentences == ["aaa.", "bb"];
    StrippedStays("aaa.");
    StrippedStays("bb");
    assert sentences[1..] == ["bb"] && ["bb"][1..] == [];
    assert GroupNext("aaa.", 4, "") == ([""], "aaa.");
    assert GroupNext("bb", 4, "aaa.") == (["aaa."], "bb");
    assert GroupSentences(["bb"], 4, "aaa.") == ["aaa."] + GroupSentences([], 4, "bb");
  }
}
