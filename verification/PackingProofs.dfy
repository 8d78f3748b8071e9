// What the greedy packing and the numbering promise (services/chunking.py `_pack`, `_tail`,
// `chunk_segments`).
module PackingProofs {
  import opened Text
  import opened Chunking
  import opened ChunkingProofs

  // ---- budget, and no chunk without text --------------------------------------------------

  // A chunk in progress: empty, or with something to embed, within the budget.
  predicate InProgress(current: string, size: nat) {
    |current| <= size && (current == "" || !Blank(current))
  }

  lemma BlankParts(a: string, b: string)
    requires !Blank(a) || !Blank(b)
    ensures !Blank(a + b)
  {
    EraseBlank(a);
    EraseBlank(b);
    EraseConcat(a, b);
    EraseBlank(a + b);
  }

  lemma PieceInProgress(piece: string, size: nat)
    requires IsPiece(piece, size)
    ensures InProgress(piece, size)
  {
  }

  lemma StrippedInProgress(s: string)
    ensures Strip(s) == "" || !Blank(Strip(s))
  {
    StripFacts(s);
    if Strip(s) != "" { assert !IsSpace(Strip(s)[0]); }
  }

  lemma PackNextInProgress(piece: string, size: nat, overlap: int, current: string)
    requires IsPiece(piece, size) && InProgress(current, size)
    ensures var next := PackNext(piece, size, overlap, current);
            InProgress(next.1, size) && forall i :: 0 <= i < |next.0| ==> next.0[i] != "" && InProgress(next.0[i], size)
  {
    PieceInProgress(piece, size);
    if |Candidate(current, piece)| <= size {
      if current != "" {
        hide Blank;
        BlankParts(current, SEPARATOR);
        BlankParts(current + SEPARATOR, piece);
      }
    } else if current != "" && overlap != 0 {
      StrippedInProgress(Tail(current, overlap) + SEPARATOR + piece);
    }
  }

  // Whatever the overlap, every chunk fits the budget and has text in it.
  lemma {:induction false} ChunksInProgress(pieces: seq<string>, size: nat, overlap: int, current: string)
    requires ArePieces(pieces, size) && InProgress(current, size)
    ensures forall i :: 0 <= i < |PackFrom(pieces, size, overlap, current)| ==>
      var c := PackFrom(pieces, size, overlap, current)[i]; c != "" && InProgress(c, size)
    decreases |pieces|
  {
    if pieces != [] {
      PackNextInProgress(pieces[0], size, overlap, current);
      ChunksInProgress(pieces[1..], size, overlap, PackNext(pieces[0], size, overlap, current).1);
    }
  }

  lemma SplitIsWorthEmbedding(text: string, size: nat, overlap: int)
    requires size > 0
    ensures forall i :: 0 <= i < |Split(text, size, overlap)| ==>
      var c := Split(text, size, overlap)[i]; Strip(c) != "" && |Strip(c)| <= size && Stripped(Strip(c))
  {
    var t := Strip(text);
    StripFacts(text);
    if |t| > size {
      PiecesKeepText(Paragraphs(t), size);
      ChunksInProgress(Pieces(Paragraphs(t), size), size, overlap, "");
    } else if t != "" {
      assert !Blank(t) by { assert !IsSpace(t[0]); }
    }
    var chunks := Split(text, size, overlap);
    forall i | 0 <= i < |chunks|
      ensures Strip(chunks[i]) != "" && |Strip(chunks[i])| <= size && Stripped(Strip(chunks[i]))
    {
      StripFacts(chunks[i]);
      if |t| > size { assert InProgress(chunks[i], size); }
    }
  }

  // ---- conservation -----------------------------------------------------------------------

  // With an overlap, the tail is a suffix of at most that many characters.
  lemma TailIsShortSuffix(text: string, overlap: int)
    requires overlap > 0
    ensures |Tail(text, overlap)| <= overlap && |Tail(text, overlap)| <= |text|
    ensures Tail(text, overlap) == text[|text| - |Tail(text, overlap)|..]
  {
  }

  // A text no longer than the overlap is its own tail; without a space the tail is the whole window.
  lemma TailOfUnbroken(text: string, overlap: int)
    requires |text| > overlap > 0 ==> forall i :: |text| - overlap <= i < |text| ==> text[i] != ' '
    ensures Tail(text, overlap) == if |text| > overlap > 0 then text[|text| - overlap..] else text
  {
  }

  // It starts right after the first space of the window, if the window has one.
  lemma TailStartsOnWord(text: string, overlap: int, j: nat)
    requires 0 < overlap < |text| && |text| - overlap <= j < |text| && text[j] == ' '
    requires forall i :: |text| - overlap <= i < j ==> text[i] != ' '
    ensures Tail(text, overlap) == text[j + 1..]
  {
  }

  // What a chunk was made of: what it carried over, and the run of pieces that is its own.
  datatype Origin = Origin(carried: string, own: seq<string>)

  function Owned(origins: seq<Origin>): seq<string> {
    if origins == [] then [] else origins[0].own + Owned(origins[1..])
  }

  // The chunk's text is what it carried over and then its own pieces.
  predicate Holds(chunk: string, origin: Origin) {
    Erase(chunk) == Erase(origin.carried) + Erase(Concat(origin.own))
  }

  ghost predicate AllHold(chunks: seq<string>, origins: seq<Origin>)
    requires |chunks| == |origins|
  {
    forall i :: 0 <= i < |chunks| ==> Holds(chunks[i], origins[i])
  }

  predicate CarriedFrom(carried: string, chunk: string, overlap: int) {
    carried == "" || (overlap != 0 && carried == Tail(chunk, overlap))
  }

  // Each chunk after the first carries the tail of the one before it, or nothing.
  ghost predicate AllCarry(chunks: seq<string>, origins: seq<Origin>, overlap: int)
    requires |chunks| == |origins|
  {
    forall i :: 1 <= i < |chunks| ==> CarriedFrom(origins[i].carried, chunks[i - 1], overlap)
  }

  // chunks[i] holds the text of its own pieces, preceded by nothing or by the tail of chunks[i-1].
  ghost predicate MadeOf(chunks: seq<string>, origins: seq<Origin>, overlap: int, first: string) {
    && |chunks| == |origins|
    && (chunks != [] ==> origins[0].carried == first)
    && AllHold(chunks, origins)
    && AllCarry(chunks, origins, overlap)
  }

  lemma EraseSeparator(a: string, b: string)
    ensures Erase(a + SEPARATOR + b) == Erase(a) + Erase(b)
  {
    EraseBlank(SEPARATOR);
    EraseMiddle(a, SEPARATOR, b);
  }

  lemma CandidateKeepsText(current: string, piece: string)
    ensures Erase(Candidate(current, piece)) == Erase(current) + Erase(piece)
  {
    if current != "" {
      EraseSeparator(current, piece);
    }
  }

  // What the next chunk carries over.
  function CarriedTail(current: string, piece: string, size: nat, overlap: int): string {
    if overlap == 0 || |Carried(current, piece, overlap)| > size then "" else Tail(current, overlap)
  }

  lemma HeadKeepsText(current: string, piece: string, size: nat, overlap: int)
    ensures Erase(Head(current, piece, size, overlap))
         == Erase(CarriedTail(current, piece, size, overlap)) + Erase(piece)
  {
    if overlap != 0 {
      var t := Tail(current, overlap) + SEPARATOR + piece;
      StripFacts(t);
      EraseSeparator(Tail(current, overlap), piece);
    }
  }

  lemma EraseOneMore(carried: string, own: seq<string>, piece: string)
    ensures Erase(carried) + Erase(Concat(own + [piece])) == (Erase(carried) + Erase(Concat(own))) + Erase(piece)
  {
    ConcatOne(own, piece);
    EraseConcat(Concat(own), piece);
    Assoc(Erase(carried), Erase(Concat(own)), Erase(piece));
  }

  lemma PackUnrolls(pieces: seq<string>, size: nat, overlap: int, current: string)
    requires pieces != []
    ensures var piece, later := pieces[0], pieces[1..];
            && pieces == [piece] + later
            && (|Candidate(current, piece)| <= size ==>
                  PackFrom(pieces, size, overlap, current) == PackFrom(later, size, overlap, Candidate(current, piece)))
            && (|Candidate(current, piece)| > size && current != "" ==>
                  PackFrom(pieces, size, overlap, current)
                  == [current] + PackFrom(later, size, overlap, Head(current, piece, size, overlap)))
  {
  }

  // ---- what a chunk starts with -----------------------------------------------------------

  predicate StartsWith(s: string, prefix: string) {
    |prefix| <= |s| && s[..|prefix|] == prefix
  }

  lemma {:induction false} RStripKeepsPrefix(x: string, y: string)
    requires x == "" || !IsSpace(x[|x| - 1])
    ensures StartsWith(RStrip(x + y), x)
    decreases |y|
  {
    if y == "" {
      assert x + y == x;
    } else if IsSpace((x + y)[|x + y| - 1]) {
      var z := y[..|y| - 1];
      assert (x + y)[..|x + y| - 1] == x + z;
      RStripKeepsPrefix(x, z);
    } else {
      assert (x + y)[..|x|] == x;
    }
  }

  lemma {:induction false} LStripConcat(a: string, b: string)
    requires LStrip(a) != ""
    ensures LStrip(a + b) == LStrip(a) + b
  {
    if a != "" && IsSpace(a[0]) {
      assert (a + b)[1..] == a[1..] + b;
      LStripConcat(a[1..], b);
    }
  }

  // strip() of a longer text starts with strip() of its beginning.
  lemma StripKeepsPrefix(a: string, b: string)
    ensures StartsWith(Strip(a + b), Strip(a))
  {
    if Strip(a) != "" {
      var k := RStripCut(LStrip(a));
      LStripConcat(a, b);
      var x, y := Strip(a), LStrip(a)[k..];
      assert LStrip(a) + b == x + (y + b);
      RStripKeepsPrefix(x, y + b);
    }
  }

  // The first chunk out of the loop starts with the chunk in progress.
  lemma {:induction false} FirstExtends(pieces: seq<string>, size: nat, overlap: int, current: string)
    requires current != ""
    ensures var c := PackFrom(pieces, size, overlap, current); c != [] && StartsWith(c[0], current)
    decreases |pieces|
  {
    if pieces != [] {
      PackUnrolls(pieces, size, overlap, current);
      if |Candidate(current, pieces[0])| <= size {
        FirstExtends(pieces[1..], size, overlap, Candidate(current, pieces[0]));
        assert Candidate(current, pieces[0])[..|current|] == current;
      }
    }
  }

  // `b` follows `a` in the output, `next` being the first piece of its own: if tail, separator and
  // piece fit together it starts with them, the stripped tail first; else it starts with the piece.
  ghost predicate Follows(a: string, b: string, next: string, size: nat, overlap: int) {
    var both := Strip(Tail(a, overlap) + "\n\n" + next);
    if |both| <= size then StartsWith(b, both) && StartsWith(b, Strip(Tail(a, overlap))) else StartsWith(b, next)
  }

  lemma HeadFollows(a: string, piece: string, later: seq<string>, size: nat, overlap: int)
    requires overlap > 0
    requires PackFrom(later, size, overlap, Head(a, piece, size, overlap)) != []
    ensures Follows(a, PackFrom(later, size, overlap, Head(a, piece, size, overlap))[0], piece, size, overlap)
  {
    var head := Head(a, piece, size, overlap);
    var tail := Strip(Tail(a, overlap));
    StripKeepsPrefix(Tail(a, overlap), SEPARATOR + piece);
    assert Tail(a, overlap) + SEPARATOR + piece == Tail(a, overlap) + (SEPARATOR + piece);
    if head != "" {
      FirstExtends(later, size, overlap, head);
      if |Carried(a, piece, overlap)| <= size {
        var b := PackFrom(later, size, overlap, head)[0];
        assert b[..|tail|] == b[..|head|][..|tail|] == head[..|tail|];
      }
    }
  }

  // Each chunk after the first follows the one before it, at the first piece of its own.
  ghost predicate AllFollow(chunks: seq<string>, origins: seq<Origin>, size: nat, overlap: int)
    requires |chunks| == |origins|
  {
    forall i :: 1 <= i < |chunks| ==>
      origins[i].own != [] && Follows(chunks[i - 1], chunks[i], origins[i].own[0], size, overlap)
  }

  lemma FollowCons(chunk: string, chunks: seq<string>, o: Origin, rest: seq<Origin>, size: nat, overlap: int)
    requires |chunks| == |rest| && AllFollow(chunks, rest, size, overlap)
    requires rest != [] ==> rest[0].own != [] && Follows(chunk, chunks[0], rest[0].own[0], size, overlap)
    ensures AllFollow([chunk] + chunks, [o] + rest, size, overlap)
  {
    hide Follows;
    var all, origins := [chunk] + chunks, [o] + rest;
    forall i | 1 <= i < |all|
      ensures origins[i].own != [] && Follows(all[i - 1], all[i], origins[i].own[0], size, overlap)
    {
      assert origins[i] == rest[i - 1] && all[i] == chunks[i - 1];
      if i > 1 {
        assert all[i - 1] == chunks[i - 2];
      }
    }
  }

  // ---- the partition ----------------------------------------------------------------------

  // Erased, the chunk in progress is what it carried over plus its own pieces.
  ghost predicate Describes(current: string, carried: string, own: seq<string>) {
    Erase(current) == Erase(carried) + Erase(Concat(own)) && (current == "" ==> carried == "")
  }

  lemma DescribeCandidate(current: string, carried: string, own: seq<string>, piece: string)
    requires Describes(current, carried, own)
    ensures Describes(Candidate(current, piece), carried, own + [piece])
  {
    CandidateKeepsText(current, piece);
    EraseOneMore(carried, own, piece);
  }

  lemma DescribeFlush(current: string, carried: string, own: seq<string>, overlap: int) returns (origins: seq<Origin>,
                      left: seq<string>)
    requires Describes(current, carried, own)
    ensures MadeOf(Flush(current), origins, overlap, carried)
    ensures |origins| <= 1 && (origins != [] ==> origins[0].own == own)
    ensures Owned(origins) + left == own && Erase(Concat(left)) == ""
  {
    if current == "" {
      origins, left := [], own;
    } else {
      origins, left := [Origin(carried, own)], [];
      assert Owned(origins) == own + Owned([]);
    }
  }

  lemma OwnedCons(o: Origin, rest: seq<Origin>)
    ensures Owned([o] + rest) == o.own + Owned(rest)
  {
  }

  lemma HoldCons(chunk: string, chunks: seq<string>, o: Origin, rest: seq<Origin>)
    requires |chunks| == |rest| && Holds(chunk, o) && AllHold(chunks, rest)
    ensures AllHold([chunk] + chunks, [o] + rest)
  {
  }

  lemma CarryCons(chunk: string, chunks: seq<string>, o: Origin, rest: seq<Origin>, overlap: int)
    requires |chunks| == |rest| && AllCarry(chunks, rest, overlap)
    requires chunks != [] ==> CarriedFrom(rest[0].carried, chunk, overlap)
    ensures AllCarry([chunk] + chunks, [o] + rest, overlap)
  {
  }

  // A chunk in front of others, the first of which may carry its tail.
  lemma MadeOfCons(chunk: string, chunks: seq<string>, carried: string, own: seq<string>, rest: seq<Origin>,
                   first: string, overlap: int)
    returns (origins: seq<Origin>)
    requires Describes(chunk, carried, own)
    requires MadeOf(chunks, rest, overlap, first) && CarriedFrom(first, chunk, overlap)
    ensures origins == [Origin(carried, own)] + rest
    ensures MadeOf([chunk] + chunks, origins, overlap, carried)
  {
    hide AllHold, AllCarry, CarriedFrom;
    origins := [Origin(carried, own)] + rest;
    HoldCons(chunk, chunks, Origin(carried, own), rest);
    CarryCons(chunk, chunks, Origin(carried, own), rest, overlap);
  }

  // The step that adds a piece to the chunk in progress.
  lemma PackGrows(piece: string, later: seq<string>, size: nat, overlap: int, current: string, carried: string,
                  own: seq<string>)
    returns (origins: seq<Origin>, left: seq<string>)
    requires Describes(current, carried, own)
    requires ArePieces(later, size) && InProgress(Candidate(current, piece), size)
    ensures MadeOf(PackFrom(later, size, overlap, Candidate(current, piece)), origins, overlap, carried)
    ensures Owned(origins) + left == own + ([piece] + later)
    ensures origins != [] ==> own <= origins[0].own
    ensures overlap > 0 ==> AllFollow(PackFrom(later, size, overlap, Candidate(current, piece)), origins, size, overlap)
    ensures Erase(Concat(left)) == ""
    decreases |later|, 1
  {
    DescribeCandidate(current, carried, own, piece);
    origins, left := PackPartitions(later, size, overlap, Candidate(current, piece), carried, own + [piece]);
    Assoc(own, [piece], later);
  }

  // The packing partitions the pieces in order: each belongs to exactly one chunk, but for empty
  // pieces at the very end that no chunk is left to hold. `carried` and `own` describe `current`.
  lemma {:induction false} PackPartitions(pieces: seq<string>, size: nat, overlap: int, current: string,
                                          carried: string, own: seq<string>)
    returns (origins: seq<Origin>, left: seq<string>)
    requires Describes(current, carried, own)
    requires ArePieces(pieces, size) && InProgress(current, size)
    ensures MadeOf(PackFrom(pieces, size, overlap, current), origins, overlap, carried)
    ensures Owned(origins) + left == own + pieces
    ensures origins != [] ==> own <= origins[0].own
    ensures overlap > 0 ==> AllFollow(PackFrom(pieces, size, overlap, current), origins, size, overlap)
    ensures Erase(Concat(left)) == ""
    decreases |pieces|, 0
  {
    if pieces == [] {
      origins, left := DescribeFlush(current, carried, own, overlap);
    } else {
      var piece, later := pieces[0], pieces[1..];
      PackNextInProgress(piece, size, overlap, current);
      PackUnrolls(pieces, size, overlap, current);
      if |Candidate(current, piece)| <= size {
        origins, left := PackGrows(piece, later, size, overlap, current, carried, own);
      } else {
        origins, left := PackEmits(piece, later, size, overlap, current, carried, own);
      }
    }
  }

  // The step that emits a chunk and starts the next one.
  lemma PackEmits(piece: string, later: seq<string>, size: nat, overlap: int, current: string, carried: string,
                  own: seq<string>)
    returns (origins: seq<Origin>, left: seq<string>)
    requires Describes(current, carried, own)
    requires IsPiece(piece, size) && ArePieces(later, size) && InProgress(current, size)
    requires current != "" && |Candidate(current, piece)| > size
    ensures MadeOf([current] + PackFrom(later, size, overlap, Head(current, piece, size, overlap)), origins, overlap,
                   carried)
    ensures Owned(origins) + left == own + ([piece] + later)
    ensures origins != [] ==> own <= origins[0].own
    ensures overlap > 0 ==> AllFollow([current] + PackFrom(later, size, overlap, Head(current, piece, size, overlap)),
                                      origins, size, overlap)
    ensures Erase(Concat(left)) == ""
    decreases |later|, 1
  {
    var head := Head(current, piece, size, overlap);
    var tail := CarriedTail(current, piece, size, overlap);
    PackNextInProgress(piece, size, overlap, current);
    HeadKeepsText(current, piece, size, overlap);
    var first := if head == "" then "" else tail;
    assert Concat([piece]) == piece + Concat([]) == piece;
    assert Describes(head, first, [piece]) && InProgress(head, size) && CarriedFrom(first, current, overlap);
    var rest, l := PackPartitions(later, size, overlap, head, first, [piece]);
    if overlap > 0 && rest != [] {
      HeadFollows(current, piece, later, size, overlap);
    }
    if overlap > 0 {
      FollowCons(current, PackFrom(later, size, overlap, head), Origin(carried, own), rest, size, overlap);
    }
    hide *;
    origins := MadeOfCons(current, PackFrom(later, size, overlap, head), carried, own, rest, first, overlap);
    left := l;
    OwnedCons(Origin(carried, own), rest);
    Assoc(own, Owned(rest), left);
  }
}
