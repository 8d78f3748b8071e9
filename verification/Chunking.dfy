// Turning parsed text into embeddable chunks (services/chunking.py): the two structural splits,
// the hard cut, the greedy packing, and the loops that compute them.
module Chunking {
  import opened Outcome
  import opened Text

  datatype Segment = Segment(text: string, location: Option<string>)

  datatype Chunk = Chunk(ordinal: nat, text: string, location: Option<string>)

  datatype ChunkError = ChunkSizeNotPositive

  const SEPARATOR := "\n\n"

  lemma Assoc<T>(a: seq<T>, b: seq<T>, c: seq<T>)
    ensures a + (b + c) == (a + b) + c
  {
  }

  // ---- re.split on the two patterns -------------------------------------------------------

  // Where the whitespace starting at i ends.
  function SpaceEnd(s: string, i: nat): (e: nat)
    requires i <= |s|
    ensures i <= e <= |s|
    ensures forall j :: i <= j < e ==> IsSpace(s[j])
    ensures e < |s| ==> !IsSpace(s[e])
    decreases |s| - i
  {
    if i < |s| && IsSpace(s[i]) then SpaceEnd(s, i + 1) else i
  }

  predicate SentenceEndsAt(s: string, i: nat)
    requires i < |s|
  {
    i > 0 && (s[i - 1] == '.' || s[i - 1] == '!' || s[i - 1] == '?') && IsSpace(s[i])
  }

  // The first match of (?<=[.!?])\s+ at or after i, as the position it starts at.
  function SentenceBreak(s: string, i: nat): (r: Option<nat>)
    requires i <= |s|
    ensures r.Some? ==> i <= r.value < |s| && SentenceEndsAt(s, r.value)
    ensures forall j :: i <= j < (if r.Some? then r.value else |s|) ==> !SentenceEndsAt(s, j)
    decreases |s| - i
  {
    if i == |s| then None
    else if SentenceEndsAt(s, i) then Some(i)
    else SentenceBreak(s, i + 1)
  }

  function Sentences(s: string): seq<string>
    decreases |s|
  {
    var r := SentenceBreak(s, 0);
    if r.None? then [s] else [s[..r.value]] + Sentences(s[SpaceEnd(s, r.value)..])
  }

  // One past the last newline in s[i..e], i if there is none.
  function NewlineEnd(s: string, i: nat, e: nat): (n: nat)
    requires i <= e <= |s|
    ensures i <= n <= e
    ensures n > i ==> s[n - 1] == '\n'
    ensures forall j :: n <= j < e ==> s[j] != '\n'
    decreases e
  {
    if e == i then i else if s[e - 1] == '\n' then e else NewlineEnd(s, i, e - 1)
  }

  // A match of \n\s*\n+ starting at i runs to the last newline of the whitespace around it.
  predicate ParagraphEndsAt(s: string, i: nat)
    requires i < |s|
  {
    s[i] == '\n' && NewlineEnd(s, i + 1, SpaceEnd(s, i + 1)) > i + 1
  }

  function ParagraphBreak(s: string, i: nat): (r: Option<nat>)
    requires i <= |s|
    ensures r.Some? ==> i <= r.value < |s| && ParagraphEndsAt(s, r.value)
    ensures forall j :: i <= j < (if r.Some? then r.value else |s|) ==> !ParagraphEndsAt(s, j)
    decreases |s| - i
  {
    if i == |s| then None
    else if ParagraphEndsAt(s, i) then Some(i)
    else ParagraphBreak(s, i + 1)
  }

  function Paragraphs(s: string): seq<string>
    decreases |s|
  {
    var r := ParagraphBreak(s, 0);
    if r.None? then [s] else [s[..r.value]] + Paragraphs(s[NewlineEnd(s, r.value + 1, SpaceEnd(s, r.value + 1))..])
  }

  // ---- _hard_cut --------------------------------------------------------------------------

  // The last space before position n, 0 if there is none or only at the front.
  function LastSpace(s: string, n: nat): (k: nat)
    requires n <= |s|
    ensures k == 0 || (k < n && s[k] == ' ')
    ensures forall j :: k < j < n ==> s[j] != ' '
    decreases n
  {
    if n == 0 then 0 else if s[n - 1] == ' ' then n - 1 else LastSpace(s, n - 1)
  }

  function Cut(s: string, size: nat): (cut: nat)
    requires 0 < size <= |s|
    ensures 0 < cut <= size
  {
    if LastSpace(s, size) == 0 then size else LastSpace(s, size)
  }

  lemma LStripShrinks(s: string)
    ensures |LStrip(s)| <= |s|
  {
  }

  function HardCut(s: string, size: nat): seq<string>
    requires size > 0
    decreases |s|
  {
    if |s| <= size then if s == "" then [] else [s] else
    LStripShrinks(s[Cut(s, size)..]);
    [s[..Cut(s, size)]] + HardCut(LStrip(s[Cut(s, size)..]), size)
  }

  lemma HardCutStep(s: string, size: nat)
    requires 0 < size < |s|
    ensures var cut := Cut(s, size);
            && cut == (if LastSpace(s, size) == 0 then size else LastSpace(s, size))
            && |LStrip(s[cut..])| < |s|
            && HardCut(s, size) == [s[..cut]] + HardCut(LStrip(s[cut..]), size)
  {
    LStripShrinks(s[Cut(s, size)..]);
  }

  method CutHard(text: string, size: nat) returns (out: seq<string>)
    requires size > 0
    ensures out == HardCut(text, size)
  {
    out := [];
    var remaining := text;
    while |remaining| > size
      invariant out + HardCut(remaining, size) == HardCut(text, size)
      decreases |remaining|
    {
      hide *;
      HardCutStep(remaining, size);
      var cut := LastSpace(remaining, size);
      if cut <= 0 {
        cut := size;
      }
      Assoc(out, [remaining[..cut]], HardCut(LStrip(remaining[cut..]), size));
      out := out + [remaining[..cut]];
      remaining := LStrip(remaining[cut..]);
    }
    if remaining != "" {
      out := out + [remaining];
    }
  }

  // ---- _split_sentences -------------------------------------------------------------------

  function Flush(current: string): seq<string> {
    if current == "" then [] else [current]
  }

  // One pass of the loop: what it emits and the group it leaves in progress.
  function GroupNext(sentence: string, size: nat, current: string): (seq<string>, string)
    requires size > 0
  {
    if sentence == "" then ([], current)
    else if |sentence| > size then (Flush(current) + HardCut(sentence, size), "")
    else if |current| + |sentence| + 1 <= size then ([], Strip(current + " " + sentence))
    else ([current], sentence)
  }

  // The loop from a list of sentences and a sentence group in progress.
  function GroupSentences(sentences: seq<string>, size: nat, current: string): seq<string>
    requires size > 0
    decreases |sentences|
  {
    if sentences == [] then Flush(current) else
    var next := GroupNext(Strip(sentences[0]), size, current);
    next.0 + GroupSentences(sentences[1..], size, next.1)
  }

  method GroupOne(out: seq<string>, current: string, sentence: string, size: nat) returns (out': seq<string>,
                  current': string)
    requires size > 0
    ensures var next := GroupNext(sentence, size, current); out' == out + next.0 && current' == next.1
  {
    out', current' := out, current;
    if sentence == "" {
      return;
    }
    if |sentence| > size {
      if current != "" {
        out', current' := out' + [current], "";
      }
      var cut := CutHard(sentence, size);
      Assoc(out, Flush(current), cut);
      out' := out' + cut;
      return;
    }
    if |current| + |sentence| + 1 <= size {
      current' := Strip(current + " " + sentence);
    } else {
      out', current' := out' + [current], sentence;
    }
  }

  method SplitSentences(paragraph: string, size: nat) returns (out: seq<string>)
    requires size > 0
    ensures out == GroupSentences(Sentences(paragraph), size, "")
  {
    out := [];
    var current := "";
    var sentences := Sentences(paragraph);
    assert sentences[0..] == sentences;
    for i := 0 to |sentences|
      invariant out + GroupSentences(sentences[i..], size, current) == GroupSentences(sentences, size, "")
    {
      ghost var next := GroupNext(Strip(sentences[i]), size, current);
      assert sentences[i..][1..] == sentences[i + 1..];
      Assoc(out, next.0, GroupSentences(sentences[i + 1..], size, next.1));
      out, current := GroupOne(out, current, Strip(sentences[i]), size);
    }
    if current != "" {
      out := out + [current];
    }
  }

  // ---- _pack ------------------------------------------------------------------------------

  // str.find(" ") in the last `overlap` characters.
  function FirstSpace(s: string): (k: nat)
    ensures k <= |s|
    ensures k < |s| ==> s[k] == ' '
    ensures forall j :: 0 <= j < k ==> s[j] != ' '
  {
    if s == "" || s[0] == ' ' then 0 else FirstSpace(s[1..]) + 1
  }

  function Tail(text: string, overlap: int): string {
    if overlap <= 0 || |text| <= overlap then text else
    var tail := text[|text| - overlap..];
    if FirstSpace(tail) == |tail| then tail else tail[FirstSpace(tail) + 1..]
  }

  function Candidate(current: string, piece: string): string {
    if current == "" then piece else current + SEPARATOR + piece
  }

  // What a new chunk starts with, once `current` has been emitted.
  function Carried(current: string, piece: string, overlap: int): string {
    if overlap == 0 then piece else Strip(Tail(current, overlap) + SEPARATOR + piece)
  }

  function Head(current: string, piece: string, size: nat, overlap: int): string {
    if |Carried(current, piece, overlap)| > size then piece else Carried(current, piece, overlap)
  }

  // One pass of the loop: what it emits and the chunk it leaves in progress.
  function PackNext(piece: string, size: nat, overlap: int, current: string): (seq<string>, string) {
    if |Candidate(current, piece)| <= size then ([], Candidate(current, piece))
    else if current == "" then ([], piece)
    else ([current], Head(current, piece, size, overlap))
  }

  // The loop from a list of pieces and a chunk in progress.
  function PackFrom(pieces: seq<string>, size: nat, overlap: int, current: string): seq<string>
    decreases |pieces|
  {
    if pieces == [] then Flush(current) else
    var next := PackNext(pieces[0], size, overlap, current);
    next.0 + PackFrom(pieces[1..], size, overlap, next.1)
  }

  method PackOne(chunks: seq<string>, current: string, piece: string, size: nat, overlap: int)
    returns (chunks': seq<string>, current': string)
    ensures var next := PackNext(piece, size, overlap, current); chunks' == chunks + next.0 && current' == next.1
  {
    chunks' := chunks;
    var candidate := Candidate(current, piece);
    if |candidate| <= size {
      current' := candidate;
      return;
    }
    if current != "" {
      chunks' := chunks + [current];
      current' := Carried(current, piece, overlap);
      if |current'| > size {
        current' := piece;
      }
    } else {
      current' := piece;
    }
  }

  method Pack(pieces: seq<string>, size: nat, overlap: int) returns (chunks: seq<string>)
    ensures chunks == PackFrom(pieces, size, overlap, "")
  {
    chunks := [];
    var current := "";
    assert pieces[0..] == pieces;
    for i := 0 to |pieces|
      invariant chunks + PackFrom(pieces[i..], size, overlap, current) == PackFrom(pieces, size, overlap, "")
    {
      ghost var next := PackNext(pieces[i], size, overlap, current);
      assert pieces[i..][1..] == pieces[i + 1..];
      Assoc(chunks, next.0, PackFrom(pieces[i + 1..], size, overlap, next.1));
      chunks, current := PackOne(chunks, current, pieces[i], size, overlap);
    }
    if current != "" {
      chunks := chunks + [current];
    }
  }

  // ---- _split -----------------------------------------------------------------------------

  function ParagraphPieces(paragraph: string, size: nat): seq<string>
    requires size > 0
  {
    var p := Strip(paragraph);
    if p == "" then [] else if |p| <= size then [p] else GroupSentences(Sentences(p), size, "")
  }

  function Pieces(paragraphs: seq<string>, size: nat): seq<string>
    requires size > 0
  {
    if paragraphs == [] then [] else ParagraphPieces(paragraphs[0], size) + Pieces(paragraphs[1..], size)
  }

  function Split(text: string, size: nat, overlap: int): seq<string>
    requires size > 0
  {
    var t := Strip(text);
    if t == "" then [] else if |t| <= size then [t] else PackFrom(Pieces(Paragraphs(t), size), size, overlap, "")
  }

  method PiecesOf(paragraph: string, size: nat) returns (out: seq<string>)
    requires size > 0
    ensures out == ParagraphPieces(paragraph, size)
  {
    var stripped := Strip(paragraph);
    if stripped == "" {
      return [];
    }
    if |stripped| <= size {
      return [stripped];
    }
    out := SplitSentences(stripped, size);
  }

  method SplitText(text: string, size: nat, overlap: int) returns (out: seq<string>)
    requires size > 0
    ensures out == Split(text, size, overlap)
  {
    var stripped := Strip(text);
    if stripped == "" {
      return [];
    }
    if |stripped| <= size {
      return [stripped];
    }
    var pieces: seq<string> := [];
    var paragraphs := Paragraphs(stripped);
    assert paragraphs[0..] == paragraphs;
    for i := 0 to |paragraphs|
      invariant pieces + Pieces(paragraphs[i..], size) == Pieces(paragraphs, size)
    {
      assert paragraphs[i..][1..] == paragraphs[i + 1..];
      Assoc(pieces, ParagraphPieces(paragraphs[i], size), Pieces(paragraphs[i + 1..], size));
      var more := PiecesOf(paragraphs[i], size);
      pieces := pieces + more;
    }
    assert pieces == Pieces(paragraphs, size);
    out := Pack(pieces, size, overlap);
  }

  // ---- chunk_segments ---------------------------------------------------------------------

  function Clamp(overlap: int, size: nat): nat {
    var least := if overlap < size / 2 then overlap else size / 2;
    if least < 0 then 0 else least
  }

  // One segment's chunks, numbered from `from`.
  function Number(texts: seq<string>, location: Option<string>, from: nat): seq<Chunk> {
    if texts == [] then []
    else if Strip(texts[0]) == "" then Number(texts[1..], location, from)
    else [Chunk(from, Strip(texts[0]), location)] + Number(texts[1..], location, from + 1)
  }

  // A segment once split: its texts, and where they came from.
  datatype Parts = Parts(texts: seq<string>, location: Option<string>)

  function SplitAll(segments: seq<Segment>, size: nat, overlap: int): seq<Parts>
    requires size > 0
  {
    if segments == [] then []
    else [Parts(Split(segments[0].text, size, overlap), segments[0].location)] + SplitAll(segments[1..], size, overlap)
  }

  function NumberAll(parts: seq<Parts>, from: nat): seq<Chunk>
    decreases |parts|
  {
    if parts == [] then [] else
    var first := Number(parts[0].texts, parts[0].location, from);
    first + NumberAll(parts[1..], from + |first|)
  }

  function SegmentChunks(segment: Segment, size: nat, overlap: int, from: nat): seq<Chunk>
    requires size > 0
  {
    Number(Split(segment.text, size, overlap), segment.location, from)
  }

  function ChunksFrom(segments: seq<Segment>, size: nat, overlap: int, from: nat): seq<Chunk>
    requires size > 0
  {
    NumberAll(SplitAll(segments, size, overlap), from)
  }

  method NumberTexts(texts: seq<string>, location: Option<string>, chunks: seq<Chunk>) returns (chunks': seq<Chunk>)
    ensures chunks' == chunks + Number(texts, location, |chunks|)
  {
    chunks' := chunks;
    assert texts[0..] == texts;
    for j := 0 to |texts|
      invariant chunks' + Number(texts[j..], location, |chunks'|) == chunks + Number(texts, location, |chunks|)
    {
      assert texts[j..][1..] == texts[j + 1..];
      var cleaned := Strip(texts[j]);
      if cleaned != "" {
        Assoc(chunks', [Chunk(|chunks'|, cleaned, location)], Number(texts[j + 1..], location, |chunks'| + 1));
        chunks' := chunks' + [Chunk(|chunks'|, cleaned, location)];
      }
    }
  }

  // One segment: split, strip, drop what is empty, number.
  method ChunkOne(segment: Segment, size: nat, overlap: int, chunks: seq<Chunk>) returns (chunks': seq<Chunk>)
    requires size > 0
    ensures chunks' == chunks + SegmentChunks(segment, size, overlap, |chunks|)
  {
    var texts := SplitText(segment.text, size, overlap);
    chunks' := NumberTexts(texts, segment.location, chunks);
  }

  lemma ChunksFromStep(segments: seq<Segment>, size: nat, overlap: int, from: nat)
    requires size > 0 && segments != []
    ensures var first := SegmentChunks(segments[0], size, overlap, from);
            ChunksFrom(segments, size, overlap, from)
            == first + ChunksFrom(segments[1..], size, overlap, from + |first|)
  {
  }

  lemma NoSegments(size: nat, overlap: int, from: nat)
    requires size > 0
    ensures ChunksFrom([], size, overlap, from) == []
  {
  }

  method ChunkSegments(segments: seq<Segment>, chunkSize: int, overlap: int) returns (r: Result<seq<Chunk>, ChunkError>)
    ensures chunkSize <= 0 ==> r == Err(ChunkSizeNotPositive)
    ensures chunkSize > 0 ==> r == Ok(ChunksFrom(segments, chunkSize, Clamp(overlap, chunkSize), 0))
  {
    hide *;
    if chunkSize <= 0 {
      return Err(ChunkSizeNotPositive);
    }
    var size: nat := chunkSize;
    var carried := Clamp(overlap, size);
    var chunks: seq<Chunk> := [];
    var i := 0;
    ghost var whole := ChunksFrom(segments, size, carried, 0);
    ghost var later := whole;
    assert segments[0..] == segments;
    while i < |segments|
      invariant i <= |segments|
      invariant later == ChunksFrom(segments[i..], size, carried, |chunks|)
      invariant chunks + later == whole
    {
      ChunksFromStep(segments[i..], size, carried, |chunks|);
      assert segments[i..][1..] == segments[i + 1..];
      ghost var before := chunks;
      ghost var first := SegmentChunks(segments[i], size, carried, |chunks|);
      chunks := ChunkOne(segments[i], size, carried, chunks);
      later := ChunksFrom(segments[i + 1..], size, carried, |chunks|);
      Assoc(before, first, later);
      i := i + 1;
    }
    assert segments[i..] == [];
    NoSegments(size, carried, |chunks|);
    assert chunks == whole;
    r := Ok(chunks);
  }
}
