// How an overlong paragraph is put together from its sentences: which are joined, with what, and
// that no piece could have taken one more (services/chunking.py `_split_sentences`).
module SentenceGrouping {
  import opened Text
  import opened Chunking
  import opened ChunkingProofs

  // " ".join(sentences)
  function Spaced(sentences: seq<string>): string {
    if sentences == [] then ""
    else if |sentences| == 1 then sentences[0]
    else Spaced(sentences[..|sentences| - 1]) + " " + sentences[|sentences| - 1]
  }

  // A stretch of consecutive sentences in one piece, or an overlong sentence that is cut up.
  datatype Block = Together(sentences: seq<string>) | Alone(sentence: string)

  function Members(blocks: seq<Block>): seq<string> {
    if blocks == [] then [] else
    (match blocks[0] case Together(sentences) => sentences case Alone(s) => [s]) + Members(blocks[1..])
  }

  function Rendered(blocks: seq<Block>, size: nat): seq<string>
    requires size > 0
  {
    if blocks == [] then [] else
    (match blocks[0] case Together(sentences) => [Spaced(sentences)] case Alone(s) => HardCut(s, size))
    + Rendered(blocks[1..], size)
  }

  // A block is within the budget, or cannot be.
  predicate Fits(b: Block, size: nat) {
    match b
    case Together(sentences) => sentences != [] && |Spaced(sentences)| <= size
    case Alone(s) => |s| > size
  }

  // What follows it could not have been put with it.
  predicate CannotGrow(b: Block, next: Block, size: nat) {
    b.Together? && next.Together? && next.sentences != [] ==> |Spaced(b.sentences)| + 1 + |next.sentences[0]| > size
  }

  ghost predicate Greedy(blocks: seq<Block>, size: nat) {
    && (forall i :: 0 <= i < |blocks| ==> Fits(blocks[i], size))
    && (forall i, j :: 0 <= i < j < |blocks| && j == i + 1 ==> CannotGrow(blocks[i], blocks[j], size))
  }

  // Whitespace stripped, blank ones dropped.
  function Worded(parts: seq<string>): seq<string> {
    if parts == [] then []
    else (if Strip(parts[0]) == "" then [] else [Strip(parts[0])]) + Worded(parts[1..])
  }

  function NonEmpty(pieces: seq<string>): seq<string> {
    if pieces == [] then [] else (if pieces[0] == "" then [] else [pieces[0]]) + NonEmpty(pieces[1..])
  }

  lemma {:induction false} NonEmptyConcat(a: seq<string>, b: seq<string>)
    ensures NonEmpty(a + b) == NonEmpty(a) + NonEmpty(b)
  {
    if a == [] {
      assert a + b == b;
    } else {
      assert (a + b)[1..] == a[1..] + b;
      NonEmptyConcat(a[1..], b);
    }
  }

  lemma {:induction false} NonEmptyKeeps(a: seq<string>)
    requires "" !in a
    ensures NonEmpty(a) == a
  {
    if a != [] {
      NonEmptyKeeps(a[1..]);
    }
  }

  // Sentences of a group in progress.
  predicate AreWords(own: seq<string>) {
    forall i :: 0 <= i < |own| ==> own[i] != "" && Stripped(own[i])
  }

  lemma {:induction false} SpacedIsStripped(own: seq<string>)
    requires AreWords(own)
    ensures Stripped(Spaced(own)) && (Spaced(own) == "" <==> own == [])
  {
    if |own| > 1 {
      SpacedIsStripped(own[..|own| - 1]);
    }
  }

  lemma StrippedStays(s: string)
    requires Stripped(s)
    ensures Strip(s) == s && Strip(" " + s) == s
  {
    assert (" " + s)[1..] == s;
  }

  // Putting one more sentence into the group in progress.
  lemma JoinOneMore(own: seq<string>, sentence: string)
    requires AreWords(own) && sentence != "" && Stripped(sentence)
    ensures Strip(Spaced(own) + " " + sentence) == Spaced(own + [sentence])
    ensures AreWords(own + [sentence])
  {
    var all := own + [sentence];
    SpacedIsStripped(own);
    if own == [] {
      StrippedStays(sentence);
      assert "" + " " + sentence == " " + sentence;
    } else {
      assert all[..|all| - 1] == own && all[|all| - 1] == sentence;
      SpacedIsStripped(all);
      StrippedStays(Spaced(all));
    }
  }

  lemma CutIsNonEmpty(sentence: string, size: nat)
    requires size > 0 && Stripped(sentence)
    ensures NonEmpty(HardCut(sentence, size)) == HardCut(sentence, size)
  {
    var at := HardCutCutsAtSpaces(sentence, size);
    var pieces := HardCut(sentence, size);
    forall i | 0 <= i < |pieces|
      ensures pieces[i] != ""
    {
      assert Placed(sentence, pieces[i], at[i], size);
    }
    NonEmptyKeeps(pieces);
  }

  // The group in progress, closed, before other blocks.
  function Close(own: seq<string>, rest: seq<Block>): seq<Block> {
    if own == [] then rest else [Together(own)] + rest
  }

  lemma CloseKeeps(own: seq<string>, rest: seq<Block>, size: nat)
    requires size > 0 && AreWords(own) && |Spaced(own)| <= size && Greedy(rest, size)
    requires own != [] && rest != [] ==> CannotGrow(Together(own), rest[0], size)
    ensures Greedy(Close(own, rest), size)
    ensures Members(Close(own, rest)) == own + Members(rest)
    ensures Rendered(Close(own, rest), size) == NonEmpty([Spaced(own)]) + Rendered(rest, size)
  {
    SpacedIsStripped(own);
    var blocks := Close(own, rest);
    if own != [] {
      assert blocks[1..] == rest;
      forall i, j | 0 <= i < j < |blocks| && j == i + 1
        ensures CannotGrow(blocks[i], blocks[j], size)
      {
        if i > 0 {
          assert blocks[i] == rest[i - 1] && blocks[j] == rest[i];
        }
      }
    }
  }

  lemma FlushNonEmpty(current: string)
    ensures NonEmpty(Flush(current)) == NonEmpty([current])
  {
  }

  lemma GroupUnrolls(sentences: seq<string>, size: nat, current: string)
    requires size > 0 && sentences != []
    ensures var sentence, later := Strip(sentences[0]), sentences[1..];
            var all := GroupSentences(sentences, size, current);
            && Worded(sentences) == (if sentence == "" then [] else [sentence]) + Worded(later)
            && (sentence == "" ==> all == GroupSentences(later, size, current) && Worded(sentences) == Worded(later))
            && (|sentence| > size ==> all == Flush(current) + HardCut(sentence, size) + GroupSentences(later, size, ""))
            && (sentence != "" && |current| + |sentence| + 1 <= size ==>
                  all == GroupSentences(later, size, Strip(current + " " + sentence)))
            && (sentence != "" && |sentence| <= size < |current| + |sentence| + 1 ==>
                  all == [current] + GroupSentences(later, size, sentence))
  {
    hide Strip, HardCut;
  }

  lemma GroupedEnd(size: nat, own: seq<string>) returns (blocks: seq<Block>)
    requires size > 0 && AreWords(own) && |Spaced(own)| <= size
    ensures NonEmpty(GroupSentences([], size, Spaced(own))) == Rendered(blocks, size)
    ensures Members(blocks) == own + Worded([])
    ensures Greedy(blocks, size)
    ensures own != [] ==> blocks != [] && blocks[0].Together? && own <= blocks[0].sentences
  {
    blocks := Close(own, []);
    CloseKeeps(own, [], size);
    FlushNonEmpty(Spaced(own));
    assert NonEmpty([Spaced(own)]) + [] == NonEmpty([Spaced(own)]);
    assert own + [] == own;
  }

  // An overlong sentence: the group is closed, the sentence cut, and grouping starts afresh.
  lemma GroupedCut(sentence: string, later: seq<string>, size: nat, own: seq<string>) returns (blocks: seq<Block>)
    requires size > 0 && AreWords(own) && |Spaced(own)| <= size && |sentence| > size && Stripped(sentence)
    ensures NonEmpty(Flush(Spaced(own)) + HardCut(sentence, size) + GroupSentences(later, size, ""))
         == Rendered(blocks, size)
    ensures Members(blocks) == own + ([sentence] + Worded(later))
    ensures Greedy(blocks, size)
    ensures own != [] ==> blocks != [] && blocks[0].Together? && own <= blocks[0].sentences
    decreases |later|, 1
  {
    var rest := GroupedFrom(later, size, "", []);
    var cut := [Alone(sentence)] + rest;
    assert cut[1..] == rest;
    forall i, j | 0 <= i < j < |cut| && j == i + 1
      ensures CannotGrow(cut[i], cut[j], size)
    {
      if i > 0 {
        assert cut[i] == rest[i - 1] && cut[j] == rest[i];
      }
    }
    blocks := Close(own, cut);
    CloseKeeps(own, cut, size);
    var g := GroupSentences(later, size, "");
    NonEmptyConcat(Flush(Spaced(own)) + HardCut(sentence, size), g);
    NonEmptyConcat(Flush(Spaced(own)), HardCut(sentence, size));
    CutIsNonEmpty(sentence, size);
    FlushNonEmpty(Spaced(own));
    Assoc(NonEmpty([Spaced(own)]), HardCut(sentence, size), NonEmpty(g));
    assert [] + Worded(later) == Worded(later);
  }

  // A sentence that does not fit any more: the group is closed and the sentence starts the next.
  lemma GroupedNext(sentence: string, later: seq<string>, size: nat, own: seq<string>) returns (blocks: seq<Block>)
    requires size > 0 && AreWords(own) && |Spaced(own)| <= size
    requires sentence != "" && Stripped(sentence) && |sentence| <= size < |Spaced(own)| + 1 + |sentence|
    ensures NonEmpty([Spaced(own)] + GroupSentences(later, size, sentence)) == Rendered(blocks, size)
    ensures Members(blocks) == own + ([sentence] + Worded(later))
    ensures Greedy(blocks, size)
    ensures own != [] ==> blocks != [] && blocks[0].Together? && own <= blocks[0].sentences
    decreases |later|, 1
  {
    var rest := GroupedFrom(later, size, sentence, [sentence]);
    assert rest[0].sentences[0] == sentence;
    blocks := Close(own, rest);
    CloseKeeps(own, rest, size);
    NonEmptyConcat([Spaced(own)], GroupSentences(later, size, sentence));
  }

  // From a group in progress: every sentence is in exactly one block, in order, and each block is
  // closed only when the next sentence would not fit.
  lemma {:induction false} GroupedFrom(sentences: seq<string>, size: nat, current: string, own: seq<string>)
    returns (blocks: seq<Block>)
    requires size > 0 && AreWords(own) && current == Spaced(own) && |current| <= size
    ensures NonEmpty(GroupSentences(sentences, size, current)) == Rendered(blocks, size)
    ensures Members(blocks) == own + Worded(sentences)
    ensures Greedy(blocks, size)
    ensures own != [] ==> blocks != [] && blocks[0].Together? && own <= blocks[0].sentences
    decreases |sentences|, 0
  {
    hide Strip, Spaced, HardCut, Stripped, Erase, GroupSentences, Worded, Members, Rendered, Greedy, NonEmpty, Close;
    SpacedIsStripped(own);
    if sentences == [] {
      blocks := GroupedEnd(size, own);
    } else {
      var sentence, later := Strip(sentences[0]), sentences[1..];
      StripFacts(sentences[0]);
      GroupUnrolls(sentences, size, current);
      if sentence == "" {
        blocks := GroupedFrom(later, size, current, own);
      } else if |sentence| > size {
        blocks := GroupedCut(sentence, later, size, own);
      } else if |current| + |sentence| + 1 <= size {
        JoinOneMore(own, sentence);
        StripFacts(current + " " + sentence);
        blocks := GroupedFrom(later, size, Spaced(own + [sentence]), own + [sentence]);
        Assoc(own, [sentence], Worded(later));
      } else {
        blocks := GroupedNext(sentence, later, size, own);
      }
    }
  }

  // The pieces of an overlong paragraph, but for empty ones: each overlong sentence cut up, and
  // between them the sentences in order, joined by single spaces, as many to a piece as fit.
  lemma SentencesAreGroupedGreedily(paragraph: string, size: nat) returns (blocks: seq<Block>)
    requires size > 0
    ensures NonEmpty(GroupSentences(Sentences(paragraph), size, "")) == Rendered(blocks, size)
    ensures Members(blocks) == Worded(Sentences(paragraph))
    ensures Greedy(blocks, size)
  {
    blocks := GroupedFrom(Sentences(paragraph), size, "", []);
    assert [] + Worded(Sentences(paragraph)) == Worded(Sentences(paragraph));
  }
}
