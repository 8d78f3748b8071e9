// Greedy packing is optimal: without overlap, no split of the pieces into consecutive groups that
// fit the budget uses fewer chunks (services/chunking.py `_pack`).
module PackingOptimality {
  import opened Chunking
  import opened PackingProofs

  function Flatten(groups: seq<seq<string>>): seq<string> {
    if groups == [] then [] else groups[0] + Flatten(groups[1..])
  }

  // "\n\n".join(group)
  function Join(group: seq<string>): string {
    if group == [] then "" else if |group| == 1 then group[0] else group[0] + "\n\n" + Join(group[1..])
  }

  // A way to chunk the pieces: consecutive non-empty groups, each within the budget once joined.
  ghost predicate IsGrouping(groups: seq<seq<string>>, pieces: seq<string>, size: nat) {
    && Flatten(groups) == pieces
    && forall i :: 0 <= i < |groups| ==> groups[i] != [] && |Join(groups[i])| <= size
  }

  predicate FullPieces(pieces: seq<string>, size: nat) {
    forall i :: 0 <= i < |pieces| ==> pieces[i] != "" && |pieces[i]| <= size
  }

  // How many chunks come out from a chunk in progress.
  function Chunks(pieces: seq<string>, size: nat, current: string): nat {
    |PackFrom(pieces, size, 0, current)|
  }

  lemma ChunksUnroll(pieces: seq<string>, size: nat, current: string)
    requires pieces != [] && current != "" && FullPieces(pieces, size)
    ensures Chunks(pieces, size, current) ==
      if |current| + 2 + |pieces[0]| <= size then Chunks(pieces[1..], size, Candidate(current, pieces[0]))
      else 1 + Chunks(pieces[1..], size, pieces[0])
    ensures |Candidate(current, pieces[0])| == |current| + 2 + |pieces[0]|
  {
  }

  // A fuller chunk in progress never helps, and never costs more than one chunk.
  lemma {:induction false} FullerIsWorse(pieces: seq<string>, size: nat, x: string, y: string)
    requires FullPieces(pieces, size) && 0 < |x| <= |y| <= size
    ensures Chunks(pieces, size, x) <= Chunks(pieces, size, y) <= Chunks(pieces, size, x) + 1
    decreases |pieces|
  {
    if pieces != [] {
      var p, later := pieces[0], pieces[1..];
      ChunksUnroll(pieces, size, x);
      ChunksUnroll(pieces, size, y);
      var xp, yp := Candidate(x, p), Candidate(y, p);
      if |yp| <= size {
        FullerIsWorse(later, size, xp, yp);
      } else if |xp| <= size {
        FullerIsWorse(later, size, p, xp);
      }
    }
  }

  function Weight(group: seq<string>): nat {
    if group == [] then 0 else |group[0]| + 2 + Weight(group[1..])
  }

  lemma {:induction false} JoinWeight(group: seq<string>)
    requires group != []
    ensures |Join(group)| == Weight(group) - 2
  {
    if |group| > 1 {
      JoinWeight(group[1..]);
    } else {
      assert Weight(group[1..]) == 0;
    }
  }

  // The grouping starts a new chunk here; greedy may still be filling the old one.
  lemma NextGroup(pieces: seq<string>, size: nat, current: string, rest: seq<seq<string>>)
    requires FullPieces(pieces, size) && 0 < |current| <= size && pieces != []
    requires pieces == Flatten(rest)
    requires forall i :: 0 <= i < |rest| ==> rest[i] != [] && |Join(rest[i])| <= size
    ensures Chunks(pieces, size, current) <= 1 + |rest|
    decreases |pieces|, 0
  {
    var p, later := pieces[0], pieces[1..];
    assert rest != [];
    var g, others := rest[0], rest[1..];
    assert Flatten(rest) == g + Flatten(others);
    assert p == g[0] && later == g[1..] + Flatten(others);
    JoinWeight(g);
    StaysAhead(later, size, p, |p|, g[1..], others);
    ChunksUnroll(pieces, size, current);
    if |Candidate(current, p)| <= size {
      FullerIsWorse(later, size, p, Candidate(current, p));
    }
  }

  // Against any grouping of the remaining pieces whose first group continues a chunk at least as
  // full: greedy stays ahead.
  lemma {:induction false} StaysAhead(pieces: seq<string>, size: nat, current: string, d: nat, first: seq<string>,
                                      rest: seq<seq<string>>)
    requires FullPieces(pieces, size) && 0 < |current| <= d
    requires d + Weight(first) <= size
    requires pieces == first + Flatten(rest)
    requires forall i :: 0 <= i < |rest| ==> rest[i] != [] && |Join(rest[i])| <= size
    ensures Chunks(pieces, size, current) <= 1 + |rest|
    decreases |pieces|
  {
    if pieces != [] {
      var p, later := pieces[0], pieces[1..];
      ChunksUnroll(pieces, size, current);
      if first != [] {
        assert p == first[0] && later == first[1..] + Flatten(rest);
        StaysAhead(later, size, Candidate(current, p), d + 2 + |p|, first[1..], rest);
      } else {
        NextGroup(pieces, size, current, rest);
      }
    }
  }

  // No grouping beats greedy.
  lemma GreedyIsOptimal(pieces: seq<string>, size: nat, groups: seq<seq<string>>)
    requires FullPieces(pieces, size) && IsGrouping(groups, pieces, size)
    ensures |PackFrom(pieces, size, 0, "")| <= |groups|
  {
    if pieces != [] {
      var p, later := pieces[0], pieces[1..];
      PackUnrolls(pieces, size, 0, "");
      assert groups != [];
      var g, others := groups[0], groups[1..];
      assert p == g[0] && later == g[1..] + Flatten(others);
      JoinWeight(g);
      StaysAhead(later, size, p, |p|, g[1..], others);
    }
  }

  lemma {:induction false} JoinOneMore(group: seq<string>, piece: string)
    requires group != []
    ensures Join(group + [piece]) == Join(group) + SEPARATOR + piece
  {
    if |group| == 1 {
      assert (group + [piece])[1..] == [piece];
    } else {
      JoinOneMore(group[1..], piece);
      assert (group + [piece])[1..] == group[1..] + [piece];
      assert group[0] + SEPARATOR + (Join(group[1..]) + SEPARATOR + piece)
          == group[0] + SEPARATOR + Join(group[1..]) + SEPARATOR + piece;
    }
  }

  // And greedy is such a grouping: its chunks are the joined groups.
  lemma {:induction false} PackIsGrouping(pieces: seq<string>, size: nat, current: string,
                                          own: seq<string>) returns (groups: seq<seq<string>>)
    requires FullPieces(pieces, size) && own != [] && current == Join(own) && 0 < |current| <= size
    ensures IsGrouping(groups, own + pieces, size)
    ensures var c := PackFrom(pieces, size, 0, current);
            |c| == |groups| && forall i :: 0 <= i < |c| ==> c[i] == Join(groups[i])
    decreases |pieces|
  {
    if pieces == [] {
      groups := [own];
      assert Flatten(groups) == own + Flatten([]);
    } else {
      var p, later := pieces[0], pieces[1..];
      PackUnrolls(pieces, size, 0, current);
      if |Candidate(current, p)| <= size {
        JoinOneMore(own, p);
        groups := PackIsGrouping(later, size, Candidate(current, p), own + [p]);
        Assoc(own, [p], later);
      } else {
        assert Join([p]) == p;
        var rest := PackIsGrouping(later, size, p, [p]);
        groups := [own] + rest;
        assert groups[1..] == rest;
      }
    }
  }

  lemma GreedyIsAGrouping(pieces: seq<string>, size: nat) returns (groups: seq<seq<string>>)
    requires FullPieces(pieces, size)
    ensures IsGrouping(groups, pieces, size)
    ensures var c := PackFrom(pieces, size, 0, "");
            |c| == |groups| && forall i :: 0 <= i < |c| ==> c[i] == Join(groups[i])
  {
    if pieces == [] {
      groups := [];
    } else {
      PackUnrolls(pieces, size, 0, "");
      assert Join([pieces[0]]) == pieces[0];
      groups := PackIsGrouping(pieces[1..], size, pieces[0], [pieces[0]]);
    }
  }
}
