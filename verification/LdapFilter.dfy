// Escaping an assertion value for an LDAP search filter (services/auth_providers.py
// `_escape_filter`), against section 3 of RFC 4515.
module LdapFilter {
  import opened Outcome

  // ---- the source: five whole-string replacements in a fixed order -------------------------

  // str.replace for a one-character pattern.
  function Replace(s: string, c: char, text: string): string {
    if s == "" then "" else (if s[0] == c then text else [s[0]]) + Replace(s[1..], c, text)
  }

  const REPLACEMENTS: seq<(char, string)> :=
    [('\\', "\\5c"), ('*', "\\2a"), ('(', "\\28"), (')', "\\29"), ('\0', "\\00")]

  function ReplaceAll(s: string, pairs: seq<(char, string)>): string
    decreases |pairs|
  {
    if pairs == [] then s else ReplaceAll(Replace(s, pairs[0].0, pairs[0].1), pairs[1..])
  }

  // ---- the standard: one pass, one character at a time -------------------------------------

  // The characters that may not stand for themselves in a value.
  predicate Special(c: char) {
    c == '\\' || c == '*' || c == '(' || c == ')' || c == '\0'
  }

  function HexDigit(n: nat): char
    requires n < 16
  {
    "0123456789abcdef"[n]
  }

  // Either case, as the standard's HEX allows.
  function HexValue(c: char): Option<nat> {
    if '0' <= c <= '9' then Some((c - '0') as nat)
    else if 'a' <= c <= 'f' then Some((c - 'a') as nat + 10)
    else if 'A' <= c <= 'F' then Some((c - 'A') as nat + 10)
    else None
  }

  // escaped = ESC HEX HEX
  function EncodeChar(c: char): string {
    if Special(c) then ['\\', HexDigit(c as nat / 16), HexDigit(c as nat % 16)] else [c]
  }

  function Encode(s: string): string {
    if s == "" then "" else EncodeChar(s[0]) + Encode(s[1..])
  }

  // The reader of the standard: None where the text is not a valueencoding.
  function Decode(s: string): Option<string> {
    if s == "" then Some("")
    else if s[0] == '\\' then
      if |s| < 3 || HexValue(s[1]).None? || HexValue(s[2]).None? then None else
      var rest := Decode(s[3..]);
      if rest.None? then None else Some([(HexValue(s[1]).value * 16 + HexValue(s[2]).value) as char] + rest.value)
    else if Special(s[0]) then None
    else
      var rest := Decode(s[1..]);
      if rest.None? then None else Some([s[0]] + rest.value)
  }

  // ---- they agree -------------------------------------------------------------------------

  type Pairs = seq<(char, string)>

  // The source's five replacements, in some order.
  ghost predicate Arrangement(pairs: Pairs) {
    multiset(pairs) == multiset(REPLACEMENTS)
  }

  lemma TwiceInMultiset<T>(s: seq<T>, i: nat, j: nat)
    requires i < j < |s| && s[i] == s[j]
    ensures multiset(s)[s[i]] >= 2
  {
    assert s == s[..j] + s[j..];
    assert s[i] in s[..j] && s[j] in s[j..];
  }

  lemma OncePerPair(x: (char, string))
    ensures multiset(REPLACEMENTS)[x] <= 1
  {
    var r := REPLACEMENTS;
    assert r == [r[0], r[1], r[2], r[3], r[4]];
    assert multiset(r) == multiset{r[0], r[1], r[2], r[3], r[4]};
  }

  // Each of the five special characters is replaced once, by its encoding.
  ghost predicate Complete(pairs: Pairs) {
    && |pairs| == 5
    && (forall i :: 0 <= i < 5 ==> Special(pairs[i].0) && pairs[i].1 == EncodeChar(pairs[i].0))
    && (forall i, j :: 0 <= i < j < 5 ==> pairs[i].0 != pairs[j].0)
    && (forall c :: Special(c) ==> exists i :: 0 <= i < 5 && pairs[i].0 == c)
  }

  lemma SourceIsComplete()
    ensures Complete(REPLACEMENTS)
  {
    var r := REPLACEMENTS;
    forall c | Special(c)
      ensures exists i :: 0 <= i < 5 && r[i].0 == c
    {
      assert r[0].0 == c || r[1].0 == c || r[2].0 == c || r[3].0 == c || r[4].0 == c;
    }
  }

  lemma ArrangementFacts(pairs: Pairs)
    requires Arrangement(pairs)
    ensures |pairs| == 5
    ensures forall i :: 0 <= i < 5 ==> pairs[i] in REPLACEMENTS
    ensures forall i, j :: 0 <= i < j < 5 ==> pairs[i] != pairs[j]
    ensures forall x :: x in REPLACEMENTS ==> x in pairs
  {
    hide REPLACEMENTS;
    assert |multiset(pairs)| == |multiset(REPLACEMENTS)|;
    assert forall x :: x in pairs <==> x in multiset(pairs);
    assert forall x :: x in REPLACEMENTS <==> x in multiset(REPLACEMENTS);
    forall i, j | 0 <= i < j < |pairs|
      ensures pairs[i] != pairs[j]
    {
      if pairs[i] == pairs[j] {
        TwiceInMultiset(pairs, i, j);
        OncePerPair(pairs[i]);
      }
    }
    assert |REPLACEMENTS| == 5 by {
      SourceIsComplete();
    }
  }

  lemma SameMembersComplete(r: Pairs, pairs: Pairs)
    requires Complete(r) && |pairs| == 5
    requires forall i :: 0 <= i < 5 ==> pairs[i] in r
    requires forall i, j :: 0 <= i < j < 5 ==> pairs[i] != pairs[j]
    requires forall i :: 0 <= i < 5 ==> r[i] in pairs
    ensures Complete(pairs)
  {
    hide EncodeChar, Special;
    forall c | Special(c)
      ensures exists i :: 0 <= i < 5 && pairs[i].0 == c
    {
      var k :| 0 <= k < 5 && r[k].0 == c;
      var i :| 0 <= i < 5 && pairs[i] == r[k];
    }
  }

  lemma ArrangementIsComplete(pairs: Pairs)
    requires Arrangement(pairs)
    ensures Complete(pairs)
  {
    SourceIsComplete();
    ArrangementFacts(pairs);
    SameMembersComplete(REPLACEMENTS, pairs);
  }

  // What the first i replacements do to one character, if the backslash is first: those that follow
  // never touch what an earlier one wrote, because it holds no character still to be replaced.
  function Stage(c: char, pairs: Pairs, i: nat): string
    requires i <= |pairs|
  {
    if exists j :: 0 <= j < i && pairs[j].0 == c then EncodeChar(c) else [c]
  }

  function StageAll(s: string, pairs: Pairs, i: nat): string
    requires i <= |pairs|
  {
    if s == "" then "" else Stage(s[0], pairs, i) + StageAll(s[1..], pairs, i)
  }

  lemma {:induction false} ReplaceConcat(a: string, b: string, c: char, text: string)
    ensures Replace(a + b, c, text) == Replace(a, c, text) + Replace(b, c, text)
  {
    if a == "" {
      assert a + b == b;
    } else {
      assert (a + b)[1..] == a[1..] + b;
      ReplaceConcat(a[1..], b, c, text);
    }
  }

  lemma {:induction false} ReplaceAbsent(s: string, c: char, text: string)
    requires c !in s
    ensures Replace(s, c, text) == s
  {
    if s != "" {
      ReplaceAbsent(s[1..], c, text);
    }
  }

  lemma ReplaceSelf(c: char, text: string)
    ensures Replace([c], c, text) == text
  {
    assert [c][1..] == "";
    assert Replace([c], c, text) == text + Replace("", c, text);
  }

  lemma DigitsAreInert(n: nat)
    requires n < 16
    ensures !Special(HexDigit(n))
  {
  }

  // Only the backslash is special in an encoded character.
  lemma EscapeShape(c: char)
    requires Special(c)
    ensures var e := EncodeChar(c); |e| == 3 && e[0] == '\\' && !Special(e[1]) && !Special(e[2])
  {
    DigitsAreInert(c as nat / 16);
    DigitsAreInert(c as nat % 16);
    hide HexDigit;
  }

  lemma EncodedIsInert(c: char, d: char)
    requires Special(c) && Special(d) && d != '\\'
    ensures d !in EncodeChar(c)
  {
    EscapeShape(c);
    hide EncodeChar, Special;
  }

  lemma StageNext(c: char, pairs: Pairs, i: nat)
    requires Complete(pairs) && pairs[0].0 == '\\' && i < 5
    ensures Replace(Stage(c, pairs, i), pairs[i].0, pairs[i].1) == Stage(c, pairs, i + 1)
  {
    var r := pairs[i].0;
    if j :| 0 <= j < i && pairs[j].0 == c {
      EncodedIsInert(c, r);
      ReplaceAbsent(EncodeChar(c), r, pairs[i].1);
    } else if c == r {
      ReplaceSelf(c, pairs[i].1);
    } else {
      ReplaceAbsent([c], r, pairs[i].1);
    }
  }

  lemma {:induction false} StageAllNext(s: string, pairs: Pairs, i: nat)
    requires Complete(pairs) && pairs[0].0 == '\\' && i < 5
    ensures Replace(StageAll(s, pairs, i), pairs[i].0, pairs[i].1) == StageAll(s, pairs, i + 1)
  {
    if s != "" {
      StageAllNext(s[1..], pairs, i);
      StageNext(s[0], pairs, i);
      ReplaceConcat(Stage(s[0], pairs, i), StageAll(s[1..], pairs, i), pairs[i].0, pairs[i].1);
    }
  }

  lemma {:induction false} StageEnds(s: string, pairs: Pairs)
    requires Complete(pairs)
    ensures StageAll(s, pairs, 0) == s && StageAll(s, pairs, 5) == Encode(s)
  {
    if s != "" {
      StageEnds(s[1..], pairs);
      assert Stage(s[0], pairs, 5) == EncodeChar(s[0]);
      assert Stage(s[0], pairs, 0) == [s[0]];
    }
  }

  lemma {:induction false} StagesFrom(s: string, pairs: Pairs, i: nat)
    requires Complete(pairs) && pairs[0].0 == '\\' && i <= 5
    ensures ReplaceAll(StageAll(s, pairs, i), pairs[i..]) == StageAll(s, pairs, 5)
    decreases 5 - i
  {
    if i < 5 {
      assert pairs[i..][1..] == pairs[i + 1..];
      StageAllNext(s, pairs, i);
      StagesFrom(s, pairs, i + 1);
    }
  }

  lemma BackslashFirst(s: string, pairs: Pairs)
    requires Complete(pairs) && pairs[0].0 == '\\'
    ensures ReplaceAll(s, pairs) == Encode(s)
  {
    StageEnds(s, pairs);
    StagesFrom(s, pairs, 0);
    assert pairs[0..] == pairs;
  }

  // Five passes in sequence equal one simultaneous pass.
  lemma SequentialIsSimultaneous(s: string)
    ensures ReplaceAll(s, REPLACEMENTS) == Encode(s)
  {
    SourceIsComplete();
    BackslashFirst(s, REPLACEMENTS);
  }

  // `_escape_filter`.
  method EscapeFilter(value: string) returns (escaped: string)
    ensures escaped == Encode(value)
  {
    escaped := value;
    for i := 0 to |REPLACEMENTS|
      invariant ReplaceAll(escaped, REPLACEMENTS[i..]) == ReplaceAll(value, REPLACEMENTS)
    {
      escaped := Replace(escaped, REPLACEMENTS[i].0, REPLACEMENTS[i].1);
      assert REPLACEMENTS[i..][1..] == REPLACEMENTS[i + 1..];
    }
    SequentialIsSimultaneous(value);
  }

  // ---- and in no other order --------------------------------------------------------------

  lemma {:induction false} PassOver(s: string, pairs: Pairs)
    requires forall i :: 0 <= i < |pairs| ==> pairs[i].0 !in s
    ensures ReplaceAll(s, pairs) == s
    decreases |pairs|
  {
    if pairs != [] {
      ReplaceAbsent(s, pairs[0].0, pairs[0].1);
      PassOver(s, pairs[1..]);
    }
  }

  lemma {:induction false} ReplaceAllConcat(s: string, a: Pairs, b: Pairs)
    ensures ReplaceAll(s, a + b) == ReplaceAll(ReplaceAll(s, a), b)
    decreases |a|
  {
    if a == [] {
      assert a + b == b;
    } else {
      assert (a + b)[1..] == a[1..] + b;
      ReplaceAllConcat(Replace(s, a[0].0, a[0].1), a[1..], b);
    }
  }

  // An encoded character as it stands once its own backslash has been escaped.
  function Twice(c: char): string
    requires Special(c)
  {
    EncodeChar('\\') + EncodeChar(c)[1..]
  }

  lemma EscapeOfEscape(c: char)
    requires Special(c)
    ensures Replace(EncodeChar(c), '\\', EncodeChar('\\')) == Twice(c)
    ensures |EncodeChar(c)| == 3 && |Twice(c)| == 5
    ensures forall d :: Special(d) && d != '\\' ==> d !in EncodeChar(c) && d !in Twice(c)
  {
    var e, f := EncodeChar(c), EncodeChar('\\');
    assert Special('\\');
    EscapeShape(c);
    EscapeShape('\\');
    hide EncodeChar, Special, Replace;
    assert e == ['\\'] + e[1..];
    ReplaceConcat(['\\'], e[1..], '\\', f);
    ReplaceSelf('\\', f);
    ReplaceAbsent(e[1..], '\\', f);
  }

  lemma ReplaceAllOne(s: string, pair: (char, string), after: Pairs)
    ensures ReplaceAll(s, [pair] + after) == ReplaceAll(Replace(s, pair.0, pair.1), after)
  {
    assert ([pair] + after)[1..] == after;
  }

  lemma Around(pairs: Pairs, j: nat)
    requires 0 < j < |pairs|
    ensures pairs == [pairs[0]] + (pairs[1..j] + ([pairs[j]] + pairs[j + 1..]))
  {
  }

  // With another character first, that character is escaped, and its escape is escaped again.
  lemma EscapedTwice(pairs: Pairs)
    requires Complete(pairs) && pairs[0].0 != '\\'
    ensures |ReplaceAll([pairs[0].0], pairs)| == 5
  {
    var c := pairs[0].0;
    assert Special('\\');
    var j :| 0 <= j < 5 && pairs[j].0 == '\\';
    var before, after := pairs[1..j], pairs[j + 1..];
    EscapeOfEscape(c);
    ReplaceSelf(c, pairs[0].1);
    Around(pairs, j);
    assert forall i :: 0 <= i < |before| ==> before[i] == pairs[i + 1];
    assert forall i :: 0 <= i < |after| ==> after[i] == pairs[i + j + 1];
    hide EncodeChar, Replace, ReplaceAll, Twice, Special;
    PassOver(EncodeChar(c), before);
    PassOver(Twice(c), after);
    ReplaceAllOne([c], pairs[0], before + ([pairs[j]] + after));
    ReplaceAllConcat(EncodeChar(c), before, [pairs[j]] + after);
    ReplaceAllOne(EncodeChar(c), pairs[j], after);
  }

  lemma EncodeOne(c: char)
    requires Special(c)
    ensures |Encode([c])| == 3
  {
    EscapeShape(c);
    hide EncodeChar;
    assert Encode([c]) == EncodeChar(c) + Encode("");
  }

  lemma ShownByItsFirst(pairs: Pairs)
    requires Complete(pairs) && pairs[0].0 != '\\'
    ensures exists s :: ReplaceAll(s, pairs) != Encode(s)
  {
    EscapedTwice(pairs);
    EncodeOne(pairs[0].0);
    hide *;
    assert ReplaceAll([pairs[0].0], pairs) != Encode([pairs[0].0]);
  }

  // Of the 120 orders of the five replacements, exactly those that begin with the backslash encode
  // every value.
  lemma BackslashMustComeFirst(pairs: Pairs)
    requires Arrangement(pairs)
    ensures |pairs| == 5
    ensures (forall s :: ReplaceAll(s, pairs) == Encode(s)) <==> pairs[0].0 == '\\'
  {
    ArrangementIsComplete(pairs);
    hide *;
    if pairs[0].0 == '\\' {
      forall s
        ensures ReplaceAll(s, pairs) == Encode(s)
      {
        BackslashFirst(s, pairs);
      }
    } else {
      ShownByItsFirst(pairs);
    }
  }

  // ---- what the output is -----------------------------------------------------------------

  // Every backslash begins a two-digit escape, and nothing else in the text is special.
  predicate ValueEncoding(s: string) {
    forall i :: 0 <= i < |s| && Special(s[i]) ==>
      s[i] == '\\' && i + 2 < |s| && HexValue(s[i + 1]).Some? && HexValue(s[i + 2]).Some?
  }

  lemma {:induction false} EncodeIsValueEncoding(s: string)
    ensures ValueEncoding(Encode(s))
  {
    if s != "" {
      EncodeIsValueEncoding(s[1..]);
      var head, tail := EncodeChar(s[0]), Encode(s[1..]);
      forall i | 0 <= i < |head + tail| && Special((head + tail)[i])
        ensures (head + tail)[i] == '\\' && i + 2 < |head + tail| && HexValue((head + tail)[i + 1]).Some?
                && HexValue((head + tail)[i + 2]).Some?
      {
        if i >= |head| {
          assert (head + tail)[i] == tail[i - |head|];
        }
      }
    }
  }

  // The four characters that would change the filter never appear, whatever the value.
  lemma NoMetacharacterSurvives(s: string)
    ensures forall i :: 0 <= i < |Encode(s)| ==> Encode(s)[i] !in {'*', '(', ')', '\0'}
  {
  }

  // Reading the escaped text back gives the value that was escaped.
  lemma {:induction false} DecodeEncode(s: string)
    ensures Decode(Encode(s)) == Some(s)
  {
    if s != "" {
      DecodeEncode(s[1..]);
      var c, tail := s[0], Encode(s[1..]);
      assert s == [c] + s[1..];
      if Special(c) {
        var e := EncodeChar(c) + tail;
        assert e[3..] == tail;
        assert HexValue(e[1]) == Some(c as nat / 16) && HexValue(e[2]) == Some(c as nat % 16);
        assert e[0] == '\\' && (HexValue(e[1]).value * 16 + HexValue(e[2]).value) as char == c;
        assert Decode(e) == Some([c] + s[1..]);
      } else {
        assert ([c] + tail)[1..] == tail;
      }
    }
  }

  // So no two values give the same filter text.
  lemma EncodeIsInjective(a: string, b: string)
    requires Encode(a) == Encode(b)
    ensures a == b
  {
    DecodeEncode(a);
    DecodeEncode(b);
  }
}
