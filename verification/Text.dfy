// Python string whitespace: `str.strip`, `str.isspace` and the regex class \s agree on it.
module Text {
  // Py_UNICODE_ISSPACE, code point by code point.
  predicate IsSpace(c: char) {
    || '\U{9}' <= c <= '\U{d}'
    || '\U{1c}' <= c <= '\U{20}'
    || c == '\U{85}' || c == '\U{a0}' || c == '\U{1680}'
    || '\U{2000}' <= c <= '\U{200a}'
    || c == '\U{2028}' || c == '\U{2029}' || c == '\U{202f}' || c == '\U{205f}' || c == '\U{3000}'
  }

  predicate Blank(s: string) {
    forall i :: 0 <= i < |s| ==> IsSpace(s[i])
  }

  // str.lstrip, str.rstrip, str.strip
  function LStrip(s: string): string {
    if s != "" && IsSpace(s[0]) then LStrip(s[1..]) else s
  }

  function RStrip(s: string): string {
    if s != "" && IsSpace(s[|s| - 1]) then RStrip(s[..|s| - 1]) else s
  }

  function Strip(s: string): string {
    RStrip(LStrip(s))
  }

  // Starts and ends on a non-whitespace character, or is empty.
  predicate Stripped(s: string) {
    s != "" ==> !IsSpace(s[0]) && !IsSpace(s[|s| - 1])
  }

  // The text with every whitespace character deleted: what a split may not lose or reorder.
  function Erase(s: string): string {
    if s == "" then "" else (if IsSpace(s[0]) then "" else [s[0]]) + Erase(s[1..])
  }

  function Concat(parts: seq<string>): string {
    if parts == [] then "" else parts[0] + Concat(parts[1..])
  }

  lemma {:induction false} EraseConcat(a: string, b: string)
    ensures Erase(a + b) == Erase(a) + Erase(b)
  {
    if a == "" {
      assert a + b == b;
    } else {
      assert (a + b)[1..] == a[1..] + b;
      EraseConcat(a[1..], b);
    }
  }

  lemma {:induction false} ConcatAppend(a: seq<string>, b: seq<string>)
    ensures Concat(a + b) == Concat(a) + Concat(b)
  {
    if a == [] {
      assert a + b == b;
    } else {
      assert (a + b)[1..] == a[1..] + b;
      ConcatAppend(a[1..], b);
    }
  }

  lemma ConcatOne(a: seq<string>, x: string)
    ensures Concat(a + [x]) == Concat(a) + x
  {
    ConcatAppend(a, [x]);
    assert Concat([x]) == x + Concat([]);
  }

  lemma {:induction false} EraseBlank(s: string)
    ensures Erase(s) == "" <==> Blank(s)
  {
    if s != "" {
      EraseBlank(s[1..]);
      assert Blank(s) <==> IsSpace(s[0]) && Blank(s[1..]) by {
        assert forall i :: 0 <= i < |s| - 1 ==> s[1..][i] == s[i + 1];
        if IsSpace(s[0]) && Blank(s[1..]) {
          forall i | 0 <= i < |s| ensures IsSpace(s[i]) {
            if i > 0 { assert s[1..][i - 1] == s[i]; }
          }
        }
      }
    }
  }

  // lstrip removes a whitespace prefix and stops at the first other character.
  lemma {:induction false} LStripCut(s: string) returns (k: nat)
    ensures k <= |s| && LStrip(s) == s[k..] && Blank(s[..k])
    ensures LStrip(s) != "" ==> !IsSpace(LStrip(s)[0])
    ensures Erase(LStrip(s)) == Erase(s)
  {
    if s != "" && IsSpace(s[0]) {
      var j := LStripCut(s[1..]);
      k := j + 1;
      assert s[k..] == s[1..][j..];
      forall i | 0 <= i < k ensures IsSpace(s[..k][i]) {
        if i > 0 { assert s[1..][..j][i - 1] == s[i]; }
      }
    } else {
      k := 0;
      assert s[0..] == s;
    }
  }

  lemma {:induction false} RStripCut(s: string) returns (k: nat)
    ensures k <= |s| && RStrip(s) == s[..k] && Blank(s[k..])
    ensures RStrip(s) != "" ==> !IsSpace(RStrip(s)[|RStrip(s)| - 1])
    ensures Erase(RStrip(s)) == Erase(s)
  {
    if s != "" && IsSpace(s[|s| - 1]) {
      var t := s[..|s| - 1];
      k := RStripCut(t);
      assert s[..k] == t[..k];
      forall i | 0 <= i < |s| - k ensures IsSpace(s[k..][i]) {
        if i < |t| - k { assert t[k..][i] == s[k + i]; }
      }
      assert s == t + [s[|s| - 1]];
      EraseConcat(t, [s[|s| - 1]]);
    } else {
      k := |s|;
      assert s[..k] == s;
    }
  }

  // strip returns a stripped slice of its argument, dropping only whitespace.
  lemma StripFacts(s: string)
    ensures Stripped(Strip(s))
    ensures |Strip(s)| <= |s|
    ensures Erase(Strip(s)) == Erase(s)
    ensures Strip(s) == "" <==> Blank(s)
    ensures Stripped(s) ==> Strip(s) == s
  {
    var k := LStripCut(s);
    var m := RStripCut(LStrip(s));
    EraseBlank(s);
    if Strip(s) != "" {
      assert Strip(s)[0] == LStrip(s)[0];
    }
    EraseBlank(Strip(s));
  }
}
