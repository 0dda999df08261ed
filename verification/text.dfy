/** The string built-ins the server relies on: `str.split(",")`, `str.strip()`, `str.upper()` and `",".join`. */
module Text {

  const Comma: char := ','

  /** The characters Python's `str.strip()` removes (`str.isspace`). */
  predicate IsSpace(c: char) {
    c == ' ' || ('\t' <= c <= '\r') || ('\U{1C}' <= c <= '\U{1F}') || c == '\U{85}' || c == '\U{A0}'
    || c == '\U{1680}' || ('\U{2000}' <= c <= '\U{200A}') || c == '\U{2028}' || c == '\U{2029}'
    || c == '\U{202F}' || c == '\U{205F}' || c == '\U{3000}'
  }

  /** `s.lstrip()`: the suffix of `s` left after its leading whitespace. */
  function StripLeft(s: string): (r: string)
    ensures |r| <= |s| && r == s[|s| - |r|..]
    ensures r != [] ==> !IsSpace(r[0])
  {
    if s != [] && IsSpace(s[0]) then StripLeft(s[1..]) else s
  }

  /** `s.rstrip()`: the prefix of `s` left before its trailing whitespace. */
  function StripRight(s: string): (r: string)
    ensures |r| <= |s| && r == s[..|r|]
    ensures r != [] ==> !IsSpace(r[|r| - 1])
  {
    if s != [] && IsSpace(s[|s| - 1]) then StripRight(s[..|s| - 1]) else s
  }

  /** `lstrip` removes whitespace and nothing else. */
  lemma {:induction false} StripLeftRemovesSpaces(s: string)
    ensures forall i :: 0 <= i < |s| - |StripLeft(s)| ==> IsSpace(s[i])
  {
    if s != [] && IsSpace(s[0]) {
      StripLeftRemovesSpaces(s[1..]);
      forall i | 1 <= i < |s| - |StripLeft(s)|
        ensures IsSpace(s[i])
      {
        assert s[i] == s[1..][i - 1];
      }
    }
  }

  /** `rstrip` removes whitespace and nothing else. */
  lemma {:induction false} StripRightRemovesSpaces(s: string)
    ensures forall i :: |StripRight(s)| <= i < |s| ==> IsSpace(s[i])
  {
    if s != [] && IsSpace(s[|s| - 1]) {
      StripRightRemovesSpaces(s[..|s| - 1]);
      forall i | |StripRight(s)| <= i < |s| - 1
        ensures IsSpace(s[i])
      {
        assert s[i] == s[..|s| - 1][i];
      }
    }
  }

  /** A string of whitespace only strips to nothing. */
  lemma {:induction false} StripLeftOfSpaces(s: string)
    requires forall i :: 0 <= i < |s| ==> IsSpace(s[i])
    ensures StripLeft(s) == []
  {
    if s != [] {
      assert IsSpace(s[0]);
      forall i | 0 <= i < |s| - 1
        ensures IsSpace(s[1..][i])
      {
        assert s[1..][i] == s[i + 1];
      }
      StripLeftOfSpaces(s[1..]);
    }
  }

  /** `s.strip()`. */
  function Strip(s: string): string {
    StripRight(StripLeft(s))
  }

  /** A string with no whitespace at either end. */
  predicate Trimmed(s: string) {
    s == [] || (!IsSpace(s[0]) && !IsSpace(s[|s| - 1]))
  }

  /** `strip` removes only surrounding whitespace: the result is the slice of `s` after its leading whitespace. */
  lemma StripSlice(s: string)
    ensures var i := |s| - |StripLeft(s)|; i + |Strip(s)| <= |s| && Strip(s) == s[i..i + |Strip(s)|]
  {
    var l := StripLeft(s);
    var r := StripRight(l);
    PrefixOfSuffix(s, |s| - |l|, |r|);
  }

  /** The first `k` characters of the suffix from `i` are the slice from `i` to `i + k`. */
  lemma PrefixOfSuffix(s: string, i: nat, k: nat)
    requires i + k <= |s|
    ensures s[i..][..k] == s[i..i + k]
  {
  }

  /** The result of `strip` has no whitespace at either end, and a trimmed string is left alone. */
  lemma StripTrimmed(s: string)
    ensures Trimmed(Strip(s))
    ensures Trimmed(s) ==> Strip(s) == s
  {
    var l := StripLeft(s);
    var r := StripRight(l);
    if r != [] {
      assert r[0] == l[0];
    }
    if Trimmed(s) && s != [] {
      assert l == s;
      assert r == l;
    }
  }

  /** A comma never survives `strip` unless it was in the input. */
  lemma StripKeepsNoComma(s: string)
    requires Comma !in s
    ensures Comma !in Strip(s)
  {
    StripSlice(s);
    var r := Strip(s);
    var i := |s| - |StripLeft(s)|;
    forall j | 0 <= j < |r|
      ensures r[j] != Comma
    {
      assert r[j] == s[i + j];
    }
  }

  /** `s.split(",")`: the maximal comma-free pieces, always at least one. */
  function Split(s: string): (parts: seq<string>)
    ensures |parts| >= 1
  {
    if s == [] then [""]
    else if s[0] == Comma then [""] + Split(s[1..])
    else
      var rest := Split(s[1..]);
      [[s[0]] + rest[0]] + rest[1..]
  }

  /** No piece of a split holds a comma. */
  lemma {:induction false} SplitPiecesHaveNoComma(s: string)
    ensures forall i :: 0 <= i < |Split(s)| ==> Comma !in Split(s)[i]
  {
    if s != [] {
      SplitPiecesHaveNoComma(s[1..]);
      if s[0] != Comma {
        var rest := Split(s[1..]);
        assert Comma !in [s[0]] + rest[0];
      }
    }
  }

  /** `",".join(parts)`. */
  function Join(parts: seq<string>): string {
    if |parts| == 0 then ""
    else if |parts| == 1 then parts[0]
    else parts[0] + [Comma] + Join(parts[1..])
  }

  /** One step of `join`: the first piece, a comma, and the join of the rest. */
  lemma JoinCons(p: string, rest: seq<string>)
    requires |rest| >= 1
    ensures Join([p] + rest) == p + [Comma] + Join(rest)
  {
    assert ([p] + rest)[1..] == rest;
  }

  /** Extending the first piece extends the joined string at the front. */
  lemma JoinExtendFirst(p: string, x: seq<string>)
    requires |x| >= 1
    ensures Join([p + x[0]] + x[1..]) == p + Join(x)
  {
    var y := [p + x[0]] + x[1..];
    assert y[0] == p + x[0];
    assert y[1..] == x[1..];
    if |x| == 1 {
      assert |y| == 1;
      assert Join(y) == p + x[0];
      assert Join(x) == x[0];
    } else {
      var j := Join(x[1..]);
      assert |y| > 1;
      assert Join(y) == (p + x[0]) + [Comma] + j;
      assert Join(x) == x[0] + [Comma] + j;
      Regroup(p, x[0], j);
    }
  }

  /** Concatenation regroups around a comma. */
  lemma Regroup(p: string, q: string, j: string)
    ensures (p + q) + [Comma] + j == p + (q + [Comma] + j)
  {
  }

  /** Splitting loses nothing: joining the pieces gives the input back. */
  lemma {:induction false} JoinSplit(s: string)
    ensures Join(Split(s)) == s
  {
    if s != [] {
      var c, s' := s[0], s[1..];
      assert s == [c] + s';
      JoinSplit(s');
      SplitCons(c, s');
      if c == Comma {
        JoinCons("", Split(s'));
      } else {
        JoinExtendFirst([c], Split(s'));
      }
    }
  }

  /** A piece without commas splits to itself. */
  lemma {:induction false} SplitNoComma(s: string)
    requires Comma !in s
    ensures Split(s) == [s]
  {
    if s != [] {
      assert s[0] != Comma;
      assert Comma !in s[1..] by {
        forall j | 0 <= j < |s| - 1 ensures s[1..][j] != Comma { assert s[1..][j] == s[j + 1]; }
      }
      SplitNoComma(s[1..]);
      assert [s[0]] + s[1..] == s;
    }
  }

  /** One step of `split`: a comma starts a new piece, any other character joins the first piece. */
  lemma SplitCons(c: char, s: string)
    ensures c == Comma ==> Split([c] + s) == [""] + Split(s)
    ensures c != Comma ==> Split([c] + s) == [[c] + Split(s)[0]] + Split(s)[1..]
  {
    assert ([c] + s)[0] == c;
    assert ([c] + s)[1..] == s;
  }

  /** Extending the first piece of `x + y` is extending the first piece of `x`. */
  lemma ExtendFirstPiece(p: string, x: seq<string>, y: seq<string>)
    requires |x| >= 1
    ensures [p + (x + y)[0]] + (x + y)[1..] == ([p + x[0]] + x[1..]) + y
  {
    assert (x + y)[0] == x[0];
    assert (x + y)[1..] == x[1..] + y;
  }

  /** Splitting distributes over a separating comma. */
  lemma {:induction false} SplitConcat(a: string, b: string)
    ensures Split(a + [Comma] + b) == Split(a) + Split(b)
  {
    if a == [] {
      assert a + [Comma] + b == [Comma] + b;
      SplitCons(Comma, b);
    } else {
      var c, a' := a[0], a[1..];
      var tail := a' + [Comma] + b;
      assert a == [c] + a';
      assert a + [Comma] + b == [c] + tail;
      SplitConcat(a', b);
      SplitCons(c, tail);
      SplitCons(c, a');
      if c != Comma {
        ExtendFirstPiece([c], Split(a'), Split(b));
      }
    }
  }

  /** Joining comma-free pieces and splitting again gives the pieces back. */
  lemma {:induction false} SplitJoin(parts: seq<string>)
    requires |parts| >= 1
    requires forall i :: 0 <= i < |parts| ==> Comma !in parts[i]
    ensures Split(Join(parts)) == parts
  {
    if |parts| == 1 {
      SplitNoComma(parts[0]);
    } else {
      SplitJoin(parts[1..]);
      SplitNoComma(parts[0]);
      SplitConcat(parts[0], Join(parts[1..]));
      assert [parts[0]] + parts[1..] == parts;
    }
  }

  /** Python's `c.upper()` on one character, for the ASCII letters. */
  function UpperChar(c: char): (u: char)
    ensures 'a' <= c <= 'z' ==> 'A' <= u <= 'Z' && u as int - 'A' as int == c as int - 'a' as int
    ensures !('a' <= c <= 'z') ==> u == c
  {
    if 'a' <= c <= 'z' then (c as int - 32) as char else c
  }

  /** `s.upper()`. */
  function Upper(s: string): (r: string)
    ensures |r| == |s|
    ensures forall i :: 0 <= i < |s| ==> r[i] == UpperChar(s[i])
  {
    seq(|s|, i requires 0 <= i < |s| => UpperChar(s[i]))
  }

  /** `[t.upper() for t in ts]`. */
  function UpperAll(ts: seq<string>): (r: seq<string>)
    ensures |r| == |ts|
    ensures forall i :: 0 <= i < |ts| ==> r[i] == Upper(ts[i])
  {
    seq(|ts|, i requires 0 <= i < |ts| => Upper(ts[i]))
  }

  /** Upper-casing twice is upper-casing once. */
  lemma UpperIdempotent(s: string)
    ensures Upper(Upper(s)) == Upper(s)
  {
    assert forall i :: 0 <= i < |s| ==> UpperChar(UpperChar(s[i])) == UpperChar(s[i]);
  }
}
