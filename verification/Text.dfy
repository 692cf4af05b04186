/** Strings as the sources treat them: sequences of characters with the white space that `trim` removes. */
module Text {

  /** White space and line terminators of ECMAScript. */
  predicate IsSpace(c: char) {
    || c == ' ' || '\t' <= c <= '\r' || c == '\U{A0}' || c == '\U{1680}' || '\U{2000}' <= c <= '\U{200A}'
    || c == '\U{2028}' || c == '\U{2029}' || c == '\U{202F}' || c == '\U{205F}' || c == '\U{3000}' || c == '\U{FEFF}'
  }

  function TrimStart(s: string): string {
    if s != "" && IsSpace(s[0]) then TrimStart(s[1..]) else s
  }

  function TrimEnd(s: string): string {
    if s != "" && IsSpace(s[|s| - 1]) then TrimEnd(s[..|s| - 1]) else s
  }

  function Trim(s: string): string { TrimEnd(TrimStart(s)) }

  predicate Trimmed(s: string) { s == "" || (!IsSpace(s[0]) && !IsSpace(s[|s| - 1])) }

  lemma {:induction false} TrimStartCuts(s: string)
    ensures exists k :: 0 <= k <= |s| && TrimStart(s) == s[k..] && forall i :: 0 <= i < k ==> IsSpace(s[i])
    ensures TrimStart(s) == "" || !IsSpace(TrimStart(s)[0])
  {
    hide IsSpace;
    if s != "" && IsSpace(s[0]) {
      var t := s[1..];
      TrimStartCuts(t);
      var k :| 0 <= k <= |t| && TrimStart(t) == t[k..] && forall i :: 0 <= i < k ==> IsSpace(t[i]);
      assert t[k..] == s[k + 1..];
      forall i | 0 <= i < k + 1
        ensures IsSpace(s[i])
      {
        assert i == 0 || s[i] == t[i - 1];
      }
    } else {
      assert s == s[0..];
    }
  }

  lemma {:induction false} TrimEndCuts(s: string)
    ensures exists k :: 0 <= k <= |s| && TrimEnd(s) == s[..k] && forall i :: k <= i < |s| ==> IsSpace(s[i])
    ensures TrimEnd(s) == "" || !IsSpace(TrimEnd(s)[|TrimEnd(s)| - 1])
  {
    hide IsSpace;
    if s != "" && IsSpace(s[|s| - 1]) {
      var t := s[..|s| - 1];
      TrimEndCuts(t);
      var k :| 0 <= k <= |t| && TrimEnd(t) == t[..k] && forall i :: k <= i < |t| ==> IsSpace(t[i]);
      assert t[..k] == s[..k];
      forall i | k <= i < |s|
        ensures IsSpace(s[i])
      {
        assert i == |s| - 1 || s[i] == t[i];
      }
    } else {
      assert s == s[..|s|];
    }
  }

  /** Trimming leaves no space at either end, and trimming again changes nothing. */
  lemma TrimIsTrimmed(s: string)
    ensures Trimmed(Trim(s)) && Trim(Trim(s)) == Trim(s)
  {
    var t := TrimStart(s);
    TrimStartCuts(s);
    TrimEndCuts(t);
    TrimmedIsKept(Trim(s));
  }

  lemma TrimmedIsKept(s: string)
    requires Trimmed(s)
    ensures Trim(s) == s
  {
  }

  lemma TrimShortens(s: string)
    ensures |Trim(s)| <= |s|
  {
    hide IsSpace, TrimStart, TrimEnd;
    TrimStartCuts(s);
    TrimEndCuts(TrimStart(s));
  }

  predicate Blank(s: string) { forall k :: 0 <= k < |s| ==> IsSpace(s[k]) }

  lemma {:induction false} StartPads(a: string, s: string)
    requires Blank(a)
    ensures TrimStart(a + s) == TrimStart(s)
    decreases |a|
  {
    hide IsSpace;
    if a == "" {
      assert a + s == s;
    } else {
      assert (a + s)[1..] == a[1..] + s;
      StartPads(a[1..], s);
    }
  }

  lemma {:induction false} EndPads(s: string, b: string)
    requires Blank(b)
    ensures TrimEnd(s + b) == TrimEnd(s)
    decreases |b|
  {
    hide IsSpace;
    if b == "" {
      assert s + b == s;
    } else {
      assert (s + b)[..|s + b| - 1] == s + b[..|b| - 1];
      EndPads(s, b[..|b| - 1]);
    }
  }

  /** Trimming takes off any padding... */
  lemma TrimPads(a: string, s: string, b: string)
    requires Blank(a) && Blank(b) && Trimmed(s)
    ensures Trim(a + s + b) == s
  {
    assert a + s + b == a + (s + b);
    StartPads(a, s + b);
    hide IsSpace;
    if s == "" {
      assert s + b == b + "";
      StartPads(b, "");
    } else {
      assert (s + b)[0] == s[0];
      EndPads(s, b);
    }
  }

  lemma {:induction false} StartSplits(s: string) returns (a: string)
    ensures s == a + TrimStart(s) && Blank(a)
    decreases |s|
  {
    hide IsSpace;
    a := "";
    if s != "" && IsSpace(s[0]) {
      var rest := StartSplits(s[1..]);
      a := [s[0]] + rest;
      assert a + TrimStart(s) == [s[0]] + (rest + TrimStart(s[1..]));
    }
  }

  lemma {:induction false} EndSplits(s: string) returns (b: string)
    ensures s == TrimEnd(s) + b && Blank(b)
    decreases |s|
  {
    hide IsSpace;
    b := "";
    if s != "" && IsSpace(s[|s| - 1]) {
      var rest := EndSplits(s[..|s| - 1]);
      b := rest + [s[|s| - 1]];
      assert TrimEnd(s) + b == (TrimEnd(s[..|s| - 1]) + rest) + [s[|s| - 1]];
    }
  }

  /** ...and nothing else. */
  lemma TrimSplits(s: string) returns (a: string, b: string)
    ensures s == a + Trim(s) + b && Blank(a) && Blank(b)
  {
    hide TrimStart, TrimEnd, Blank;
    a := StartSplits(s);
    b := EndSplits(TrimStart(s));
    assert a + (Trim(s) + b) == a + Trim(s) + b;
  }
}
