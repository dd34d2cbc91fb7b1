/**
 * The string operations the application applies to user input:
 * `String.prototype.trim`, `String.prototype.toLowerCase` and the
 * "blank" test `!s.trim()`.
 */
module Text {

  /** The characters `trim` removes: ECMAScript WhiteSpace and LineTerminator. */
  predicate IsSpace(c: char) {
    || c == '\t' || c == '\n' || c == '\U{000B}' || c == '\U{000C}' || c == '\r' || c == ' '
    || c == '\U{00A0}' || c == '\U{1680}' || ('\U{2000}' <= c <= '\U{200A}')
    || c == '\U{2028}' || c == '\U{2029}' || c == '\U{202F}' || c == '\U{205F}'
    || c == '\U{3000}' || c == '\U{FEFF}'
  }

  predicate AllSpace(s: string) {
    forall i :: 0 <= i < |s| ==> IsSpace(s[i])
  }

  /** Leading white space removed: what is left is a suffix of `s`. */
  function TrimStart(s: string): (r: string)
    ensures |r| <= |s| && r == s[|s| - |r|..]
    ensures AllSpace(s[..|s| - |r|])
    ensures r == [] || !IsSpace(r[0])
    decreases |s|
  {
    if |s| > 0 && IsSpace(s[0]) then
      var r := TrimStart(s[1..]);
      assert s[..|s| - |r|] == [s[0]] + s[1..][..|s| - 1 - |r|];
      r
    else s
  }

  /** Trailing white space removed: what is left is a prefix of `s`. */
  function TrimEnd(s: string): (r: string)
    ensures |r| <= |s| && r == s[..|r|]
    ensures AllSpace(s[|r|..])
    ensures r == [] || !IsSpace(r[|r| - 1])
    decreases |s|
  {
    if |s| > 0 && IsSpace(s[|s| - 1]) then
      var r := TrimEnd(s[..|s| - 1]);
      assert s[|r|..] == s[..|s| - 1][|r|..] + [s[|s| - 1]];
      r
    else s
  }

  /** `s.trim()`. */
  function Trim(s: string): string {
    TrimEnd(TrimStart(s))
  }

  /** `!s.trim()`: the string is empty once trimmed. */
  predicate IsBlank(s: string) {
    Trim(s) == ""
  }

  /** `toLowerCase` on one character (ASCII letters; every other character is kept). */
  function LowerChar(c: char): (d: char)
    ensures IsSpace(d) <==> IsSpace(c)
  {
    if 'A' <= c <= 'Z' then (c as int + 32) as char else c
  }

  /** `s.toLowerCase()`. */
  function Lower(s: string): (r: string)
    ensures |r| == |s|
    ensures forall i :: 0 <= i < |s| ==> r[i] == LowerChar(s[i])
  {
    seq(|s|, i requires 0 <= i < |s| => LowerChar(s[i]))
  }

  /** Lower-casing twice is lower-casing once. */
  lemma LowerIdempotent(s: string)
    ensures Lower(Lower(s)) == Lower(s)
  {
    assert forall i :: 0 <= i < |s| ==> Lower(Lower(s))[i] == Lower(s)[i];
  }

  /** Lower-casing keeps exactly the white-space characters white space. */
  lemma LowerKeepsSpace(s: string)
    ensures AllSpace(Lower(s)) <==> AllSpace(s)
  {
    assert forall i :: 0 <= i < |s| ==> (IsSpace(Lower(s)[i]) <==> IsSpace(s[i]));
  }

  /** The answer comparison used by both the backend and the page:
      `a.toLowerCase().trim() === b.toLowerCase().trim()`. */
  predicate AnswersMatch(a: string, b: string) {
    Trim(Lower(a)) == Trim(Lower(b))
  }

  /** Trimming keeps a contiguous slice of the input and drops only white space around it. */
  lemma TrimIsSlice(s: string)
    ensures exists i, j :: 0 <= i <= j <= |s| && Trim(s) == s[i..j]
                        && AllSpace(s[..i]) && AllSpace(s[j..])
  {
    var a := TrimStart(s);
    var i := |s| - |a|;
    var b := TrimEnd(a);
    var j := i + |b|;
    assert a == s[i..] && AllSpace(s[..i]);
    assert b == a[..|b|] && AllSpace(a[|b|..]);
    assert a[..|b|] == s[i..j];
    assert a[|b|..] == s[j..];
    assert Trim(s) == b;
    assert 0 <= i <= j <= |s| && Trim(s) == s[i..j] && AllSpace(s[..i]) && AllSpace(s[j..]);
  }

  /** A trimmed string neither starts nor ends with white space. */
  lemma TrimmedEnds(s: string)
    ensures var t := Trim(s); t == [] || (!IsSpace(t[0]) && !IsSpace(t[|t| - 1]))
  {
    var a := TrimStart(s);
    var b := TrimEnd(a);
    if b != [] {
      assert a != [] && b == a[..|b|];
      assert b[0] == a[0] && !IsSpace(a[0]);
      assert !IsSpace(b[|b| - 1]);
    }
  }

  /** Trimming twice is trimming once. */
  lemma TrimIdempotent(s: string)
    ensures Trim(Trim(s)) == Trim(s)
  {
    var t := Trim(s);
    TrimmedEnds(s);
    assert TrimStart(t) == t;
    assert TrimEnd(t) == t;
  }

  /** A string is blank exactly when every character is white space. */
  lemma {:induction false} BlankIffAllSpace(s: string)
    ensures IsBlank(s) <==> AllSpace(s)
  {
    if !AllSpace(s) {
      var k :| 0 <= k < |s| && !IsSpace(s[k]);
      var a := TrimStart(s);
      assert s[..|s|] == s;
      assert a != [];
      TrimmedEnds(s);
    }
  }

  /** Lower-casing and trimming commute, since lower-casing maps white space to itself
      and nothing else to white space. */
  lemma {:induction false} LowerTrimStartCommute(s: string)
    ensures Lower(TrimStart(s)) == TrimStart(Lower(s))
    decreases |s|
  {
    if |s| > 0 && IsSpace(s[0]) {
      LowerTrimStartCommute(s[1..]);
      assert Lower(s)[1..] == Lower(s[1..]);
    }
  }

  lemma {:induction false} LowerTrimEndCommute(s: string)
    ensures Lower(TrimEnd(s)) == TrimEnd(Lower(s))
    decreases |s|
  {
    if |s| > 0 && IsSpace(s[|s| - 1]) {
      LowerTrimEndCommute(s[..|s| - 1]);
      assert Lower(s)[..|s| - 1] == Lower(s[..|s| - 1]);
    }
  }

  lemma LowerTrimCommute(s: string)
    ensures Lower(Trim(s)) == Trim(Lower(s))
  {
    LowerTrimEndCommute(TrimStart(s));
    LowerTrimStartCommute(s);
  }

  /** The comparison ignores surrounding white space and letter case: padding either side
      with spaces, or upper-casing ASCII letters, does not change the verdict. */
  lemma AnswersMatchIgnoresPadding(a: string, b: string, pad: string)
    requires AllSpace(pad)
    ensures AnswersMatch(pad + a + pad, b) <==> AnswersMatch(a, b)
  {
    var p := pad + a + pad;
    LowerTrimCommute(p);
    LowerTrimCommute(a);
    TrimPadded(a, pad);
  }

  lemma TrimPadded(a: string, pad: string)
    requires AllSpace(pad)
    ensures Trim(pad + a + pad) == Trim(a)
  {
    TrimStartPadded(a + pad, pad);
    assert pad + a + pad == pad + (a + pad);
    TrimEndPadded(TrimStart(a), pad);
    TrimStartKeepsSuffix(a, pad);
  }

  lemma {:induction false} TrimStartPadded(s: string, pad: string)
    requires AllSpace(pad)
    ensures TrimStart(pad + s) == TrimStart(s)
    decreases |pad|
  {
    if pad != [] {
      assert (pad + s)[0] == pad[0];
      assert (pad + s)[1..] == pad[1..] + s;
      TrimStartPadded(s, pad[1..]);
    } else {
      assert pad + s == s;
    }
  }

  lemma {:induction false} TrimEndPadded(s: string, pad: string)
    requires AllSpace(pad)
    ensures TrimEnd(s + pad) == TrimEnd(s)
    decreases |pad|
  {
    if pad != [] {
      var n := |s + pad|;
      assert (s + pad)[n - 1] == pad[|pad| - 1];
      assert (s + pad)[..n - 1] == s + pad[..|pad| - 1];
      TrimEndPadded(s, pad[..|pad| - 1]);
    } else {
      assert s + pad == s;
    }
  }

  /** Trimming the front of `a + pad` is trimming the front of `a` then appending `pad`,
      unless `a` is all white space, in which case everything goes. */
  lemma {:induction false} TrimStartKeepsSuffix(a: string, pad: string)
    requires AllSpace(pad)
    ensures TrimEnd(TrimStart(a + pad)) == TrimEnd(TrimStart(a))
    decreases |a|
  {
    if |a| > 0 && IsSpace(a[0]) {
      assert (a + pad)[0] == a[0];
      assert (a + pad)[1..] == a[1..] + pad;
      TrimStartKeepsSuffix(a[1..], pad);
    } else if |a| > 0 {
      assert (a + pad)[0] == a[0];
      TrimEndPadded(a, pad);
    } else {
      assert a + pad == pad;
      TrimStartAllSpace(pad);
    }
  }

  lemma {:induction false} TrimStartAllSpace(s: string)
    requires AllSpace(s)
    ensures TrimStart(s) == []
    decreases |s|
  {
    if s != [] {
      TrimStartAllSpace(s[1..]);
    }
  }
}
