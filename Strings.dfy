/** The .NET string operations the listing relies on: `char.IsWhiteSpace`,
    `string.IsNullOrWhiteSpace` and `string.Trim()`. */
module Strings {
  import opened Wrappers

  /** The characters .NET counts as white space: the Unicode space, line and
      paragraph separators, plus U+0009-U+000D and U+0085. */
  predicate IsWhiteSpace(c: char) {
    ('\U{0009}' <= c <= '\U{000D}') || c == ' ' || c == '\U{0085}' || c == '\U{00A0}' ||
    c == '\U{1680}' || ('\U{2000}' <= c <= '\U{200A}') || c == '\U{2028}' || c == '\U{2029}' ||
    c == '\U{202F}' || c == '\U{205F}' || c == '\U{3000}'
  }

  /** Every character is white space (true of the empty string). */
  predicate IsBlank(s: string) {
    forall i :: 0 <= i < |s| ==> IsWhiteSpace(s[i])
  }

  /** `string.IsNullOrWhiteSpace`. */
  predicate IsNullOrWhiteSpace(s: Option<string>) {
    s.None? || IsBlank(s.value)
  }

  /** `s` with its leading white space removed. */
  function TrimStart(s: string): string
    decreases |s|
  {
    if s != [] && IsWhiteSpace(s[0]) then TrimStart(s[1..]) else s
  }

  /** `s` with its trailing white space removed. */
  function TrimEnd(s: string): string
    decreases |s|
  {
    if s != [] && IsWhiteSpace(s[|s| - 1]) then TrimEnd(s[..|s| - 1]) else s
  }

  /** `string.Trim()`: white space removed from both ends. */
  function Trim(s: string): string {
    TrimEnd(TrimStart(s))
  }

  /** TrimStart removes a blank prefix, and what it keeps is empty or starts
      with a character that is not white space. */
  lemma {:induction false} TrimStartSpec(s: string)
    ensures var r := TrimStart(s);
      |r| <= |s| && r == s[|s| - |r|..] && IsBlank(s[..|s| - |r|]) &&
      (r != [] ==> !IsWhiteSpace(r[0]))
    decreases |s|
  {
    if s != [] && IsWhiteSpace(s[0]) {
      TrimStartSpec(s[1..]);
      var r := TrimStart(s[1..]);
      assert s[..|s| - |r|] == [s[0]] + s[1..][..|s[1..]| - |r|];
    }
  }

  /** TrimEnd removes a blank suffix, and what it keeps is empty or ends
      with a character that is not white space. */
  lemma {:induction false} TrimEndSpec(s: string)
    ensures var r := TrimEnd(s);
      |r| <= |s| && r == s[..|r|] && IsBlank(s[|r|..]) &&
      (r != [] ==> !IsWhiteSpace(r[|r| - 1]))
    decreases |s|
  {
    if s != [] && IsWhiteSpace(s[|s| - 1]) {
      TrimEndSpec(s[..|s| - 1]);
      var r := TrimEnd(s[..|s| - 1]);
      assert s[|r|..] == s[..|s| - 1][|r|..] + [s[|s| - 1]];
    }
  }

  /** What Trim promises: the result is empty exactly when `s` is blank, and
      otherwise it starts and ends with a character that is not white space. */
  lemma TrimSpec(s: string)
    ensures var r := Trim(s);
      |r| <= |s| && (r == [] <==> IsBlank(s)) &&
      (r != [] ==> !IsWhiteSpace(r[0]) && !IsWhiteSpace(r[|r| - 1]))
  {
    var t := TrimStart(s);
    TrimStartSpec(s);
    TrimEndSpec(t);
    var r := TrimEnd(t);
    if r == [] {
      assert s == s[..|s| - |t|] + t;
      assert t == r + t[|r|..];
      BlankConcat(s[..|s| - |t|], t);
    } else {
      assert r[0] == t[0];
    }
  }

  /** Trim removes only white space: its result is a run of `s` preceded and
      followed by blank runs. */
  lemma TrimIsInfix(s: string)
    ensures var r := Trim(s);
      exists i :: 0 <= i <= |s| - |r| && s[i..i + |r|] == r && IsBlank(s[..i]) && IsBlank(s[i + |r|..])
  {
    var t := TrimStart(s);
    TrimStartSpec(s);
    TrimEndSpec(t);
    var r := TrimEnd(t);
    var i := |s| - |t|;
    assert s[i..] == t;
    assert s[i..i + |r|] == r;
    assert s[i + |r|..] == t[|r|..];
  }

  lemma BlankConcat(a: string, b: string)
    ensures IsBlank(a + b) <==> IsBlank(a) && IsBlank(b)
  {
    if IsBlank(a) && IsBlank(b) {
      forall i | 0 <= i < |a + b| ensures IsWhiteSpace((a + b)[i]) {
        if i >= |a| { assert (a + b)[i] == b[i - |a|]; }
      }
    }
    if IsBlank(a + b) {
      forall i | 0 <= i < |b| ensures IsWhiteSpace(b[i]) {
        assert (a + b)[|a| + i] == b[i];
      }
      forall i | 0 <= i < |a| ensures IsWhiteSpace(a[i]) {
        assert (a + b)[i] == a[i];
      }
    }
  }

  /** `IsNullOrWhiteSpace` holds exactly of a missing string and of one that
      `Trim` empties. */
  lemma IsNullOrWhiteSpaceSpec(s: Option<string>)
    ensures IsNullOrWhiteSpace(s) <==> s.None? || Trim(s.value) == []
  {
    if s.Some? {
      TrimSpec(s.value);
    }
  }

  /** Tab, space and no-break space are white space; a letter and the
      zero-width space U+200B are not. */
  lemma WhiteSpaceExamples()
    ensures IsWhiteSpace('\t') && IsWhiteSpace(' ') && IsWhiteSpace('\U{00A0}')
    ensures !IsWhiteSpace('a') && !IsWhiteSpace('\U{200B}')
  {
  }

  /** Leading white space does not change what TrimStart returns. */
  lemma {:induction false} TrimStartBlankPrefix(w: string, s: string)
    requires IsBlank(w)
    ensures TrimStart(w + s) == TrimStart(s)
    decreases |w|
  {
    if w != [] {
      assert (w + s)[0] == w[0];
      assert (w + s)[1..] == w[1..] + s;
      TrimStartBlankPrefix(w[1..], s);
    } else {
      assert w + s == s;
    }
  }

  /** Once TrimStart has reached a character that is not white space, what
      follows is kept as it is. */
  lemma {:induction false} TrimStartAppend(s: string, t: string)
    requires !IsBlank(s)
    ensures TrimStart(s + t) == TrimStart(s) + t
    decreases |s|
  {
    assert (s + t)[0] == s[0];
    if IsWhiteSpace(s[0]) {
      assert (s + t)[1..] == s[1..] + t;
      assert !IsBlank(s[1..]) by {
        var i :| 0 <= i < |s| && !IsWhiteSpace(s[i]);
        assert s[1..][i - 1] == s[i];
      }
      TrimStartAppend(s[1..], t);
    }
  }

  /** Trailing white space does not change what TrimEnd returns. */
  lemma {:induction false} TrimEndBlankSuffix(s: string, w: string)
    requires IsBlank(w)
    ensures TrimEnd(s + w) == TrimEnd(s)
    decreases |w|
  {
    if w != [] {
      var n := |s + w|;
      assert (s + w)[n - 1] == w[|w| - 1];
      assert (s + w)[..n - 1] == s + w[..|w| - 1];
      TrimEndBlankSuffix(s, w[..|w| - 1]);
    } else {
      assert s + w == s;
    }
  }

  /** Surrounding `s` with white space does not change what Trim returns. */
  lemma TrimBlankAround(w: string, s: string, v: string)
    requires IsBlank(w) && IsBlank(v)
    ensures Trim(w + s + v) == Trim(s)
  {
    assert w + s + v == w + (s + v);
    TrimStartBlankPrefix(w, s + v);
    if IsBlank(s) {
      BlankConcat(s, v);
      TrimStartSpec(s + v);
      TrimStartSpec(s);
    } else {
      TrimStartAppend(s, v);
      TrimEndBlankSuffix(TrimStart(s), v);
    }
  }

  /** A string that neither starts nor ends with white space is its own Trim. */
  lemma TrimOfTrimmed(s: string)
    requires s != [] ==> !IsWhiteSpace(s[0]) && !IsWhiteSpace(s[|s| - 1])
    ensures Trim(s) == s
  {
    assert TrimStart(s) == s;
  }
}
