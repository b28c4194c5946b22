/**
 * The few JavaScript string primitives the core relies on, over Dafny strings
 * (sequences of Unicode scalar values): `String.prototype.trim`, ASCII
 * lower-casing, `includes`, and `length` counted in UTF-16 code units.
 */
module JsText {

  /** WhiteSpace and LineTerminator code points of ECMA-262, the set `trim` removes. */
  predicate IsSpace(c: char) {
    c == '\t' || c == '\n' || c == '\U{000B}' || c == '\U{000C}' || c == '\r' || c == ' '
    || c == '\U{00A0}' || c == '\U{1680}' || ('\U{2000}' <= c <= '\U{200A}')
    || c == '\U{2028}' || c == '\U{2029}' || c == '\U{202F}' || c == '\U{205F}'
    || c == '\U{3000}' || c == '\U{FEFF}'
  }

  predicate AllSpace(s: string) {
    forall i :: 0 <= i < |s| ==> IsSpace(s[i])
  }

  /** Drops leading white space. */
  function TrimStart(s: string): (r: string)
    ensures |r| <= |s| && r == s[|s| - |r|..]
    ensures AllSpace(s[..|s| - |r|])
    ensures r == [] || !IsSpace(r[0])
    decreases |s|
  {
    if s != [] && IsSpace(s[0]) then
      var r := TrimStart(s[1..]);
      DropFirstSpace(s, r);
      r
    else s
  }

  /** A suffix of `s[1..]` behind white space is a suffix of s behind white space, when `s[0]` is white space. */
  lemma DropFirstSpace(s: string, r: string)
    requires s != [] && IsSpace(s[0]) && |r| <= |s| - 1
    requires r == s[1..][|s| - 1 - |r|..] && AllSpace(s[1..][..|s| - 1 - |r|])
    ensures r == s[|s| - |r|..] && AllSpace(s[..|s| - |r|])
  {
    var n := |s| - |r|;
    forall i | 0 <= i < n ensures IsSpace(s[..n][i]) {
      if i > 0 { assert s[..n][i] == s[1..][..n - 1][i - 1]; }
    }
  }

  /** Drops trailing white space. */
  function TrimEnd(s: string): (r: string)
    ensures |r| <= |s| && r == s[..|r|]
    ensures AllSpace(s[|r|..])
    ensures r == [] || !IsSpace(r[|r| - 1])
    decreases |s|
  {
    if s != [] && IsSpace(s[|s| - 1]) then
      var r := TrimEnd(s[..|s| - 1]);
      DropLastSpace(s, r);
      r
    else s
  }

  /** A prefix of `s[..|s| - 1]` before white space is a prefix of s before white space, when its last character is white space. */
  lemma DropLastSpace(s: string, r: string)
    requires s != [] && IsSpace(s[|s| - 1]) && |r| <= |s| - 1
    requires r == s[..|s| - 1][..|r|] && AllSpace(s[..|s| - 1][|r|..])
    ensures r == s[..|r|] && AllSpace(s[|r|..])
  {
    forall i | 0 <= i < |s| - |r| ensures IsSpace(s[|r|..][i]) {
      if i < |s| - 1 - |r| { assert s[|r|..][i] == s[..|s| - 1][|r|..][i]; }
    }
  }

  /** `s.trim()`: the longest infix of s that neither starts nor ends with white space. */
  function Trim(s: string): (r: string)
    ensures exists lead :: 0 <= lead <= |s| - |r| && r == s[lead..lead + |r|]
                           && AllSpace(s[..lead]) && AllSpace(s[lead + |r|..])
    ensures r == [] || (!IsSpace(r[0]) && !IsSpace(r[|r| - 1]))
  {
    var e := TrimEnd(s);
    var r := TrimStart(e);
    TrimBothEnds(s, e, r);
    r
  }

  /** Taking white space off the end and then off the front leaves an infix between white space. */
  lemma TrimBothEnds(s: string, e: string, r: string)
    requires |e| <= |s| && e == s[..|e|] && AllSpace(s[|e|..])
    requires |r| <= |e| && r == e[|e| - |r|..] && AllSpace(e[..|e| - |r|])
    ensures var lead := |e| - |r|;
            r == s[lead..lead + |r|] && AllSpace(s[..lead]) && AllSpace(s[lead + |r|..])
  {
    var lead := |e| - |r|;
    assert s[..lead] == e[..lead];
    assert s[lead + |r|..] == s[|e|..];
  }

  /** `!s.trim()`: the string is empty or white space only. */
  predicate IsBlank(s: string) {
    Trim(s) == []
  }

  lemma BlankIffAllSpace(s: string)
    ensures IsBlank(s) <==> AllSpace(s)
  {
    if AllSpace(s) {
      SpaceIsBlank(s);
    }
    if IsBlank(s) {
      BlankIsSpace(s);
    }
  }

  lemma SpaceIsBlank(s: string)
    requires AllSpace(s)
    ensures IsBlank(s)
  {
    TrimEndOfSpace(s);
    assert Trim(s) == TrimStart([]);
  }

  lemma {:induction false} TrimEndOfSpace(s: string)
    requires AllSpace(s)
    ensures TrimEnd(s) == []
    decreases |s|
  {
    if s != [] {
      var rest := s[..|s| - 1];
      assert forall i :: 0 <= i < |rest| ==> rest[i] == s[i];
      TrimEndOfSpace(rest);
    }
  }

  lemma BlankIsSpace(s: string)
    requires IsBlank(s)
    ensures AllSpace(s)
  {
    TrimIsBoth(s);
    SpaceBeforeNothing(TrimEnd(s));
    SpaceHalves(s, |TrimEnd(s)|);
  }

  lemma TrimIsBoth(s: string)
    ensures Trim(s) == TrimStart(TrimEnd(s))
  {
  }

  lemma SpaceBeforeNothing(e: string)
    requires TrimStart(e) == []
    ensures AllSpace(e)
  {
    assert e[..|e|] == e;
  }

  lemma SpaceHalves(s: string, n: nat)
    requires n <= |s| && AllSpace(s[..n]) && AllSpace(s[n..])
    ensures AllSpace(s)
  {
    forall i | 0 <= i < |s| ensures IsSpace(s[i]) {
      if i < n { assert s[..n][i] == s[i]; } else { assert s[n..][i - n] == s[i]; }
    }
  }

  /** ASCII lower-casing; the only case mapping the patterns of the core can observe. */
  function LowerAscii(c: char): (d: char)
    ensures ('A' <= c <= 'Z') ==> 'a' <= d <= 'z' && d as int == c as int + 32
    ensures !('A' <= c <= 'Z') ==> d == c
  {
    if 'A' <= c <= 'Z' then (c as int + 32) as char else c
  }

  function Lower(s: string): (r: string)
    ensures |r| == |s|
    ensures forall i :: 0 <= i < |s| ==> r[i] == LowerAscii(s[i])
  {
    seq(|s|, i requires 0 <= i < |s| => LowerAscii(s[i]))
  }

  /** `s.includes(sub)`. */
  predicate Contains(s: string, sub: string)
    decreases |s|
  {
    (|sub| <= |s| && s[..|sub|] == sub) || (s != [] && Contains(s[1..], sub))
  }

  lemma {:induction false} ContainsAt(s: string, sub: string, i: nat)
    requires i + |sub| <= |s| && s[i..i + |sub|] == sub
    ensures Contains(s, sub)
    decreases i
  {
    if i > 0 {
      assert s[1..][i - 1..i - 1 + |sub|] == sub;
      ContainsAt(s[1..], sub, i - 1);
    }
  }

  /** Number of UTF-16 code units (the value of JavaScript's `length`) of one character. */
  function CodeUnits(c: char): nat {
    if c as int > 0xFFFF then 2 else 1
  }

  /** JavaScript's `s.length`. */
  function Utf16Length(s: string): (n: nat)
    ensures |s| <= n <= 2 * |s|
    ensures (forall i :: 0 <= i < |s| ==> s[i] as int <= 0xFFFF) ==> n == |s|
    decreases |s|
  {
    if s == [] then 0 else CodeUnits(s[0]) + Utf16Length(s[1..])
  }

  lemma {:induction false} Utf16LengthAppend(a: string, b: string)
    ensures Utf16Length(a + b) == Utf16Length(a) + Utf16Length(b)
    decreases |a|
  {
    if a != [] {
      assert (a + b)[1..] == a[1..] + b;
      Utf16LengthAppend(a[1..], b);
    } else {
      assert a + b == b;
    }
  }
}
