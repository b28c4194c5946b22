/**
 * The foreground sender's message renderer, `interpolate`
 * (src/components/Dashboard.jsx:86-104), in two phases:
 *
 *  1. variant ("spintax") resolution: `tpl.replace(/\{([^{}]+?\|[^{}]+?)\}/g, ...)`
 *     scans left to right, never overlapping matches, and replaces each matched
 *     brace group by one of its `|`-separated options, picked at random;
 *  2. variable substitution: for each entry of the row, in column order, every
 *     case-insensitive `{{key}}` is replaced by the value, or by '' when the
 *     value is falsy.
 *
 * The random pick is an oracle: one option index per matched group, in order.
 */
module Interpolation {
  import opened Wrappers
  import JsText

  /**
   * A CSV row: column names in column order with their cell, `None` for an
   * undefined cell. `Object.entries` never repeats a name, and lists
   * integer-like names first; those names are all-digit, which `PlainKey`
   * excludes, so for the rows rendered here column order is entry order.
   */
  type Row = seq<(string, Option<string>)>

  predicate IsBrace(c: char) {
    c == '{' || c == '}'
  }

  predicate BraceFree(s: string) {
    forall i :: 0 <= i < |s| ==> !IsBrace(s[i])
  }

  /** What `[^{}]+?\|[^{}]+?` accepts: brace-free, with a `|` that has a character on each side. */
  predicate IsVariantInterior(t: string) {
    BraceFree(t) && |t| >= 3 && '|' in t[1..|t| - 1]
  }

  /** Length of the longest brace-free prefix of s. */
  function BraceFreePrefix(s: string): (n: nat)
    ensures n <= |s| && BraceFree(s[..n])
    ensures n < |s| ==> IsBrace(s[n])
    decreases |s|
  {
    if s == [] || IsBrace(s[0]) then 0 else 1 + BraceFreePrefix(s[1..])
  }

  lemma {:induction false} BraceFreePrefixExact(s: string, n: nat)
    requires n <= |s| && BraceFree(s[..n]) && (n < |s| ==> IsBrace(s[n]))
    ensures BraceFreePrefix(s) == n
    decreases n
  {
    if n > 0 {
      assert !IsBrace(s[..n][0]);
      assert s[1..][..n - 1] == s[..n][1..];
      BraceFreePrefixExact(s[1..], n - 1);
    }
  }

  /**
   * The regular expression's match at the first character of s, as its
   * interior: `{`, then the brace-free run up to the next brace, which must be
   * `}`, with a qualifying `|` inside.
   */
  function GroupAt(s: string): (r: Option<string>)
    ensures r.Some? ==> IsVariantInterior(r.value) && |r.value| + 2 <= |s|
                        && s[..|r.value| + 2] == "{" + r.value + "}"
  {
    if s == [] || s[0] != '{' then None
    else
      var n := BraceFreePrefix(s[1..]);
      if n + 1 < |s| && s[n + 1] == '}' && IsVariantInterior(s[1..n + 1]) then
        assert s[..n + 2] == "{" + s[1..n + 1] + "}";
        Some(s[1..n + 1])
      else None
  }

  /** GroupAt finds a group exactly where the regular expression matches one. */
  lemma {:induction false} GroupAtIff(s: string, t: string)
    ensures GroupAt(s) == Some(t) <==>
            (IsVariantInterior(t) && |t| + 2 <= |s| && s[..|t| + 2] == "{" + t + "}")
  {
    if IsVariantInterior(t) && |t| + 2 <= |s| && s[..|t| + 2] == "{" + t + "}" {
      assert s[0] == '{';
      assert s[1..][..|t|] == t;
      assert s[|t| + 1] == '}';
      BraceFreePrefixExact(s[1..], |t|);
      assert s[1..|t| + 1] == t;
    }
  }

  /** The template as the scan sees it: literal characters and matched variant groups. */
  datatype Piece = Lit(c: char) | Variant(interior: string)

  /** The left-to-right, non-overlapping scan of the global regular expression. */
  function Scan(s: string): seq<Piece>
    decreases |s|
  {
    if s == [] then []
    else
      match GroupAt(s)
      case Some(t) => [Variant(t)] + Scan(s[|t| + 2..])
      case None => [Lit(s[0])] + Scan(s[1..])
  }

  /** Writes the pieces back as text. */
  function Unscan(ps: seq<Piece>): string {
    if ps == [] then []
    else
      match ps[0]
      case Lit(c) => [c] + Unscan(ps[1..])
      case Variant(t) => "{" + t + "}" + Unscan(ps[1..])
  }

  lemma UnscanVariant(t: string, qs: seq<Piece>)
    ensures Unscan([Variant(t)] + qs) == "{" + t + "}" + Unscan(qs)
  {
    var ps := [Variant(t)] + qs;
    assert ps[0] == Variant(t) && ps[1..] == qs;
  }

  lemma UnscanLit(c: char, qs: seq<Piece>)
    ensures Unscan([Lit(c)] + qs) == [c] + Unscan(qs)
  {
    var ps := [Lit(c)] + qs;
    assert ps[0] == Lit(c) && ps[1..] == qs;
  }

  /** The scan loses nothing: writing the pieces back gives the template. */
  lemma {:induction false} ScanRoundTrip(s: string)
    ensures Unscan(Scan(s)) == s
    decreases |s|
  {
    if s != [] {
      match GroupAt(s)
      case Some(t) =>
        var rest := s[|t| + 2..];
        ScanRoundTrip(rest);
        UnscanVariant(t, Scan(rest));
        assert s == s[..|t| + 2] + rest;
      case None =>
        var rest := s[1..];
        ScanRoundTrip(rest);
        UnscanLit(s[0], Scan(rest));
        assert s == [s[0]] + rest;
    }
  }

  /** Every matched group's interior is brace-free, so a `{{key}}` is never part of a variant. */
  lemma {:induction false} ScanVariantsBraceFree(s: string)
    ensures forall p :: p in Scan(s) && p.Variant? ==> IsVariantInterior(p.interior)
    decreases |s|
  {
    if s != [] {
      match GroupAt(s)
      case Some(t) => ScanVariantsBraceFree(s[|t| + 2..]);
      case None => ScanVariantsBraceFree(s[1..]);
    }
  }

  /** `s.split(sep)`. */
  function Split(s: string, sep: char): (parts: seq<string>)
    ensures |parts| >= 1
    ensures forall i :: 0 <= i < |parts| ==> sep !in parts[i]
    ensures Join(parts, sep) == s
    decreases |s|
  {
    if s == [] then [""]
    else
      var rest := Split(s[1..], sep);
      if s[0] == sep then [""] + rest
      else
        assert Join([[s[0]] + rest[0]] + rest[1..], sep) == [s[0]] + Join(rest, sep);
        [[s[0]] + rest[0]] + rest[1..]
  }

  /** `parts.join(sep)`. */
  function Join(parts: seq<string>, sep: char): string
    requires |parts| >= 1
  {
    if |parts| == 1 then parts[0] else parts[0] + [sep] + Join(parts[1..], sep)
  }

  lemma {:induction false} SplitNoSeparator(s: string, sep: char)
    requires sep !in s
    ensures Split(s, sep) == [s]
    decreases |s|
  {
    if s != [] {
      SplitNoSeparator(s[1..], sep);
    }
  }

  lemma {:induction false} SplitAtSeparator(a: string, sep: char, b: string)
    requires sep !in a
    ensures Split(a + [sep] + b, sep) == [a] + Split(b, sep)
    decreases |a|
  {
    if a == [] {
      assert (a + [sep] + b)[1..] == b;
    } else {
      assert a[0] != sep;
      assert (a + [sep] + b)[1..] == a[1..] + [sep] + b;
      SplitAtSeparator(a[1..], sep, b);
      assert [a[0]] + a[1..] == a;
    }
  }

  /** The option lists of the matched groups, in template order. */
  function Variants(ps: seq<Piece>): (opts: seq<seq<string>>)
    ensures forall j :: 0 <= j < |opts| ==> |opts[j]| >= 1
  {
    if ps == [] then []
    else
      match ps[0]
      case Lit(_) => Variants(ps[1..])
      case Variant(t) => [Split(t, '|')] + Variants(ps[1..])
  }

  /** The draws left after one group has used its own. */
  function Rest(choices: seq<nat>): seq<nat> {
    if choices == [] then [] else choices[1..]
  }

  /**
   * The option a group resolves to: `Math.floor(Math.random() * n)` is an
   * index below n, modelled as the draw k taken modulo n (a missing draw is 0).
   */
  function Pick(opts: seq<string>, choices: seq<nat>): (w: string)
    requires |opts| >= 1
    ensures w in opts
  {
    opts[(if choices == [] then 0 else choices[0]) % |opts|]
  }

  /** A draw below the number of options selects that option. */
  lemma PickIndex(opts: seq<string>, choices: seq<nat>, n: nat)
    requires n < |opts| && choices != [] && choices[0] == n
    ensures Pick(opts, choices) == opts[n]
  {
    assert n % |opts| == n;
  }

  /** Replaces each matched group by its picked option and keeps literal characters. */
  function Resolve(ps: seq<Piece>, choices: seq<nat>): string {
    if ps == [] then []
    else
      match ps[0]
      case Lit(c) => [c] + Resolve(ps[1..], choices)
      case Variant(t) => Pick(Split(t, '|'), choices) + Resolve(ps[1..], Rest(choices))
  }

  /** Phase 1 of `interpolate`. */
  function ResolveSpintax(tpl: string, choices: seq<nat>): string {
    Resolve(Scan(tpl), choices)
  }

  /** The text with the j-th matched group written as `picks[j]`. */
  function Fill(ps: seq<Piece>, picks: seq<string>): string
    requires |picks| == |Variants(ps)|
  {
    if ps == [] then []
    else
      match ps[0]
      case Lit(c) => [c] + Fill(ps[1..], picks)
      case Variant(t) => picks[0] + Fill(ps[1..], picks[1..])
  }

  /** A choice of one option per group. */
  predicate ValidPicks(ps: seq<Piece>, picks: seq<string>) {
    var opts := Variants(ps);
    |picks| == |opts| && forall j :: 0 <= j < |picks| ==> picks[j] in opts[j]
  }

  /** The options a list of draws selects, one per group. */
  function PicksOf(ps: seq<Piece>, choices: seq<nat>): (picks: seq<string>)
    ensures ValidPicks(ps, picks)
  {
    if ps == [] then []
    else
      match ps[0]
      case Lit(_) => PicksOf(ps[1..], choices)
      case Variant(t) => [Pick(Split(t, '|'), choices)] + PicksOf(ps[1..], Rest(choices))
  }

  /** Each matched group is replaced by exactly one of its own options; nothing else changes. */
  lemma {:induction false} ResolveFills(ps: seq<Piece>, choices: seq<nat>)
    ensures ValidPicks(ps, PicksOf(ps, choices))
    ensures Resolve(ps, choices) == Fill(ps, PicksOf(ps, choices))
    decreases |ps|
  {
    if ps != [] {
      match ps[0]
      case Lit(_) => ResolveFills(ps[1..], choices);
      case Variant(t) => ResolveFills(ps[1..], Rest(choices));
    }
  }

  function IndexOf(xs: seq<string>, x: string): (i: nat)
    requires x in xs
    ensures i < |xs| && xs[i] == x
  {
    if xs[0] == x then 0 else 1 + IndexOf(xs[1..], x)
  }

  /** Past a leading group, the remaining picks are a choice for the remaining groups. */
  lemma ValidPicksTail(ps: seq<Piece>, picks: seq<string>)
    requires ps != [] && ps[0].Variant? && ValidPicks(ps, picks)
    ensures |picks| >= 1 && picks[0] in Split(ps[0].interior, '|')
    ensures ValidPicks(ps[1..], picks[1..])
  {
    assert Variants(ps) == [Split(ps[0].interior, '|')] + Variants(ps[1..]);
    assert picks[0] in Variants(ps)[0];
    forall j | 0 <= j < |picks| - 1 ensures picks[1..][j] in Variants(ps[1..])[j] {
      assert picks[j + 1] in Variants(ps)[j + 1];
    }
  }

  /** Draws that select the given options. */
  function DrawsFor(ps: seq<Piece>, picks: seq<string>): (choices: seq<nat>)
    requires ValidPicks(ps, picks)
    ensures |choices| == |picks|
  {
    if ps == [] then []
    else
      match ps[0]
      case Lit(_) => DrawsFor(ps[1..], picks)
      case Variant(t) =>
        ValidPicksTail(ps, picks);
        [IndexOf(Split(t, '|'), picks[0])] + DrawsFor(ps[1..], picks[1..])
  }

  /** Every choice of one option per group is the outcome of some draws. */
  lemma {:induction false} FillReachable(ps: seq<Piece>, picks: seq<string>)
    requires ValidPicks(ps, picks)
    ensures Resolve(ps, DrawsFor(ps, picks)) == Fill(ps, picks)
    decreases |ps|
  {
    if ps != [] {
      match ps[0]
      case Lit(_) => FillReachable(ps[1..], picks);
      case Variant(t) =>
        ValidPicksTail(ps, picks);
        var opts := Split(t, '|');
        var tail := DrawsFor(ps[1..], picks[1..]);
        var n := IndexOf(opts, picks[0]);
        var c := DrawsFor(ps, picks);
        assert c == [n] + tail;
        PickIndex(opts, c, n);
        assert Rest(c) == tail;
        FillReachable(ps[1..], picks[1..]);
        assert Resolve(ps, c) == Pick(opts, c) + Resolve(ps[1..], tail);
    }
  }

  lemma {:induction false} VariantsAppend(p1: seq<Piece>, p2: seq<Piece>)
    ensures Variants(p1 + p2) == Variants(p1) + Variants(p2)
    decreases |p1|
  {
    if p1 == [] {
      assert p1 + p2 == p2;
    } else {
      assert (p1 + p2)[1..] == p1[1..] + p2;
      VariantsAppend(p1[1..], p2);
    }
  }

  /** Resolution works piece by piece: it distributes over a split of the pieces. */
  lemma {:induction false} ResolveAppend(p1: seq<Piece>, c1: seq<nat>, p2: seq<Piece>, c2: seq<nat>)
    requires |c1| == |Variants(p1)|
    ensures Resolve(p1 + p2, c1 + c2) == Resolve(p1, c1) + Resolve(p2, c2)
    decreases |p1|
  {
    if p1 == [] {
      assert p1 + p2 == p2 && c1 + c2 == c2;
    } else {
      assert (p1 + p2)[1..] == p1[1..] + p2;
      match p1[0]
      case Lit(c) =>
        assert (p1 + p2)[0] == Lit(c);
        ResolveAppend(p1[1..], c1, p2, c2);
      case Variant(t) =>
        assert (p1 + p2)[0] == Variant(t);
        assert (c1 + c2)[1..] == c1[1..] + c2;
        assert (c1 + c2)[0] == c1[0];
        ResolveAppend(p1[1..], c1[1..], p2, c2);
    }
  }

  /** Without matched groups, resolution writes the template back unchanged, whatever the draws. */
  lemma {:induction false} ResolveNoVariants(ps: seq<Piece>, choices: seq<nat>)
    requires Variants(ps) == []
    ensures Resolve(ps, choices) == Unscan(ps)
    decreases |ps|
  {
    if ps != [] {
      ResolveNoVariants(ps[1..], choices);
    }
  }

  /** Where no `|` occurs, no group matches. */
  lemma {:induction false} NoPipeNoVariants(s: string)
    requires '|' !in s
    ensures Variants(Scan(s)) == []
    decreases |s|
  {
    if s != [] {
      match GroupAt(s)
      case Some(t) =>
        assert false;
      case None =>
        NoPipeNoVariants(s[1..]);
    }
  }

  /** A template without `|` comes out of phase 1 exactly as written ({x}, {{Name}}, ...). */
  lemma SpintaxIdentity(tpl: string, choices: seq<nat>)
    requires '|' !in tpl
    ensures ResolveSpintax(tpl, choices) == tpl
  {
    NoPipeNoVariants(tpl);
    ResolveNoVariants(Scan(tpl), choices);
    ScanRoundTrip(tpl);
  }

  /** A literal run without `{` scans to its characters. */
  lemma {:induction false} ScanLiteralRun(a: string, b: string)
    requires '{' !in a
    ensures Scan(a + b) == LitsOf(a) + Scan(b)
    decreases |a|
  {
    if a == [] {
      assert a + b == b;
    } else {
      assert (a + b)[1..] == a[1..] + b;
      ScanLiteralRun(a[1..], b);
    }
  }

  function LitsOf(a: string): (ps: seq<Piece>)
    ensures Variants(ps) == [] && Unscan(ps) == a
  {
    if a == [] then [] else [Lit(a[0])] + LitsOf(a[1..])
  }

  /** A variant group at the front of the text scans to one Variant piece. */
  lemma {:induction false} ScanVariantGroup(t: string, b: string)
    requires IsVariantInterior(t)
    ensures Scan("{" + t + "}" + b) == [Variant(t)] + Scan(b)
  {
    var s := "{" + t + "}" + b;
    assert s[..|t| + 2] == "{" + t + "}";
    GroupAtIff(s, t);
    assert s[|t| + 2..] == b;
  }

  /**
   * Phase 1 is a single `replace`, so a group nested in another is resolved
   * alone: the outer braces and the outer options stay in the text.
   */
  lemma NestedGroupInnerOnly(a: string, t: string, k: nat)
    requires BraceFree(a) && IsVariantInterior(t)
    ensures ResolveSpintax("{" + a + "{" + t + "}}", [k]) == "{" + a + Pick(Split(t, '|'), [k]) + "}"
  {
    var lits := [Lit('{')] + LitsOf(a);
    var group: seq<Piece> := [Variant(t)] + [Lit('}')];
    NestedScan(a, t);
    ResolveOuterText(a);
    ResolveInnerGroup(t, k);
    ResolveAppend(lits, [], group, [k]);
    assert [] + [k] == [k];
  }

  lemma ResolveOuterText(a: string)
    ensures Variants([Lit('{')] + LitsOf(a)) == [] && Resolve([Lit('{')] + LitsOf(a), []) == "{" + a
  {
    var lits := [Lit('{')] + LitsOf(a);
    assert Variants(lits) == Variants(LitsOf(a));
    UnscanLit('{', LitsOf(a));
    ResolveNoVariants(lits, []);
  }

  lemma ResolveInnerGroup(t: string, k: nat)
    ensures Resolve([Variant(t)] + [Lit('}')], [k]) == Pick(Split(t, '|'), [k]) + "}"
  {
    var group: seq<Piece> := [Variant(t)] + [Lit('}')];
    assert Resolve(group, [k]) == Pick(Split(t, '|'), [k]) + Resolve([Lit('}')], []);
    assert Resolve([Lit('}')], []) == "}" + Resolve([], []);
  }

  /** The scan of a nested group: the outer `{`, the outer text, the inner group, the outer `}`. */
  lemma NestedScan(a: string, t: string)
    requires BraceFree(a) && IsVariantInterior(t)
    ensures Scan("{" + a + "{" + t + "}}") == ([Lit('{')] + LitsOf(a)) + ([Variant(t)] + [Lit('}')])
  {
    var tail := "{" + t + "}" + "}";
    NestedShape(a, t, tail);
    OpenWithoutGroup(a, tail);
    ScanLiteralRun(a, tail);
    ScanVariantGroup(t, "}");
    ScanCloseBrace();
    PiecesAssoc([Lit('{')], LitsOf(a), [Variant(t)] + [Lit('}')]);
  }

  lemma NestedShape(a: string, t: string, tail: string)
    requires tail == "{" + t + "}" + "}"
    ensures "{" + a + "{" + t + "}}" == "{" + (a + tail)
  {
  }

  /** A `{` followed by brace-free text and another `{` is a literal character. */
  lemma OpenWithoutGroup(a: string, tail: string)
    requires BraceFree(a) && tail != [] && tail[0] == '{'
    ensures Scan("{" + (a + tail)) == [Lit('{')] + Scan(a + tail)
  {
    var s := "{" + (a + tail);
    assert s[1..] == a + tail;
    NestedNoGroup(s, a);
  }

  /** No group starts at an outer `{` whose brace-free run ends at another `{`. */
  lemma NestedNoGroup(s: string, a: string)
    requires BraceFree(a) && |a| + 1 < |s| && s[0] == '{' && s[1..|a| + 1] == a && s[|a| + 1] == '{'
    ensures GroupAt(s) == None
  {
    assert s[1..][..|a|] == a;
    BraceFreePrefixExact(s[1..], |a|);
  }

  lemma ScanCloseBrace()
    ensures Scan("}") == [Lit('}')]
  {
    assert Scan("}") == [Lit('}')] + Scan([]);
  }

  lemma PiecesAssoc(x: seq<Piece>, y: seq<Piece>, z: seq<Piece>)
    ensures x + (y + z) == (x + y) + z
  {
  }

  // ---- phase 2: variable substitution ------------------------------------

  /** Characters the `RegExp` constructor treats as syntax. */
  predicate IsRegexSyntax(c: char) {
    c in "^$\\.*+?()[]{}|"
  }

  /** Column names made of digits and commas would turn `{{key}}` into a quantifier. */
  predicate QuantifierShaped(key: string) {
    |key| > 0 && forall i :: 0 <= i < |key| ==> ('0' <= key[i] <= '9' || key[i] == ',')
  }

  /**
   * A column name that `new RegExp(\`{{${key}}}\`, 'gi')` reads literally, with
   * case-insensitivity reduced to ASCII letters: ASCII, no regex syntax, not a
   * quantifier.
   */
  predicate PlainKey(key: string) {
    && (forall i :: 0 <= i < |key| ==> key[i] as int < 128 && !IsRegexSyntax(key[i]))
    && !QuantifierShaped(key)
  }

  /** The text a cell contributes: `value || ''`. */
  function CellText(v: Option<string>): string {
    v.GetOr("")
  }

  /** Rows the model renders as JavaScript does: plain keys, and no `$` patterns in the replacements. */
  predicate Renderable(row: Row) {
    forall e :: e in row ==> PlainKey(e.0) && '$' !in CellText(e.1)
  }

  /** The regular expression `/{{key}}/i` matches at the front of s. */
  predicate FoldPrefix(pat: string, s: string) {
    |pat| <= |s| && forall k :: 0 <= k < |pat| ==> JsText.LowerAscii(s[k]) == JsText.LowerAscii(pat[k])
  }

  /** `s.replace(/pat/gi, rep)` for a literal pattern. */
  function ReplaceAll(s: string, pat: string, rep: string): string
    requires pat != []
    decreases |s|
  {
    if s == [] then []
    else if FoldPrefix(pat, s) then rep + ReplaceAll(s[|pat|..], pat, rep)
    else [s[0]] + ReplaceAll(s[1..], pat, rep)
  }

  /** Some case-insensitive occurrence of pat in s. */
  predicate Occurs(pat: string, s: string)
    decreases |s|
  {
    FoldPrefix(pat, s) || (s != [] && Occurs(pat, s[1..]))
  }

  /** A pattern that occurs nowhere leaves the text unchanged. */
  lemma {:induction false} ReplaceAllAbsent(s: string, pat: string, rep: string)
    requires pat != [] && !Occurs(pat, s)
    ensures ReplaceAll(s, pat, rep) == s
    decreases |s|
  {
    if s != [] {
      ReplaceAllAbsent(s[1..], pat, rep);
    }
  }

  /** Text before the first `{` is copied verbatim; replacing continues after it. */
  lemma {:induction false} ReplaceAllLiteralRun(a: string, b: string, pat: string, rep: string)
    requires pat != [] && pat[0] == '{' && '{' !in a
    ensures ReplaceAll(a + b, pat, rep) == a + ReplaceAll(b, pat, rep)
    decreases |a|
  {
    if a == [] {
      assert a + b == b;
    } else {
      var s := a + b;
      assert s[0] == a[0] && s[1..] == a[1..] + b;
      NoMatchAtPlain(s, pat);
      ReplaceAllSkip(s, pat, rep);
      ReplaceAllLiteralRun(a[1..], b, pat, rep);
      AppendAssoc([a[0]], a[1..], ReplaceAll(b, pat, rep));
      assert [a[0]] + a[1..] == a;
    }
  }

  /** A pattern that starts with `{` cannot match at a character other than `{`. */
  lemma NoMatchAtPlain(s: string, pat: string)
    requires s != [] && pat != [] && pat[0] == '{' && s[0] != '{'
    ensures !FoldPrefix(pat, s)
  {
    assert JsText.LowerAscii(s[0]) != JsText.LowerAscii(pat[0]);
  }

  lemma ReplaceAllSkip(s: string, pat: string, rep: string)
    requires s != [] && pat != [] && !FoldPrefix(pat, s)
    ensures ReplaceAll(s, pat, rep) == [s[0]] + ReplaceAll(s[1..], pat, rep)
  {
  }

  /** A case-insensitive occurrence at the front is replaced, and the scan resumes after it. */
  lemma ReplaceAllAtMatch(m: string, b: string, pat: string, rep: string)
    requires pat != [] && |m| == |pat| && FoldPrefix(pat, m)
    ensures ReplaceAll(m + b, pat, rep) == rep + ReplaceAll(b, pat, rep)
  {
    assert (m + b)[|pat|..] == b;
    assert FoldPrefix(pat, m + b);
  }

  function Placeholder(key: string): string {
    "{{" + key + "}}"
  }

  /** Phase 2 of `interpolate`: one global replacement per row entry, in column order. */
  function Substitute(msg: string, row: Row): string
    requires Renderable(row)
    decreases |row|
  {
    if row == [] then msg
    else
      assert row[0] in row;
      Substitute(ReplaceAll(msg, Placeholder(row[0].0), CellText(row[0].1)), row[1..])
  }

  /** `interpolate(tpl, row)` with the random picks given by `choices`. */
  function Interpolate(tpl: string, row: Row, choices: seq<nat>): string
    requires Renderable(row)
  {
    Substitute(ResolveSpintax(tpl, choices), row)
  }

  /** Placeholders of columns the row does not have stay literally in the message. */
  lemma {:induction false} SubstituteUntouched(msg: string, row: Row)
    requires Renderable(row)
    requires forall e :: e in row ==> !Occurs(Placeholder(e.0), msg)
    ensures Substitute(msg, row) == msg
    decreases |row|
  {
    if row != [] {
      assert row[0] in row;
      ReplaceAllAbsent(msg, Placeholder(row[0].0), CellText(row[0].1));
      assert forall e :: e in row[1..] ==> e in row;
      SubstituteUntouched(msg, row[1..]);
    }
  }

  // ---- every occurrence ----------------------------------------------------

  /** The text `gaps[0] + ms[0] + gaps[1] + ... + ms[n-1] + gaps[n]`. */
  function Interleave(gaps: seq<string>, ms: seq<string>): string
    requires |gaps| == |ms| + 1
    decreases |ms|
  {
    if ms == [] then gaps[0] else gaps[0] + (ms[0] + Interleave(gaps[1..], ms[1..]))
  }

  /** The gaps joined by `rep`: the interleaving with every `ms[i]` replaced by `rep`. */
  function JoinedBy(gaps: seq<string>, rep: string): string
    requires |gaps| >= 1
    decreases |gaps|
  {
    if |gaps| == 1 then gaps[0] else gaps[0] + (rep + JoinedBy(gaps[1..], rep))
  }

  /** No case-insensitive occurrence of `pat` starts inside `g` when `g` is followed by `tail`. */
  predicate ClearBefore(pat: string, g: string, tail: string) {
    forall p :: 0 <= p < |g| ==> !FoldPrefix(pat, g[p..] + tail)
  }

  /**
   * `ms` are exactly the occurrences that the left-to-right, non-overlapping
   * scan of `/pat/gi` finds in `Interleave(gaps, ms)`: each is a
   * case-insensitive match of the pattern, and no match starts inside a gap.
   */
  predicate Occurrences(pat: string, gaps: seq<string>, ms: seq<string>)
    requires |gaps| == |ms| + 1
    decreases |ms|
  {
    if ms == [] then !Occurs(pat, gaps[0])
    else
      && |ms[0]| == |pat| && FoldPrefix(pat, ms[0])
      && ClearBefore(pat, gaps[0], ms[0] + Interleave(gaps[1..], ms[1..]))
      && Occurrences(pat, gaps[1..], ms[1..])
  }

  /** Text in which no occurrence starts is copied; replacing continues after it. */
  lemma {:induction false} ReplaceAllClear(g: string, tail: string, pat: string, rep: string)
    requires pat != [] && ClearBefore(pat, g, tail)
    ensures ReplaceAll(g + tail, pat, rep) == g + ReplaceAll(tail, pat, rep)
    decreases |g|
  {
    if g == [] {
      assert g + tail == tail;
    } else {
      var s := g + tail;
      assert g[0..] + tail == s;
      assert s[0] == g[0] && s[1..] == g[1..] + tail;
      ReplaceAllSkip(s, pat, rep);
      forall p | 0 <= p < |g[1..]|
        ensures !FoldPrefix(pat, g[1..][p..] + tail)
      {
        assert g[1..][p..] == g[p + 1..];
      }
      ReplaceAllClear(g[1..], tail, pat, rep);
      AppendAssoc([g[0]], g[1..], ReplaceAll(tail, pat, rep));
      assert [g[0]] + g[1..] == g;
    }
  }

  /** `replace(/pat/gi, rep)` replaces each scanned occurrence by `rep` and keeps every gap. */
  lemma {:induction false} ReplaceEvery(pat: string, rep: string, gaps: seq<string>, ms: seq<string>)
    requires pat != [] && |gaps| == |ms| + 1 && Occurrences(pat, gaps, ms)
    ensures ReplaceAll(Interleave(gaps, ms), pat, rep) == JoinedBy(gaps, rep)
    decreases |ms|
  {
    if ms == [] {
      ReplaceAllAbsent(gaps[0], pat, rep);
    } else {
      var rest := Interleave(gaps[1..], ms[1..]);
      ReplaceAllClear(gaps[0], ms[0] + rest, pat, rep);
      ReplaceAllAtMatch(ms[0], rest, pat, rep);
      ReplaceEvery(pat, rep, gaps[1..], ms[1..]);
    }
  }

  /**
   * Every text splits into the occurrences that the scan of `/pat/gi` finds
   * and the gaps between them.
   */
  lemma {:induction false} Decompose(s: string, pat: string) returns (gaps: seq<string>, ms: seq<string>)
    requires pat != []
    ensures |gaps| == |ms| + 1 && Interleave(gaps, ms) == s && Occurrences(pat, gaps, ms)
    decreases |s|
  {
    if s == [] {
      gaps, ms := [[]], [];
    } else if FoldPrefix(pat, s) {
      var g, m := Decompose(s[|pat|..], pat);
      gaps, ms := [[]] + g, [s[..|pat|]] + m;
      assert gaps[1..] == g && ms[1..] == m;
      assert s[..|pat|] + s[|pat|..] == s;
    } else {
      var g, m := Decompose(s[1..], pat);
      var first := [s[0]] + g[0];
      gaps, ms := [first] + g[1..], m;
      assert gaps[1..] == g[1..];
      if m == [] {
        assert [s[0]] + s[1..] == s;
      } else {
        var tail := m[0] + Interleave(g[1..], m[1..]);
        assert g[0] + tail == s[1..];
        AppendAssoc([s[0]], g[0], tail);
        assert [s[0]] + s[1..] == s;
        forall p | 0 <= p < |first|
          ensures !FoldPrefix(pat, first[p..] + tail)
        {
          if p == 0 {
            assert first[p..] + tail == s;
          } else {
            assert first[p..] == g[0][p - 1..];
          }
        }
      }
    }
  }

  /**
   * Phase 2 on the row's first column, for any message: the message splits
   * into the case-insensitive occurrences of `{{key}}` that the scan finds
   * and the text between them, every one of those occurrences becomes
   * `value || ''`, and the remaining columns are applied to the result.
   */
  lemma SubstituteEveryOccurrence(msg: string, row: Row) returns (gaps: seq<string>, ms: seq<string>)
    requires Renderable(row) && row != []
    ensures |gaps| == |ms| + 1 && msg == Interleave(gaps, ms) && Occurrences(Placeholder(row[0].0), gaps, ms)
    ensures assert forall e :: e in row[1..] ==> e in row;
            Substitute(msg, row) == Substitute(JoinedBy(gaps, CellText(row[0].1)), row[1..])
  {
    gaps, ms := Decompose(msg, Placeholder(row[0].0));
    ReplaceEvery(Placeholder(row[0].0), CellText(row[0].1), gaps, ms);
  }

  /** For a one-column row, every scanned occurrence of `{{key}}` becomes `value || ''` and nothing else changes. */
  lemma OneColumnEveryOccurrence(msg: string, key: string, v: Option<string>) returns (gaps: seq<string>, ms: seq<string>)
    requires PlainKey(key) && '$' !in CellText(v)
    ensures Renderable([(key, v)])
    ensures |gaps| == |ms| + 1 && msg == Interleave(gaps, ms) && Occurrences(Placeholder(key), gaps, ms)
    ensures Substitute(msg, [(key, v)]) == JoinedBy(gaps, CellText(v))
  {
    SingleEntryRenderable(msg, key, v);
    gaps, ms := Decompose(msg, Placeholder(key));
    ReplaceEvery(Placeholder(key), CellText(v), gaps, ms);
  }

  /** Gaps without `{` hold no occurrence of a placeholder, so matches of it are its only occurrences. */
  lemma {:induction false} BraceFreeGaps(pat: string, gaps: seq<string>, ms: seq<string>)
    requires pat != [] && pat[0] == '{' && |gaps| == |ms| + 1
    requires forall i :: 0 <= i < |gaps| ==> '{' !in gaps[i]
    requires forall i :: 0 <= i < |ms| ==> |ms[i]| == |pat| && FoldPrefix(pat, ms[i])
    ensures Occurrences(pat, gaps, ms)
    decreases |ms|
  {
    if ms == [] {
      NoBraceNoOccurrence(pat, gaps[0]);
    } else {
      var tail := ms[0] + Interleave(gaps[1..], ms[1..]);
      forall p | 0 <= p < |gaps[0]|
        ensures !FoldPrefix(pat, gaps[0][p..] + tail)
      {
        assert gaps[0][p] in gaps[0];
        NoMatchAtPlain(gaps[0][p..] + tail, pat);
      }
      BraceFreeGaps(pat, gaps[1..], ms[1..]);
    }
  }

  lemma {:induction false} NoBraceNoOccurrence(pat: string, s: string)
    requires pat != [] && pat[0] == '{' && '{' !in s
    ensures !Occurs(pat, s)
    decreases |s|
  {
    if s != [] {
      NoMatchAtPlain(s, pat);
      assert forall c :: c in s[1..] ==> c in s;
      NoBraceNoOccurrence(pat, s[1..]);
    }
  }

  // ---- worked examples ---------------------------------------------------

  predicate IsAsciiLetter(c: char) {
    'a' <= c <= 'z' || 'A' <= c <= 'Z'
  }

  lemma LetterKeyIsPlain(key: string)
    requires |key| > 0 && forall i :: 0 <= i < |key| ==> IsAsciiLetter(key[i])
    ensures PlainKey(key)
  {
    assert !('0' <= key[0] <= '9' || key[0] == ',');
  }

  /** A one-column row is renderable, and phase 2 on it is one global replacement. */
  lemma SingleEntryRenderable(msg: string, key: string, v: Option<string>)
    requires PlainKey(key) && '$' !in CellText(v)
    ensures Renderable([(key, v)])
    ensures Substitute(msg, [(key, v)]) == ReplaceAll(msg, Placeholder(key), CellText(v))
  {
    assert [(key, v)][1..] == [];
  }

  lemma HelloParts(t: string)
    requires t == "Hi|Hello"
    ensures t == "Hi" + ['|'] + "Hello" && '|' !in "Hi" && '|' !in "Hello"
    ensures IsVariantInterior(t) && '|' !in " {{Name}}"
  {
    assert t[1..|t| - 1][1] == '|';
  }

  lemma NamePieces(b: string, pat: string)
    requires b == " {{Name}}" && pat == "{{Name}}"
    ensures b == " " + pat && '{' !in " " && " Sam" == " " + "Sam"
  {
  }

  /** Brace-free text followed by one occurrence of the placeholder: only that occurrence changes. */
  lemma ReplaceAfterText(a: string, m: string, pat: string, rep: string)
    requires pat != [] && pat[0] == '{' && '{' !in a && |m| == |pat| && FoldPrefix(pat, m)
    ensures ReplaceAll(a + m, pat, rep) == a + rep
  {
    ReplaceAllLiteralRun(a, m, pat, rep);
    assert m + [] == m;
    ReplaceAllAtMatch(m, [], pat, rep);
    assert ReplaceAll([], pat, rep) == [];
    assert rep + [] == rep;
  }

  lemma HelloSplit(t: string)
    requires t == "Hi|Hello"
    ensures Split(t, '|') == ["Hi", "Hello"]
  {
    HelloParts(t);
    SplitNoSeparator("Hello", '|');
    SplitAtSeparator("Hi", '|', "Hello");
  }

  /** A leading variant group followed by text without `|` resolves to the picked option and that text. */
  lemma ResolveLeadingGroup(t: string, b: string, k: nat)
    requires IsVariantInterior(t) && '|' !in b
    ensures ResolveSpintax("{" + t + "}" + b, [k]) == Pick(Split(t, '|'), [k]) + b
  {
    ScanVariantGroup(t, b);
    var opts := Split(t, '|');
    var head: seq<Piece> := [Variant(t)];
    assert Variants(head) == [opts] + Variants([]);
    assert Resolve(head, [k]) == Pick(opts, [k]) + Resolve([], []);
    SpintaxIdentity(b, []);
    ResolveAppend(head, [k], Scan(b), []);
    assert [k] + [] == [k];
  }

  /** Phase 1 on `{Hi|Hello} {{Name}}`: the group is replaced by the picked option. */
  lemma ExampleVariantPick(t: string, b: string, k: nat)
    requires t == "Hi|Hello" && b == " {{Name}}"
    ensures ResolveSpintax("{" + t + "}" + b, [k]) == (if k % 2 == 0 then "Hi" else "Hello") + b
  {
    HelloSplit(t);
    HelloParts(t);
    ResolveLeadingGroup(t, b, k);
  }

  /** Phase 2 after the pick: the column fills its placeholder. */
  lemma ExampleNameFill(word: string, pat: string)
    requires '{' !in word && pat == Placeholder("Name")
    ensures ReplaceAll(word + " {{Name}}", pat, "Sam") == word + " Sam"
  {
    NamePieces(" {{Name}}", pat);
    var a := word + " ";
    assert '{' !in a;
    assert word + " {{Name}}" == a + pat;
    assert FoldPrefix(pat, pat);
    ReplaceAfterText(a, pat, pat, "Sam");
    assert a + "Sam" == word + " Sam";
  }

  /** A one-column row whose placeholder phase 2 fills in the resolved message. */
  lemma InterpolateSingleCell(tpl: string, key: string, v: string, choices: seq<nat>, m: string, out: string)
    requires PlainKey(key) && '$' !in v
    requires ResolveSpintax(tpl, choices) == m && ReplaceAll(m, Placeholder(key), v) == out
    ensures Renderable([(key, Some(v))]) && Interpolate(tpl, [(key, Some(v))], choices) == out
  {
    SingleEntryRenderable(m, key, Some(v));
  }

  lemma BraceFreeNoOpen(s: string)
    requires BraceFree(s)
    ensures '{' !in s
  {
    assert forall i :: 0 <= i < |s| ==> s[i] != '{';
  }

  /** `a|c` with two brace-free, `|`-free, non-empty options is a group with exactly those options. */
  lemma TwoOptionGroup(a: string, c: string)
    requires a != [] && c != [] && BraceFree(a) && BraceFree(c) && '|' !in a && '|' !in c
    ensures IsVariantInterior(a + "|" + c) && Split(a + "|" + c, '|') == [a, c]
  {
    var t := a + "|" + c;
    assert t[1..|t| - 1][|a| - 1] == '|';
    forall i | 0 <= i < |t|
      ensures !IsBrace(t[i])
    {
      if i < |a| {
        assert t[i] == a[i];
      } else if i > |a| {
        assert t[i] == c[i - |a| - 1];
      }
    }
    SplitNoSeparator(c, '|');
    SplitAtSeparator(a, '|', c);
    assert a + ['|'] + c == t;
  }

  /** A placeholder for a plain key starts with `{` and has no `|`. */
  lemma PlaceholderShape(key: string)
    requires PlainKey(key)
    ensures Placeholder(key) != [] && Placeholder(key)[0] == '{' && '|' !in Placeholder(key)
  {
    var pat := Placeholder(key);
    forall i | 0 <= i < |pat|
      ensures pat[i] != '|'
    {
      if 2 <= i < |key| + 2 {
        assert pat[i] == key[i - 2];
        assert !IsRegexSyntax(key[i - 2]);
      }
    }
  }

  /** Phase 1 on `{a|c}` followed by `|`-free text b. */
  lemma GreetingPick(a: string, c: string, b: string, k: nat)
    requires a != [] && c != [] && BraceFree(a) && BraceFree(c) && '|' !in a && '|' !in c
    requires '|' !in b
    ensures ResolveSpintax("{" + (a + "|" + c) + "}" + b, [k]) == (if k % 2 == 0 then a else c) + b
  {
    TwoOptionGroup(a, c);
    ResolveLeadingGroup(a + "|" + c, b, k);
    assert Pick([a, c], [k]) == if k % 2 == 0 then a else c;
  }

  lemma FoldPrefixSelf(pat: string)
    ensures FoldPrefix(pat, pat)
  {
  }

  /** Phase 2 on brace-free text, a space and the placeholder. */
  lemma GreetingFill(word: string, key: string, v: string)
    requires '{' !in word && PlainKey(key)
    ensures ReplaceAll(word + (" " + Placeholder(key)), Placeholder(key), v) == word + " " + v
  {
    var pat := Placeholder(key);
    var a := word + " ";
    assert word + (" " + pat) == a + pat;
    PlaceholderShape(key);
    FoldPrefixSelf(pat);
    ReplaceAfterText(a, pat, pat, v);
  }

  /**
   * `{a|c} {{key}}` with the row key = v renders as the option the draw picks,
   * a space and the value.
   */
  lemma GreetingTemplate(a: string, c: string, key: string, v: string, k: nat)
    requires a != [] && c != [] && BraceFree(a) && BraceFree(c) && '|' !in a && '|' !in c
    requires PlainKey(key) && '$' !in v
    ensures Renderable([(key, Some(v))])
    ensures Interpolate("{" + (a + "|" + c) + "}" + (" " + Placeholder(key)), [(key, Some(v))], [k])
            == (if k % 2 == 0 then a else c) + " " + v
  {
    var b := " " + Placeholder(key);
    var word := if k % 2 == 0 then a else c;
    PlaceholderShape(key);
    assert '|' !in b;
    GreetingPick(a, c, b, k);
    BraceFreeNoOpen(a);
    BraceFreeNoOpen(c);
    GreetingFill(word, key, v);
    InterpolateSingleCell("{" + (a + "|" + c) + "}" + b, key, v, [k], word + b, word + " " + v);
  }

  lemma AppendAssoc(x: string, y: string, z: string)
    ensures x + y + z == x + (y + z)
  {
  }

  lemma GreetingPieces(t: string, b: string, key: string)
    requires t == "Hi|Hello" && b == " {{Name}}" && key == "Name"
    ensures t == "Hi" + "|" + "Hello" && b == " " + Placeholder(key) && " Sam" == " " + "Sam"
    ensures BraceFree("Hi") && BraceFree("Hello") && '|' !in "Hi" && '|' !in "Hello"
  {
  }

  /** One variant picked and one column filled: `{Hi|Hello} {{Name}}` with Name = Sam. */
  lemma ExampleVariantAndName(t: string, b: string, key: string, k: nat)
    requires t == "Hi|Hello" && b == " {{Name}}" && key == "Name"
    ensures Renderable([(key, Some("Sam"))])
    ensures Interpolate("{" + t + "}" + b, [(key, Some("Sam"))], [k]) == (if k % 2 == 0 then "Hi" else "Hello") + " Sam"
  {
    GreetingPieces(t, b, key);
    LetterKeyIsPlain(key);
    GreetingTemplate("Hi", "Hello", key, "Sam", k);
    AppendAssoc(if k % 2 == 0 then "Hi" else "Hello", " ", "Sam");
  }

  lemma UpperPieces(msg: string, pat: string, m: string)
    requires msg == "Hi {{NAME}}" && pat == "{{name}}" && m == "{{NAME}}"
    ensures msg == "Hi " + m && '{' !in "Hi " && |m| == |pat| && pat[0] == '{' && FoldPrefix(pat, m)
    ensures "Hi " + "Sam" == "Hi Sam"
  {
  }

  /** Column names match placeholders case-insensitively. */
  lemma ExampleCaseInsensitive(msg: string, key: string)
    requires msg == "Hi {{NAME}}" && key == "name"
    ensures Renderable([(key, Some("Sam"))])
    ensures Substitute(msg, [(key, Some("Sam"))]) == "Hi Sam"
  {
    LetterKeyIsPlain(key);
    UpperPieces(msg, Placeholder(key), "{{NAME}}");
    SubstituteAfterText(msg, key, "Sam", "Hi ", "{{NAME}}");
  }

  /** Brace-free text, then one case-insensitive occurrence of the placeholder: the row's one cell replaces it. */
  lemma SubstituteAfterText(msg: string, key: string, v: string, a: string, m: string)
    requires PlainKey(key) && '$' !in v && msg == a + m && '{' !in a
    requires |m| == |Placeholder(key)| && FoldPrefix(Placeholder(key), m)
    ensures Renderable([(key, Some(v))])
    ensures Substitute(msg, [(key, Some(v))]) == a + v
  {
    SingleEntryRenderable(msg, key, Some(v));
    PlaceholderShape(key);
    ReplaceAfterText(a, m, Placeholder(key), v);
  }

  lemma ValuePieces(tpl: string, v: string)
    requires tpl == "{{X}}" && v == "{a|b}"
    ensures '|' !in tpl && FoldPrefix(tpl, tpl) && '$' !in v && tpl + [] == tpl
  {
  }

  /**
   * Variants are resolved before substitution, so a cell that itself reads
   * like a variant group is inserted as written.
   */
  lemma ExampleValueNotSpun(tpl: string, row: Row)
    requires tpl == "{{X}}" && row == [("X", Some("{a|b}"))]
    ensures Renderable(row)
    ensures Interpolate(tpl, row, []) == "{a|b}"
  {
    LetterKeyIsPlain("X");
    SingleEntryRenderable(tpl, "X", Some("{a|b}"));
    ValuePieces(tpl, "{a|b}");
    SpintaxIdentity(tpl, []);
    assert Placeholder("X") == tpl;
    ReplaceAllAtMatch(tpl, [], tpl, "{a|b}");
    assert ReplaceAll([], tpl, "{a|b}") == [];
  }

  /** An undefined cell empties its placeholder (`value || ''`). */
  lemma ExampleUndefinedCell(tpl: string, row: Row)
    requires tpl == "{{X}}" && row == [("X", None)]
    ensures Renderable(row)
    ensures Interpolate(tpl, row, []) == ""
  {
    LetterKeyIsPlain("X");
    SingleEntryRenderable(tpl, "X", None);
    FoldPrefixSelf(tpl);
    assert '|' !in tpl && tpl + [] == tpl;
    SpintaxIdentity(tpl, []);
    assert Placeholder("X") == tpl;
    ReplaceAllAtMatch(tpl, [], tpl, "");
    assert ReplaceAll([], tpl, "") == [];
  }
}
