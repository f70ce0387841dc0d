/**
 * The string library behaviour the core relies on, written out: splitting on a one-character
 * separator (`strings.Split` in Go, `str::split` in Rust), joining, substring containment,
 * `ReplaceAll`/`replace`, Go's `unicode.IsSpace`, `strings.TrimSpace`, `strings.Fields`
 * and `strings.ToLower` (see `LowerRune` for how much of Unicode case mapping is covered).
 */
module Strings {

  // ---------------------------------------------------------------------------------------
  // Splitting and joining

  /** Split `s` around every occurrence of `sep`: n separators give n + 1 pieces, "" gives [""]. */
  function SplitOn(s: string, sep: char): (pieces: seq<string>)
    ensures |pieces| >= 1
    ensures forall i :: 0 <= i < |pieces| ==> sep !in pieces[i]
  {
    if s == [] then [""]
    else
      var rest := SplitOn(s[1..], sep);
      if s[0] == sep then [""] + rest
      else [[s[0]] + rest[0]] + rest[1..]
  }

  /** The pieces with `sep` between each two neighbours. */
  function Join(pieces: seq<string>, sep: string): (joined: string)
  {
    if pieces == [] then ""
    else if |pieces| == 1 then pieces[0]
    else pieces[0] + sep + Join(pieces[1..], sep)
  }

  lemma JoinCons(p: string, rest: seq<string>, sep: string)
    requires rest != []
    ensures Join([p] + rest, sep) == p + sep + Join(rest, sep)
  {
    assert ([p] + rest)[1..] == rest;
  }

  /** Joining the pieces of a split gives the string back. */
  lemma {:induction false} JoinSplit(s: string, sep: char)
    ensures Join(SplitOn(s, sep), [sep]) == s
  {
    if s != [] {
      JoinSplit(s[1..], sep);
      var rest := SplitOn(s[1..], sep);
      if s[0] == sep {
        JoinCons("", rest, [sep]);
      } else if |rest| > 1 {
        JoinCons(rest[0], rest[1..], [sep]);
        JoinCons([s[0]] + rest[0], rest[1..], [sep]);
      }
    }
  }

  lemma {:induction false} SplitPrefix(p: string, t: string, sep: char)
    requires sep !in p
    ensures SplitOn(p + t, sep) == [p + SplitOn(t, sep)[0]] + SplitOn(t, sep)[1..]
  {
    if p != [] {
      assert (p + t)[1..] == p[1..] + t;
      SplitPrefix(p[1..], t, sep);
      assert [p[0]] + (p[1..] + SplitOn(t, sep)[0]) == p + SplitOn(t, sep)[0];
    } else {
      var pieces := SplitOn(t, sep);
      assert p + t == t && p + pieces[0] == pieces[0];
      assert [pieces[0]] + pieces[1..] == pieces;
    }
  }

  /** Splitting a join of separator-free pieces gives the pieces back. */
  lemma {:induction false} SplitJoin(pieces: seq<string>, sep: char)
    requires pieces != []
    requires forall i :: 0 <= i < |pieces| ==> sep !in pieces[i]
    ensures SplitOn(Join(pieces, [sep]), sep) == pieces
  {
    if |pieces| == 1 {
      SplitPrefix(pieces[0], "", sep);
      assert pieces[0] + "" == pieces[0];
    } else {
      var p, rest := pieces[0], pieces[1..];
      SplitJoin(rest, sep);
      assert Join(pieces, [sep]) == p + ([sep] + Join(rest, [sep]));
      SplitPrefix(p, [sep] + Join(rest, [sep]), sep);
      assert ([sep] + Join(rest, [sep]))[1..] == Join(rest, [sep]);
      assert p + "" == p;
      assert [p] + rest == pieces;
    }
  }

  /** Joining two non-empty runs of pieces puts one separator between their joins. */
  lemma {:induction false} JoinAppend(p: seq<string>, q: seq<string>, sep: string)
    requires p != [] && q != []
    ensures Join(p + q, sep) == Join(p, sep) + sep + Join(q, sep)
  {
    if |p| == 1 {
      JoinCons(p[0], q, sep);
      assert p + q == [p[0]] + q;
    } else {
      JoinAppend(p[1..], q, sep);
      assert p + q == [p[0]] + (p[1..] + q);
      JoinCons(p[0], p[1..] + q, sep);
      JoinCons(p[0], p[1..], sep);
      assert p == [p[0]] + p[1..];
    }
  }

  /** Splitting `a`, a separator and `b` gives the pieces of `a` followed by the pieces of `b`. */
  lemma SplitAppend(a: string, b: string, sep: char)
    ensures SplitOn(a + [sep] + b, sep) == SplitOn(a, sep) + SplitOn(b, sep)
  {
    var p, q := SplitOn(a, sep), SplitOn(b, sep);
    JoinSplit(a, sep);
    JoinSplit(b, sep);
    JoinAppend(p, q, [sep]);
    assert forall i :: 0 <= i < |p + q| ==> sep !in (p + q)[i] by {
      forall i | 0 <= i < |p + q|
        ensures sep !in (p + q)[i]
      {
        if i < |p| { assert (p + q)[i] == p[i]; } else { assert (p + q)[i] == q[i - |p|]; }
      }
    }
    SplitJoin(p + q, sep);
  }

  /** A string without the separator splits into itself alone. */
  lemma SplitNoSep(s: string, sep: char)
    requires sep !in s
    ensures SplitOn(s, sep) == [s]
  {
    SplitJoin([s], sep);
  }

  /** No string occurs twice. */
  predicate Distinct(s: seq<string>)
  {
    forall i, j :: 0 <= i < j < |s| ==> s[i] != s[j]
  }

  // ---------------------------------------------------------------------------------------
  // Substrings and replacement

  /** `needle` occurs somewhere in `hay` (Rust's `str::contains`). */
  predicate Contains(hay: string, needle: string)
  {
    needle <= hay || (hay != [] && Contains(hay[1..], needle))
  }

  /** A string contains each of its suffixes. */
  lemma {:induction false} ContainsSuffix(a: string, b: string)
    ensures Contains(a + b, b)
  {
    if a != [] {
      assert (a + b)[1..] == a[1..] + b;
      ContainsSuffix(a[1..], b);
    } else {
      assert a + b == b;
    }
  }

  /** Appending to a string keeps every substring it had. */
  lemma {:induction false} ContainsExtend(a: string, needle: string, b: string)
    requires Contains(a, needle)
    ensures Contains(a + b, needle)
  {
    if needle <= a {
      assert (a + b)[..|needle|] == a[..|needle|];
    } else {
      assert (a + b)[1..] == a[1..] + b;
      ContainsExtend(a[1..], needle, b);
    }
  }

  /**
   * Every non-overlapping occurrence of `pat`, scanning left to right, replaced by `rep`
   * (Go's `strings.ReplaceAll`, Rust's `str::replace`); an empty `pat` inserts `rep`
   * before every character and at the end.
   */
  function ReplaceAll(s: string, pat: string, rep: string): (replaced: string)
    decreases |s|
  {
    if |pat| == 0 then
      if s == [] then rep else rep + [s[0]] + ReplaceAll(s[1..], pat, rep)
    else if pat <= s then rep + ReplaceAll(s[|pat|..], pat, rep)
    else if s == [] then []
    else [s[0]] + ReplaceAll(s[1..], pat, rep)
  }

  /** A string in which the pattern does not occur is left as it is. */
  lemma {:induction false} ReplaceAllAbsent(s: string, pat: string, rep: string)
    requires |pat| > 0 && !Contains(s, pat)
    ensures ReplaceAll(s, pat, rep) == s
  {
    if s != [] {
      ReplaceAllAbsent(s[1..], pat, rep);
    }
  }

  lemma {:induction false} ReplaceAllSkip(p: string, t: string, pat: string, rep: string)
    requires |pat| > 0 && pat[0] !in p
    ensures ReplaceAll(p + t, pat, rep) == p + ReplaceAll(t, pat, rep)
  {
    if p != [] {
      assert (p + t)[0] == p[0];
      assert !(pat <= p + t);
      assert (p + t)[1..] == p[1..] + t;
      ReplaceAllSkip(p[1..], t, pat, rep);
    } else {
      assert p + t == t;
    }
  }

  lemma ReplaceAllHead(pat: string, t: string, rep: string)
    requires |pat| > 0
    ensures ReplaceAll(pat + t, pat, rep) == rep + ReplaceAll(t, pat, rep)
  {
    assert pat <= pat + t;
    assert (pat + t)[|pat|..] == t;
  }

  /**
   * If the template is pieces joined by the pattern, and the pattern's first character occurs in
   * no piece, replacement puts `rep` exactly where each occurrence of the pattern stood.
   */
  lemma {:induction false} ReplaceAllJoin(pieces: seq<string>, pat: string, rep: string)
    requires |pat| > 0
    requires forall i :: 0 <= i < |pieces| ==> pat[0] !in pieces[i]
    ensures ReplaceAll(Join(pieces, pat), pat, rep) == Join(pieces, rep)
  {
    if |pieces| == 1 {
      ReplaceAllSkip(pieces[0], "", pat, rep);
      assert pieces[0] + "" == pieces[0];
      assert ReplaceAll("", pat, rep) == "";
    } else if |pieces| > 1 {
      var p, rest := pieces[0], pieces[1..];
      ReplaceAllJoin(rest, pat, rep);
      assert Join(pieces, pat) == p + (pat + Join(rest, pat));
      ReplaceAllSkip(p, pat + Join(rest, pat), pat, rep);
      ReplaceAllHead(pat, Join(rest, pat), rep);
      assert Join(pieces, rep) == p + rep + Join(rest, rep);
    }
  }

  /**
   * A `${...}`-style placeholder: when the template is `$`-free pieces joined by it, replacement
   * puts `rep` exactly where each placeholder stood and changes nothing else.
   */
  lemma ReplaceAllPlaceholder(pieces: seq<string>, placeholder: string, rep: string)
    requires |placeholder| > 0 && placeholder[0] == '$'
    requires forall i :: 0 <= i < |pieces| ==> '$' !in pieces[i]
    ensures ReplaceAll(Join(pieces, placeholder), placeholder, rep) == Join(pieces, rep)
  {
    ReplaceAllJoin(pieces, placeholder, rep);
  }

  // ---------------------------------------------------------------------------------------
  // White space (Go's unicode.IsSpace, strings.TrimSpace, strings.Fields)

  /** Go's `unicode.IsSpace`: the Latin-1 spaces plus the other Unicode White_Space code points. */
  predicate IsSpace(c: char)
  {
    || c == '\t' || c == '\n' || c == '\U{0B}' || c == '\U{0C}' || c == '\r' || c == ' '
    || c == '\U{85}' || c == '\U{A0}' || c == '\U{1680}'
    || ('\U{2000}' <= c <= '\U{200A}')
    || c == '\U{2028}' || c == '\U{2029}' || c == '\U{202F}' || c == '\U{205F}' || c == '\U{3000}'
  }

  predicate AllSpace(s: string)
  {
    forall i :: 0 <= i < |s| ==> IsSpace(s[i])
  }

  predicate NoSpace(s: string)
  {
    forall i :: 0 <= i < |s| ==> !IsSpace(s[i])
  }

  /** `s` without its leading white space. */
  function TrimLeft(s: string): (trimmed: string)
  {
    if s != [] && IsSpace(s[0]) then TrimLeft(s[1..]) else s
  }

  /** TrimLeft gives the longest suffix that does not start with a space. */
  lemma {:induction false} TrimLeftShape(s: string)
    ensures var r := TrimLeft(s);
      |r| <= |s| && r == s[|s| - |r|..] && AllSpace(s[..|s| - |r|]) && (r == [] || !IsSpace(r[0]))
  {
    if s != [] && IsSpace(s[0]) {
      TrimLeftShape(s[1..]);
      var r := TrimLeft(s[1..]);
      assert s[1..][..|s| - 1 - |r|] == s[1..|s| - |r|];
    }
  }

  /** `s` without its trailing white space. */
  function TrimRight(s: string): (trimmed: string)
  {
    if s != [] && IsSpace(s[|s| - 1]) then TrimRight(s[..|s| - 1]) else s
  }

  /** TrimRight gives the longest prefix that does not end with a space. */
  lemma {:induction false} TrimRightShape(s: string)
    ensures var r := TrimRight(s);
      |r| <= |s| && r == s[..|r|] && AllSpace(s[|r|..]) && (r == [] || !IsSpace(r[|r| - 1]))
  {
    if s != [] && IsSpace(s[|s| - 1]) {
      TrimRightShape(s[..|s| - 1]);
      var r := TrimRight(s[..|s| - 1]);
      assert s[|r|..] == s[..|s| - 1][|r|..] + [s[|s| - 1]];
    }
  }

  /** Go's `strings.TrimSpace`. */
  function TrimSpace(s: string): (r: string)
  {
    TrimRight(TrimLeft(s))
  }

  /**
   * TrimSpace cuts white space only, from the two ends only: `s` is a run of spaces, the
   * result, and another run of spaces; the result neither starts nor ends with a space.
   */
  lemma TrimSpaceShape(s: string)
    ensures var r := TrimSpace(s);
      exists i :: 0 <= i <= |s| - |r| && s[i..i + |r|] == r && AllSpace(s[..i]) && AllSpace(s[i + |r|..])
    ensures TrimSpace(s) == [] || (!IsSpace(TrimSpace(s)[0]) && !IsSpace(TrimSpace(s)[|TrimSpace(s)| - 1]))
  {
    var l := TrimLeft(s);
    TrimLeftShape(s);
    TrimRightShape(l);
    var r := TrimRight(l);
    var i := |s| - |l|;
    assert s[i..i + |r|] == l[..|r|];
    assert s[i + |r|..] == l[|r|..];
  }

  /** TrimSpace gives "" exactly for all-space input. */
  lemma TrimSpaceEmpty(s: string)
    ensures TrimSpace(s) == [] <==> AllSpace(s)
  {
    var l := TrimLeft(s);
    TrimLeftShape(s);
    TrimRightShape(l);
    if TrimSpace(s) == [] {
      assert AllSpace(l[0..]);
      assert s == s[..|s| - |l|] + l;
    } else {
      assert !IsSpace(s[|s| - |l|]);
    }
  }

  /** Trimming twice is trimming once. */
  lemma TrimSpaceIdempotent(s: string)
    ensures TrimSpace(TrimSpace(s)) == TrimSpace(s)
  {
    var l := TrimLeft(s);
    TrimLeftShape(s);
    TrimRightShape(l);
    var r := TrimRight(l);
    TrimRightShape(r);
  }

  /** The longest prefix of `s` without white space. */
  function Word(s: string): (w: string)
    ensures w <= s && NoSpace(w)
    ensures |w| == |s| || IsSpace(s[|w|])
  {
    if s == [] || IsSpace(s[0]) then [] else [s[0]] + Word(s[1..])
  }

  /** Go's `strings.Fields`: the maximal runs of non-space characters, in order. */
  function Fields(s: string): (fs: seq<string>)
    ensures forall i :: 0 <= i < |fs| ==> fs[i] != [] && NoSpace(fs[i])
    decreases |s|
  {
    if s == [] then []
    else if IsSpace(s[0]) then Fields(s[1..])
    else
      var w := Word(s);
      [w] + Fields(s[|w|..])
  }

  /** Fields finds nothing exactly when the string is all white space. */
  lemma {:induction false} FieldsEmpty(s: string)
    ensures Fields(s) == [] <==> AllSpace(s)
    decreases |s|
  {
    if s != [] && IsSpace(s[0]) {
      FieldsEmpty(s[1..]);
      assert forall i :: 1 <= i < |s| ==> s[i] == s[1..][i - 1];
    }
  }

  function Concat(fs: seq<string>): (joined: string)
  {
    if fs == [] then "" else fs[0] + Concat(fs[1..])
  }

  function RemoveSpaces(s: string): (removed: string)
  {
    if s == [] then ""
    else if IsSpace(s[0]) then RemoveSpaces(s[1..])
    else [s[0]] + RemoveSpaces(s[1..])
  }

  lemma {:induction false} RemoveSpacesWord(w: string, t: string)
    requires NoSpace(w)
    ensures RemoveSpaces(w + t) == w + RemoveSpaces(t)
  {
    if w != [] {
      assert (w + t)[0] == w[0] && (w + t)[1..] == w[1..] + t;
      RemoveSpacesWord(w[1..], t);
    } else {
      assert w + t == t;
    }
  }

  /** Fields drops exactly the white space: the fields together hold every other character, in order. */
  lemma {:induction false} FieldsKeepContent(s: string)
    ensures Concat(Fields(s)) == RemoveSpaces(s)
    decreases |s|
  {
    if s != [] {
      if IsSpace(s[0]) {
        FieldsKeepContent(s[1..]);
      } else {
        var w := Word(s);
        FieldsKeepContent(s[|w|..]);
        assert s == w + s[|w|..];
        RemoveSpacesWord(w, s[|w|..]);
        assert ([w] + Fields(s[|w|..]))[1..] == Fields(s[|w|..]);
      }
    }
  }

  // ---------------------------------------------------------------------------------------
  // Case folding (Go's strings.ToLower)

  /**
   * Go's `unicode.ToLower` on the runes whose lower case is ASCII: A-Z, U+0130 (capital I with
   * dot, lower case i) and U+212A (Kelvin sign, lower case k). Every other rune is left as it
   * is, which is exact for comparisons against all-ASCII lower-case names.
   */
  function LowerRune(c: char): (lower: char)
  {
    if 'A' <= c <= 'Z' then (c as int + 32) as char
    else if c == '\U{0130}' then 'i'
    else if c == '\U{212A}' then 'k'
    else c
  }

  function ToLower(s: string): (r: string)
    ensures |r| == |s| && forall i :: 0 <= i < |s| ==> r[i] == LowerRune(s[i])
  {
    seq(|s|, i requires 0 <= i < |s| => LowerRune(s[i]))
  }

  /** ASCII upper-casing, to state case-insensitivity. */
  function AsciiUpper(s: string): (r: string)
    ensures |r| == |s|
  {
    seq(|s|, i requires 0 <= i < |s| => if 'a' <= s[i] <= 'z' then (s[i] as int - 32) as char else s[i])
  }

  /** Lower-casing forgets ASCII case. */
  lemma LowerForgetsAsciiCase(s: string)
    ensures ToLower(AsciiUpper(s)) == ToLower(s)
  {
    assert forall i :: 0 <= i < |s| ==> LowerRune(AsciiUpper(s)[i]) == LowerRune(s[i]);
  }
}
