/**
 * Option type and the string primitives of the .NET base library that the
 * player's text heuristics rely on: Trim, IsNullOrWhiteSpace, Contains,
 * IndexOf, StartsWith, Replace, the three Split overloads it calls, Join and
 * ToLowerInvariant.  Strings are sequences of Unicode scalar values (`char`).
 */
module Options {
  datatype Option<+T> = None | Some(value: T)
}

module Strings {
  import opened Options

  /** Concatenation is associative (stated generically, where it is cheap
      to prove). */
  lemma AppendAssoc<T>(x: seq<T>, y: seq<T>, z: seq<T>)
    ensures (x + y) + z == x + (y + z)
  {
  }

  /** `char.IsWhiteSpace`: the control characters U+0009 to U+000D and
      U+0085, and the space, line and paragraph separators of Unicode. */
  predicate IsWhite(c: char) {
    ('\U{0009}' <= c <= '\U{000D}') || c == ' ' || c == '\U{0085}' || c == '\U{00A0}'
    || c == '\U{1680}' || ('\U{2000}' <= c <= '\U{200A}') || c == '\U{2028}' || c == '\U{2029}'
    || c == '\U{202F}' || c == '\U{205F}' || c == '\U{3000}'
  }

  /** `string.IsNullOrWhiteSpace` (a null string is modelled as ""). */
  predicate IsBlank(s: string) {
    forall i :: 0 <= i < |s| ==> IsWhite(s[i])
  }

  function TrimStart(s: string): (r: string)
    ensures |r| <= |s|
  {
    if s == [] || !IsWhite(s[0]) then s else TrimStart(s[1..])
  }

  /** TrimStart keeps a suffix that does not start with white space, and
      drops only white space. */
  lemma {:induction false} TrimStartSpec(s: string)
    ensures var r := TrimStart(s);
      r == s[|s| - |r|..] && (r == [] || !IsWhite(r[0]))
      && forall i :: 0 <= i < |s| - |r| ==> IsWhite(s[i])
    decreases |s|
  {
    if s != [] && IsWhite(s[0]) {
      TrimStartSpec(s[1..]);
    }
  }

  function TrimEnd(s: string): (r: string)
    ensures |r| <= |s|
  {
    if s == [] || !IsWhite(s[|s| - 1]) then s else TrimEnd(s[..|s| - 1])
  }

  /** TrimEnd keeps a prefix that does not end with white space, and
      drops only white space. */
  lemma {:induction false} TrimEndSpec(s: string)
    ensures var r := TrimEnd(s);
      r == s[..|r|] && (r == [] || !IsWhite(r[|r| - 1]))
      && forall i :: |r| <= i < |s| ==> IsWhite(s[i])
    decreases |s|
  {
    if s != [] && IsWhite(s[|s| - 1]) {
      TrimEndSpec(s[..|s| - 1]);
    }
  }

  /** `string.Trim()`: white space removed at both ends. */
  function Trim(s: string): (r: string)
  {
    TrimEnd(TrimStart(s))
  }

  /** What Trim keeps is an infix of its input, starting where TrimStart
      stopped, and everything it drops is white space. */
  lemma TrimInfix(s: string)
    ensures var r, a := Trim(s), |s| - |TrimStart(s)|;
      a + |r| <= |s| && r == s[a..a + |r|]
      && (forall i :: 0 <= i < a ==> IsWhite(s[i]))
      && (forall i :: a + |r| <= i < |s| ==> IsWhite(s[i]))
  {
    var t := TrimStart(s);
    var r := TrimEnd(t);
    var a := |s| - |t|;
    TrimStartSpec(s);
    TrimEndSpec(t);
    assert r == t[..|r|];
    forall i | a + |r| <= i < |s| ensures IsWhite(s[i]) {
      assert s[i] == t[i - a];
    }
  }

  /** Trim keeps only characters of its input. */
  lemma TrimChars(s: string)
    ensures forall ch :: ch in Trim(s) ==> ch in s
  {
    TrimInfix(s);
    var r, a := Trim(s), |s| - |TrimStart(s)|;
    forall ch | ch in r
      ensures ch in s
    {
      var j :| 0 <= j < |r| && r[j] == ch;
      assert s[a + j] == ch;
    }
  }

  /** What Trim keeps neither starts nor ends with white space. */
  lemma TrimEnds(s: string)
    ensures Trim(s) == [] || (!IsWhite(Trim(s)[0]) && !IsWhite(Trim(s)[|Trim(s)| - 1]))
  {
    var t := TrimStart(s);
    var r := TrimEnd(t);
    TrimStartSpec(s);
    TrimEndSpec(t);
    if r != [] {
      assert r[0] == t[0];
    }
  }

  /** Trimming gives "" exactly on blank strings. */
  lemma TrimEmptyIffBlank(s: string)
    ensures Trim(s) == [] <==> IsBlank(s)
  {
    var t := TrimStart(s);
    var a := |s| - |t|;
    TrimStartSpec(s);
    if t != [] {
      TrimEndSpec(t);
      assert !IsWhite(t[0]) && s[a] == t[0];
    }
  }

  /** `s.StartsWith(p)` (ordinal). */
  predicate StartsWith(s: string, p: string) {
    p <= s
  }

  /** `sub` occurs in `s` starting at position `j`. */
  predicate OccursAt(s: string, sub: string, j: int) {
    0 <= j && j + |sub| <= |s| && s[j..j + |sub|] == sub
  }

  /** Occurrences in `s[1..]` are the occurrences in `s` shifted by one. */
  lemma OccursShift(s: string, sub: string, j: int)
    requires |s| > 0 && j >= 1
    ensures OccursAt(s[1..], sub, j - 1) <==> OccursAt(s, sub, j)
  {
    if j + |sub| <= |s| {
      assert s[1..][j - 1..j - 1 + |sub|] == s[j..j + |sub|];
    }
  }

  /** Occurrences that end within a prefix are the occurrences in the whole. */
  lemma OccursPrefix(s: string, sub: string, i: nat, j: nat)
    requires j + |sub| <= i <= |s|
    ensures OccursAt(s[..i], sub, j) <==> OccursAt(s, sub, j)
  {
    assert s[..i][j..j + |sub|] == s[j..j + |sub|];
  }

  /** `s.IndexOf(sub)` (ordinal): the first position where `sub` occurs. */
  function IndexOf(s: string, sub: string): (r: Option<nat>)
    ensures r.Some? ==> r.value + |sub| <= |s|
    decreases |s|
  {
    if |sub| <= |s| && s[..|sub|] == sub then Some(0)
    else if |s| == 0 then None
    else match IndexOf(s[1..], sub)
      case Some(i) => Some(i + 1)
      case None => None
  }

  /** What IndexOf finds is an occurrence. */
  lemma {:induction false} IndexOfOccurs(s: string, sub: string)
    ensures IndexOf(s, sub).Some? ==> OccursAt(s, sub, IndexOf(s, sub).value)
    decreases |s|
  {
    if !(|sub| <= |s| && s[..|sub|] == sub) && |s| > 0 && IndexOf(s[1..], sub).Some? {
      IndexOfOccurs(s[1..], sub);
      OccursShift(s, sub, IndexOf(s, sub).value);
    }
  }

  /** IndexOf finds an occurrence and none before it, or reports that
      there is none at all. */
  lemma {:induction false} IndexOfSpec(s: string, sub: string)
    ensures var r := IndexOf(s, sub);
      (r.Some? ==> OccursAt(s, sub, r.value) && forall j :: 0 <= j < r.value ==> !OccursAt(s, sub, j))
      && (r.None? ==> forall j :: !OccursAt(s, sub, j))
    decreases |s|
  {
    if |sub| <= |s| && s[..|sub|] == sub {
    } else if |s| > 0 {
      IndexOfSpec(s[1..], sub);
      forall j | 1 <= j
        ensures OccursAt(s[1..], sub, j - 1) <==> OccursAt(s, sub, j)
      {
        OccursShift(s, sub, j);
      }
      assert !OccursAt(s, sub, 0);
    }
  }

  /** `s.Contains(sub)` (ordinal). */
  predicate Contains(s: string, sub: string) {
    IndexOf(s, sub).Some?
  }

  /** An occurrence inside an infix is an occurrence in the whole string. */
  lemma ContainsInfix(s: string, a: nat, b: nat, sub: string)
    requires a <= b <= |s| && Contains(s[a..b], sub)
    ensures Contains(s, sub)
  {
    var t := s[a..b];
    IndexOfSpec(t, sub);
    var i := IndexOf(t, sub).value;
    assert t[i..i + |sub|] == sub;
    assert a + i + |sub| <= |s|;
    forall k | 0 <= k < |sub| ensures s[a + i + k] == sub[k] {
      assert t[i + k] == sub[k];
    }
    assert s[a + i..a + i + |sub|] == sub;
    assert OccursAt(s, sub, a + i);
    IndexOfSpec(s, sub);
  }

  /** `s.Replace(pat, rep)` (ordinal): every occurrence of `pat`, found left
      to right without overlap, is replaced by `rep`. */
  function Replace(s: string, pat: string, rep: string): (r: string)
    requires |pat| > 0
    ensures !Contains(s, pat) ==> r == s
    decreases |s|
  {
    if |pat| <= |s| && s[..|pat|] == pat then rep + Replace(s[|pat|..], pat, rep)
    else if s == [] then []
    else
      var rest := Replace(s[1..], pat, rep);
      assert !Contains(s, pat) ==> !Contains(s[1..], pat) by {
        if Contains(s[1..], pat) {
          assert s[1..|s|] == s[1..];
          ContainsInfix(s, 1, |s|, pat);
        }
      }
      [s[0]] + rest
  }

  /** Replace copies a prefix in which no occurrence of `pat` starts. */
  lemma {:induction false} ReplaceSkips(s: string, pat: string, rep: string, i: nat)
    requires |pat| > 0 && i <= |s|
    requires forall j :: 0 <= j < i ==> !OccursAt(s, pat, j)
    ensures Replace(s, pat, rep) == s[..i] + Replace(s[i..], pat, rep)
    decreases i
  {
    if i == 0 {
      assert s[..0] == [] && s[0..] == s;
    } else {
      var t := s[1..];
      var b := Replace(t, pat, rep);
      var r := Replace(t[i - 1..], pat, rep);
      assert b == t[..i - 1] + r by {
        forall j | 0 <= j < i - 1
          ensures !OccursAt(t, pat, j)
        {
          OccursShift(s, pat, j + 1);
        }
        ReplaceSkips(t, pat, rep, i - 1);
      }
      assert Replace(s, pat, rep) == [s[0]] + b by {
        assert !OccursAt(s, pat, 0);
        assert |pat| <= |s| ==> s[0..|pat|] == s[..|pat|];
        ReplaceCopies(s, pat, rep);
      }
      DropFirst(s, i);
      AppendAssoc([s[0]], t[..i - 1], r);
    }
  }

  /** Replace copies the text before the first occurrence of `pat`, puts
      `rep` in its place and carries on after it. */
  lemma ReplaceAtFirst(s: string, pat: string, rep: string, i: nat)
    requires |pat| > 0 && IndexOf(s, pat) == Some(i)
    ensures Replace(s, pat, rep) == s[..i] + rep + Replace(s[i + |pat|..], pat, rep)
  {
    IndexOfSpec(s, pat);
    ReplaceSkips(s, pat, rep, i);
    var u := s[i..];
    assert u[..|pat|] == pat by {
      assert u[..|pat|] == s[i..i + |pat|];
    }
    assert u[|pat|..] == s[i + |pat|..];
    AppendAssoc(s[..i], rep, Replace(u[|pat|..], pat, rep));
  }

  /** Slicing after dropping the first element. */
  lemma DropFirst<T>(s: seq<T>, i: nat)
    requires 1 <= i <= |s|
    ensures s[1..][i - 1..] == s[i..] && [s[0]] + s[1..][..i - 1] == s[..i]
  {
  }

  /** Where no occurrence starts, Replace copies the first character. */
  lemma ReplaceCopies(s: string, pat: string, rep: string)
    requires |pat| > 0 && |s| > 0 && !(|pat| <= |s| && s[..|pat|] == pat)
    ensures Replace(s, pat, rep) == [s[0]] + Replace(s[1..], pat, rep)
  {
  }

  /** Replacing is splitting on the pattern and joining the pieces with the
      replacement: every left-to-right occurrence, and nothing else, is
      replaced. */
  lemma {:induction false} ReplaceIsSplitJoin(s: string, pat: string, rep: string)
    requires |pat| > 0
    ensures Replace(s, pat, rep) == Join(SplitStr(s, pat), rep)
    decreases |s|
  {
    match IndexOf(s, pat)
    case None =>
      assert SplitStr(s, pat) == [s];
    case Some(i) =>
      var rest := s[i + |pat|..];
      var tail := SplitStr(rest, pat);
      assert Replace(s, pat, rep) == s[..i] + rep + Join(tail, rep) by {
        ReplaceAtFirst(s, pat, rep, i);
        ReplaceIsSplitJoin(rest, pat, rep);
      }
      assert Join(SplitStr(s, pat), rep) == s[..i] + rep + Join(tail, rep) by {
        assert SplitStr(s, pat) == [s[..i]] + tail;
        JoinCons(s[..i], tail, rep);
      }
  }

  /** A pattern absent from `p` and from `q` cannot occur across `m` when
      the pattern's last character is not in `m` and `m`'s last character
      is not in the pattern. */
  lemma NotContainsAround(p: string, m: string, q: string, sub: string)
    requires |sub| > 0 && |m| > 0
    requires sub[|sub| - 1] !in m && m[|m| - 1] !in sub
    requires !Contains(p, sub) && !Contains(q, sub)
    ensures !Contains(p + m + q, sub)
  {
    var s := p + m + q;
    IndexOfSpec(s, sub);
    if Contains(s, sub) {
      var j := IndexOf(s, sub).value;
      var e := j + |sub| - 1;
      if e < |p| {
        OccursPrefix(s, sub, |p|, j);
        assert s[..|p|] == p;
        IndexOfSpec(p, sub);
        assert false;
      } else if e < |p| + |m| {
        assert false;
      } else if j < |p| + |m| {
        ElementIn(s, |p| + |m| - 1);
        ElementIn(sub, |p| + |m| - 1 - j);
        assert false;
      } else {
        var d := |p| + |m|;
        assert s[d..][j - d..j - d + |sub|] == s[j..j + |sub|];
        assert s[d..] == q;
        assert OccursAt(q, sub, j - d);
        IndexOfSpec(q, sub);
        assert false;
      }
    }
  }

  /** An element of a sequence is in it (no precondition, so that it can be
      called in a branch that turns out to be impossible). */
  lemma ElementIn<T>(x: seq<T>, i: int)
    ensures 0 <= i < |x| ==> x[i] in x
  {
  }

  /** An element before position `n` is in the prefix of length `n`. */
  lemma ElementInPrefix<T>(x: seq<T>, n: int, i: int)
    ensures 0 <= i < n <= |x| ==> x[i] in x[..n]
  {
    if 0 <= i < n <= |x| {
      assert x[..n][i] == x[i];
    }
  }

  /** A pattern whose last character occurs nowhere else in it, placed after
      a text free of it, is replaced once there and the rest is searched
      on. */
  lemma ReplaceSingle(p: string, sub: string, q: string, rep: string)
    requires |sub| > 0 && sub[|sub| - 1] !in sub[..|sub| - 1]
    requires !Contains(p, sub)
    ensures Replace(p + sub + q, sub, rep) == p + rep + Replace(q, sub, rep)
  {
    var s := p + sub + q;
    assert OccursAt(s, sub, |p|) by {
      assert s[|p|..|p| + |sub|] == sub;
    }
    IndexOfSpec(s, sub);
    var j := IndexOf(s, sub).value;
    if j < |p| {
      var e := j + |sub| - 1;
      if e < |p| {
        OccursPrefix(s, sub, |p|, j);
        assert s[..|p|] == p;
        IndexOfSpec(p, sub);
        assert false;
      } else {
        ElementIn(s, e);
        ElementInPrefix(sub, |sub| - 1, e - |p|);
        assert false;
      }
    }
    assert IndexOf(s, sub) == Some(|p|);
    ReplaceAtFirst(s, sub, rep, |p|);
    assert s[..|p|] == p && s[|p| + |sub|..] == q;
  }

  /** `s.Split(sep, StringSplitOptions.None)` for a single non-empty string
      separator: the pieces between successive left-to-right occurrences. */
  function SplitStr(s: string, sep: string): (parts: seq<string>)
    requires |sep| > 0
    ensures |parts| >= 1
    decreases |s|
  {
    match IndexOf(s, sep)
    case None => [s]
    case Some(i) => [s[..i]] + SplitStr(s[i + |sep|..], sep)
  }

  /** `string.Join(sep, parts)`. */
  function Join(parts: seq<string>, sep: string): (r: string)
    decreases |parts|
  {
    if |parts| == 0 then ""
    else if |parts| == 1 then parts[0]
    else parts[0] + sep + Join(parts[1..], sep)
  }

  /** Splitting on a separator and joining back with it gives the input back. */
  lemma {:induction false} SplitStrJoin(s: string, sep: string)
    requires |sep| > 0
    ensures Join(SplitStr(s, sep), sep) == s
    decreases |s|
  {
    var idx := IndexOf(s, sep);
    if idx.Some? {
      var i := idx.value;
      var rest := s[i + |sep|..];
      SplitStrJoin(rest, sep);
      IndexOfOccurs(s, sep);
      var tail := SplitStr(rest, sep);
      assert SplitStr(s, sep) == [s[..i]] + tail;
      JoinCons(s[..i], tail, sep);
      assert s[i..i + |sep|] == sep;
      assert s == s[..i] + s[i..i + |sep|] + rest;
    } else {
      assert SplitStr(s, sep) == [s];
    }
  }

  lemma JoinCons(x: string, tail: seq<string>, sep: string)
    requires |tail| >= 1
    ensures Join([x] + tail, sep) == x + sep + Join(tail, sep)
  {
    assert ([x] + tail)[1..] == tail;
  }

  /** No piece of a split contains the separator. */
  lemma {:induction false} SplitStrNoSep(s: string, sep: string)
    requires |sep| > 0
    ensures forall k :: 0 <= k < |SplitStr(s, sep)| ==> !Contains(SplitStr(s, sep)[k], sep)
    decreases |s|
  {
    match IndexOf(s, sep)
    case None =>
    case Some(i) =>
      var rest := s[i + |sep|..];
      SplitStrNoSep(rest, sep);
      BeforeFirstOccurrence(s, sep, i);
      var parts := SplitStr(s, sep);
      assert parts == [s[..i]] + SplitStr(rest, sep);
  }

  /** A string that contains the separator splits into at least two
      pieces. */
  lemma SplitStrContains(s: string, sep: string)
    requires |sep| > 0
    ensures Contains(s, sep) <==> |SplitStr(s, sep)| >= 2
  {
  }

  /** The text before the first occurrence of `sub` does not contain it. */
  lemma BeforeFirstOccurrence(s: string, sub: string, i: nat)
    requires |sub| > 0 && IndexOf(s, sub) == Some(i)
    ensures !Contains(s[..i], sub)
  {
    var t := s[..i];
    IndexOfSpec(t, sub);
    match IndexOf(t, sub)
    case None =>
    case Some(j) =>
      OccursPrefix(s, sub, i, j);
      IndexOfSpec(s, sub);
  }

  /** Every piece of `s.Split(seps)` (no options), for a set of separator
      characters. */
  function SplitChars(s: string, seps: set<char>): (parts: seq<string>)
    ensures |parts| >= 1
    decreases |s|
  {
    if |s| == 0 then [""]
    else
      var rest := SplitChars(s[1..], seps);
      if s[0] in seps then [""] + rest
      else [[s[0]] + rest[0]] + rest[1..]
  }

  /** `StringSplitOptions.RemoveEmptyEntries` applied to a list of pieces. */
  function NonEmpty(parts: seq<string>): (r: seq<string>)
    ensures forall k :: 0 <= k < |r| ==> r[k] != [] && r[k] in parts
    ensures |r| <= |parts|
  {
    if |parts| == 0 then []
    else if parts[0] == [] then NonEmpty(parts[1..])
    else [parts[0]] + NonEmpty(parts[1..])
  }

  lemma NonEmptyAppend(a: seq<string>, b: seq<string>)
    ensures NonEmpty(a + b) == NonEmpty(a) + NonEmpty(b)
  {
    if |a| > 0 {
      assert (a + b)[1..] == a[1..] + b;
    } else {
      assert a + b == b;
    }
  }

  /** Every piece of SplitChars is free of the separators. */
  lemma {:induction false} SplitCharsNoSep(s: string, seps: set<char>)
    ensures forall k, i :: 0 <= k < |SplitChars(s, seps)| && 0 <= i < |SplitChars(s, seps)[k]| ==>
      SplitChars(s, seps)[k][i] !in seps
    decreases |s|
  {
    if |s| > 0 {
      SplitCharsNoSep(s[1..], seps);
    }
  }

  /** `s.Split(' ', StringSplitOptions.RemoveEmptyEntries)`. */
  function Words(s: string): (ws: seq<string>)
  {
    NonEmpty(SplitChars(s, {' '}))
  }

  /** Each word is non-empty and holds no space. */
  lemma WordsShape(s: string)
    ensures forall k :: 0 <= k < |Words(s)| ==> Words(s)[k] != [] && ' ' !in Words(s)[k]
  {
    SplitCharsNoSep(s, {' '});
    forall k | 0 <= k < |Words(s)|
      ensures ' ' !in Words(s)[k]
    {
      var w := Words(s)[k];
      assert w in SplitChars(s, {' '});
      var m :| 0 <= m < |SplitChars(s, {' '})| && SplitChars(s, {' '})[m] == w;
      assert forall i :: 0 <= i < |w| ==> w[i] != ' ';
    }
  }

  lemma {:induction false} SplitCharsNoSepPrefix(w: string, rest: string, seps: set<char>)
    requires forall i :: 0 <= i < |w| ==> w[i] !in seps
    ensures SplitChars(w + rest, seps)
      == [w + SplitChars(rest, seps)[0]] + SplitChars(rest, seps)[1..]
    decreases |w|
  {
    if |w| > 0 {
      assert (w + rest)[1..] == w[1..] + rest;
      SplitCharsNoSepPrefix(w[1..], rest, seps);
      assert [w[0]] + (w[1..] + SplitChars(rest, seps)[0]) == w + SplitChars(rest, seps)[0];
    } else {
      assert w + rest == rest;
      assert w + SplitChars(rest, seps)[0] == SplitChars(rest, seps)[0];
    }
  }

  /** Pieces joined with one separator character split back into the same
      pieces once empty entries are removed, provided no piece is empty or
      holds a separator. */
  lemma {:induction false} PiecesOfJoin(ws: seq<string>, sep: char, seps: set<char>)
    requires sep in seps
    requires forall k :: 0 <= k < |ws| ==> ws[k] != [] && forall i :: 0 <= i < |ws[k]| ==> ws[k][i] !in seps
    ensures NonEmpty(SplitChars(Join(ws, [sep]), seps)) == ws
    decreases |ws|
  {
    if |ws| == 0 {
    } else if |ws| == 1 {
      SplitCharsNoSepPrefix(ws[0], "", seps);
      assert ws[0] + "" == ws[0];
    } else {
      var w := ws[0];
      var tail := Join(ws[1..], [sep]);
      PiecesOfJoin(ws[1..], sep, seps);
      var rest := [sep] + tail;
      assert Join(ws, [sep]) == w + rest;
      SplitCharsNoSepPrefix(w, rest, seps);
      assert rest[1..] == tail;
      var tp := SplitChars(tail, seps);
      assert SplitChars(rest, seps) == [""] + tp;
      assert w + "" == w;
      assert SplitChars(Join(ws, [sep]), seps) == [w] + tp;
      NonEmptyAppend([w], tp);
    }
  }

  /** Re-splitting words joined with single spaces recovers the words: the
      inverse of `string.Join(' ', words)` for words that came out of Words. */
  lemma WordsOfJoin(ws: seq<string>)
    requires forall k :: 0 <= k < |ws| ==> ws[k] != [] && ' ' !in ws[k]
    ensures Words(Join(ws, " ")) == ws
  {
    PiecesOfJoin(ws, ' ', {' '});
  }

  /** `char.ToLowerInvariant` on the ASCII letters (other letters are kept). */
  function LowerChar(c: char): char {
    if 'A' <= c <= 'Z' then (c as int + 32) as char else c
  }

  /** `string.ToLowerInvariant()`. */
  function ToLower(s: string): (r: string)
    ensures |r| == |s| && forall i :: 0 <= i < |s| ==> r[i] == LowerChar(s[i])
  {
    seq(|s|, i requires 0 <= i < |s| => LowerChar(s[i]))
  }

  /** Lower-casing an infix commutes with taking it. */
  lemma ToLowerInfix(s: string, a: nat, b: nat)
    requires a <= b <= |s|
    ensures ToLower(s[a..b]) == ToLower(s)[a..b]
  {
  }
}
