/** The parts of Python's `str`, `list` and `posixpath` that the core relies on,
    with the semantics of CPython 2 for the arguments the core passes. */
module PyStrings {
  import opened Wrappers

  /** Python `t in s` for two strings: `t` occurs as a contiguous substring of `s`. */
  predicate Contains(s: string, t: string) {
    exists i | 0 <= i <= |s| - |t| :: OccursAt(s, t, i)
  }

  /** `t` occurs in `s` starting at index `i`. */
  predicate OccursAt(s: string, t: string, i: nat) {
    i + |t| <= |s| && s[i..i + |t|] == t
  }

  /** Python `s.startswith(p)`. */
  predicate StartsWith(s: string, p: string) {
    |p| <= |s| && s[..|p|] == p
  }

  /** Index of the first occurrence of `c` in `s`. */
  function IndexOf(s: string, c: char): (i: nat)
    requires c in s
    ensures i < |s| && s[i] == c && c !in s[..i]
  {
    if s[0] == c then 0 else 1 + IndexOf(s[1..], c)
  }

  /** Python `s.split(c)` for a one-character separator: the pieces between the separators,
      always at least one. */
  function Split(s: string, c: char): (r: seq<string>)
    ensures |r| >= 1
    ensures forall k :: 0 <= k < |r| ==> c !in r[k]
    decreases |s|
  {
    if c !in s then [s]
    else
      var i := IndexOf(s, c);
      [s[..i]] + Split(s[i + 1..], c)
  }

  /** Concatenation is associative; stated once so that proofs can name the regrouping. */
  lemma ConcatAssoc<T>(a: seq<T>, b: seq<T>, c: seq<T>)
    ensures (a + b) + c == a + (b + c)
  {
  }

  /** Python `c.join(xs)` for a one-character separator. */
  function Join(xs: seq<string>, c: char): string
  {
    if |xs| == 0 then ""
    else if |xs| == 1 then xs[0]
    else xs[0] + [c] + Join(xs[1..], c)
  }

  /** Splitting and joining again gives back the string. */
  lemma {:induction false} JoinSplit(s: string, c: char)
    ensures Join(Split(s, c), c) == s
    decreases |s|
  {
    if c in s {
      var i := IndexOf(s, c);
      var a, b := s[..i], s[i + 1..];
      var rest := Split(b, c);
      assert Split(s, c) == [a] + rest;
      JoinSplit(b, c);
      JoinCons(a, rest, c);
      assert s == a + [c] + b;
    }
  }

  /** Joining a piece in front of at least one more. */
  lemma JoinCons(a: string, rest: seq<string>, c: char)
    requires |rest| >= 1
    ensures Join([a] + rest, c) == a + [c] + Join(rest, c)
  {
    assert ([a] + rest)[1..] == rest;
  }

  /** The first piece of `a + [c] + b` is `a` when `a` holds no separator. */
  lemma {:induction false} SplitCons(a: string, c: char, b: string)
    requires c !in a
    ensures Split(a + [c] + b, c) == [a] + Split(b, c)
  {
    var s := a + [c] + b;
    assert s[|a|] == c;
    var i := IndexOf(s, c);
    if i < |a| {
      assert false;
    } else if i > |a| {
      assert false;
    }
    assert s[..i] == a;
    assert s[i + 1..] == b;
  }

  /** Joining pieces that hold no separator and splitting again gives back the pieces. */
  lemma {:induction false} SplitJoin(xs: seq<string>, c: char)
    requires |xs| > 0
    requires forall k :: 0 <= k < |xs| ==> c !in xs[k]
    ensures Split(Join(xs, c), c) == xs
    decreases |xs|
  {
    if |xs| == 1 {
      SplitNone(xs[0], c);
    } else {
      SplitJoin(xs[1..], c);
      SplitCons(xs[0], c, Join(xs[1..], c));
    }
  }

  /** An occurrence of a separator-free `t` in joined pieces lies inside one piece. */
  lemma {:induction false} ContainsJoin(xs: seq<string>, c: char, t: string)
    requires |xs| > 0 && c !in t && Contains(Join(xs, c), t)
    ensures exists k :: 0 <= k < |xs| && Contains(xs[k], t)
    decreases |xs|
  {
    if |xs| == 1 {
      assert Contains(xs[0], t);
    } else {
      ContainsSeparated(xs[0], c, Join(xs[1..], c), t);
      if Contains(xs[0], t) {
        assert Contains(xs[0], t);
      } else {
        ContainsJoin(xs[1..], c, t);
        var k :| 0 <= k < |xs[1..]| && Contains(xs[1..][k], t);
        assert xs[1..][k] == xs[k + 1];
      }
    }
  }

  /** Each character of an occurrence is the matching character of `t`. */
  lemma OccursAtChar(s: string, t: string, i: nat, j: nat)
    requires OccursAt(s, t, i) && j < |t|
    ensures s[i + j] == t[j]
  {
    assert s[i..i + |t|][j] == s[i + j];
  }

  /** An occurrence of a separator-free `t` in `a + [c] + b` lies inside `a` or inside `b`. */
  lemma ContainsSeparated(a: string, c: char, b: string, t: string)
    requires c !in t && Contains(a + [c] + b, t)
    ensures Contains(a, t) || Contains(b, t)
  {
    var s := a + [c] + b;
    var i :| 0 <= i <= |s| - |t| && OccursAt(s, t, i);
    if i + |t| <= |a| {
      assert s[i..i + |t|] == a[i..i + |t|];
      assert OccursAt(a, t, i);
    } else if i > |a| {
      assert s[i..i + |t|] == b[i - |a| - 1..i - |a| - 1 + |t|];
      assert OccursAt(b, t, i - |a| - 1);
    } else {
      OccursAtChar(s, t, i, |a| - i);
      assert false;
    }
  }

  /** A string splits into exactly two pieces when it holds the separator once: the text
      before it and the text after it. */
  lemma SplitInTwo(s: string, c: char)
    ensures |Split(s, c)| == 2 <==> (c in s && c !in s[IndexOf(s, c) + 1..])
    ensures |Split(s, c)| == 2 ==> Split(s, c) == [s[..IndexOf(s, c)], s[IndexOf(s, c) + 1..]]
  {
    if c in s {
      var i := IndexOf(s, c);
      var rest := s[i + 1..];
      if c in rest {
        assert |Split(rest, c)| >= 2;
      }
    }
  }

  /** A string without the separator is a single piece. */
  lemma SplitNone(s: string, c: char)
    requires c !in s
    ensures Split(s, c) == [s]
  {
  }

  /** Python list indexing `xs[i]`: negative indices count from the end; an index out of
      range raises IndexError (here `None`). */
  function PyIndex<T>(xs: seq<T>, i: int): (r: Option<T>)
    ensures r.Some? <==> -|xs| <= i < |xs|
    ensures 0 <= i < |xs| ==> r == Some(xs[i])
    ensures -|xs| <= i < 0 ==> r == Some(xs[|xs| + i])
  {
    if 0 <= i < |xs| then Some(xs[i])
    else if -|xs| <= i < 0 then Some(xs[|xs| + i])
    else None
  }

  /** The last element, Python `xs[-1]` on a non-empty list. */
  function Last<T>(xs: seq<T>): T
    requires |xs| > 0
  {
    xs[|xs| - 1]
  }

  /** The characters Python's argument-less `str.rstrip()` removes (ASCII whitespace). */
  const Whitespace: set<char> := {' ', '\t', '\n', '\r', '\U{000B}', '\U{000C}'}

  /** Python `s.rstrip(chars)`: drop every trailing character that is in `cs`. */
  function RStrip(s: string, cs: set<char>): (r: string)
    ensures |r| <= |s| && r == s[..|r|]
    ensures |r| > 0 ==> r[|r| - 1] !in cs
    ensures forall k :: |r| <= k < |s| ==> s[k] in cs
  {
    if |s| > 0 && s[|s| - 1] in cs then RStrip(s[..|s| - 1], cs) else s
  }

  /** Python `s.lstrip(chars)`. */
  function LStrip(s: string, cs: set<char>): (r: string)
    ensures |r| <= |s| && r == s[|s| - |r|..]
    ensures |r| > 0 ==> r[0] !in cs
    ensures forall k :: 0 <= k < |s| - |r| ==> s[k] in cs
  {
    if |s| > 0 && s[0] in cs then LStrip(s[1..], cs) else s
  }

  /** Python `s.strip(chars)`: both ends. */
  function Strip(s: string, cs: set<char>): string
  {
    LStrip(RStrip(s, cs), cs)
  }

  /** Stripping the end of `p + s` leaves `p` alone when the last character of `p` is kept. */
  lemma {:induction false} RStripPrefix(p: string, s: string, cs: set<char>)
    requires |p| > 0 && p[|p| - 1] !in cs
    ensures RStrip(p + s, cs) == p + RStrip(s, cs)
    decreases |s|
  {
    if |s| > 0 && s[|s| - 1] in cs {
      assert (p + s)[..|p + s| - 1] == p + s[..|s| - 1];
      RStripPrefix(p, s[..|s| - 1], cs);
    } else if |s| == 0 {
      assert p + s == p;
    }
  }

  /** Characters that would be stripped anyway do not change the result when appended. */
  lemma {:induction false} RStripAppendStripped(s: string, ws: string, cs: set<char>)
    requires forall k :: 0 <= k < |ws| ==> ws[k] in cs
    ensures RStrip(s + ws, cs) == RStrip(s, cs)
    decreases |ws|
  {
    if |ws| > 0 {
      assert (s + ws)[..|s + ws| - 1] == s + ws[..|ws| - 1];
      RStripAppendStripped(s, ws[..|ws| - 1], cs);
    } else {
      assert s + ws == s;
    }
  }

  /** Stripping twice is stripping once. */
  lemma RStripIdempotent(s: string, cs: set<char>)
    ensures RStrip(RStrip(s, cs), cs) == RStrip(s, cs)
  {
  }

  /** Python `s.count(c)` for a one-character needle. */
  function Count(s: string, c: char): (n: nat)
    ensures n <= |s|
  {
    if |s| == 0 then 0 else (if s[0] == c then 1 else 0) + Count(s[1..], c)
  }

  lemma {:induction false} CountAppend(a: string, b: string, c: char)
    ensures Count(a + b, c) == Count(a, c) + Count(b, c)
    decreases |a|
  {
    if |a| > 0 {
      assert (a + b)[1..] == a[1..] + b;
      CountAppend(a[1..], b, c);
    } else {
      assert a + b == b;
    }
  }

  /** Python `s.replace(pat, rep)`: every non-overlapping occurrence, left to right. */
  function ReplaceAll(s: string, pat: string, rep: string): string
    requires |pat| > 0
    decreases |s|
  {
    if |s| == 0 then ""
    else if StartsWith(s, pat) then rep + ReplaceAll(s[|pat|..], pat, rep)
    else [s[0]] + ReplaceAll(s[1..], pat, rep)
  }

  /** A string without an occurrence of `pat` is left unchanged. */
  lemma {:induction false} ReplaceAllAbsent(s: string, pat: string, rep: string)
    requires |pat| > 0 && !Contains(s, pat)
    ensures ReplaceAll(s, pat, rep) == s
    decreases |s|
  {
    if |s| > 0 {
      if StartsWith(s, pat) {
        assert OccursAt(s, pat, 0);
      }
      if Contains(s[1..], pat) {
        var i :| 0 <= i <= |s[1..]| - |pat| && OccursAt(s[1..], pat, i);
        assert s[i + 1..i + 1 + |pat|] == s[1..][i..i + |pat|];
        assert OccursAt(s, pat, i + 1);
      }
      ReplaceAllAbsent(s[1..], pat, rep);
    }
  }

  /** Replacing in `pat + s` replaces the leading occurrence and continues after it. */
  lemma ReplaceAllLeading(pat: string, s: string, rep: string)
    requires |pat| > 0
    ensures ReplaceAll(pat + s, pat, rep) == rep + ReplaceAll(s, pat, rep)
  {
    assert (pat + s)[..|pat|] == pat;
    assert (pat + s)[|pat|..] == s;
  }

  /** Replacing a one-character pattern distributes over concatenation. */
  lemma {:induction false} ReplaceCharAppend(p: string, s: string, a: char, rep: string)
    ensures ReplaceAll(p + s, [a], rep) == ReplaceAll(p, [a], rep) + ReplaceAll(s, [a], rep)
    decreases |p|
  {
    if |p| == 0 {
      assert p + s == s;
    } else {
      assert (p + s)[..1] == p[..1];
      assert (p + s)[1..] == p[1..] + s;
      ReplaceCharAppend(p[1..], s, a, rep);
    }
  }

  /** Replacing one separator by another in joined pieces joins them with the other. */
  lemma {:induction false} ReplaceCharJoin(xs: seq<string>, a: char, b: char)
    requires forall k :: 0 <= k < |xs| ==> a !in xs[k]
    ensures ReplaceAll(Join(xs, a), [a], [b]) == Join(xs, b)
    decreases |xs|
  {
    if |xs| == 1 {
      NotContainsByChar(xs[0], [a], 0);
      ReplaceAllAbsent(xs[0], [a], [b]);
    } else if |xs| > 1 {
      ReplaceCharJoin(xs[1..], a, b);
      NotContainsByChar(xs[0], [a], 0);
      ReplaceAllAbsent(xs[0], [a], [b]);
      ReplaceCharAppend(xs[0] + [a], Join(xs[1..], a), a, [b]);
      ReplaceCharAppend(xs[0], [a], a, [b]);
      ReplaceAllLeading([a], [], [b]);
      assert [a] + [] == [a];
    }
  }

  /** An occurrence of `t` in `p + s` lies inside `s` when the prefix holds no `t[0]`. */
  lemma ContainsPrefix(p: string, s: string, t: string)
    requires |t| > 0 && t[0] !in p
    ensures Contains(p + s, t) <==> Contains(s, t)
  {
    if Contains(p + s, t) {
      var i :| 0 <= i <= |p + s| - |t| && OccursAt(p + s, t, i);
      assert (p + s)[i] == t[0];
      assert i >= |p|;
      assert s[i - |p|..i - |p| + |t|] == (p + s)[i..i + |t|];
      assert OccursAt(s, t, i - |p|);
    }
    if Contains(s, t) {
      var j :| 0 <= j <= |s| - |t| && OccursAt(s, t, j);
      assert (p + s)[j + |p|..j + |p| + |t|] == s[j..j + |t|];
      assert OccursAt(p + s, t, j + |p|);
    }
  }

  /** An occurrence in a prefix is an occurrence in the whole string. */
  lemma ContainsOfPrefix(s: string, n: nat, t: string)
    requires n <= |s| && Contains(s[..n], t)
    ensures Contains(s, t)
  {
    var i :| 0 <= i <= |s[..n]| - |t| && OccursAt(s[..n], t, i);
    assert s[i..i + |t|] == s[..n][i..i + |t|];
    assert OccursAt(s, t, i);
  }

  /** `t` cannot occur in `s` if one of its characters does not. */
  lemma NotContainsByChar(s: string, t: string, k: nat)
    requires k < |t| && t[k] !in s
    ensures !Contains(s, t)
  {
    forall i | 0 <= i <= |s| - |t|
      ensures !OccursAt(s, t, i)
    {
      assert s[i + k] in s;
    }
  }

  /** Python ASCII `s.lower()`. */
  function Lower(s: string): (r: string)
    ensures |r| == |s|
    ensures forall k :: 0 <= k < |s| ==> r[k] == LowerChar(s[k])
  {
    if |s| == 0 then "" else [LowerChar(s[0])] + Lower(s[1..])
  }

  /** Lowering commutes with slicing. */
  lemma LowerSlice(s: string, i: nat, j: nat)
    requires i <= j <= |s|
    ensures Lower(s)[i..j] == Lower(s[i..j])
  {
  }

  function LowerChar(c: char): char
  {
    if 'A' <= c <= 'Z' then (c as int + 32) as char else c
  }

  /** Index of the last occurrence of `c`, Python `s.rfind(c)` with -1 as `None`. */
  function LastIndexOf(s: string, c: char): (r: Option<nat>)
    ensures r.None? <==> c !in s
    ensures r.Some? ==> r.value < |s| && s[r.value] == c && c !in s[r.value + 1..]
  {
    if |s| == 0 then None
    else if s[|s| - 1] == c then Some(|s| - 1)
    else
      var r := LastIndexOf(s[..|s| - 1], c);
      assert s == s[..|s| - 1] + [s[|s| - 1]];
      r
  }

  /** The last occurrence of `c` in `a + [c] + t` is the added one when `t` has none. */
  lemma LastIndexOfSuffix(a: string, c: char, t: string)
    requires c !in t
    ensures LastIndexOf(a + [c] + t, c) == Some(|a|)
  {
    var s := a + [c] + t;
    var r := LastIndexOf(s, c);
    assert s[|a|] == c;
    if r.value < |a| {
      assert false;
    } else if r.value > |a| {
      assert false;
    }
  }

  /** posixpath.basename: the text after the last '/'. */
  function Basename(p: string): (b: string)
    ensures '/' !in b
  {
    Last(Split(p, '/'))
  }

  /** The extension posixpath.splitext reports for a base name, without its dot: the text
      after the last '.', provided some character before that dot is not a dot (a name
      made only of leading dots has no extension). */
  function Extension(b: string): (e: string)
    ensures '.' !in e
  {
    match LastIndexOf(b, '.')
    case None => ""
    case Some(i) => if exists j | 0 <= j < i :: b[j] != '.' then b[i + 1..] else ""
  }

  /** A name `stem.ext` whose stem has a non-dot character has extension `ext`. */
  lemma ExtensionOf(stem: string, ext: string)
    requires '.' !in ext && '.' !in stem && |stem| > 0
    ensures Extension(stem + "." + ext) == ext
  {
    LastIndexOfSuffix(stem, '.', ext);
    var b := stem + "." + ext;
    assert b == stem + ['.'] + ext;
    assert b[0] == stem[0];
    assert b[|stem| + 1..] == ext;
  }

  /** Python `s[:-n]` for n > 0: `s` without its last `n` characters, empty when too short. */
  function DropLast(s: string, n: nat): (r: string)
    requires n > 0
    ensures |s| >= n ==> r == s[..|s| - n]
    ensures |s| < n ==> r == ""
  {
    if |s| >= n then s[..|s| - n] else ""
  }

  /** posixpath.join(a, b): `b` replaces everything when it is absolute; otherwise the two
      are joined with one '/' unless `a` is empty or already ends in '/'. */
  function PathJoin(a: string, b: string): string
  {
    if StartsWith(b, "/") then b
    else if a == [] || a[|a| - 1] == '/' then a + b
    else a + "/" + b
  }

  /** The ordinary case of posixpath.join: two plain names get one '/' between them. */
  lemma PathJoinPlain(a: string, b: string)
    requires |a| > 0 && a[|a| - 1] != '/' && (|b| == 0 || b[0] != '/')
    ensures PathJoin(a, b) == a + "/" + b
  {
  }

  /** Decimal digits of a natural number, Python `str(n)` / `'{0}'.format(n)`. */
  function NatToString(n: nat): (r: string)
    ensures |r| > 0
    ensures forall k :: 0 <= k < |r| ==> '0' <= r[k] <= '9'
  {
    if n < 10 then [DigitChar(n)] else NatToString(n / 10) + [DigitChar(n % 10)]
  }

  function DigitChar(d: nat): (c: char)
    requires d < 10
    ensures '0' <= c <= '9'
  {
    ('0' as int + d) as char
  }
}
