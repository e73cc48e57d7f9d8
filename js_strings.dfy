/**
  The JavaScript string operations the generator relies on, stated on
  Dafny strings (sequences of Unicode scalar values).
 */
module JsStrings {

  /** `s.startsWith(p)` */
  predicate StartsWith(s: string, p: string)
  {
    |p| <= |s| && s[..|p|] == p
  }

  /** `s.endsWith(p)` */
  predicate EndsWith(s: string, p: string)
  {
    |p| <= |s| && s[|s| - |p|..] == p
  }

  /** True when `c` does not occur in `s`. */
  predicate Lacks(s: string, c: char)
  {
    forall i :: 0 <= i < |s| ==> s[i] != c
  }

  /** `unit.repeat(n)`: `n` copies of `unit` side by side. */
  function Repeat(unit: string, n: nat): (r: string)
    ensures |r| == n * |unit|
  {
    if n == 0 then "" else
      var rest := Repeat(unit, n - 1);
      assert |unit + rest| == (n - 1) * |unit| + |unit| == n * |unit|;
      unit + rest
  }

  /** The `i`-th block of `unit.repeat(n)` is `unit` itself. */
  lemma {:induction false} RepeatCopies(unit: string, n: nat, i: nat)
    requires i < n
    ensures i * |unit| + |unit| <= |Repeat(unit, n)|
    ensures Repeat(unit, n)[i * |unit|..i * |unit| + |unit|] == unit
  {
    var rest := Repeat(unit, n - 1);
    assert Repeat(unit, n) == unit + rest;
    if i > 0 {
      RepeatCopies(unit, n - 1, i - 1);
      assert (i - 1) * |unit| + |unit| == i * |unit|;
      assert (unit + rest)[i * |unit|..i * |unit| + |unit|] == rest[(i - 1) * |unit|..(i - 1) * |unit| + |unit|];
    } else {
      assert (unit + rest)[..|unit|] == unit;
    }
  }

  /** `parts.join(sep)` */
  function Join(parts: seq<string>, sep: string): string
  {
    if |parts| == 0 then ""
    else if |parts| == 1 then parts[0]
    else parts[0] + sep + Join(parts[1..], sep)
  }

  /** Joining one more part adds the separator and that part at the end. */
  lemma {:induction false} JoinSnoc(parts: seq<string>, x: string, sep: string)
    requires parts != []
    ensures Join(parts + [x], sep) == Join(parts, sep) + sep + x
    decreases |parts|
  {
    var xs := parts + [x];
    assert xs[0] == parts[0];
    if |parts| > 1 {
      assert xs[1..] == parts[1..] + [x];
      JoinSnoc(parts[1..], x, sep);
    } else {
      assert xs[1..] == [x];
    }
  }

  predicate IsAsciiUpper(c: char)
  {
    'A' <= c <= 'Z'
  }

  /** `s.toLowerCase()` restricted to the ASCII letters. */
  function ToLowerCase(s: string): (r: string)
    ensures |r| == |s|
    ensures forall i :: 0 <= i < |r| ==> !IsAsciiUpper(r[i])
    ensures forall i :: 0 <= i < |s| && !IsAsciiUpper(s[i]) ==> r[i] == s[i]
    ensures forall i :: 0 <= i < |s| && IsAsciiUpper(s[i]) ==> r[i] as int == s[i] as int + 32
  {
    if s == [] then []
    else
      var c := if IsAsciiUpper(s[0]) then (s[0] as int + 32) as char else s[0];
      [c] + ToLowerCase(s[1..])
  }

  /**
    The characters `String.prototype.trim` removes: ECMAScript's
    WhiteSpace (tab, vertical tab, form feed, the byte order mark and every
    space separator) and LineTerminator (line feed, carriage return, line
    and paragraph separators).
   */
  predicate IsWhitespace(c: char)
  {
    c == '\t' || c == '\n' || c == '\U{000B}' || c == '\U{000C}' || c == '\r'
    || c == ' ' || c == '\U{00A0}' || c == '\U{1680}'
    || ('\U{2000}' <= c <= '\U{200A}')
    || c == '\U{2028}' || c == '\U{2029}' || c == '\U{202F}' || c == '\U{205F}'
    || c == '\U{3000}' || c == '\U{FEFF}'
  }

  predicate AllWhitespace(s: string)
  {
    forall i :: 0 <= i < |s| ==> IsWhitespace(s[i])
  }

  /** The number of whitespace characters at the start of `s`. */
  function LeadingWhitespace(s: string): (k: nat)
    ensures k <= |s| && AllWhitespace(s[..k])
    ensures k < |s| ==> !IsWhitespace(s[k])
  {
    if s != [] && IsWhitespace(s[0]) then
      var k := 1 + LeadingWhitespace(s[1..]);
      assert s[..k] == [s[0]] + s[1..][..k - 1];
      k
    else 0
  }

  /** The length of `s` without its trailing whitespace. */
  function TrimmedEnd(s: string): (j: nat)
    ensures j <= |s| && AllWhitespace(s[j..])
    ensures j > 0 ==> !IsWhitespace(s[j - 1])
  {
    if s != [] && IsWhitespace(s[|s| - 1]) then
      var j := TrimmedEnd(s[..|s| - 1]);
      assert s[j..] == s[..|s| - 1][j..] + [s[|s| - 1]];
      j
    else |s|
  }

  /** `s.trim()`: the slice of `s` left after whitespace is removed at both ends. */
  function Trim(s: string): (r: string)
    ensures r == [] || (!IsWhitespace(r[0]) && !IsWhitespace(r[|r| - 1]))
    ensures exists i :: 0 <= i <= |s| - |r| && r == s[i..i + |r|]
                        && AllWhitespace(s[..i]) && AllWhitespace(s[i + |r|..])
  {
    var k := LeadingWhitespace(s);
    var t := s[k..];
    var e := TrimmedEnd(t);
    var j := k + e;
    assert s[j..] == t[e..];
    var r := s[k..j];
    assert r == t[..e];
    assert r != [] ==> r[0] == s[k] && r[|r| - 1] == t[e - 1];
    assert r == s[k..k + |r|];
    r
  }

  lemma {:induction false} LeadingWhitespaceAfter(pre: string, rest: string)
    requires AllWhitespace(pre) && (rest == [] || !IsWhitespace(rest[0]))
    ensures LeadingWhitespace(pre + rest) == |pre|
    decreases |pre|
  {
    if pre != [] {
      assert (pre + rest)[1..] == pre[1..] + rest;
      LeadingWhitespaceAfter(pre[1..], rest);
    }
  }

  lemma {:induction false} TrimmedEndBefore(core: string, post: string)
    requires AllWhitespace(post) && (core == [] || !IsWhitespace(core[|core| - 1]))
    ensures TrimmedEnd(core + post) == |core|
    decreases |post|
  {
    if post != [] {
      var s := core + post;
      assert s[..|s| - 1] == core + post[..|post| - 1];
      TrimmedEndBefore(core, post[..|post| - 1]);
    }
  }

  /** Trimming removes exactly the whitespace padding around a text that does not begin or end with whitespace. */
  lemma TrimPadded(pre: string, core: string, post: string)
    requires AllWhitespace(pre) && AllWhitespace(post)
    requires core != [] && !IsWhitespace(core[0]) && !IsWhitespace(core[|core| - 1])
    ensures Trim(pre + core + post) == core
  {
    var s := pre + core + post;
    assert s == pre + (core + post);
    LeadingWhitespaceAfter(pre, core + post);
    assert s[|pre|..] == core + post;
    TrimmedEndBefore(core, post);
    assert s[|pre|..|pre| + |core|] == core;
  }

  /**
    Literal replace-all: one left-to-right scan that replaces every
    non-overlapping occurrence of `pat` by `rep`, without scanning the
    inserted text again. This is what `s.replace(/pat/g, rep)` does when
    `rep` is `Inert` (see `GlobalReplaceLiteral`).
   */
  function ReplaceAll(s: string, pat: string, rep: string): string
    requires pat != []
    decreases |s|
  {
    if |s| < |pat| then s
    else if s[..|pat|] == pat then rep + ReplaceAll(s[|pat|..], pat, rep)
    else [s[0]] + ReplaceAll(s[1..], pat, rep)
  }

  /** A text without the first character of the pattern is left as it is. */
  lemma {:induction false} ReplaceAllLacking(s: string, pat: string, rep: string)
    requires pat != [] && Lacks(s, pat[0])
    ensures ReplaceAll(s, pat, rep) == s
    decreases |s|
  {
    if |pat| <= |s| {
      assert s[..|pat|][0] == s[0];
      ReplaceAllLacking(s[1..], pat, rep);
    }
  }

  /** Replacing a pattern by itself gives the text back. */
  lemma {:induction false} ReplaceAllSelf(s: string, pat: string)
    requires pat != []
    ensures ReplaceAll(s, pat, pat) == s
    decreases |s|
  {
    if |s| < |pat| {
    } else if s[..|pat|] == pat {
      ReplaceAllSelf(s[|pat|..], pat);
      assert s == s[..|pat|] + s[|pat|..];
    } else {
      ReplaceAllSelf(s[1..], pat);
      assert s == [s[0]] + s[1..];
    }
  }

  /**
    No proper prefix of `pat` is a suffix of `a`: an occurrence of `pat` in
    `a + b` then lies wholly inside `a` or wholly inside `b`.
   */
  predicate CleanEnd(a: string, pat: string)
  {
    forall j :: 0 < j < |pat| && j <= |a| ==> a[|a| - j..] != pat[..j]
  }

  /** A text whose last character is not in the pattern has a clean end. */
  lemma EndsOutsidePattern(a: string, pat: string)
    requires a != [] && forall i :: 0 <= i < |pat| ==> pat[i] != a[|a| - 1]
    ensures CleanEnd(a, pat)
  {
    forall j | 0 < j < |pat| && j <= |a|
      ensures a[|a| - j..] != pat[..j]
    {
      assert a[|a| - j..][j - 1] == a[|a| - 1];
      assert pat[..j][j - 1] == pat[j - 1];
    }
  }

  /** Dropping characters from the front keeps a clean end. */
  lemma CleanEndDrop(a: string, pat: string, k: nat)
    requires k <= |a| && CleanEnd(a, pat)
    ensures CleanEnd(a[k..], pat)
  {
    var a' := a[k..];
    forall j | 0 < j < |pat| && j <= |a'|
      ensures a'[|a'| - j..] != pat[..j]
    {
      assert a'[|a'| - j..] == a[|a| - j..];
    }
  }

  /** With a clean end, an occurrence at the start of `a + b` is one at the start of `a`. */
  lemma CleanEndPrefix(a: string, b: string, pat: string)
    requires pat != [] && a != [] && CleanEnd(a, pat)
    requires |pat| <= |a + b| && (a + b)[..|pat|] == pat
    ensures |pat| <= |a| && a[..|pat|] == pat
  {
    var j := if |a| < |pat| then |a| else 1;
    assert (a + b)[..|pat|][..j] == pat[..j];
    assert |pat| <= |a|;
    assert (a + b)[..|pat|] == a[..|pat|];
  }

  /** Replacement distributes over a concatenation whose left part ends cleanly. */
  lemma {:induction false} ReplaceAllConcat(a: string, b: string, pat: string, rep: string)
    requires pat != [] && CleanEnd(a, pat)
    ensures ReplaceAll(a + b, pat, rep) == ReplaceAll(a, pat, rep) + ReplaceAll(b, pat, rep)
    decreases |a|, 1
  {
    var s := a + b;
    if a == [] {
      assert s == b;
    } else if |s| < |pat| {
    } else if s[..|pat|] == pat {
      ReplaceAllConcatAtMatch(a, b, pat, rep);
    } else {
      ReplaceAllConcatPastChar(a, b, pat, rep);
    }
  }

  lemma {:induction false} ReplaceAllConcatAtMatch(a: string, b: string, pat: string, rep: string)
    requires pat != [] && CleanEnd(a, pat) && a != []
    requires |pat| <= |a + b| && (a + b)[..|pat|] == pat
    ensures ReplaceAll(a + b, pat, rep) == ReplaceAll(a, pat, rep) + ReplaceAll(b, pat, rep)
    decreases |a|, 0
  {
    var s := a + b;
    CleanEndPrefix(a, b, pat);
    var a' := a[|pat|..];
    CleanEndDrop(a, pat, |pat|);
    ReplaceAllConcat(a', b, pat, rep);
    assert s[|pat|..] == a' + b;
    assert ReplaceAll(s, pat, rep) == rep + ReplaceAll(a' + b, pat, rep);
    assert ReplaceAll(a, pat, rep) == rep + ReplaceAll(a', pat, rep);
  }

  lemma {:induction false} ReplaceAllConcatPastChar(a: string, b: string, pat: string, rep: string)
    requires pat != [] && CleanEnd(a, pat) && a != []
    requires |pat| <= |a + b| && (a + b)[..|pat|] != pat
    ensures ReplaceAll(a + b, pat, rep) == ReplaceAll(a, pat, rep) + ReplaceAll(b, pat, rep)
    decreases |a|, 0
  {
    var s := a + b;
    var a' := a[1..];
    assert ReplaceAll(a' + b, pat, rep) == ReplaceAll(a', pat, rep) + ReplaceAll(b, pat, rep) by {
      CleanEndDrop(a, pat, 1);
      ReplaceAllConcat(a', b, pat, rep);
    }
    assert s[1..] == a' + b;
    assert ReplaceAll(s, pat, rep) == [a[0]] + ReplaceAll(a' + b, pat, rep);
    ReplaceAllKeepsFirst(a, pat, rep, s);
  }

  /** When no occurrence starts at the first character, that character is kept as it is. */
  lemma ReplaceAllKeepsFirst(a: string, pat: string, rep: string, s: string)
    requires pat != [] && a != [] && |pat| <= |s| && s[..|pat|] != pat
    requires |pat| <= |a| ==> a[..|pat|] == s[..|pat|]
    ensures ReplaceAll(a, pat, rep) == [a[0]] + ReplaceAll(a[1..], pat, rep)
  {
    if |pat| > |a| {
      assert ReplaceAll(a[1..], pat, rep) == a[1..];
      assert a == [a[0]] + a[1..];
    }
  }

  /** Appending text without the pattern's first character keeps a clean end. */
  lemma CleanEndAppendLacking(a: string, s: string, pat: string)
    requires pat != [] && CleanEnd(a, pat) && Lacks(s, pat[0])
    ensures CleanEnd(a + s, pat)
  {
    var x := a + s;
    forall j | 0 < j < |pat| && j <= |x|
      ensures x[|x| - j..] != pat[..j]
    {
      if j <= |s| {
        assert x[|x| - j..][0] == s[|s| - j];
        assert pat[..j][0] == pat[0];
      } else {
        var k := j - |s|;
        assert x[|x| - j..] == a[|a| - k..] + s;
        assert x[|x| - j..][..k] == a[|a| - k..];
        assert pat[..j][..k] == pat[..k];
      }
    }
  }

  /** The pattern alone is replaced whole. */
  lemma ReplaceAllWhole(pat: string, rep: string)
    requires pat != []
    ensures ReplaceAll(pat, pat, rep) == rep
  {
    assert pat[..|pat|] == pat;
    assert ReplaceAll(pat[|pat|..], pat, rep) == [];
  }

  /** A text ending outside the pattern still ends with that character after replacement. */
  lemma {:induction false} ReplaceAllKeepsLast(s: string, pat: string, rep: string)
    requires pat != [] && s != [] && forall i :: 0 <= i < |pat| ==> pat[i] != s[|s| - 1]
    ensures var r := ReplaceAll(s, pat, rep); r != [] && r[|r| - 1] == s[|s| - 1]
    decreases |s|
  {
    if |s| < |pat| {
    } else if s[..|pat|] == pat {
      assert s[|pat| - 1] == pat[|pat| - 1];
      assert |pat| < |s|;
      var rest := s[|pat|..];
      assert rest[|rest| - 1] == s[|s| - 1];
      ReplaceAllKeepsLast(rest, pat, rep);
      var r' := ReplaceAll(rest, pat, rep);
      assert ReplaceAll(s, pat, rep) == rep + r';
      assert (rep + r')[|rep + r'| - 1] == r'[|r'| - 1];
    } else if |s| > 1 {
      var rest := s[1..];
      assert rest[|rest| - 1] == s[|s| - 1];
      ReplaceAllKeepsLast(rest, pat, rep);
      var r' := ReplaceAll(rest, pat, rep);
      assert ReplaceAll(s, pat, rep) == [s[0]] + r';
      assert ([s[0]] + r')[|[s[0]] + r'| - 1] == r'[|r'| - 1];
    } else {
      assert ReplaceAll(s, pat, rep) == [s[0]] + ReplaceAll(s[1..], pat, rep);
      assert ReplaceAll(s[1..], pat, rep) == [];
    }
  }

  /**
    The replacement text of one match in `String.prototype.replace` with a
    string replacement and a pattern without capture groups: `$$` stands for
    `$`, `$&` for the matched text, `$`` for the text before the match and
    `$'` for the text after it; every other character, a `$` included, is
    kept as it is.
   */
  function Substitution(rep: string, matched: string, before: string, after: string): string
    decreases |rep|
  {
    if rep == [] then []
    else if rep[0] == '$' && |rep| >= 2 && rep[1] == '$' then "$" + Substitution(rep[2..], matched, before, after)
    else if rep[0] == '$' && |rep| >= 2 && rep[1] == '&' then matched + Substitution(rep[2..], matched, before, after)
    else if rep[0] == '$' && |rep| >= 2 && rep[1] == '`' then before + Substitution(rep[2..], matched, before, after)
    else if rep[0] == '$' && |rep| >= 2 && rep[1] == '\'' then after + Substitution(rep[2..], matched, before, after)
    else [rep[0]] + Substitution(rep[1..], matched, before, after)
  }

  /** The global scan of `s` from position `i` on, each match replaced by its substitution. */
  function ReplaceFrom(s: string, i: nat, pat: string, rep: string): string
    requires pat != [] && i <= |s|
    decreases |s| - i
  {
    if |s| - i < |pat| then s[i..]
    else if s[i..i + |pat|] == pat then
      Substitution(rep, pat, s[..i], s[i + |pat|..]) + ReplaceFrom(s, i + |pat|, pat, rep)
    else [s[i]] + ReplaceFrom(s, i + 1, pat, rep)
  }

  /** `s.replace(/pat/g, rep)` for a pattern without special characters. */
  function GlobalReplace(s: string, pat: string, rep: string): string
    requires pat != []
  {
    ReplaceFrom(s, 0, pat, rep)
  }

  /** No `$` in `rep` starts one of the four special patterns `$$`, `$&`, `$`` and `$'`. */
  predicate Inert(rep: string)
  {
    forall i :: 0 <= i < |rep| - 1 && rep[i] == '$' ==>
      rep[i + 1] != '$' && rep[i + 1] != '&' && rep[i + 1] != '`' && rep[i + 1] != '\''
  }

  /** An inert replacement is its own substitution. */
  lemma {:induction false} SubstitutionInert(rep: string, matched: string, before: string, after: string)
    requires Inert(rep)
    ensures Substitution(rep, matched, before, after) == rep
    decreases |rep|
  {
    if rep != [] {
      assert Inert(rep[1..]) by {
        forall j | 0 <= j < |rep[1..]| - 1 && rep[1..][j] == '$'
          ensures rep[1..][j + 1] != '$' && rep[1..][j + 1] != '&' && rep[1..][j + 1] != '`' && rep[1..][j + 1] != '\''
        {
          assert rep[1..][j] == rep[j + 1] && rep[1..][j + 1] == rep[j + 2];
        }
      }
      SubstitutionInert(rep[1..], matched, before, after);
      assert rep == [rep[0]] + rep[1..];
    }
  }

  /** A replacement with `$&` between two inert texts puts the match between them. */
  lemma SubstitutionMatched(x: string, y: string, matched: string, before: string, after: string)
    requires Inert(x) && Inert(y) && (x == [] || x[|x| - 1] != '$')
    ensures Substitution(x + "$&" + y, matched, before, after) == x + matched + y
  {
    var z := "$&" + y;
    assert x + "$&" + y == x + z;
    SubstitutionSplit(x, z, matched, before, after);
    assert z[0] == '$' && z[1] == '&' && z[2..] == y;
    assert Substitution(z, matched, before, after) == matched + Substitution(y, matched, before, after);
    SubstitutionInert(y, matched, before, after);
  }

  /** Substitution runs through an inert text that does not end in `$` unchanged. */
  lemma {:induction false} SubstitutionSplit(x: string, z: string, matched: string, before: string, after: string)
    requires Inert(x) && (x == [] || x[|x| - 1] != '$')
    ensures Substitution(x + z, matched, before, after) == x + Substitution(z, matched, before, after)
    decreases |x|
  {
    if x != [] {
      var w := x + z;
      assert w[0] == x[0];
      assert |x| >= 2 ==> w[1] == x[1];
      assert w[1..] == x[1..] + z;
      assert x[0] == '$' ==> |x| >= 2 && x[1] != '$' && x[1] != '&' && x[1] != '`' && x[1] != '\'';
      assert Substitution(w, matched, before, after) == [x[0]] + Substitution(w[1..], matched, before, after);
      assert Inert(x[1..]) by {
        forall j | 0 <= j < |x[1..]| - 1 && x[1..][j] == '$'
          ensures x[1..][j + 1] != '$' && x[1..][j + 1] != '&' && x[1..][j + 1] != '`' && x[1..][j + 1] != '\''
        {
          assert x[1..][j] == x[j + 1] && x[1..][j + 1] == x[j + 2];
        }
      }
      assert x[1..] == [] || x[1..][|x[1..]| - 1] == x[|x| - 1];
      var r := Substitution(z, matched, before, after);
      assert Substitution(w[1..], matched, before, after) == x[1..] + r by {
        SubstitutionSplit(x[1..], z, matched, before, after);
      }
      calc {
        Substitution(w, matched, before, after);
        [x[0]] + (x[1..] + r);
        ([x[0]] + x[1..]) + r;
        { assert x == [x[0]] + x[1..]; }
        x + r;
      }
    } else {
      assert x + z == z;
    }
  }

  /** With an inert replacement, the scan from `i` is the literal replace of the rest. */
  lemma {:induction false} ReplaceFromLiteral(s: string, i: nat, pat: string, rep: string)
    requires pat != [] && i <= |s| && Inert(rep)
    ensures ReplaceFrom(s, i, pat, rep) == ReplaceAll(s[i..], pat, rep)
    decreases |s| - i
  {
    var t := s[i..];
    if |s| - i < |pat| {
    } else if s[i..i + |pat|] == pat {
      var j := i + |pat|;
      assert t[..|pat|] == pat;
      assert t[|pat|..] == s[j..];
      assert ReplaceAll(t, pat, rep) == rep + ReplaceAll(s[j..], pat, rep);
      SubstitutionInert(rep, pat, s[..i], s[j..]);
      assert ReplaceFrom(s, i, pat, rep) == rep + ReplaceFrom(s, j, pat, rep);
      assert ReplaceFrom(s, j, pat, rep) == ReplaceAll(s[j..], pat, rep) by {
        ReplaceFromLiteral(s, j, pat, rep);
      }
    } else {
      assert t[..|pat|] != pat;
      assert t[1..] == s[i + 1..];
      assert ReplaceAll(t, pat, rep) == [s[i]] + ReplaceAll(s[i + 1..], pat, rep);
      assert ReplaceFrom(s, i + 1, pat, rep) == ReplaceAll(s[i + 1..], pat, rep) by {
        ReplaceFromLiteral(s, i + 1, pat, rep);
      }
    }
  }

  /** `replace` with an inert replacement is the literal replace-all. */
  lemma GlobalReplaceLiteral(s: string, pat: string, rep: string)
    requires pat != [] && Inert(rep)
    ensures GlobalReplace(s, pat, rep) == ReplaceAll(s, pat, rep)
  {
    ReplaceFromLiteral(s, 0, pat, rep);
    assert s[0..] == s;
  }

  /** The pattern alone becomes the substitution of the whole text, with nothing before or after it. */
  lemma GlobalReplaceWhole(pat: string, rep: string)
    requires pat != []
    ensures GlobalReplace(pat, pat, rep) == Substitution(rep, pat, "", "")
  {
    assert pat[0..|pat|] == pat;
    assert ReplaceFrom(pat, |pat|, pat, rep) == [];
    assert pat[..0] == "" && pat[|pat|..] == "";
    assert ReplaceFrom(pat, 0, pat, rep) == Substitution(rep, pat, pat[..0], pat[|pat|..]) + ReplaceFrom(pat, |pat|, pat, rep);
  }

  /** `$&` puts every match back: replacing by `"$&"` gives the text back. */
  lemma {:induction false} ReplaceFromMatched(s: string, i: nat, pat: string)
    requires pat != [] && i <= |s|
    ensures ReplaceFrom(s, i, pat, "$&") == s[i..]
    decreases |s| - i
  {
    if |s| - i < |pat| {
    } else if s[i..i + |pat|] == pat {
      assert "$&"[2..] == [];
      assert Substitution("$&", pat, s[..i], s[i + |pat|..]) == pat;
      ReplaceFromMatched(s, i + |pat|, pat);
      assert s[i..] == s[i..i + |pat|] + s[i + |pat|..];
    } else {
      ReplaceFromMatched(s, i + 1, pat);
      assert s[i..] == [s[i]] + s[i + 1..];
    }
  }

  /** `s.replace(/pat/g, "$&")` is `s` itself. */
  lemma GlobalReplaceMatched(s: string, pat: string)
    requires pat != []
    ensures GlobalReplace(s, pat, "$&") == s
  {
    ReplaceFromMatched(s, 0, pat);
    assert s[0..] == s;
  }

  /** A text without the first character of the pattern is left as it is, whatever the replacement. */
  lemma {:induction false} ReplaceFromLacking(s: string, i: nat, pat: string, rep: string)
    requires pat != [] && i <= |s| && Lacks(s, pat[0])
    ensures ReplaceFrom(s, i, pat, rep) == s[i..]
    decreases |s| - i
  {
    if |s| - i >= |pat| {
      assert s[i..i + |pat|][0] == s[i];
      ReplaceFromLacking(s, i + 1, pat, rep);
      assert s[i..] == [s[i]] + s[i + 1..];
    }
  }
}
