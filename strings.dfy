/**
 * The handful of Python string operations the pipeline is built from, on `string`
 * (a sequence of characters).  Case mapping and whitespace are ASCII only.
 */
module Strings {

  // ---------------------------------------------------------------- case

  function LowerChar(c: char): char
  {
    if 'A' <= c <= 'Z' then (c as int + 32) as char else c
  }

  function UpperChar(c: char): char
  {
    if 'a' <= c <= 'z' then (c as int - 32) as char else c
  }

  /** `s.lower()` */
  function Lower(s: string): (r: string)
    ensures |r| == |s|
    ensures forall i :: 0 <= i < |s| ==> r[i] == LowerChar(s[i])
  {
    seq(|s|, i requires 0 <= i < |s| => LowerChar(s[i]))
  }

  lemma {:induction false} LowerIdempotent(s: string)
    ensures Lower(Lower(s)) == Lower(s)
  {
  }

  /** A string without capitals is its own lowercase. */
  lemma {:induction false} LowerOfLowercase(s: string)
    requires forall i :: 0 <= i < |s| ==> !('A' <= s[i] <= 'Z')
    ensures Lower(s) == s
  {
  }

  lemma {:induction false} LowerAppend(a: string, b: string)
    ensures Lower(a + b) == Lower(a) + Lower(b)
  {
  }

  // ---------------------------------------------------------------- substrings

  /** Python's `sub in s` for two strings. */
  predicate Contains(s: string, sub: string)
  {
    exists i :: 0 <= i <= |s| - |sub| && OccursAt(s, sub, i)
  }

  /** `sub` occurs in `s` starting at position i. */
  predicate OccursAt(s: string, sub: string, i: int)
  {
    0 <= i <= |s| - |sub| && sub <= s[i..]
  }

  /** `any(w in s for w in words)` */
  predicate ContainsAny(s: string, words: seq<string>)
  {
    words != [] && (Contains(s, words[0]) || ContainsAny(s, words[1..]))
  }

  lemma {:induction false} ContainsAt(s: string, sub: string, i: nat)
    requires i + |sub| <= |s| && s[i..i + |sub|] == sub
    ensures Contains(s, sub)
  {
    assert OccursAt(s, sub, i);
  }

  lemma {:induction false} ContainsInLeft(a: string, b: string, sub: string)
    requires Contains(a, sub)
    ensures Contains(a + b, sub)
  {
    var i :| 0 <= i <= |a| - |sub| && OccursAt(a, sub, i);
    assert sub <= a[i..];
    assert a[i..i + |sub|] == sub;
    assert (a + b)[i..i + |sub|] == a[i..i + |sub|];
    ContainsAt(a + b, sub, i);
  }

  lemma {:induction false} ContainsInRight(a: string, b: string, sub: string)
    requires Contains(b, sub)
    ensures Contains(a + b, sub)
  {
    var i :| 0 <= i <= |b| - |sub| && OccursAt(b, sub, i);
    assert sub <= b[i..];
    assert b[i..i + |sub|] == sub;
    assert (a + b)[|a| + i..|a| + i + |sub|] == b[i..i + |sub|];
    ContainsAt(a + b, sub, |a| + i);
  }

  lemma {:induction false} ContainsSuffix(a: string, sub: string)
    ensures Contains(a + sub, sub)
  {
    assert (a + sub)[|a|..|a| + |sub|] == sub;
    ContainsAt(a + sub, sub, |a|);
  }

  lemma {:induction false} ContainsPrefix(sub: string, b: string)
    ensures Contains(sub + b, sub)
  {
    assert (sub + b)[0..|sub|] == sub;
    ContainsAt(sub + b, sub, 0);
  }

  /** The empty string holds none of a list of non-empty words. */
  lemma {:induction false} NoneInEmpty(words: seq<string>)
    requires forall i :: 0 <= i < |words| ==> words[i] != []
    ensures !ContainsAny([], words)
  {
    if words != [] {
      NoneInEmpty(words[1..]);
    }
  }

  /** Some word of the list occurs in `s`. */
  lemma {:induction false} ContainsAnyMeans(s: string, words: seq<string>)
    ensures ContainsAny(s, words) <==> exists w :: w in words && Contains(s, w)
  {
    if words != [] {
      ContainsAnyMeans(s, words[1..]);
      assert forall w :: w in words <==> w == words[0] || w in words[1..];
    }
  }

  /** `any` over three words, spelled out. */
  lemma {:induction false} ContainsAnyThree(s: string, a: string, b: string, c: string)
    ensures ContainsAny(s, [a, b, c]) <==> Contains(s, a) || Contains(s, b) || Contains(s, c)
  {
    assert [a, b, c][1..] == [b, c];
    assert [b, c][1..] == [c];
    assert [c][1..] == [];
    assert ContainsAny(s, [c]) == Contains(s, c);
    assert ContainsAny(s, [b, c]) == (Contains(s, b) || ContainsAny(s, [c]));
  }

  lemma {:induction false} ContainsMiddle(a: string, sub: string, b: string)
    ensures Contains(a + sub + b, sub)
  {
    ContainsSuffix(a, sub);
    ContainsInLeft(a + sub, b, sub);
  }

  /** A string that occurs in a piece of a string occurs in the string. */
  lemma {:induction false} ContainsInSlice(s: string, i: nat, j: nat, sub: string)
    requires i <= j <= |s| && Contains(s[i..j], sub)
    ensures Contains(s, sub)
  {
    var t := s[i..j];
    var k :| 0 <= k <= |t| - |sub| && OccursAt(t, sub, k);
    assert sub <= t[k..];
    forall m | 0 <= m < |sub|
      ensures s[i + k..i + k + |sub|][m] == sub[m]
    {
      assert sub[m] == t[k..][m] == t[k + m] == s[i + k + m];
    }
    ContainsAt(s, sub, i + k);
  }

  /** A string lacking one of the characters of `sub` does not contain it. */
  lemma {:induction false} MissingCharNotContained(s: string, sub: string, j: nat)
    requires j < |sub| && sub[j] !in s
    ensures !Contains(s, sub)
  {
    forall i | 0 <= i <= |s| - |sub|
      ensures !OccursAt(s, sub, i)
    {
      assert s[i..][j] == s[i + j];
      assert s[i + j] in s;
    }
  }

  /**
   * A string whose first character of `sub` before the part `y` is not followed
   * by the rest of `sub`, and whose part `y` lacks `sub`, does not contain it.
   */
  lemma {:induction false} AnchorNotContained(x: string, y: string, sub: string)
    requires sub != [] && sub[0] !in x
    requires !(sub <= [sub[0]] + y) && !Contains(y, sub)
    ensures !Contains(x + [sub[0]] + y, sub)
  {
    var s := x + [sub[0]] + y;
    forall i | 0 <= i <= |s| - |sub|
      ensures !OccursAt(s, sub, i)
    {
      if i < |x| {
        assert s[i] == x[i] && x[i] in x;
      } else if i == |x| {
        assert s[i..] == [sub[0]] + y;
      } else {
        assert s[i..] == y[i - |x| - 1..];
        assert !OccursAt(y, sub, i - |x| - 1);
      }
    }
  }

  /** A lowercase letter is missing from the lowercase of a string holding neither it nor its capital. */
  lemma {:induction false} LowerMissing(s: string, c: char)
    requires 'a' <= c <= 'z' && c !in s && (c as int - 32) as char !in s
    ensures c !in Lower(s)
  {
    forall i | 0 <= i < |s|
      ensures Lower(s)[i] != c
    {
      assert s[i] in s;
    }
  }

  // ---------------------------------------------------------------- whitespace

  /**
   * The ASCII characters `str.strip()` and `str.split()` treat as blanks: the
   * space, tab, line feed, vertical tab, form feed and carriage return (9 to 13)
   * and the four separators 28 to 31.
   */
  predicate IsSpace(c: char)
  {
    c == ' ' || 9 <= c as int <= 13 || 28 <= c as int <= 31
  }

  predicate IsBlank(s: string)
  {
    forall i :: 0 <= i < |s| ==> IsSpace(s[i])
  }

  function TrimLeft(s: string): (r: string)
    ensures |r| <= |s| && r == s[|s| - |r|..]
    ensures r == [] || !IsSpace(r[0])
    ensures IsBlank(s[..|s| - |r|])
  {
    if s != [] && IsSpace(s[0]) then
      var r := TrimLeft(s[1..]);
      assert s[..|s| - |r|] == [s[0]] + s[1..][..|s| - 1 - |r|];
      r
    else s
  }

  function TrimRight(s: string): (r: string)
    ensures |r| <= |s| && r == s[..|r|]
    ensures r == [] || !IsSpace(r[|r| - 1])
    ensures IsBlank(s[|r|..])
  {
    if s != [] && IsSpace(s[|s| - 1]) then
      var r := TrimRight(s[..|s| - 1]);
      assert s[|r|..] == s[..|s| - 1][|r|..] + [s[|s| - 1]];
      r
    else s
  }

  /** `s.strip()` */
  function Strip(s: string): string
  {
    TrimRight(TrimLeft(s))
  }

  /** `not s.strip()` holds exactly of the blank strings. */
  lemma {:induction false} StripEmptyIffBlank(s: string)
    ensures Strip(s) == [] <==> IsBlank(s)
  {
    var t := TrimLeft(s);
    if !IsBlank(s) {
      var k :| 0 <= k < |s| && !IsSpace(s[k]);
      assert t != [] && !IsSpace(t[0]);
      assert TrimRight(t) != [];
    }
  }

  lemma {:induction false} StripOfNonBlankStart(s: string)
    requires s != [] && !IsSpace(s[0])
    ensures Strip(s) != [] && Strip(s)[0] == s[0]
  {
    assert TrimLeft(s) == s;
    StripEmptyIffBlank(s);
  }

  lemma {:induction false} StripStartsSolid(s: string)
    requires Strip(s) != []
    ensures !IsSpace(Strip(s)[0])
  {
  }

  /** `s.strip().strip() == s.strip()` */
  lemma {:induction false} StripIdempotent(s: string)
    ensures Strip(Strip(s)) == Strip(s)
  {
    var r := Strip(s);
    if r != [] {
      assert r[0] == TrimLeft(s)[0];
      assert TrimLeft(r) == r;
      assert TrimRight(r) == r;
    }
  }

  // ---------------------------------------------------------------- ordering

  /** Python's `a <= b` on strings: code-point lexicographic order. */
  predicate LexLe(a: string, b: string)
    decreases |a|
  {
    a == [] || (b != [] && (a[0] < b[0] || (a[0] == b[0] && LexLe(a[1..], b[1..]))))
  }

  lemma {:induction false} LexLeTotal(a: string, b: string)
    ensures LexLe(a, b) || LexLe(b, a)
    decreases |a|
  {
    if a != [] && b != [] && a[0] == b[0] {
      LexLeTotal(a[1..], b[1..]);
    }
  }

  lemma {:induction false} LexLeTrans(a: string, b: string, c: string)
    requires LexLe(a, b) && LexLe(b, c)
    ensures LexLe(a, c)
    decreases |a|
  {
    if a != [] && a[0] == b[0] && b[0] == c[0] {
      LexLeTrans(a[1..], b[1..], c[1..]);
    }
  }

  lemma {:induction false} LexLeAntisym(a: string, b: string)
    requires LexLe(a, b) && LexLe(b, a)
    ensures a == b
    decreases |a|
  {
    if a != [] {
      LexLeAntisym(a[1..], b[1..]);
      assert a == [a[0]] + a[1..] && b == [b[0]] + b[1..];
    }
  }

  // ---------------------------------------------------------------- split and join

  /** `s.split(sep)` for a one-character separator. */
  function Split(s: string, sep: char): (r: seq<string>)
    ensures |r| >= 1
    ensures forall k :: 0 <= k < |r| ==> sep !in r[k]
  {
    if s == [] then [""]
    else
      var rest := Split(s[1..], sep);
      if s[0] == sep then [""] + rest
      else [[s[0]] + rest[0]] + rest[1..]
  }

  /** `sep.join(parts)` */
  function Join(parts: seq<string>, sep: string): string
  {
    if parts == [] then ""
    else if |parts| == 1 then parts[0]
    else parts[0] + sep + Join(parts[1..], sep)
  }

  /** Three parts joined, spelled out. */
  lemma {:induction false} JoinThree(a: string, b: string, c: string, sep: string)
    ensures Join([a, b, c], sep) == a + sep + (b + sep + c)
  {
    assert [a, b, c][1..] == [b, c];
    assert [b, c][1..] == [c];
    assert Join([c], sep) == c;
    assert Join([b, c], sep) == b + sep + c;
  }

  /** Splitting on a character and joining back on it gives the string back. */
  lemma {:induction false} JoinSplit(s: string, sep: char)
    ensures Join(Split(s, sep), [sep]) == s
  {
    if s != [] {
      var rest := Split(s[1..], sep);
      JoinSplit(s[1..], sep);
      if s[0] == sep {
        assert Split(s, sep) == [""] + rest;
        assert s == [sep] + s[1..];
      } else {
        var r := [[s[0]] + rest[0]] + rest[1..];
        assert Split(s, sep) == r;
        if |rest| == 1 {
          assert s == [s[0]] + rest[0];
        } else {
          assert rest == [rest[0]] + rest[1..];
          assert Join(rest, [sep]) == rest[0] + [sep] + Join(rest[1..], [sep]);
          assert r[1..] == rest[1..];
          assert s == [s[0]] + s[1..];
        }
      }
    }
  }

  lemma {:induction false} SplitNoSep(s: string, sep: char)
    requires sep !in s
    ensures Split(s, sep) == [s]
  {
    if s != [] {
      SplitNoSep(s[1..], sep);
      assert s == [s[0]] + s[1..];
    }
  }

  lemma {:induction false} SplitAt(a: string, sep: char, b: string)
    requires sep !in a
    ensures Split(a + [sep] + b, sep) == [a] + Split(b, sep)
  {
    if a == [] {
      assert a + [sep] + b == [sep] + b;
      assert ([sep] + b)[1..] == b;
    } else {
      SplitAt(a[1..], sep, b);
      assert (a + [sep] + b)[1..] == a[1..] + [sep] + b;
      assert a == [a[0]] + a[1..];
    }
  }

  /** `s.count(c)` for a single character. */
  function CountChar(s: string, c: char): nat
  {
    if s == [] then 0 else (if s[0] == c then 1 else 0) + CountChar(s[1..], c)
  }

  /** Splitting on a character gives one piece more than it has occurrences. */
  lemma {:induction false} SplitCount(s: string, sep: char)
    ensures |Split(s, sep)| == CountChar(s, sep) + 1
  {
    if s != [] {
      SplitCount(s[1..], sep);
    }
  }

  /** The first piece of a split is a prefix of the string. */
  lemma {:induction false} SplitFirstPrefix(s: string, sep: char)
    ensures Split(s, sep)[0] <= s
    ensures |Split(s, sep)[0]| < |s| ==> s[|Split(s, sep)[0]|] == sep
  {
    if s != [] {
      SplitFirstPrefix(s[1..], sep);
    }
  }

  /** `s.split()`: the maximal runs of non-blank characters, in order. */
  function Words(s: string): (r: seq<string>)
    ensures forall k :: 0 <= k < |r| ==> Solid(r[k])
    decreases |s|
  {
    var t := TrimLeft(s);
    if t == [] then []
    else
      var w := FirstWord(t);
      assert Solid(w);
      [w] + Words(t[|w|..])
  }

  /** A word: non-empty and free of blanks. */
  predicate Solid(w: string)
  {
    w != [] && forall j :: 0 <= j < |w| ==> !IsSpace(w[j])
  }

  function FirstWord(t: string): (w: string)
    ensures w <= t
    ensures forall j :: 0 <= j < |w| ==> !IsSpace(w[j])
    ensures t != [] && !IsSpace(t[0]) ==> w != []
  {
    if t == [] || IsSpace(t[0]) then [] else [t[0]] + FirstWord(t[1..])
  }

  lemma {:induction false} FirstWordSolid(w: string)
    requires forall i :: 0 <= i < |w| ==> !IsSpace(w[i])
    ensures FirstWord(w) == w
  {
    if w != [] {
      FirstWordSolid(w[1..]);
    }
  }

  /** A non-empty string without blanks is one word. */
  lemma {:induction false} SolidWord(w: string)
    requires w != [] && forall i :: 0 <= i < |w| ==> !IsSpace(w[i])
    ensures Words(w) == [w]
  {
    FirstWordSolid(w);
    assert TrimLeft(w) == w;
    assert w[|w|..] == [];
    assert Words([]) == [];
  }

  /** The first word occurs in the text it was read from. */
  lemma {:induction false} FirstWordContained(s: string)
    requires Words(s) != []
    ensures Contains(s, Words(s)[0])
  {
    WordsHead(s);
    LeadingWordContained(s);
  }

  /** The word at the front of the trimmed text occurs in the text. */
  lemma {:induction false} LeadingWordContained(s: string)
    ensures Contains(s, FirstWord(TrimLeft(s)))
  {
    var t := TrimLeft(s);
    var w := FirstWord(t);
    var k := |s| - |t|;
    assert s[k..|s|] == t;
    PrefixContained(t, w);
    ContainsInSlice(s, k, |s|, w);
  }

  lemma {:induction false} WordsHead(s: string)
    requires Words(s) != []
    ensures Words(s)[0] == FirstWord(TrimLeft(s))
  {
  }

  lemma {:induction false} PrefixContained(t: string, w: string)
    requires w <= t
    ensures Contains(t, w)
  {
    assert t[0..|w|] == w;
    ContainsAt(t, w, 0);
  }

  // ---------------------------------------------------------------- replacement

  /** `s.replace(pat, rep)`: every non-overlapping occurrence, left to right. */
  function ReplaceAll(s: string, pat: string, rep: string): (r: string)
    requires pat != []
    decreases |s|
  {
    if |s| < |pat| then s
    else if pat <= s then rep + ReplaceAll(s[|pat|..], pat, rep)
    else [s[0]] + ReplaceAll(s[1..], pat, rep)
  }

  /** Replacing a string that does not occur changes nothing. */
  lemma {:induction false} ReplaceAbsent(s: string, pat: string, rep: string)
    requires pat != [] && !Contains(s, pat)
    ensures ReplaceAll(s, pat, rep) == s
    decreases |s|
  {
    if |s| >= |pat| {
      assert !OccursAt(s, pat, 0);
      assert s[0..] == s;
      assert s == [s[0]] + s[1..];
      if Contains(s[1..], pat) {
        ContainsInRight([s[0]], s[1..], pat);
        assert false;
      }
      ReplaceAbsent(s[1..], pat, rep);
    }
  }

  /** A replacement whose text starts with a non-blank character keeps the first character non-blank. */
  lemma {:induction false} ReplaceKeepsSolidStart(s: string, pat: string, rep: string)
    requires pat != [] && s != [] && !IsSpace(s[0]) && rep != [] && !IsSpace(rep[0])
    ensures ReplaceAll(s, pat, rep) != [] && !IsSpace(ReplaceAll(s, pat, rep)[0])
  {
  }

  // ---------------------------------------------------------------- dropping marked lines

  /** The string from its first newline on (empty when there is none): what `.*` leaves. */
  function FromNewline(t: string): (r: string)
    ensures |r| <= |t| && r == t[|t| - |r|..]
    ensures r == [] || r[0] == '\n'
    ensures '\n' !in t[..|t| - |r|]
  {
    if t == [] || t[0] == '\n' then t else FromNewline(t[1..])
  }

  /** A marker that starts a line: a newline followed by text without newlines. */
  predicate LineMarker(m: string)
  {
    |m| >= 2 && m[0] == '\n' && '\n' !in m[1..]
  }

  /**
   * `re.sub(m + '.*', '', s)`: every occurrence of the marker, with the rest of
   * its line, removed; scanning resumes at the newline that ended the line.
   */
  function DropMarkedLines(s: string, m: string): (r: string)
    requires m != []
    ensures |r| <= |s|
    decreases |s|
  {
    if |s| < |m| then s
    else if m <= s then DropMarkedLines(FromNewline(s[|m|..]), m)
    else [s[0]] + DropMarkedLines(s[1..], m)
  }

  /** A text without newlines at the start of the result was at the start of the input. */
  lemma {:induction false} DropPrefixBack(t: string, m: string, w: string)
    requires LineMarker(m) && '\n' !in w && w <= DropMarkedLines(t, m)
    ensures w <= t
    decreases |t|
  {
    if w != [] && |t| >= |m| {
      if m <= t {
        var u := FromNewline(t[|m|..]);
        assert DropMarkedLines(t, m) == DropMarkedLines(u, m);
        assert w[0] != '\n' && w[0] == DropMarkedLines(u, m)[0];
        DropStartsAtNewline(u, m);
      } else {
        assert w[0] == t[0];
        DropPrefixBack(t[1..], m, w[1..]);
        assert w == [w[0]] + w[1..];
      }
    }
  }

  /** Dropping lines from a text that starts a line leaves a text that starts a line. */
  lemma {:induction false} DropStartsAtNewline(t: string, m: string)
    requires LineMarker(m) && (t == [] || t[0] == '\n')
    ensures DropMarkedLines(t, m) == [] || DropMarkedLines(t, m)[0] == '\n'
    decreases |t|
  {
    if |t| >= |m| && m <= t {
      DropStartsAtNewline(FromNewline(t[|m|..]), m);
    }
  }

  lemma {:induction false} ConsPrefixBack(c: char, t: string, m: string, w: string)
    requires LineMarker(m) && w != [] && '\n' !in w[1..] && w <= [c] + DropMarkedLines(t, m)
    ensures w <= [c] + t
  {
    assert w[1..] <= DropMarkedLines(t, m);
    DropPrefixBack(t, m, w[1..]);
  }

  lemma {:induction false} NotContainsSuffix(s: string, k: nat, sub: string)
    requires k <= |s| && !Contains(s, sub)
    ensures !Contains(s[k..], sub)
  {
    assert s[k..|s|] == s[k..];
    if Contains(s[k..], sub) {
      ContainsInSlice(s, k, |s|, sub);
    }
  }

  lemma {:induction false} ConsNoContains(c: char, t: string, sub: string)
    requires !Contains(t, sub) && !(sub <= [c] + t)
    ensures !Contains([c] + t, sub)
  {
    forall i | 0 <= i <= |[c] + t| - |sub|
      ensures !OccursAt([c] + t, sub, i)
    {
      if i == 0 {
        assert ([c] + t)[0..] == [c] + t;
      } else {
        assert ([c] + t)[i..] == t[i - 1..];
        assert !OccursAt(t, sub, i - 1);
      }
    }
  }

  /** After dropping the marked lines, the marker and any other absent line marker occur nowhere. */
  lemma {:induction false} DropMarkedLinesAbsent(s: string, m: string, other: string)
    requires LineMarker(m) && LineMarker(other)
    requires other == m || !Contains(s, other)
    ensures !Contains(DropMarkedLines(s, m), other)
    decreases |s|
  {
    if |s| < |m| {
      assert DropMarkedLines(s, m) == s;
    } else if m <= s {
      var u := FromNewline(s[|m|..]);
      assert u == s[|s| - |u|..];
      if other != m {
        NotContainsSuffix(s, |s| - |u|, other);
      }
      DropMarkedLinesAbsent(u, m, other);
      assert DropMarkedLines(s, m) == DropMarkedLines(u, m);
    } else {
      if other != m {
        NotContainsSuffix(s, 1, other);
      }
      DropMarkedLinesAbsent(s[1..], m, other);
      KeptCharAbsent(s, m, other);
    }
  }

  /** A string without the marker keeps all of its lines. */
  lemma {:induction false} DropUnmarked(s: string, m: string)
    requires m != [] && !Contains(s, m)
    ensures DropMarkedLines(s, m) == s
    decreases |s|
  {
    if |s| >= |m| {
      if m <= s {
        ContainsAt(s, m, 0);
      }
      assert s == [s[0]] + s[1..];
      if Contains(s[1..], m) {
        ContainsInRight([s[0]], s[1..], m);
      }
      DropUnmarked(s[1..], m);
    }
  }

  /** A kept first character brings no occurrence of a line marker with it. */
  lemma {:induction false} KeptCharAbsent(s: string, m: string, other: string)
    requires LineMarker(m) && LineMarker(other) && |s| >= |m| && !(m <= s)
    requires other == m || !Contains(s, other)
    requires !Contains(DropMarkedLines(s[1..], m), other)
    ensures !Contains(DropMarkedLines(s, m), other)
  {
    var r' := DropMarkedLines(s[1..], m);
    assert s == [s[0]] + s[1..];
    if other != m {
      assert !(other <= s) by {
        if other <= s {
          ContainsAt(s, other, 0);
        }
      }
    }
    if other <= [s[0]] + r' {
      ConsPrefixBack(s[0], s[1..], m, other);
    }
    ConsNoContains(s[0], r', other);
    assert DropMarkedLines(s, m) == [s[0]] + r';
  }

  /** `s.replace(a, b)` for single characters. */
  function MapChar(s: string, a: char, b: char): (r: string)
    ensures |r| == |s|
    ensures forall i :: 0 <= i < |s| ==> r[i] == (if s[i] == a then b else s[i])
  {
    seq(|s|, i requires 0 <= i < |s| => if s[i] == a then b else s[i])
  }

  /** `s.replace(c, '')` */
  function DeleteChar(s: string, c: char): (r: string)
    ensures c !in r
    ensures |r| <= |s|
  {
    if s == [] then []
    else if s[0] == c then DeleteChar(s[1..], c)
    else [s[0]] + DeleteChar(s[1..], c)
  }

  // ---------------------------------------------------------------- decimal numbers

  function DigitChar(d: nat): char
    requires d < 10
  {
    ('0' as int + d) as char
  }

  predicate IsDigit(c: char)
  {
    '0' <= c <= '9'
  }

  /** `str(n)` for a non-negative integer. */
  function NatToString(n: nat): string
  {
    if n < 10 then [DigitChar(n)] else NatToString(n / 10) + [DigitChar(n % 10)]
  }

  /** Decimal digits, at least one. */
  lemma {:induction false} NatToStringDigits(n: nat)
    ensures NatToString(n) != [] && forall i :: 0 <= i < |NatToString(n)| ==> IsDigit(NatToString(n)[i])
  {
    if n >= 10 {
      NatToStringDigits(n / 10);
    }
  }

  /** `f"{n:02d}"`: zero padded to two digits. */
  function Pad2(n: nat): string
  {
    if n < 10 then "0" + NatToString(n) else NatToString(n)
  }

  /** `f"{n:02d}"` for any integer: a negative number is its minus sign and digits, already two wide. */
  function Pad2Signed(n: int): string
  {
    if n < 0 then "-" + NatToString(-n) else Pad2(n)
  }

  /** At least two decimal digits. */
  lemma {:induction false} Pad2Digits(n: nat)
    ensures |Pad2(n)| >= 2 && forall i :: 0 <= i < |Pad2(n)| ==> IsDigit(Pad2(n)[i])
  {
    NatToStringDigits(n);
    if n >= 10 {
      NatToStringDigits(n / 10);
    }
  }

  function DigitValue(c: char): nat
    requires IsDigit(c)
  {
    c as int - '0' as int
  }

  /** `int(s)` for a string of decimal digits. */
  function ParseDigits(s: string): nat
    requires forall i :: 0 <= i < |s| ==> IsDigit(s[i])
  {
    if s == [] then 0 else ParseDigits(s[..|s| - 1]) * 10 + DigitValue(s[|s| - 1])
  }

  lemma {:induction false} ParseNatToString(n: nat)
    ensures forall i :: 0 <= i < |NatToString(n)| ==> IsDigit(NatToString(n)[i])
    ensures ParseDigits(NatToString(n)) == n
  {
    NatToStringDigits(n);
    if n >= 10 {
      var s := NatToString(n);
      assert s[..|s| - 1] == NatToString(n / 10);
      ParseNatToString(n / 10);
    }
  }

  lemma {:induction false} ParseLeadingZero(s: string)
    requires forall i :: 0 <= i < |s| ==> IsDigit(s[i])
    ensures ParseDigits("0" + s) == ParseDigits(s)
  {
    if s != [] {
      var t := "0" + s;
      assert t[..|t| - 1] == "0" + s[..|s| - 1];
      ParseLeadingZero(s[..|s| - 1]);
    }
  }

  /** Parsing a zero-padded field gives the number back. */
  lemma {:induction false} ParsePad2(n: nat)
    ensures forall i :: 0 <= i < |Pad2(n)| ==> IsDigit(Pad2(n)[i])
    ensures ParseDigits(Pad2(n)) == n
  {
    Pad2Digits(n);
    ParseNatToString(n);
    if n < 10 {
      ParseLeadingZero(NatToString(n));
    }
  }

  lemma {:induction false} Pad2Short(n: nat)
    requires n < 100
    ensures |Pad2(n)| == 2
  {
    if n >= 10 {
      assert NatToString(n) == NatToString(n / 10) + [DigitChar(n % 10)];
    }
  }
}
