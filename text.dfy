/** The parts of Python's `str` that the source relies on, over ASCII:
    `lower`, `strip`/`rstrip`, `isdigit`, `int`, `in`, `split(ch)`,
    `splitlines` (line breaks are '\n' only) and `join`. */
module Text {

  // ---------------------------------------------------------------------
  // Case folding

  /** `str.lower()` on one character: ASCII upper case only. */
  function LowerChar(c: char): char
  {
    if 'A' <= c <= 'Z' then (c as int + 32) as char else c
  }

  /** `str.lower()`: folds every character independently. */
  function Lower(s: string): (r: string)
    ensures |r| == |s|
    ensures forall i :: 0 <= i < |s| ==> r[i] == LowerChar(s[i])
  {
    seq(|s|, i requires 0 <= i < |s| => LowerChar(s[i]))
  }

  lemma LowerSlice(s: string, i: int, j: int)
    requires 0 <= i <= j <= |s|
    ensures Lower(s[i..j]) == Lower(s)[i..j]
  {
  }

  lemma LowerIdempotent(s: string)
    ensures Lower(Lower(s)) == Lower(s)
  {
  }

  // ---------------------------------------------------------------------
  // Substrings: Python's `sub in s`

  /** `sub` occurs in `s` starting at position `i`. */
  predicate OccursAt(s: string, sub: string, i: int)
  {
    0 <= i && i + |sub| <= |s| && s[i..i + |sub|] == sub
  }

  /** Python's `sub in s`. */
  predicate Contains(s: string, sub: string)
  {
    exists i | 0 <= i <= |s| - |sub| :: OccursAt(s, sub, i)
  }

  /** The empty string is in every string (`"" in s` is True). */
  lemma ContainsEmpty(s: string)
    ensures Contains(s, "")
  {
    assert OccursAt(s, "", 0);
  }

  /** A slice of a string is in it. */
  lemma ContainsSlice(s: string, i: int, j: int)
    requires 0 <= i <= j <= |s|
    ensures Contains(s, s[i..j])
  {
    assert OccursAt(s, s[i..j], i);
  }

  /** Concatenation regroups freely. */
  lemma Regroup(a: string, b: string, c: string)
    ensures a + (b + c) == a + b + c
  {
  }

  /** A prefix of a prefix is a prefix. */
  lemma PrefixOfPrefix(a: string, b: string, c: string)
    requires a <= b && b <= c
    ensures a <= c
  {
  }

  /** A string starts the string it is extended to. */
  lemma PrefixOfAppend(a: string, b: string)
    ensures a <= a + b
  {
  }

  /** A string is in a string it starts. */
  lemma ContainsPrefix(s: string, p: string)
    requires p <= s
    ensures Contains(s, p)
  {
    assert OccursAt(s, p, 0);
  }

  /** A middle piece of a concatenation is in it. */
  lemma ContainsMiddle(x: string, m: string, y: string)
    ensures Contains(x + m + y, m)
  {
    assert (x + m + y)[|x|..|x| + |m|] == m;
    ContainsSlice(x + m + y, |x|, |x| + |m|);
  }

  /** Being a substring is transitive. */
  lemma ContainsTransitive(s: string, t: string, u: string)
    requires Contains(s, t) && Contains(t, u)
    ensures Contains(s, u)
  {
    var i :| 0 <= i <= |s| - |t| && OccursAt(s, t, i);
    var j :| 0 <= j <= |t| - |u| && OccursAt(t, u, j);
    forall k | 0 <= k < |u|
      ensures s[i + j + k] == u[k]
    {
      assert u[k] == t[j + k] == s[i..i + |t|][j + k];
    }
    assert s[i + j..i + j + |u|] == u;
    assert OccursAt(s, u, i + j);
  }

  /** Lower-casing preserves substrings. */
  lemma ContainsLower(s: string, t: string)
    requires Contains(s, t)
    ensures Contains(Lower(s), Lower(t))
  {
    var i :| 0 <= i <= |s| - |t| && OccursAt(s, t, i);
    LowerSlice(s, i, i + |t|);
    assert OccursAt(Lower(s), Lower(t), i);
  }

  /** A string longer than `s` is never in `s`. */
  lemma NotContainsLonger(s: string, sub: string)
    requires |s| < |sub|
    ensures !Contains(s, sub)
  {
  }

  // ---------------------------------------------------------------------
  // Whitespace: Python's `str.isspace` over ASCII, `strip`, `rstrip`

  /** The ASCII characters `str.isspace()` accepts: tab to carriage return,
      the four information separators 0x1C..0x1F, and the space. */
  predicate IsSpace(c: char)
  {
    c == ' ' || ('\t' <= c <= '\r') || (28 <= c as int <= 31)
  }

  /** `s` neither starts nor ends with whitespace. */
  predicate IsStripped(s: string)
  {
    s == [] || (!IsSpace(s[0]) && !IsSpace(s[|s| - 1]))
  }

  function LStrip(s: string): (r: string)
    ensures |r| <= |s| && r == s[|s| - |r|..]
    ensures r == [] || !IsSpace(r[0])
  {
    if s != [] && IsSpace(s[0]) then LStrip(s[1..]) else s
  }

  /** `str.rstrip()`. */
  function RStrip(s: string): (r: string)
    ensures r <= s
    ensures r == [] || !IsSpace(r[|r| - 1])
    ensures forall i :: |r| <= i < |s| ==> IsSpace(s[i])
  {
    if s != [] && IsSpace(s[|s| - 1]) then RStrip(s[..|s| - 1]) else s
  }

  /** `str.strip()`: the result is a slice of the input with no whitespace
      at either end. */
  function Strip(s: string): (r: string)
    ensures IsStripped(r)
    ensures Contains(s, r)
  {
    var t := RStrip(s);
    var r := LStrip(t);
    assert r == s[|t| - |r|..|t|];
    ContainsSlice(s, |t| - |r|, |t|);
    r
  }

  /** Stripping a string without surrounding whitespace changes nothing. */
  lemma StripStripped(s: string)
    requires IsStripped(s)
    ensures Strip(s) == s && RStrip(s) == s
  {
  }

  /** `lstrip` removes everything only from an all-whitespace string. */
  lemma {:induction false} LStripEmpty(s: string)
    requires LStrip(s) == []
    ensures forall i :: 0 <= i < |s| ==> IsSpace(s[i])
  {
    if s != [] {
      LStripEmpty(s[1..]);
      assert forall i :: 1 <= i < |s| ==> s[i] == s[1..][i - 1];
    }
  }

  /** `rstrip` removes everything exactly from an all-whitespace string. */
  lemma {:induction false} RStripEmpty(s: string)
    ensures RStrip(s) == [] <==> forall i :: 0 <= i < |s| ==> IsSpace(s[i])
  {
    if s != [] && IsSpace(s[|s| - 1]) {
      RStripEmpty(s[..|s| - 1]);
      assert forall i :: 0 <= i < |s| - 1 ==> s[..|s| - 1][i] == s[i];
    }
  }

  /** `s.strip()` is empty exactly when every character of `s` is
      whitespace (so for the empty string too). */
  lemma BlankIffAllSpace(s: string)
    ensures Strip(s) == [] <==> forall i :: 0 <= i < |s| ==> IsSpace(s[i])
  {
    var t := RStrip(s);
    RStripEmpty(s);
    if Strip(s) == [] {
      LStripEmpty(t);
    }
  }

  /** `rstrip` leaves a string alone whose last character is not whitespace. */
  lemma RStripKeeps(s: string)
    requires s != [] && !IsSpace(s[|s| - 1])
    ensures RStrip(s) == s
  {
  }

  // ---------------------------------------------------------------------
  // Digits: Python's `str.isdigit` over ASCII and `int(s)`

  predicate IsDigit(c: char)
  {
    '0' <= c <= '9'
  }

  /** `str.isdigit()`: non-empty and every character a digit. */
  predicate IsDigits(s: string)
  {
    |s| > 0 && forall i :: 0 <= i < |s| ==> IsDigit(s[i])
  }

  /** `int(s)` for a string of digits (leading zeros allowed). */
  function DecimalValue(s: string): nat
    requires forall i :: 0 <= i < |s| ==> IsDigit(s[i])
  {
    if s == [] then 0
    else
      assert IsDigit(s[|s| - 1]);
      DecimalValue(s[..|s| - 1]) * 10 + (s[|s| - 1] as int - '0' as int)
  }

  /** The decimal rendering of a natural number, as `str(n)`. */
  function ShowNat(n: nat): (s: string)
    ensures IsDigits(s)
  {
    if n < 10 then [('0' as int + n) as char]
    else ShowNat(n / 10) + [('0' as int + n % 10) as char]
  }

  /** Reading back a rendered number gives the number. */
  lemma {:induction false} DecimalValueOfShowNat(n: nat)
    ensures DecimalValue(ShowNat(n)) == n
  {
    var s := ShowNat(n);
    if n >= 10 {
      DecimalValueOfShowNat(n / 10);
      assert s[..|s| - 1] == ShowNat(n / 10);
    }
  }

  // ---------------------------------------------------------------------
  // Splitting and joining: `s.split(ch)`, `sep.join(parts)`, `splitlines`

  /** `sep.join(parts)`. */
  function Join(parts: seq<string>, sep: string): string
  {
    if |parts| == 0 then []
    else if |parts| == 1 then parts[0]
    else parts[0] + sep + Join(parts[1..], sep)
  }

  /** Joining one more piece appends the separator and the piece. */
  lemma {:induction false} JoinSnoc(parts: seq<string>, sep: string, x: string)
    requires |parts| >= 1
    ensures Join(parts + [x], sep) == Join(parts, sep) + sep + x
  {
    if |parts| > 1 {
      JoinSnoc(parts[1..], sep, x);
      assert (parts + [x])[1..] == parts[1..] + [x];
    }
  }

  /** Every piece is in the joined string. */
  lemma {:induction false} JoinContainsPart(parts: seq<string>, sep: string, i: nat)
    requires i < |parts|
    ensures Contains(Join(parts, sep), parts[i])
  {
    var j := Join(parts, sep);
    if |parts| == 1 {
      ContainsSlice(j, 0, |j|);
      assert j[0..|j|] == j;
    } else if i == 0 {
      ContainsSlice(j, 0, |parts[0]|);
      assert j[0..|parts[0]|] == parts[0];
    } else {
      var rest := Join(parts[1..], sep);
      JoinContainsPart(parts[1..], sep, i - 1);
      ContainsSlice(j, |parts[0] + sep|, |j|);
      assert j[|parts[0] + sep|..|j|] == rest;
      ContainsTransitive(j, rest, parts[i]);
    }
  }

  /** `s.split(sep)` for a one-character separator: the pieces between
      separators, at least one, none containing the separator, and joining
      them back with the separator gives `s`. */
  function Split(s: string, sep: char): (parts: seq<string>)
    ensures |parts| >= 1
    ensures forall p :: p in parts ==> sep !in p
    ensures Join(parts, [sep]) == s
  {
    if s == [] then [[]]
    else
      var rest := Split(s[1..], sep);
      if s[0] == sep then
        assert Join([[]] + rest, [sep]) == [sep] + Join(rest, [sep]);
        [[]] + rest
      else
        var parts := [[s[0]] + rest[0]] + rest[1..];
        assert |rest| > 1 ==> Join(rest, [sep]) == rest[0] + [sep] + Join(rest[1..], [sep]);
        assert parts[1..] == rest[1..];
        parts
  }

  lemma {:induction false} SplitNoSeparator(s: string, sep: char)
    requires sep !in s
    ensures Split(s, sep) == [s]
  {
    if s != [] {
      SplitNoSeparator(s[1..], sep);
    }
  }

  lemma {:induction false} SplitAtFirst(x: string, sep: char, y: string)
    requires sep !in x
    ensures Split(x + [sep] + y, sep) == [x] + Split(y, sep)
  {
    if x != [] {
      SplitAtFirst(x[1..], sep, y);
      assert (x + [sep] + y)[1..] == x[1..] + [sep] + y;
      var rest := Split(x[1..] + [sep] + y, sep);
      assert rest[0] == x[1..] && rest[1..] == Split(y, sep);
      assert [x[0]] + x[1..] == x;
    } else {
      assert (x + [sep] + y)[1..] == y;
    }
  }

  /** Splitting undoes joining when no piece holds the separator. */
  lemma {:induction false} SplitOfJoin(parts: seq<string>, sep: char)
    requires |parts| >= 1
    requires forall p :: p in parts ==> sep !in p
    ensures Split(Join(parts, [sep]), sep) == parts
  {
    if |parts| == 1 {
      SplitNoSeparator(parts[0], sep);
    } else {
      SplitOfJoin(parts[1..], sep);
      SplitAtFirst(parts[0], sep, Join(parts[1..], [sep]));
    }
  }

  /** Extending the last piece of a join extends the joined string. */
  lemma {:induction false} JoinExtendLast(parts: seq<string>, sep: string, y: string)
    requires |parts| >= 1
    ensures Join(parts[..|parts| - 1] + [parts[|parts| - 1] + y], sep) == Join(parts, sep) + y
  {
    if |parts| > 1 {
      var n := |parts| - 1;
      JoinExtendLast(parts[1..], sep, y);
      assert (parts[..n] + [parts[n] + y])[1..] == parts[1..][..n - 1] + [parts[1..][n - 1] + y];
    }
  }

  /** Joining one more, empty, piece adds a separator. */
  lemma {:induction false} JoinEmptyLast(parts: seq<string>, sep: string)
    requires |parts| >= 1
    ensures Join(parts + [[]], sep) == Join(parts, sep) + sep
  {
    if |parts| > 1 {
      JoinEmptyLast(parts[1..], sep);
      assert (parts + [[]])[1..] == parts[1..] + [[]];
    }
  }

  /** `parts` with `y` added to its last piece. */
  function ExtendLast(parts: seq<string>, y: string): (r: seq<string>)
    requires |parts| >= 1
    ensures |r| == |parts| && r[|r| - 1] == parts[|parts| - 1] + y
    ensures forall k :: 0 <= k < |parts| - 1 ==> r[k] == parts[k]
  {
    parts[..|parts| - 1] + [parts[|parts| - 1] + y]
  }

  lemma ExtendLastSnoc(parts: seq<string>, last: string, y: string)
    ensures ExtendLast(parts + [last], y) == parts + [last + y]
  {
    assert (parts + [last])[..|parts|] == parts;
  }

  /** Appending text without the separator extends the last piece. */
  lemma SplitAppendPlain(x: string, sep: char, y: string)
    requires sep !in y
    ensures Split(x + y, sep) == ExtendLast(Split(x, sep), y)
  {
    var p := Split(x, sep);
    var p' := ExtendLast(p, y);
    JoinExtendLast(p, [sep], y);
    assert forall q :: q in p' ==> sep !in q by {
      forall q | q in p' ensures sep !in q {
        var k :| 0 <= k < |p'| && p'[k] == q;
        if k < |p'| - 1 {
          assert q == p[k];
        }
      }
    }
    SplitOfJoin(p', sep);
  }

  /** Appending the separator starts a new, empty, piece. */
  lemma SplitAppendSeparator(x: string, sep: char)
    ensures Split(x + [sep], sep) == Split(x, sep) + [[]]
  {
    var p := Split(x, sep);
    JoinEmptyLast(p, [sep]);
    SplitOfJoin(p + [[]], sep);
  }

  /** Appending a word between two separators adds it, and an empty piece
      after it, to the pieces. */
  lemma SplitAppendQuoted(x: string, sep: char, w: string)
    requires sep !in w
    ensures Split(x + ([sep] + w + [sep]), sep) == Split(x, sep) + [w, []]
  {
    var a := x + [sep];
    var p := Split(x, sep);
    calc {
      Split(x + ([sep] + w + [sep]), sep);
      { assert x + ([sep] + w + [sep]) == (a + w) + [sep]; }
      Split((a + w) + [sep], sep);
      { SplitAppendSeparator(a + w, sep); }
      Split(a + w, sep) + [[]];
      { SplitAppendPlain(a, sep, w); }
      ExtendLast(Split(a, sep), w) + [[]];
      { SplitAppendSeparator(x, sep); }
      ExtendLast(p + [[]], w) + [[]];
      { ExtendLastSnoc(p, [], w); assert [] + w == w; }
      p + [w] + [[]];
    }
  }

  /** ... and then text without the separator fills that empty piece. */
  lemma SplitAppendWord(x: string, sep: char, w: string, y: string)
    requires sep !in w && sep !in y
    ensures Split(x + ([sep] + w + [sep]) + y, sep) == Split(x, sep) + [w, y]
  {
    var z := x + ([sep] + w + [sep]);
    var p := Split(x, sep);
    calc {
      Split(z + y, sep);
      { SplitAppendPlain(z, sep, y); }
      ExtendLast(Split(z, sep), y);
      { SplitAppendQuoted(x, sep, w); assert p + [w, []] == (p + [w]) + [[]]; }
      ExtendLast((p + [w]) + [[]], y);
      { ExtendLastSnoc(p + [w], [], y); assert [] + y == y; }
      (p + [w]) + [y];
    }
  }

  /** The text a line-oriented tool prints: each line followed by '\n'. */
  function Unlines(lines: seq<string>): string
  {
    if lines == [] then [] else lines[0] + "\n" + Unlines(lines[1..])
  }

  /** `s.splitlines()` for '\n' line breaks: a final '\n' does not start an
      extra empty line, and the empty string has no lines. */
  function SplitLines(s: string): (lines: seq<string>)
    ensures forall l :: l in lines ==> '\n' !in l
  {
    if s == [] then []
    else
      var parts := Split(s, '\n');
      if s[|s| - 1] == '\n' then parts[..|parts| - 1] else parts
  }

  lemma {:induction false} UnlinesAsJoin(lines: seq<string>)
    ensures Unlines(lines) == Join(lines + [[]], "\n")
  {
    if lines != [] {
      UnlinesAsJoin(lines[1..]);
      assert (lines + [[]])[1..] == lines[1..] + [[]];
    }
  }

  lemma {:induction false} UnlinesEndsWithBreak(lines: seq<string>)
    requires lines != []
    ensures |Unlines(lines)| > 0 && Unlines(lines)[|Unlines(lines)| - 1] == '\n'
  {
    if lines[1..] != [] {
      UnlinesEndsWithBreak(lines[1..]);
    }
  }

  /** Splitting the printed text into lines recovers the lines. */
  lemma SplitLinesOfUnlines(lines: seq<string>)
    requires forall l :: l in lines ==> '\n' !in l
    ensures SplitLines(Unlines(lines)) == lines
  {
    if lines != [] {
      UnlinesAsJoin(lines);
      SplitOfJoin(lines + [[]], '\n');
      UnlinesEndsWithBreak(lines);
    }
  }

  /** `s[:n]` for `n >= 0`. */
  function Take(s: string, n: nat): (r: string)
    ensures r <= s && |r| == if n < |s| then n else |s|
  {
    if n < |s| then s[..n] else s
  }
}
