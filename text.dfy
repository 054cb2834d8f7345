/** String operations of the Python back end and the JavaScript front end, on `seq<char>`. */
module Text {
  import opened Wrappers

  /** Python's `str.isspace()`: what `str.split()`, `str.strip()` and the regex class `\s` treat
      as whitespace in a `str` pattern. */
  predicate IsPySpace(c: char) {
    || ('\t' <= c <= '\r')
    || ('\U{1c}' <= c <= '\U{1f}')
    || c == ' ' || c == '\U{85}' || c == '\U{a0}' || c == '\U{1680}'
    || ('\U{2000}' <= c <= '\U{200a}')
    || c == '\U{2028}' || c == '\U{2029}' || c == '\U{202f}' || c == '\U{205f}' || c == '\U{3000}'
  }

  /** ECMAScript WhiteSpace and LineTerminator: what `String.prototype.trim` removes. */
  predicate IsJsSpace(c: char) {
    || ('\t' <= c <= '\r')
    || c == ' ' || c == '\U{a0}' || c == '\U{1680}'
    || ('\U{2000}' <= c <= '\U{200a}')
    || c == '\U{2028}' || c == '\U{2029}' || c == '\U{202f}' || c == '\U{205f}' || c == '\U{3000}'
    || c == '\U{feff}'
  }

  predicate IsAsciiLetter(c: char) { ('a' <= c <= 'z') || ('A' <= c <= 'Z') }

  predicate IsAsciiDigit(c: char) { '0' <= c <= '9' }

  /** The regex class `[a-zA-Z0-9]`. */
  predicate IsAsciiAlnum(c: char) { IsAsciiLetter(c) || IsAsciiDigit(c) }

  /** Lower-casing of one character, on the ASCII range. */
  function AsciiLower(c: char): (r: char)
    ensures 'A' <= c <= 'Z' ==> 'a' <= r <= 'z'
    ensures !('A' <= c <= 'Z') ==> r == c
    ensures IsAsciiAlnum(r) <==> IsAsciiAlnum(c)
  {
    if 'A' <= c <= 'Z' then (c as int - 'A' as int + 'a' as int) as char else c
  }

  /** The two characters outside ASCII whose lower-case form holds an ASCII letter: U+0130
      (LATIN CAPITAL LETTER I WITH DOT ABOVE, lower-cased to "i" and U+0307) and U+212A (KELVIN
      SIGN, lower-cased to "k"). */
  predicate LowersToAscii(c: char) { c == '\U{130}' || c == '\U{212a}' }

  /** `c.lower()` where it matters to an `[a-zA-Z0-9]` filter: ASCII upper case and the two
      characters of `LowersToAscii` get their Python lower-case form; every other character is
      kept as it is. */
  function LowerChar(c: char): (r: string)
    ensures !LowersToAscii(c) ==> r == [AsciiLower(c)]
    ensures c == '\U{130}' ==> r == "i\U{307}"
    ensures c == '\U{212a}' ==> r == "k"
  {
    if c == '\U{130}' then "i\U{307}" else if c == '\U{212a}' then "k" else [AsciiLower(c)]
  }

  /** `str.lower()`, as far as ASCII letters and digits are concerned: a string without the two
      characters of `LowersToAscii` is lowered character by character on the ASCII range. */
  function Lower(s: string): (r: string)
    ensures |r| >= |s|
  {
    if s == [] then [] else LowerChar(s[0]) + Lower(s[1..])
  }

  /** Without the two characters of `LowersToAscii`, lower-casing keeps the length and lowers
      each character on the ASCII range. */
  lemma {:induction false} LowerOnAscii(s: string)
    requires forall i :: 0 <= i < |s| ==> !LowersToAscii(s[i])
    ensures |Lower(s)| == |s|
    ensures forall i :: 0 <= i < |s| ==> Lower(s)[i] == AsciiLower(s[i])
  {
    if s != [] {
      LowerOnAscii(s[1..]);
      assert Lower(s) == [AsciiLower(s[0])] + Lower(s[1..]);
    }
  }

  /** The characters of `s` that satisfy `p`, in their order: `re.sub` with a negated class. */
  function Keep(s: string, p: char -> bool): (r: string)
    ensures |r| <= |s|
    ensures forall c :: c in r ==> c in s && p(c)
    ensures forall i :: 0 <= i < |r| ==> p(r[i])
  {
    if s == [] then [] else (if p(s[0]) then [s[0]] else []) + Keep(s[1..], p)
  }

  lemma {:induction false} KeepAppend(a: string, b: string, p: char -> bool)
    ensures Keep(a + b, p) == Keep(a, p) + Keep(b, p)
  {
    if a != [] {
      assert (a + b)[0] == a[0];
      assert (a + b)[1..] == a[1..] + b;
      KeepAppend(a[1..], b, p);
      var h := if p(a[0]) then [a[0]] else [];
      assert Keep(a + b, p) == h + Keep(a[1..] + b, p);
      assert Keep(a, p) == h + Keep(a[1..], p);
    } else {
      assert a + b == b;
    }
  }

  lemma {:induction false} KeepAll(s: string, p: char -> bool)
    requires forall i :: 0 <= i < |s| ==> p(s[i])
    ensures Keep(s, p) == s
  {
    if s != [] {
      KeepAll(s[1..], p);
    }
  }

  lemma {:induction false} KeepNone(s: string, p: char -> bool)
    requires forall i :: 0 <= i < |s| ==> !p(s[i])
    ensures Keep(s, p) == []
  {
    if s != [] {
      KeepNone(s[1..], p);
    }
  }

  /** A property every character of `s` has, every kept character has too. */
  lemma {:induction false} KeepPreserves(s: string, p: char -> bool, q: char -> bool)
    requires forall i :: 0 <= i < |s| ==> q(s[i])
    ensures forall i :: 0 <= i < |Keep(s, p)| ==> p(Keep(s, p)[i]) && q(Keep(s, p)[i])
  {
    if s != [] {
      KeepPreserves(s[1..], p, q);
    }
  }

  /** `s` without its leading characters that satisfy `p`. */
  function TrimLeft(s: string, p: char -> bool): (r: string)
    ensures |r| <= |s| && r == s[|s| - |r|..]
    ensures forall i :: 0 <= i < |s| - |r| ==> p(s[i])
    ensures r != [] ==> !p(r[0])
  {
    if s == [] || !p(s[0]) then s else TrimLeft(s[1..], p)
  }

  /** `s` without its trailing characters that satisfy `p`. */
  function TrimRight(s: string, p: char -> bool): (r: string)
    ensures |r| <= |s| && r == s[..|r|]
    ensures forall i :: |r| <= i < |s| ==> p(s[i])
    ensures r != [] ==> !p(r[|r| - 1])
  {
    if s == [] || !p(s[|s| - 1]) then s else TrimRight(s[..|s| - 1], p)
  }

  /** `s` without leading and trailing characters that satisfy `p`: `s.strip(chars)`. */
  function Trim(s: string, p: char -> bool): (r: string)
    ensures r != [] ==> !p(r[0]) && !p(r[|r| - 1])
  {
    var l := TrimLeft(s, p);
    var r := TrimRight(l, p);
    assert r != [] ==> r[0] == l[0];
    r
  }

  /** What trimming removes: a run of `p` characters at each end. */
  lemma {:induction false} TrimSplits(s: string, p: char -> bool) returns (lead: string, last: string)
    ensures s == lead + Trim(s, p) + last
    ensures forall j :: 0 <= j < |lead| ==> p(lead[j])
    ensures forall j :: 0 <= j < |last| ==> p(last[j])
  {
    var l := TrimLeft(s, p);
    lead := TrimLeftSplit(s, p);
    last := TrimRightSplit(l, p);
    var r := Trim(s, p);
    assert r == TrimRight(l, p);
    assert s == lead + (r + last);
    AppendAssoc(lead, r, last);
  }

  lemma {:induction false} TrimLeftSplit(s: string, p: char -> bool) returns (lead: string)
    ensures s == lead + TrimLeft(s, p)
    ensures forall j :: 0 <= j < |lead| ==> p(lead[j])
  {
    var l := TrimLeft(s, p);
    lead := s[..|s| - |l|];
    assert s == s[..|s| - |l|] + s[|s| - |l|..];
  }

  lemma {:induction false} TrimRightSplit(s: string, p: char -> bool) returns (last: string)
    ensures s == TrimRight(s, p) + last
    ensures forall j :: 0 <= j < |last| ==> p(last[j])
  {
    var r := TrimRight(s, p);
    last := s[|r|..];
    assert s == s[..|r|] + s[|r|..];
    forall j | 0 <= j < |last| ensures p(last[j]) {
      assert last[j] == s[|r| + j];
    }
  }

  /** Python's `str.strip()`. */
  function PyStrip(s: string): string { Trim(s, IsPySpace) }

  /** JavaScript's `String.prototype.trim()`. */
  function JsTrim(s: string): string { Trim(s, IsJsSpace) }

  /** A string whose trimmed form is empty is exactly one made of whitespace only. */
  lemma {:induction false} JsTrimEmptyIffBlank(s: string)
    ensures JsTrim(s) == "" <==> forall i :: 0 <= i < |s| ==> IsJsSpace(s[i])
  {
    if forall i :: 0 <= i < |s| ==> IsJsSpace(s[i]) {
      BlankTrimsToEmpty(s, IsJsSpace);
    }
  }

  lemma {:induction false} BlankTrimsToEmpty(s: string, p: char -> bool)
    requires forall i :: 0 <= i < |s| ==> p(s[i])
    ensures Trim(s, p) == ""
  {
    TrimLeftAll(s, p);
  }

  lemma {:induction false} TrimLeftAll(s: string, p: char -> bool)
    requires forall i :: 0 <= i < |s| ==> p(s[i])
    ensures TrimLeft(s, p) == ""
  {
    if s != [] {
      TrimLeftAll(s[1..], p);
    }
  }

  /** The longest prefix of `s` without Python whitespace. */
  function TakeWord(s: string): (w: string)
    ensures |w| <= |s| && w == s[..|w|]
    ensures forall i :: 0 <= i < |w| ==> !IsPySpace(w[i])
    ensures |w| < |s| ==> IsPySpace(s[|w|])
  {
    if s == [] || IsPySpace(s[0]) then [] else [s[0]] + TakeWord(s[1..])
  }

  /** A non-empty run of characters without Python whitespace. */
  predicate IsWord(w: string) {
    w != [] && forall i :: 0 <= i < |w| ==> !IsPySpace(w[i])
  }

  /** Python's `str.split()` without arguments: the maximal runs of non-whitespace, in order. */
  function Words(s: string): (ws: seq<string>)
    ensures forall k :: 0 <= k < |ws| ==> IsWord(ws[k])
    decreases |s|
  {
    var t := TrimLeft(s, IsPySpace);
    if t == [] then [] else
      var w := TakeWord(t);
      assert w != [] by { assert !IsPySpace(t[0]); }
      [w] + Words(t[|w|..])
  }

  /** Concatenation of a sequence of strings. */
  function Concat(parts: seq<string>): string {
    if parts == [] then "" else parts[0] + Concat(parts[1..])
  }

  predicate NotPySpace(c: char) { !IsPySpace(c) }

  /** Splitting into words loses exactly the whitespace: the words put back together are the
      input with its whitespace removed. */
  lemma {:induction false} WordsConcat(s: string)
    ensures Concat(Words(s)) == Keep(s, NotPySpace)
    decreases |s|
  {
    var t := TrimLeft(s, IsPySpace);
    KeepSkipsLeadingSpace(s);
    if t != [] {
      var w := TakeWord(t);
      assert w != [] by { assert !IsPySpace(t[0]); }
      KeepSplitsWord(t);
      WordsConcat(t[|w|..]);
      assert Words(s) == [w] + Words(t[|w|..]);
    }
  }

  lemma {:induction false} KeepSkipsLeadingSpace(s: string)
    ensures Keep(s, NotPySpace) == Keep(TrimLeft(s, IsPySpace), NotPySpace)
  {
    var t := TrimLeft(s, IsPySpace);
    forall i | 0 <= i < |s| - |t|
      ensures !NotPySpace(s[i])
    {
      assert IsPySpace(s[i]);
    }
    KeepDropsPrefix(s, t, NotPySpace);
  }

  /** Dropping a prefix of characters `p` rejects leaves the kept characters unchanged. */
  lemma {:induction false} KeepDropsPrefix(s: string, t: string, p: char -> bool)
    requires |t| <= |s| && t == s[|s| - |t|..]
    requires forall i :: 0 <= i < |s| - |t| ==> !p(s[i])
    ensures Keep(s, p) == Keep(t, p)
  {
    var lead := s[..|s| - |t|];
    assert s == lead + t;
    KeepAppend(lead, t, p);
    assert forall j :: 0 <= j < |lead| ==> lead[j] == s[j];
    KeepNone(lead, p);
  }

  lemma {:induction false} KeepSplitsWord(t: string)
    ensures Keep(t, NotPySpace) == TakeWord(t) + Keep(t[|TakeWord(t)|..], NotPySpace)
  {
    var w := TakeWord(t);
    var rest := t[|w|..];
    assert t == w + rest;
    KeepAppend(w, rest, NotPySpace);
    KeepAll(w, NotPySpace);
  }

  /** `str.split()` cuts at whitespace: a whitespace character splits the words of the text
      before it from those of the text after it. */
  lemma {:induction false} WordsSep(a: string, c: char, b: string)
    requires IsPySpace(c)
    ensures Words(a + [c] + b) == Words(a) + Words(b)
    decreases |a|, 1
  {
    var t := TrimLeft(a, IsPySpace);
    var lead := TrimLeftSplit(a, IsPySpace);
    if t == [] {
      WordsSepBlank(a, c, b);
    } else {
      assert a + [c] + b == lead + (t + [c] + b) by {
        AppendAssoc(lead, t, [c]);
        AppendAssoc(lead, t + [c], b);
      }
      WordsSkipSpace(lead, t + [c] + b);
      WordsSkipSpace(lead, t);
      WordsSepWord(t, c, b);
    }
  }

  /** The case of `WordsSep` where the text before the separator is blank. */
  lemma {:induction false} WordsSepBlank(a: string, c: char, b: string)
    requires IsPySpace(c) && forall i :: 0 <= i < |a| ==> IsPySpace(a[i])
    ensures Words(a + [c] + b) == Words(a) + Words(b)
  {
    assert a + [c] + b == (a + [c]) + b;
    WordsSkipSpace(a + [c], b);
    WordsSkipSpace(a, []);
    assert a + [] == a;
  }

  /** The case of `WordsSep` where the text before the separator starts with a word. */
  lemma {:induction false} WordsSepWord(t: string, c: char, b: string)
    requires IsPySpace(c) && t != [] && !IsPySpace(t[0])
    ensures Words(t + [c] + b) == Words(t) + Words(b)
    decreases |t|, 0
  {
    var rest := t + [c] + b;
    var w := TakeWord(t);
    assert TakeWord(rest) == w by {
      assert t + ([c] + b) == rest;
      TakeWordStops(t, [c] + b);
    }
    assert rest[|w|..] == t[|w|..] + [c] + b;
    WordsUnfold(rest);
    WordsUnfold(t);
    WordsSep(t[|w|..], c, b);
    AppendAssoc([w], Words(t[|w|..]), Words(b));
  }

  /** One step of `str.split()` on a text that starts with a word. */
  lemma {:induction false} WordsUnfold(s: string)
    requires s != [] && !IsPySpace(s[0])
    ensures TakeWord(s) != []
    ensures Words(s) == [TakeWord(s)] + Words(s[|TakeWord(s)|..])
  {
    assert TrimLeft(s, IsPySpace) == s;
  }

  /** Leading whitespace does not change the words. */
  lemma {:induction false} WordsSkipSpace(x: string, y: string)
    requires forall i :: 0 <= i < |x| ==> IsPySpace(x[i])
    ensures Words(x + y) == Words(y)
  {
    TrimLeftSkips(x, y);
  }

  lemma {:induction false} TrimLeftSkips(x: string, y: string)
    requires forall i :: 0 <= i < |x| ==> IsPySpace(x[i])
    ensures TrimLeft(x + y, IsPySpace) == TrimLeft(y, IsPySpace)
  {
    if x != [] {
      assert (x + y)[0] == x[0];
      assert (x + y)[1..] == x[1..] + y;
      TrimLeftSkips(x[1..], y);
    } else {
      assert x + y == y;
    }
  }

  /** A word that ends inside `t`, or at its end before whitespace, is not lengthened by what
      follows. */
  lemma {:induction false} TakeWordStops(t: string, y: string)
    requires |TakeWord(t)| < |t| || (y != [] && IsPySpace(y[0]))
    ensures TakeWord(t + y) == TakeWord(t)
  {
    if t == [] {
      assert (t + y) == y;
    } else {
      assert (t + y)[0] == t[0];
      if !IsPySpace(t[0]) {
        assert (t + y)[1..] == t[1..] + y;
        TakeWordStops(t[1..], y);
      }
    }
  }

  /** Python's `s.split(sep)` for a one-character separator: empty parts are kept. */
  function SplitOn(s: string, sep: char): (parts: seq<string>)
    ensures |parts| >= 1
    ensures forall k :: 0 <= k < |parts| ==> sep !in parts[k]
  {
    if s == [] then [""] else
      var rest := SplitOn(s[1..], sep);
      if s[0] == sep then [""] + rest else [[s[0]] + rest[0]] + rest[1..]
  }

  /** `sep.join(parts)` in Python, `parts.join(sep)` in JavaScript. */
  function Join(sep: string, parts: seq<string>): string {
    if |parts| == 0 then "" else if |parts| == 1 then parts[0] else parts[0] + sep + Join(sep, parts[1..])
  }

  /** Joining the parts of a split gives the string back. */
  lemma {:induction false} JoinSplit(s: string, sep: char)
    ensures Join([sep], SplitOn(s, sep)) == s
  {
    if s != [] {
      var rest := SplitOn(s[1..], sep);
      JoinSplit(s[1..], sep);
      if s[0] != sep {
        if |rest| > 1 {
          assert ([[s[0]] + rest[0]] + rest[1..])[1..] == rest[1..];
        }
      }
    }
  }

  /** Splitting a join gives the parts back when no part holds the separator. */
  lemma {:induction false} SplitJoin(parts: seq<string>, sep: char)
    requires |parts| >= 1
    requires forall k :: 0 <= k < |parts| ==> sep !in parts[k]
    ensures SplitOn(Join([sep], parts), sep) == parts
  {
    if |parts| == 1 {
      SplitWithoutSep(parts[0], sep);
    } else {
      SplitJoin(parts[1..], sep);
      SplitAfterSegment(parts[0], Join([sep], parts[1..]), sep);
      assert [parts[0]] + parts[1..] == parts;
    }
  }

  lemma {:induction false} SplitWithoutSep(s: string, sep: char)
    requires sep !in s
    ensures SplitOn(s, sep) == [s]
  {
    if s != [] {
      assert s[0] != sep;
      SplitWithoutSep(s[1..], sep);
      assert [s[0]] + s[1..] == s;
    }
  }

  lemma {:induction false} SplitAfterSegment(a: string, b: string, sep: char)
    requires sep !in a
    ensures SplitOn(a + [sep] + b, sep) == [a] + SplitOn(b, sep)
  {
    if a == [] {
      assert (a + [sep] + b)[1..] == b;
    } else {
      assert (a + [sep] + b)[0] == a[0] != sep;
      assert (a + [sep] + b)[1..] == a[1..] + [sep] + b;
      SplitAfterSegment(a[1..], b, sep);
      assert [a[0]] + a[1..] == a;
    }
  }

  /** Every character `a` of `s` replaced with `b`: Python's `s.replace(a, b)` for one character. */
  function ReplaceChar(s: string, a: char, b: char): (r: string)
    ensures |r| == |s|
    ensures forall i :: 0 <= i < |s| ==> r[i] == if s[i] == a then b else s[i]
  {
    if s == [] then [] else [if s[0] == a then b else s[0]] + ReplaceChar(s[1..], a, b)
  }

  /** `s.includes(sub)` in JavaScript, `sub in s` in Python. */
  predicate Contains(s: string, sub: string)
    decreases |s|
  {
    if |s| < |sub| then false else s[..|sub|] == sub || Contains(s[1..], sub)
  }

  /** `sub` occurs in `s` starting at position `i`. */
  predicate OccursAt(s: string, sub: string, i: int) {
    0 <= i <= |s| - |sub| && s[i..i + |sub|] == sub
  }

  /** `Contains` holds exactly when `sub` occurs at some position of `s`. */
  lemma {:induction false} ContainsIffOccurs(s: string, sub: string)
    ensures Contains(s, sub) <==> exists i :: OccursAt(s, sub, i)
    decreases |s|
  {
    if |s| >= |sub| {
      if s[..|sub|] == sub {
        assert OccursAt(s, sub, 0);
      } else if |s| > 0 {
        ContainsIffOccurs(s[1..], sub);
        if Contains(s[1..], sub) {
          var i :| OccursAt(s[1..], sub, i);
          assert s[i + 1..i + 1 + |sub|] == s[1..][i..i + |sub|];
          assert OccursAt(s, sub, i + 1);
        }
        if exists i :: OccursAt(s, sub, i) {
          var i :| OccursAt(s, sub, i);
          assert i > 0;
          assert s[1..][i - 1..i - 1 + |sub|] == s[i..i + |sub|];
          assert OccursAt(s[1..], sub, i - 1);
        }
      }
    }
  }
}
