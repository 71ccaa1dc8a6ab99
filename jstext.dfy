/** The pieces of JavaScript string semantics the editors rely on: truthiness
    of strings (`s || null`, `o || ''`), `trim()`, `split('\n')`, `join('\n')`,
    `filter(b => b.trim())` and the part of `toLowerCase()` that decides a
    comparison with an ASCII word. */
module JsText {
  import opened Common

  /** The characters `String.prototype.trim` removes: ECMAScript WhiteSpace
      (tab, VT, FF, space, NBSP, ZWNBSP and the Zs category) and the four
      LineTerminator code points. */
  predicate IsWhitespace(c: char) {
    c == '\t' || c == '\n' || c == '\U{B}' || c == '\U{C}' || c == '\r' || c == ' '
    || c == '\U{A0}' || c == '\U{1680}' || ('\U{2000}' <= c <= '\U{200A}')
    || c == '\U{2028}' || c == '\U{2029}' || c == '\U{202F}' || c == '\U{205F}'
    || c == '\U{3000}' || c == '\U{FEFF}'
  }

  /** `!s.trim()`: the string is empty or made of whitespace only. */
  predicate IsBlank(s: string) {
    forall i :: 0 <= i < |s| ==> IsWhitespace(s[i])
  }

  /** `s || null`: the empty string becomes null, anything else is kept. */
  function OrNull(s: string): (r: Option<string>)
    ensures r == None <==> s == ""
    ensures r.Some? ==> r.value == s
  {
    if s == "" then None else Some(s)
  }

  /** `o || ''`: null becomes the empty string. */
  function OrEmpty(o: Option<string>): (r: string)
    ensures o.None? ==> r == ""
    ensures o.Some? ==> r == o.value
  {
    if o.Some? then o.value else ""
  }

  /** `if (o)` on a nullable string: non-null and non-empty. */
  predicate Truthy(o: Option<string>) {
    o.Some? && o.value != ""
  }

  /** `o || fallback`: null and the empty string both give the fallback. */
  function OrFallback(o: Option<string>, fallback: string): (r: string)
    ensures r == fallback || (o.Some? && r == o.value && r != "")
    ensures o.Some? && o.value != "" ==> r == o.value
  {
    if o.Some? && o.value != "" then o.value else fallback
  }

  /** `OrNull` undoes `OrEmpty` exactly on values that are null or non-empty,
      and `OrEmpty` always undoes `OrNull`. */
  lemma OrNullOrEmpty(o: Option<string>, s: string)
    ensures (o.None? || o.value != "") ==> OrNull(OrEmpty(o)) == o
    ensures OrEmpty(OrNull(s)) == s
  {
  }

  // ---------------------------------------------------------------- trim

  function TrimStart(s: string): (r: string)
    ensures |r| <= |s| && r == s[|s| - |r|..]
    ensures forall i :: 0 <= i < |s| - |r| ==> IsWhitespace(s[i])
    ensures r == [] || !IsWhitespace(r[0])
  {
    if s != [] && IsWhitespace(s[0]) then
      var r := TrimStart(s[1..]);
      assert s[1..][|s| - 1 - |r|..] == s[|s| - |r|..];
      assert forall i :: 1 <= i < |s| - |r| ==> s[i] == s[1..][i - 1];
      r
    else s
  }

  function TrimEnd(s: string): (r: string)
    ensures |r| <= |s| && r == s[..|r|]
    ensures forall i :: |r| <= i < |s| ==> IsWhitespace(s[i])
    ensures r == [] || !IsWhitespace(r[|r| - 1])
  {
    if s != [] && IsWhitespace(s[|s| - 1]) then
      var r := TrimEnd(s[..|s| - 1]);
      assert s[..|s| - 1][..|r|] == s[..|r|];
      r
    else s
  }

  /** `s.trim()`: the contiguous middle of `s` left once leading and trailing
      whitespace is removed. */
  function Trim(s: string): (r: string)
    ensures exists lo, hi :: 0 <= lo <= hi <= |s| && r == s[lo..hi]
                             && (forall i :: 0 <= i < lo ==> IsWhitespace(s[i]))
                             && (forall i :: hi <= i < |s| ==> IsWhitespace(s[i]))
    ensures r == [] || (!IsWhitespace(r[0]) && !IsWhitespace(r[|r| - 1]))
  {
    TrimSlice(s);
    TrimEnd(TrimStart(s))
  }

  /** Where the trimmed middle sits in `s`: it starts after the leading
      whitespace and ends before the trailing whitespace. */
  lemma TrimSlice(s: string)
    ensures var t := TrimStart(s);
            var lo := |s| - |t|;
            var hi := lo + |TrimEnd(t)|;
            && 0 <= lo <= hi <= |s| && TrimEnd(t) == s[lo..hi]
            && (forall i :: 0 <= i < lo ==> IsWhitespace(s[i]))
            && (forall i :: hi <= i < |s| ==> IsWhitespace(s[i]))
  {
    var t := TrimStart(s);
    TrimEndOfSuffix(s, |s| - |t|);
  }

  /** Trimming the end of the suffix of `s` from `lo` on leaves a slice of
      `s` followed only by whitespace. */
  lemma TrimEndOfSuffix(s: string, lo: nat)
    requires lo <= |s|
    ensures lo + |TrimEnd(s[lo..])| <= |s|
    ensures TrimEnd(s[lo..]) == s[lo..lo + |TrimEnd(s[lo..])|]
    ensures forall i :: lo + |TrimEnd(s[lo..])| <= i < |s| ==> IsWhitespace(s[i])
  {
    var t := s[lo..];
    var r := TrimEnd(t);
    assert r == t[..|r|];
    forall i | lo + |r| <= i < |s|
      ensures IsWhitespace(s[i])
    {
      assert s[i] == t[i - lo];
    }
  }

  /** `s.trim()` is falsy exactly when `s` is blank. */
  lemma TrimEmptyIffBlank(s: string)
    ensures Trim(s) == "" <==> IsBlank(s)
  {
    var t := TrimStart(s);
    if Trim(s) == "" {
      assert t == [];
    } else {
      var r := Trim(s);
      assert r == TrimEnd(t) && r[0] == t[0] == s[|s| - |t|];
    }
  }

  /** A string without whitespace at either end is its own trim. */
  lemma TrimOfTrimmed(s: string)
    requires s == [] || (!IsWhitespace(s[0]) && !IsWhitespace(s[|s| - 1]))
    ensures Trim(s) == s
  {
  }

  /** Trimming twice is trimming once. */
  lemma TrimIdempotent(s: string)
    ensures Trim(Trim(s)) == Trim(s)
  {
    TrimOfTrimmed(Trim(s));
  }

  // ---------------------------------------------------------------- split / join

  /** `s.split(sep)` for a one-character separator: one more part than there
      are separators, no part containing the separator. */
  function Split(s: string, sep: char): (parts: seq<string>)
    ensures |parts| >= 1
    ensures forall i :: 0 <= i < |parts| ==> sep !in parts[i]
    decreases |s|
  {
    if s == [] then [""]
    else
      var rest := Split(s[1..], sep);
      if s[0] == sep then [""] + rest
      else [[s[0]] + rest[0]] + rest[1..]
  }

  /** `parts.join(sep)`. */
  function Join(parts: seq<string>, sep: char): (s: string)
  {
    if |parts| == 0 then ""
    else if |parts| == 1 then parts[0]
    else parts[0] + [sep] + Join(parts[1..], sep)
  }

  /** Splitting and joining on the same separator gives back the text. */
  lemma {:induction false} JoinSplit(s: string, sep: char)
    ensures Join(Split(s, sep), sep) == s
    decreases |s|
  {
    if s != [] {
      var rest := Split(s[1..], sep);
      JoinSplit(s[1..], sep);
      if s[0] == sep {
        assert Join([""] + rest, sep) == "" + [sep] + Join(rest, sep);
      } else if |rest| == 1 {
        assert Split(s, sep) == [[s[0]] + rest[0]];
      } else {
        var parts := Split(s, sep);
        assert parts[1..] == rest[1..];
        assert Join(rest, sep) == rest[0] + [sep] + Join(rest[1..], sep);
      }
    }
  }

  /** A text without the separator is a single part. */
  lemma {:induction false} SplitWithoutSeparator(a: string, sep: char)
    requires sep !in a
    ensures Split(a, sep) == [a]
    decreases |a|
  {
    if a != [] {
      assert sep !in a[1..] && a[0] != sep;
      SplitWithoutSeparator(a[1..], sep);
      assert [a[0]] + a[1..] == a;
    }
  }

  /** The first part ends at the first separator. */
  lemma {:induction false} SplitAfterPart(a: string, sep: char, b: string)
    requires sep !in a
    ensures Split(a + [sep] + b, sep) == [a] + Split(b, sep)
    decreases |a|
  {
    var s := a + [sep] + b;
    if a == [] {
      assert s[1..] == b;
    } else {
      assert s[1..] == a[1..] + [sep] + b;
      SplitAfterPart(a[1..], sep, b);
      assert [s[0]] + a[1..] == a;
    }
  }

  /** Two separators cut a text into three parts. */
  lemma SplitThreeParts(a: string, b: string, c: string, sep: char)
    requires sep !in a && sep !in b && sep !in c
    ensures Split(a + [sep] + (b + [sep] + c), sep) == [a, b, c]
  {
    SplitAfterPart(a, sep, b + [sep] + c);
    SplitAfterPart(b, sep, c);
    SplitWithoutSeparator(c, sep);
  }

  /** Joining parts that do not contain the separator and splitting again
      gives back the parts (a non-empty list: `[].join` is `''`, which splits
      into `['']`). */
  lemma {:induction false} SplitJoin(parts: seq<string>, sep: char)
    requires |parts| >= 1
    requires forall i :: 0 <= i < |parts| ==> sep !in parts[i]
    ensures Split(Join(parts, sep), sep) == parts
    decreases |parts|
  {
    if |parts| == 1 {
      SplitWithoutSeparator(parts[0], sep);
    } else {
      SplitJoin(parts[1..], sep);
      SplitAfterPart(parts[0], sep, Join(parts[1..], sep));
    }
  }

  /** Every part of a blank text is blank. */
  lemma {:induction false} SplitBlank(s: string, sep: char)
    requires IsBlank(s)
    ensures forall i :: 0 <= i < |Split(s, sep)| ==> IsBlank(Split(s, sep)[i])
    decreases |s|
  {
    if s != [] {
      SplitBlank(s[1..], sep);
    }
  }

  /** A join of a non-empty list whose first element is not blank is
      non-empty. */
  lemma JoinNonEmpty(parts: seq<string>, sep: char)
    requires |parts| >= 1 && !IsBlank(parts[0])
    ensures Join(parts, sep) != ""
  {
    if |parts| > 1 {
      assert Join(parts, sep) == parts[0] + [sep] + Join(parts[1..], sep);
    }
  }

  // ---------------------------------------------------------------- filter

  /** `lines.filter(b => b.trim())`: the non-blank lines, in order, unchanged. */
  function KeepNonBlank(lines: seq<string>): (kept: seq<string>)
    ensures |kept| <= |lines|
    ensures forall i :: 0 <= i < |kept| ==> !IsBlank(kept[i])
    ensures forall x :: x in kept <==> x in lines && !IsBlank(x)
  {
    if lines == [] then []
    else
      (if IsBlank(lines[0]) then [] else [lines[0]]) + KeepNonBlank(lines[1..])
  }

  /** Each non-blank line is kept as often as it occurs, each blank one never. */
  lemma {:induction false} KeepNonBlankCounts(lines: seq<string>)
    ensures forall x :: multiset(KeepNonBlank(lines))[x] == if IsBlank(x) then 0 else multiset(lines)[x]
    decreases |lines|
  {
    if lines != [] {
      var x, tail := lines[0], lines[1..];
      assert lines == [x] + tail;
      KeepNonBlankCons(x, tail);
      KeepNonBlankCounts(tail);
      assert multiset(lines) == multiset([x]) + multiset(tail);
    }
  }

  /** The filter keeps a single line exactly when it is not blank. */
  lemma KeepNonBlankOne(x: string)
    ensures KeepNonBlank([x]) == if IsBlank(x) then [] else [x]
  {
    assert [x][1..] == [];
  }

  /** The filter decides the first line and goes on with the rest. */
  lemma KeepNonBlankCons(x: string, rest: seq<string>)
    ensures KeepNonBlank([x] + rest) == (if IsBlank(x) then [] else [x]) + KeepNonBlank(rest)
  {
    assert ([x] + rest)[1..] == rest;
  }

  /** The filter works line by line: filtering a concatenation is the
      concatenation of the filtered parts, so the kept lines stay in order. */
  lemma {:induction false} KeepNonBlankAppend(a: seq<string>, b: seq<string>)
    ensures KeepNonBlank(a + b) == KeepNonBlank(a) + KeepNonBlank(b)
    decreases |a|
  {
    if a == [] {
      assert a + b == b;
    } else {
      var x, tail := a[0], a[1..];
      var head := if IsBlank(x) then [] else [x];
      assert a == [x] + tail;
      calc {
        KeepNonBlank(a + b);
        { assert a + b == [x] + (tail + b); }
        KeepNonBlank([x] + (tail + b));
        { KeepNonBlankCons(x, tail + b); }
        head + KeepNonBlank(tail + b);
        { KeepNonBlankAppend(tail, b); }
        head + (KeepNonBlank(tail) + KeepNonBlank(b));
        (head + KeepNonBlank(tail)) + KeepNonBlank(b);
        { KeepNonBlankCons(x, tail); }
        KeepNonBlank(a) + KeepNonBlank(b);
      }
    }
  }

  /** Filtering a list without blank lines keeps it whole. */
  lemma {:induction false} KeepNonBlankNoBlank(lines: seq<string>)
    requires forall i :: 0 <= i < |lines| ==> !IsBlank(lines[i])
    ensures KeepNonBlank(lines) == lines
  {
    if lines != [] {
      KeepNonBlankNoBlank(lines[1..]);
    }
  }

  /** Of three lines, a blank middle one is the one dropped. */
  lemma KeepNonBlankDropsMiddle(a: string, b: string, c: string)
    requires !IsBlank(a) && IsBlank(b) && !IsBlank(c)
    ensures KeepNonBlank([a, b, c]) == [a, c]
  {
    assert [a, b, c][1..] == [b, c];
    assert [b, c][1..] == [c];
  }

  // ---------------------------------------------------------------- lower case

  /** `toLowerCase` on one code unit, exact wherever the result is ASCII:
      A-Z lower to a-z, U+212A KELVIN SIGN lowers to 'k', and no other code
      point lowers to anything ASCII, so it is kept. */
  function LowerChar(c: char): (r: char)
    ensures 'A' <= c <= 'Z' ==> r as int == c as int + 32
    ensures c == '\U{212A}' ==> r == 'k'
    ensures !('A' <= c <= 'Z') && c != '\U{212A}' ==> r == c
  {
    if 'A' <= c <= 'Z' then (c as int + 32) as char
    else if c == '\U{212A}' then 'k'
    else c
  }

  /** `s.toLowerCase()` as far as the model needs it: every character is
      lowered on its own by `LowerChar`. */
  function ToLower(s: string): (r: string)
    ensures |r| == |s|
    ensures forall i :: 0 <= i < |s| ==> r[i] == LowerChar(s[i])
  {
    seq(|s|, i requires 0 <= i < |s| => LowerChar(s[i]))
  }

  /** Two characters that are equal, or are the same ASCII letter in the
      two cases. */
  predicate SameLetterUpToCase(c: char, d: char) {
    || c == d
    || ('A' <= c <= 'Z' && d as int == c as int + 32)
    || ('A' <= d <= 'Z' && c as int == d as int + 32)
  }

  /** Two strings that differ only in the case of ASCII letters. */
  predicate SameUpToAsciiCase(a: string, b: string) {
    |a| == |b| && forall i :: 0 <= i < |a| ==> SameLetterUpToCase(a[i], b[i])
  }

  /** Strings that differ only in ASCII case lower to the same string. */
  lemma ToLowerIgnoresAsciiCase(a: string, b: string)
    requires SameUpToAsciiCase(a, b)
    ensures ToLower(a) == ToLower(b)
  {
    forall i | 0 <= i < |a|
      ensures ToLower(a)[i] == ToLower(b)[i]
    {
      assert SameLetterUpToCase(a[i], b[i]);
    }
  }

  /** Lowering twice is lowering once. */
  lemma ToLowerIdempotent(s: string)
    ensures ToLower(ToLower(s)) == ToLower(s)
  {
  }
}
