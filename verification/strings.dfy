/**
 * The two pieces of JavaScript string behaviour the client relies on:
 * `String.prototype.split` with a string separator, and the `<` operator on
 * strings (lexicographic comparison of UTF-16 code units).
 */
module Strings {

  /** `s.split(sep)` for a non-empty separator: the pieces between the
      non-overlapping occurrences of `sep`, found from left to right. */
  function Split(s: string, sep: string): (parts: seq<string>)
    requires |sep| > 0
    ensures |parts| >= 1
    decreases |s|
  {
    if |s| < |sep| then [s]
    else if s[..|sep|] == sep then [""] + Split(s[|sep|..], sep)
    else
      var rest := Split(s[1..], sep);
      [[s[0]] + rest[0]] + rest[1..]
  }

  /** `parts.join(sep)` */
  function Join(parts: seq<string>, sep: string): string
    requires |parts| >= 1
  {
    if |parts| == 1 then parts[0] else parts[0] + sep + Join(parts[1..], sep)
  }

  /** `sep` starts at position `i` of `s`. */
  predicate OccursAt(s: string, sep: string, i: int) {
    0 <= i && i + |sep| <= |s| && s[i..i + |sep|] == sep
  }

  /** `s.includes(sep)` */
  predicate Occurs(s: string, sep: string) {
    exists i | 0 <= i <= |s| :: OccursAt(s, sep, i)
  }

  /** `s.split(c).pop()`: the text after the last `c`, or all of `s`. */
  function LastSegment(s: string, c: char): string {
    var parts := Split(s, [c]);
    parts[|parts| - 1]
  }

  /** Splitting and joining again gives back the original string. */
  lemma {:induction false} JoinSplit(s: string, sep: string)
    requires |sep| > 0
    ensures Join(Split(s, sep), sep) == s
    decreases |s|
  {
    if |s| < |sep| {
    } else if s[..|sep|] == sep {
      var rest := Split(s[|sep|..], sep);
      JoinSplit(s[|sep|..], sep);
      assert Split(s, sep) == [""] + rest;
      assert ([""] + rest)[1..] == rest;
      assert s == sep + s[|sep|..];
    } else {
      var rest := Split(s[1..], sep);
      JoinSplit(s[1..], sep);
      var parts := [[s[0]] + rest[0]] + rest[1..];
      assert Split(s, sep) == parts;
      if |rest| == 1 {
        assert s == [s[0]] + s[1..];
      } else {
        assert parts[1..] == rest[1..];
        assert Join(rest, sep) == rest[0] + sep + Join(rest[1..], sep);
        assert s == [s[0]] + s[1..];
      }
    }
  }

  /** The split has a single piece exactly when the separator does not occur. */
  lemma {:induction false} SplitSingleIff(s: string, sep: string)
    requires |sep| > 0
    ensures |Split(s, sep)| == 1 <==> !Occurs(s, sep)
    decreases |s|
  {
    if |s| < |sep| {
    } else if s[..|sep|] == sep {
      assert OccursAt(s, sep, 0);
      assert |Split(s, sep)| == 1 + |Split(s[|sep|..], sep)|;
    } else {
      SplitSingleIff(s[1..], sep);
      if Occurs(s, sep) {
        var i :| 0 <= i <= |s| && OccursAt(s, sep, i);
        assert 0 <= i && i + |sep| <= |s| && s[i..i + |sep|] == sep;
        assert i != 0;
        assert s[1..][i - 1..i - 1 + |sep|] == s[i..i + |sep|];
        assert OccursAt(s[1..], sep, i - 1);
      }
      if Occurs(s[1..], sep) {
        var i :| 0 <= i <= |s[1..]| && OccursAt(s[1..], sep, i);
        assert s[i + 1..i + 1 + |sep|] == s[1..][i..i + |sep|];
        assert OccursAt(s, sep, i + 1);
      }
    }
  }

  /** A prefix that cannot start a separator only lengthens the first piece. */
  lemma {:induction false} SplitPrefixFree(p: string, t: string, sep: string)
    requires |sep| > 0 && sep[0] !in p
    ensures Split(p + t, sep) == [p + Split(t, sep)[0]] + Split(t, sep)[1..]
    decreases |p|
  {
    var r := Split(t, sep);
    if p == [] {
      assert p + t == t;
      assert p + r[0] == r[0];
      assert [r[0]] + r[1..] == r;
    } else if |p + t| < |sep| {
    } else {
      assert (p + t)[0] == p[0];
      assert (p + t)[..|sep|] != sep;
      assert (p + t)[1..] == p[1..] + t;
      SplitPrefixFree(p[1..], t, sep);
      assert [p[0]] + (p[1..] + r[0]) == p + r[0];
    }
  }

  /** A string without the separator's first character splits into itself alone. */
  lemma SplitWithoutSeparator(s: string, sep: string)
    requires |sep| > 0 && sep[0] !in s
    ensures Split(s, sep) == [s]
  {
    SplitPrefixFree(s, [], sep);
    assert s + [] == s;
  }

  /** A string that starts with the separator splits into an empty piece first. */
  lemma SplitAfterSeparator(t: string, sep: string)
    requires |sep| > 0
    ensures Split(sep + t, sep) == [""] + Split(t, sep)
  {
    assert (sep + t)[..|sep|] == sep;
    assert (sep + t)[|sep|..] == t;
  }

  /** Appending a separator character and a piece free of it adds exactly that piece. */
  lemma {:induction false} SplitAppendPiece(p: string, c: char, t: string)
    requires c !in t
    ensures Split(p + [c] + t, [c]) == Split(p, [c]) + [t]
    decreases |p|
  {
    var s := p + [c] + t;
    if p == [] {
      assert s == [c] + t;
      SplitAfterSeparator(t, [c]);
      SplitWithoutSeparator(t, [c]);
    } else {
      assert s[..1] == [p[0]];
      assert s[1..] == p[1..] + [c] + t;
      SplitAppendPiece(p[1..], c, t);
      var r := Split(p[1..], [c]);
      if p[0] == c {
        assert p[..1] == [c];
        assert p[1..] == p[1..];
      } else {
        assert p[..1] != [c];
        assert Split(s, [c]) == [[p[0]] + (r + [t])[0]] + (r + [t])[1..];
        assert (r + [t])[0] == r[0];
        assert (r + [t])[1..] == r[1..] + [t];
      }
    }
  }

  /** The last `c`-separated piece of `p + [c] + t` is `t` when `t` holds no `c`. */
  lemma LastSegmentAfter(p: string, c: char, t: string)
    requires c !in t
    ensures LastSegment(p + [c] + t, c) == t
  {
    SplitAppendPiece(p, c, t);
  }

  /** A string without `c` is its own last piece. */
  lemma LastSegmentWhole(s: string, c: char)
    requires c !in s
    ensures LastSegment(s, c) == s
  {
    SplitWithoutSeparator(s, [c]);
  }

  // ---------------------------------------------------------------------------
  // String comparison. A Dafny `char` is a Unicode scalar value, while a
  // JavaScript string is a sequence of UTF-16 code units, and `<` compares
  // those units: a character above U+FFFF (two surrogate units starting in
  // 0xD800..0xDBFF) sorts before U+E000..U+FFFF.

  /** The UTF-16 code units of one character (section 2.1 of RFC 2781). */
  function CodeUnits(c: char): (u: seq<int>)
    ensures 1 <= |u| <= 2
    ensures |u| == 1 <==> (c as int) < 0x10000
    ensures |u| == 1 ==> u[0] == c as int && !(0xD800 <= u[0] < 0xE000)
    ensures |u| == 2 ==> 0xD800 <= u[0] < 0xDC00 && 0xDC00 <= u[1] < 0xE000
  {
    if (c as int) < 0x10000 then [c as int]
    else
      var v := c as int - 0x10000;
      [0xD800 + v / 0x400, 0xDC00 + v % 0x400]
  }

  /** The string as JavaScript stores it. */
  function Utf16(s: string): (u: seq<int>)
    ensures |s| <= |u| <= 2 * |s|
  {
    if |s| == 0 then [] else CodeUnits(s[0]) + Utf16(s[1..])
  }

  /** Lexicographic order of code-unit sequences, a proper prefix first. */
  predicate UnitsLess(a: seq<int>, b: seq<int>)
    decreases |a|
  {
    if |a| == 0 then |b| > 0
    else if |b| == 0 then false
    else if a[0] != b[0] then a[0] < b[0]
    else UnitsLess(a[1..], b[1..])
  }

  /** JavaScript's `a < b` on strings: the order of their UTF-16 code units. */
  predicate StrLess(a: string, b: string) {
    UnitsLess(Utf16(a), Utf16(b))
  }

  /** A character above U+FFFF sorts before U+FFFF, unlike in code-point order. */
  lemma SupplementaryBeforeBmpEnd()
    ensures StrLess("\U{10000}", "\U{FFFF}")
    ensures !StrLess("\U{FFFF}", "\U{10000}")
  {
    assert Utf16("\U{10000}") == [0xD800, 0xDC00];
    assert Utf16("\U{FFFF}") == [0xFFFF];
  }

  /** On characters below U+10000 the order is that of the characters. */
  lemma BmpOrder(x: char, y: char)
    requires (x as int) < 0x10000 && (y as int) < 0x10000
    ensures StrLess([x], [y]) <==> x < y
  {
    assert Utf16([x]) == [x as int] + Utf16([]) && Utf16([y]) == [y as int] + Utf16([]);
    assert [x as int][1..] == [] && [y as int][1..] == [];
    if x == y {
      UnitsLessIrreflexive([x as int]);
    }
  }

  /** The first code units tell which character starts the string. */
  lemma CodeUnitsPrefixFree(x: char, y: char, s: seq<int>, t: seq<int>)
    requires CodeUnits(x) + s == CodeUnits(y) + t
    ensures x == y && s == t
  {
    var ux, uy := CodeUnits(x), CodeUnits(y);
    assert (ux + s)[0] == ux[0] && (uy + t)[0] == uy[0];
    if |ux| == 1 {
      assert |uy| == 1;
      assert (x as int) == (y as int);
    } else {
      assert |uy| == 2;
      assert (ux + s)[1] == ux[1] && (uy + t)[1] == uy[1];
      var vx, vy := x as int - 0x10000, y as int - 0x10000;
      assert vx == 0x400 * (vx / 0x400) + vx % 0x400;
      assert vy == 0x400 * (vy / 0x400) + vy % 0x400;
      assert vx == vy;
    }
    assert s == (ux + s)[|ux|..] && t == (uy + t)[|uy|..];
  }

  /** Different strings have different encodings. */
  lemma {:induction false} Utf16Injective(a: string, b: string)
    requires Utf16(a) == Utf16(b)
    ensures a == b
    decreases |a|
  {
    if |a| > 0 && |b| > 0 {
      CodeUnitsPrefixFree(a[0], b[0], Utf16(a[1..]), Utf16(b[1..]));
      Utf16Injective(a[1..], b[1..]);
      assert a == [a[0]] + a[1..] && b == [b[0]] + b[1..];
    }
  }

  lemma {:induction false} UnitsLessIrreflexive(a: seq<int>)
    ensures !UnitsLess(a, a)
    decreases |a|
  {
    if |a| > 0 {
      UnitsLessIrreflexive(a[1..]);
    }
  }

  lemma {:induction false} UnitsLessTransitive(a: seq<int>, b: seq<int>, c: seq<int>)
    requires UnitsLess(a, b) && UnitsLess(b, c)
    ensures UnitsLess(a, c)
    decreases |a|
  {
    if |a| > 0 && a[0] == b[0] && b[0] == c[0] {
      UnitsLessTransitive(a[1..], b[1..], c[1..]);
    }
  }

  lemma {:induction false} UnitsLessTotal(a: seq<int>, b: seq<int>)
    ensures a == b || UnitsLess(a, b) || UnitsLess(b, a)
    decreases |a|
  {
    if |a| > 0 && |b| > 0 && a[0] == b[0] {
      UnitsLessTotal(a[1..], b[1..]);
      if a[1..] == b[1..] {
        assert a == [a[0]] + a[1..] && b == [b[0]] + b[1..];
      }
    }
  }

  lemma StrLessIrreflexive(a: string)
    ensures !StrLess(a, a)
  {
    UnitsLessIrreflexive(Utf16(a));
  }

  lemma StrLessTransitive(a: string, b: string, c: string)
    requires StrLess(a, b) && StrLess(b, c)
    ensures StrLess(a, c)
  {
    UnitsLessTransitive(Utf16(a), Utf16(b), Utf16(c));
  }

  lemma StrLessTotal(a: string, b: string)
    ensures a == b || StrLess(a, b) || StrLess(b, a)
  {
    UnitsLessTotal(Utf16(a), Utf16(b));
    if Utf16(a) == Utf16(b) {
      Utf16Injective(a, b);
    }
  }

  lemma StrLessAsymmetric(a: string, b: string)
    requires StrLess(a, b)
    ensures !StrLess(b, a)
  {
    if StrLess(b, a) {
      StrLessTransitive(a, b, a);
      StrLessIrreflexive(a);
    }
  }
}
