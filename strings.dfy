/**
 * The string primitives both halves of the system rely on: splitting on one
 * character (JavaScript `String.prototype.split` and Rust `str::split` agree
 * for a one-character separator), joining, first-occurrence replacement,
 * repeated prefix/suffix stripping (Rust `trim_start_matches` /
 * `trim_end_matches`), and trimming with the two languages' different
 * notions of white space and of length.
 */
module Strings {
  import opened Wrappers

  /** Number of occurrences of `c` in `s`. */
  function Count(s: string, c: char): nat
    decreases |s|
  {
    if |s| == 0 then 0 else (if s[0] == c then 1 else 0) + Count(s[1..], c)
  }

  /** In a string made only of `c`, every character is an occurrence. */
  lemma {:induction false} CountAllSeparators(s: string, c: char)
    requires forall i :: 0 <= i < |s| ==> s[i] == c
    ensures Count(s, c) == |s|
    decreases |s|
  {
    if |s| > 0 {
      CountAllSeparators(s[1..], c);
    }
  }

  /** The pieces of `s` between occurrences of `c`; `""` splits into `[""]`. */
  function Split(s: string, c: char): (parts: seq<string>)
    ensures |parts| >= 1
    decreases |s|
  {
    if |s| == 0 then [""]
    else
      var rest := Split(s[1..], c);
      if s[0] == c then [""] + rest else [[s[0]] + rest[0]] + rest[1..]
  }

  /** Splitting on `c` yields one more piece than there are occurrences of `c`. */
  lemma {:induction false} SplitLength(s: string, c: char)
    ensures |Split(s, c)| == Count(s, c) + 1
    decreases |s|
  {
    if |s| > 0 {
      SplitLength(s[1..], c);
    }
  }

  /** The pieces never contain the separator, and gluing them back with it restores `s`. */
  lemma {:induction false} SplitPieces(s: string, c: char)
    ensures forall i :: 0 <= i < |Split(s, c)| ==> c !in Split(s, c)[i]
    ensures Join(Split(s, c), c) == s
    decreases |s|
  {
    if |s| > 0 {
      SplitPieces(s[1..], c);
      var rest := Split(s[1..], c);
      if s[0] == c {
        assert Split(s, c) == [""] + rest;
        assert Join([""] + rest, c) == "" + [c] + Join(rest, c);
        assert s == [s[0]] + s[1..];
      } else {
        var head := [s[0]] + rest[0];
        assert Split(s, c) == [head] + rest[1..];
        if |rest| == 1 {
          assert s == [s[0]] + s[1..];
        } else {
          assert Join([head] + rest[1..], c) == head + [c] + Join(rest[1..], c);
          assert Join(rest, c) == rest[0] + [c] + Join(rest[1..], c);
          assert s == [s[0]] + s[1..];
        }
      }
    }
  }

  /** The words of `ws` separated by `c` (Rust `join`, JavaScript `Array.prototype.join`). */
  function Join(ws: seq<string>, c: char): string
    decreases |ws|
  {
    if |ws| == 0 then ""
    else if |ws| == 1 then ws[0]
    else ws[0] + [c] + Join(ws[1..], c)
  }

  lemma {:induction false} SplitWithoutSeparator(w: string, c: char)
    requires c !in w
    ensures Split(w, c) == [w]
    decreases |w|
  {
    if |w| > 0 {
      SplitWithoutSeparator(w[1..], c);
      assert w == [w[0]] + w[1..];
    }
  }

  lemma {:induction false} SplitAfterWord(w: string, c: char, t: string)
    requires c !in w
    ensures Split(w + [c] + t, c) == [w] + Split(t, c)
    decreases |w|
  {
    var s := w + [c] + t;
    if |w| == 0 {
      assert s[1..] == t;
    } else {
      assert s[0] == w[0];
      assert s[1..] == w[1..] + [c] + t;
      SplitAfterWord(w[1..], c, t);
      assert w == [w[0]] + w[1..];
    }
  }

  /** Joining separator-free words and splitting again gives the words back. */
  lemma {:induction false} SplitJoin(ws: seq<string>, c: char)
    requires |ws| >= 1
    requires forall i :: 0 <= i < |ws| ==> c !in ws[i]
    ensures Split(Join(ws, c), c) == ws
    decreases |ws|
  {
    if |ws| == 1 {
      SplitWithoutSeparator(ws[0], c);
    } else {
      SplitJoin(ws[1..], c);
      SplitAfterWord(ws[0], c, Join(ws[1..], c));
      assert ws == [ws[0]] + ws[1..];
    }
  }

  predicate StartsWith(s: string, p: string) {
    |p| <= |s| && s[..|p|] == p
  }

  predicate EndsWith(s: string, p: string) {
    |p| <= |s| && s[|s| - |p|..] == p
  }

  /** True when `pat` occurs in `s` at position `i`. */
  predicate OccursAt(s: string, pat: string, i: nat) {
    i + |pat| <= |s| && s[i..i + |pat|] == pat
  }

  /** The first position at or after `from` where `pat` occurs. */
  function IndexFrom(s: string, pat: string, from: nat): (r: Option<nat>)
    ensures r.Some? ==> from <= r.value && OccursAt(s, pat, r.value)
    ensures r.Some? ==> forall j :: from <= j < r.value ==> !OccursAt(s, pat, j)
    ensures r.None? ==> forall j :: from <= j ==> !OccursAt(s, pat, j)
    decreases |s| - from
  {
    if from + |pat| > |s| then None
    else if s[from..from + |pat|] == pat then Some(from)
    else IndexFrom(s, pat, from + 1)
  }

  /** `String.prototype.indexOf`: the first occurrence of `pat` in `s`. */
  function IndexOf(s: string, pat: string): Option<nat> {
    IndexFrom(s, pat, 0)
  }

  /**
   * `String.prototype.replace` with a string pattern: only the first
   * occurrence is replaced, and `s` is returned as is when `pat` is absent.
   */
  function ReplaceFirst(s: string, pat: string, rep: string): (r: string)
    ensures IndexOf(s, pat).None? ==> r == s
    ensures IndexOf(s, pat).Some? ==>
      var i := IndexOf(s, pat).value;
      r == s[..i] + rep + s[i + |pat|..]
  {
    match IndexOf(s, pat)
    case None => s
    case Some(i) => s[..i] + rep + s[i + |pat|..]
  }

  /** Replacing in `before + pat + after`, where `pat` does not occur before, rewrites exactly that occurrence. */
  lemma ReplaceFirstAt(before: string, pat: string, after: string, rep: string)
    requires forall j :: 0 <= j < |before| ==> !OccursAt(before + pat + after, pat, j)
    ensures ReplaceFirst(before + pat + after, pat, rep) == before + rep + after
  {
    var s := before + pat + after;
    assert OccursAt(s, pat, |before|) by {
      assert s[|before|..|before| + |pat|] == pat;
    }
    var i := IndexOf(s, pat).value;
    assert i == |before|;
    assert s[..i] == before;
    assert s[i + |pat|..] == after;
  }

  /** Rust `trim_start_matches` with a string pattern: strip every leading repetition of `p`. */
  function TrimStartMatches(s: string, p: string): (r: string)
    decreases |s|
  {
    if |p| == 0 then s
    else if StartsWith(s, p) then TrimStartMatches(s[|p|..], p)
    else s
  }

  /** Rust `trim_end_matches` with a string pattern: strip every trailing repetition of `p`. */
  function TrimEndMatches(s: string, p: string): (r: string)
    decreases |s|
  {
    if |p| == 0 then s
    else if EndsWith(s, p) then TrimEndMatches(s[..|s| - |p|], p)
    else s
  }

  /** Leading characters satisfying `ws` removed. */
  function TrimStartBy(s: string, ws: char -> bool): string
    decreases |s|
  {
    if |s| > 0 && ws(s[0]) then TrimStartBy(s[1..], ws) else s
  }

  /** Trailing characters satisfying `ws` removed. */
  function TrimEndBy(s: string, ws: char -> bool): string
    decreases |s|
  {
    if |s| > 0 && ws(s[|s| - 1]) then TrimEndBy(s[..|s| - 1], ws) else s
  }

  /** Both ends trimmed, as `trim()` does in either language with its own white-space class. */
  function TrimBy(s: string, ws: char -> bool): string {
    TrimEndBy(TrimStartBy(s, ws), ws)
  }

  lemma {:induction false} TrimStartByEmpty(s: string, ws: char -> bool)
    ensures |TrimStartBy(s, ws)| == 0 <==> forall i :: 0 <= i < |s| ==> ws(s[i])
    decreases |s|
  {
    if |s| > 0 && ws(s[0]) {
      TrimStartByEmpty(s[1..], ws);
      assert forall i :: 1 <= i < |s| ==> s[i] == s[1..][i - 1];
    }
  }

  lemma {:induction false} TrimEndByNonEmpty(s: string, ws: char -> bool)
    requires |s| > 0 && !ws(s[0])
    ensures |TrimEndBy(s, ws)| > 0
    decreases |s|
  {
    if ws(s[|s| - 1]) {
      TrimEndByNonEmpty(s[..|s| - 1], ws);
    }
  }

  /** A string trims to nothing exactly when every character of it is white space. */
  lemma TrimByEmpty(s: string, ws: char -> bool)
    ensures |TrimBy(s, ws)| == 0 <==> forall i :: 0 <= i < |s| ==> ws(s[i])
  {
    TrimStartByEmpty(s, ws);
    var t := TrimStartBy(s, ws);
    if |t| > 0 {
      TrimStartByStops(s, ws);
      TrimEndByNonEmpty(t, ws);
    }
  }

  lemma {:induction false} TrimStartByStops(s: string, ws: char -> bool)
    ensures |TrimStartBy(s, ws)| > 0 ==> !ws(TrimStartBy(s, ws)[0])
    decreases |s|
  {
    if |s| > 0 && ws(s[0]) {
      TrimStartByStops(s[1..], ws);
    }
  }

  /**
   * ECMAScript white space as `String.prototype.trim` removes it: the
   * WhiteSpace production (TAB, VT, FF, ZWNBSP and the Zs category of
   * Unicode) and the LineTerminator production (LF, CR, LS, PS).
   */
  predicate IsJsWhitespace(c: char) {
    var n := c as int;
    n == 0x09 || n == 0x0A || n == 0x0B || n == 0x0C || n == 0x0D || n == 0x20 || n == 0xA0 ||
    n == 0x1680 || (0x2000 <= n <= 0x200A) || n == 0x2028 || n == 0x2029 || n == 0x202F ||
    n == 0x205F || n == 0x3000 || n == 0xFEFF
  }

  /** Rust `char::is_whitespace`: the Unicode `White_Space` property. */
  predicate IsRustWhitespace(c: char) {
    var n := c as int;
    (0x09 <= n <= 0x0D) || n == 0x20 || n == 0x85 || n == 0xA0 || n == 0x1680 ||
    (0x2000 <= n <= 0x200A) || n == 0x2028 || n == 0x2029 || n == 0x202F || n == 0x205F || n == 0x3000
  }

  /** The two white-space classes differ in exactly two characters: NEL and ZWNBSP. */
  lemma WhitespaceClassesDiffer(c: char)
    ensures IsRustWhitespace(c) && !IsJsWhitespace(c) <==> c as int == 0x85
    ensures IsJsWhitespace(c) && !IsRustWhitespace(c) <==> c as int == 0xFEFF
  {
  }

  /** Number of UTF-8 bytes of `s`: Rust `str::len`. */
  function Utf8Len(s: string): nat
    decreases |s|
  {
    if |s| == 0 then 0
    else
      var n := s[0] as int;
      (if n < 0x80 then 1 else if n < 0x800 then 2 else if n < 0x10000 then 3 else 4) + Utf8Len(s[1..])
  }

  /** Number of UTF-16 code units of `s`: JavaScript `length`. */
  function Utf16Len(s: string): nat
    decreases |s|
  {
    if |s| == 0 then 0 else (if s[0] as int < 0x10000 then 1 else 2) + Utf16Len(s[1..])
  }

  /** For ASCII text the two lengths agree with the number of characters. */
  lemma {:induction false} AsciiLengths(s: string)
    requires forall i :: 0 <= i < |s| ==> s[i] as int < 0x80
    ensures Utf8Len(s) == |s| && Utf16Len(s) == |s|
    decreases |s|
  {
    if |s| > 0 {
      AsciiLengths(s[1..]);
    }
  }

  /** Beyond ASCII the byte length can exceed the UTF-16 length: "é" is one code unit but two bytes. */
  lemma LengthsDiverge()
    ensures Utf16Len("\U{E9}") == 1 && Utf8Len("\U{E9}") == 2
  {
  }

  // ---- numerals -----------------------------------------------------------------

  /** A digit of the given radix (10 or 16): `0-9`, and `a-f`/`A-F` in radix 16. */
  predicate IsDigit(c: char, radix: nat) {
    ('0' <= c <= '9') || (radix == 16 && (('a' <= c <= 'f') || ('A' <= c <= 'F')))
  }

  function DigitOf(c: char): nat {
    if '0' <= c <= '9' then (c - '0') as nat
    else if 'a' <= c <= 'f' then (c - 'a') as nat + 10
    else if 'A' <= c <= 'F' then (c - 'A') as nat + 10
    else 0
  }

  /** The value of a digit string, most significant digit first. */
  function DigitsValue(d: string, radix: nat): nat {
    if |d| == 0 then 0 else DigitsValue(d[..|d| - 1], radix) * radix + DigitOf(d[|d| - 1])
  }

  /** The decimal numeral of `n`: no sign and no leading zero. */
  function DecimalText(n: nat): (s: string)
    ensures |s| > 0 && forall i :: 0 <= i < |s| ==> '0' <= s[i] <= '9'
  {
    if n < 10 then [('0' as int + n) as char]
    else DecimalText(n / 10) + [('0' as int + n % 10) as char]
  }

  lemma {:induction false} DecimalTextValue(n: nat)
    ensures DigitsValue(DecimalText(n), 10) == n
  {
    if n >= 10 {
      var s := DecimalText(n);
      assert s[..|s| - 1] == DecimalText(n / 10);
      DecimalTextValue(n / 10);
    }
  }
}
