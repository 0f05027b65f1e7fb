/** String helpers with Python's semantics: `str.strip()`, `str.capitalize()`,
    `str.split(",")` and `", ".join(...)`, and zero-padded decimal formatting. */
module Text {

  /** The characters Python's `str.isspace()` accepts, which `str.strip()` removes. */
  predicate IsSpace(c: char) {
    var n := c as int;
    (0x09 <= n <= 0x0D) || (0x1C <= n <= 0x20) || n == 0x85 || n == 0xA0 || n == 0x1680
    || (0x2000 <= n <= 0x200A) || n == 0x2028 || n == 0x2029 || n == 0x202F || n == 0x205F
    || n == 0x3000
  }

  predicate AllSpace(s: string) {
    forall i :: 0 <= i < |s| ==> IsSpace(s[i])
  }

  /** Neither end of `s` is a whitespace character. */
  predicate Trimmed(s: string) {
    s == [] || (!IsSpace(s[0]) && !IsSpace(s[|s| - 1]))
  }

  /** The number of whitespace characters at the start of `s`. */
  function LeadingSpaces(s: string): (n: nat)
    ensures n <= |s| && AllSpace(s[..n])
    ensures n < |s| ==> !IsSpace(s[n])
  {
    if s != [] && IsSpace(s[0]) then
      var k := LeadingSpaces(s[1..]);
      assert s[..k + 1] == [s[0]] + s[1..][..k];
      k + 1
    else 0
  }

  /** The number of whitespace characters at the end of `s`. */
  function TrailingSpaces(s: string): (n: nat)
    ensures n <= |s| && AllSpace(s[|s| - n..])
    ensures n < |s| ==> !IsSpace(s[|s| - 1 - n])
  {
    if s != [] && IsSpace(s[|s| - 1]) then
      var t := s[..|s| - 1];
      var k := TrailingSpaces(t);
      assert s == t + [s[|s| - 1]];
      AllSpaceSnoc(t, k, s[|s| - 1]);
      k + 1
    else 0
  }

  /** Appending a space to a string that ends in `k` spaces gives one that
      ends in `k + 1`. */
  lemma AllSpaceSnoc(t: string, k: nat, c: char)
    requires k <= |t| && AllSpace(t[|t| - k..]) && IsSpace(c)
    ensures AllSpace((t + [c])[|t| - k..])
  {
    assert (t + [c])[|t| - k..] == t[|t| - k..] + [c];
  }

  /** Python's `s.strip()`: the result is `s` with its leading and trailing
      whitespace removed, and nothing else. */
  function Strip(s: string): (r: string)
    ensures Trimmed(r)
    ensures exists i, j :: 0 <= i <= j <= |s| && r == s[i..j] && AllSpace(s[..i]) && AllSpace(s[j..])
  {
    var i := LeadingSpaces(s);
    if i == |s| then
      assert s[|s|..] == [];
      []
    else
      var j := |s| - TrailingSpaces(s);
      forall k | j <= k < |s| ensures IsSpace(s[k]) {
        assert s[j..][k - j] == s[k];
      }
      assert !IsSpace(s[i]);
      s[i..j]
  }

  /** A whitespace-only string strips to the empty string. */
  lemma StripAllSpace(s: string)
    requires AllSpace(s)
    ensures Strip(s) == []
  {
  }

  /** Stripping a string that is already trimmed changes nothing; in particular
      `Strip` is idempotent. */
  lemma StripTrimmed(s: string)
    requires Trimmed(s)
    ensures Strip(s) == s
  {
    if s != [] {
      assert LeadingSpaces(s) == 0;
      assert TrailingSpaces(s) == 0;
      assert s[0..|s|] == s;
    }
  }

  lemma StripIdempotent(s: string)
    ensures Strip(Strip(s)) == Strip(s)
  {
    StripTrimmed(Strip(s));
  }

  // ---------------------------------------------------------------------------
  // str.capitalize(), on the letters of Latin-1 whose case pairs sit 32
  // code points apart (ASCII, and U+00C0-U+00DE with U+00E0-U+00FE apart
  // from the signs U+00D7 and U+00F7)

  predicate IsLowerCase(c: char) {
    ('a' <= c <= 'z') || ('\U{E0}' <= c <= '\U{FE}' && c != '\U{F7}')
  }

  predicate IsUpperCase(c: char) {
    ('A' <= c <= 'Z') || ('\U{C0}' <= c <= '\U{DE}' && c != '\U{D7}')
  }

  function Upper(c: char): char {
    if IsLowerCase(c) then (c as int - 32) as char else c
  }

  function Lower(c: char): char {
    if IsUpperCase(c) then (c as int + 32) as char else c
  }

  function LowerAll(s: string): (r: string)
    ensures |r| == |s|
    ensures forall i :: 0 <= i < |s| ==> r[i] == Lower(s[i])
  {
    if s == [] then [] else [Lower(s[0])] + LowerAll(s[1..])
  }

  /** Python's `s.capitalize()`: first character upper case, the rest lower case. */
  function Capitalize(s: string): (r: string)
    ensures |r| == |s|
    ensures s != [] ==> r[0] == Upper(s[0]) && !IsLowerCase(r[0])
    ensures forall i :: 1 <= i < |s| ==> r[i] == Lower(s[i]) && !IsUpperCase(r[i])
  {
    if s == [] then [] else [Upper(s[0])] + LowerAll(s[1..])
  }

  lemma CapitalizeIdempotent(s: string)
    ensures Capitalize(Capitalize(s)) == Capitalize(s)
  {
    var c := Capitalize(s);
    var cc := Capitalize(c);
    assert |cc| == |c|;
    forall i | 0 <= i < |c| ensures cc[i] == c[i] {
    }
  }

  /** Capitalizing changes case only. */
  lemma CapitalizeKeepsLetters(s: string)
    ensures forall i :: 0 <= i < |s| ==> Lower(Capitalize(s)[i]) == Lower(s[i])
  {
    var c := Capitalize(s);
    forall i | 0 <= i < |s| ensures Lower(c[i]) == Lower(s[i]) {
      if i == 0 {
        assert c[0] == Upper(s[0]);
      } else {
        assert c[i] == Lower(s[i]);
      }
    }
  }

  // ---------------------------------------------------------------------------
  // str.split(sep) and sep.join(parts)

  /** Python's `s.split(sep)` for a one-character separator. */
  function Split(s: string, sep: char): (parts: seq<string>)
    ensures |parts| >= 1
    ensures forall k :: 0 <= k < |parts| ==> sep !in parts[k]
    decreases |s|
  {
    if s == [] then [[]]
    else
      var rest := Split(s[1..], sep);
      if s[0] == sep then [[]] + rest
      else [[s[0]] + rest[0]] + rest[1..]
  }

  function Join(sep: string, parts: seq<string>): string {
    if parts == [] then []
    else if |parts| == 1 then parts[0]
    else parts[0] + sep + Join(sep, parts[1..])
  }

  /** Splitting on a character and joining back with it gives the original string. */
  lemma {:induction false} JoinSplit(s: string, sep: char)
    ensures Join([sep], Split(s, sep)) == s
    decreases |s|
  {
    if s != [] {
      JoinSplit(s[1..], sep);
      var rest := Split(s[1..], sep);
      if s[0] == sep {
        assert Split(s, sep)[1..] == rest;
        assert s == [sep] + s[1..];
      } else {
        var parts := Split(s, sep);
        if |rest| == 1 {
          assert parts == [[s[0]] + rest[0]];
        } else {
          assert parts[1..] == rest[1..];
          assert Join([sep], rest) == rest[0] + [sep] + Join([sep], rest[1..]);
        }
      }
    }
  }

  /** Joining parts that do not contain the separator and splitting again gives
      the parts back. */
  lemma {:induction false} SplitJoin(parts: seq<string>, sep: char)
    requires |parts| >= 1
    requires forall k :: 0 <= k < |parts| ==> sep !in parts[k]
    ensures Split(Join([sep], parts), sep) == parts
    decreases |parts|, |parts[0]|
  {
    if |parts| == 1 {
      SplitNoSep(parts[0], sep);
    } else {
      var p := parts[0];
      if p == [] {
        SplitJoin(parts[1..], sep);
        assert Join([sep], parts) == [sep] + Join([sep], parts[1..]);
      } else {
        var tail := [p[1..]] + parts[1..];
        SplitJoin(tail, sep);
        assert p[1..] + [sep] + Join([sep], parts[1..]) == Join([sep], tail);
        assert Join([sep], parts) == [p[0]] + Join([sep], tail);
        assert tail[1..] == parts[1..];
        assert [p[0]] + p[1..] == p;
      }
    }
  }

  lemma {:induction false} SplitNoSep(s: string, sep: char)
    requires sep !in s
    ensures Split(s, sep) == [s]
    decreases |s|
  {
    if s != [] {
      SplitNoSep(s[1..], sep);
      assert [s[0]] + s[1..] == s;
    }
  }

  lemma JoinSix(sep: string, a: string, b: string, c: string, d: string, e: string, f: string)
    ensures Join(sep, [a, b, c, d, e, f]) == a + sep + b + sep + c + sep + d + sep + e + sep + f
  {
    assert Join(sep, [e, f]) == e + sep + f by { assert [e, f][1..] == [f]; }
    assert Join(sep, [d, e, f]) == d + sep + Join(sep, [e, f]) by { assert [d, e, f][1..] == [e, f]; }
    assert Join(sep, [c, d, e, f]) == c + sep + Join(sep, [d, e, f]) by { assert [c, d, e, f][1..] == [d, e, f]; }
    assert Join(sep, [b, c, d, e, f]) == b + sep + Join(sep, [c, d, e, f]) by {
      assert [b, c, d, e, f][1..] == [c, d, e, f];
    }
    assert Join(sep, [a, b, c, d, e, f]) == a + sep + Join(sep, [b, c, d, e, f]) by {
      assert [a, b, c, d, e, f][1..] == [b, c, d, e, f];
    }
  }

  // ---------------------------------------------------------------------------
  // Decimal formatting

  function DigitChar(d: int): char
    requires 0 <= d < 10
  {
    ('0' as int + d) as char
  }

  predicate IsDigit(c: char) {
    '0' <= c <= '9'
  }

  function DigitValue(c: char): int
    requires IsDigit(c)
  {
    c as int - '0' as int
  }

  /** `n` in decimal, zero-padded to `width` digits: Python's `f"{n:0{width}d}"`
      (and `strftime`'s two-digit fields) for a number that fits. */
  function PadDigits(n: nat, width: nat): (r: string)
    requires n < Pow10(width)
    ensures |r| == width
    ensures forall i :: 0 <= i < |r| ==> IsDigit(r[i])
  {
    if width == 0 then [] else PadDigits(n / 10, width - 1) + [DigitChar(n % 10)]
  }

  function Pow10(k: nat): nat {
    if k == 0 then 1 else 10 * Pow10(k - 1)
  }

  /** The value a string of decimal digits denotes. */
  function DecimalValue(s: string): nat
    requires forall i :: 0 <= i < |s| ==> IsDigit(s[i])
  {
    if s == [] then 0 else 10 * DecimalValue(s[..|s| - 1]) + DigitValue(s[|s| - 1])
  }

  /** Reading back a zero-padded number gives the number, when it fits. */
  lemma {:induction false} PadDigitsValue(n: nat, width: nat)
    requires n < Pow10(width)
    ensures DecimalValue(PadDigits(n, width)) == n
  {
    if width > 0 {
      PadDigitsValue(n / 10, width - 1);
      var r := PadDigits(n, width);
      assert r[..|r| - 1] == PadDigits(n / 10, width - 1);
    }
  }
}
