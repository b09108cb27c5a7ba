/** The JavaScript string operations the forms and pages rely on, over `seq<char>`:
    `replace(/\D/g, "")`, `trim()`, `toLowerCase()`, `includes`, `join` and `split`
    with a one-character separator, and `Number.prototype.toString` for naturals. */
module Text {
  import Lists

  /** `\d` in a JavaScript regular expression: the ASCII digits only. */
  predicate IsDigit(c: char) { '0' <= c <= '9' }

  predicate AllDigits(s: string) { forall i :: 0 <= i < |s| ==> IsDigit(s[i]) }

  function DigitValue(c: char): (v: nat)
    requires IsDigit(c)
    ensures v <= 9
  {
    c as int - '0' as int
  }

  function DigitChar(v: nat): (c: char)
    requires v <= 9
    ensures IsDigit(c) && DigitValue(c) == v
  {
    ('0' as int + v) as char
  }

  /** `s.replace(/\D/g, "")`: the digits of `s`, in order. */
  function Digits(s: string): (r: string)
    ensures AllDigits(r) && |r| <= |s|
  {
    if s == [] then []
    else (if IsDigit(s[0]) then [s[0]] else []) + Digits(s[1..])
  }

  lemma {:induction false} DigitsAppend(a: string, b: string)
    ensures Digits(a + b) == Digits(a) + Digits(b)
  {
    if a == [] {
      assert a + b == b;
    } else {
      var head := if IsDigit(a[0]) then [a[0]] else [];
      assert (a + b)[0] == a[0] && (a + b)[1..] == a[1..] + b;
      assert Digits(a + b) == head + Digits(a[1..] + b);
      DigitsAppend(a[1..], b);
      assert Digits(a) == head + Digits(a[1..]);
      assert head + (Digits(a[1..]) + Digits(b)) == (head + Digits(a[1..])) + Digits(b);
    }
  }

  /** Stripping non-digits from a string of digits gives it back unchanged. */
  lemma {:induction false} DigitsOfDigits(s: string)
    requires AllDigits(s)
    ensures Digits(s) == s
  {
    if s != [] {
      DigitsOfDigits(s[1..]);
      assert [s[0]] + s[1..] == s;
    }
  }

  /** A string with no digit at all (a separator such as ".", "-", "(" or ") ") strips to "". */
  lemma {:induction false} DigitsOfNonDigits(s: string)
    requires forall i :: 0 <= i < |s| ==> !IsDigit(s[i])
    ensures Digits(s) == []
  {
    if s != [] {
      DigitsOfNonDigits(s[1..]);
    }
  }

  /** The characters `String.prototype.trim` removes: ECMAScript WhiteSpace and LineTerminator. */
  predicate IsWhitespace(c: char) {
    var n := c as int;
    (0x09 <= n <= 0x0D) || n == 0x20 || n == 0xA0 || n == 0x1680 || (0x2000 <= n <= 0x200A)
    || n == 0x2028 || n == 0x2029 || n == 0x202F || n == 0x205F || n == 0x3000 || n == 0xFEFF
  }

  /** `trimStart`: what it removes is a run of whitespace at the front. */
  function TrimStart(s: string): (r: string)
    ensures |r| <= |s| && r == s[|s| - |r|..]
    ensures forall k :: 0 <= k < |s| - |r| ==> IsWhitespace(s[k])
  {
    if s != [] && IsWhitespace(s[0]) then
      var r := TrimStart(s[1..]);
      WhitespaceCons(s, |s| - |r|);
      r
    else s
  }

  lemma WhitespaceCons(s: string, n: nat)
    requires 1 <= n <= |s| && IsWhitespace(s[0])
    requires forall k :: 0 <= k < n - 1 ==> IsWhitespace(s[1..][k])
    ensures forall k :: 0 <= k < n ==> IsWhitespace(s[k])
  {
    forall k | 1 <= k < n
      ensures IsWhitespace(s[k])
    {
      assert s[k] == s[1..][k - 1];
    }
  }

  lemma {:induction false} TrimStartEnds(s: string)
    ensures TrimStart(s) == [] || !IsWhitespace(TrimStart(s)[0])
  {
    if s != [] && IsWhitespace(s[0]) {
      TrimStartEnds(s[1..]);
    }
  }

  /** `trimEnd`: what it removes is a run of whitespace at the back. */
  function TrimEnd(s: string): (r: string)
    ensures |r| <= |s| && r == s[..|r|]
    ensures forall k :: |r| <= k < |s| ==> IsWhitespace(s[k])
  {
    if s != [] && IsWhitespace(s[|s| - 1]) then
      var r := TrimEnd(s[..|s| - 1]);
      WhitespaceSnoc(s, s[..|s| - 1], |r|);
      r
    else s
  }

  lemma WhitespaceSnoc(s: string, front: string, n: nat)
    requires n < |s| && IsWhitespace(s[|s| - 1]) && front == s[..|s| - 1]
    requires forall k :: n <= k < |front| ==> IsWhitespace(front[k])
    ensures forall k :: n <= k < |s| ==> IsWhitespace(s[k])
  {
    forall k | n <= k < |s| - 1
      ensures IsWhitespace(s[k])
    {
      assert s[k] == front[k];
    }
  }

  lemma {:induction false} TrimEndEnds(s: string)
    ensures TrimEnd(s) == [] || !IsWhitespace(TrimEnd(s)[|TrimEnd(s)| - 1])
  {
    if s != [] && IsWhitespace(s[|s| - 1]) {
      TrimEndEnds(s[..|s| - 1]);
    }
  }

  /** `s.trim()`: `s` without leading and trailing whitespace. What it keeps is one
      contiguous piece of `s`, and everything around that piece is whitespace. */
  function Trim(s: string): (r: string)
    ensures var i := |s| - |TrimStart(s)|;
      && i + |r| <= |s| && r == s[i..i + |r|]
      && (forall k :: 0 <= k < i ==> IsWhitespace(s[k]))
      && (forall k :: i + |r| <= k < |s| ==> IsWhitespace(s[k]))
  {
    var t := TrimStart(s);
    var r := TrimEnd(t);
    WhitespaceAfter(s, t, r);
    r
  }

  /** Whitespace after the kept prefix of a suffix of `s` is whitespace in `s`. */
  lemma WhitespaceAfter(s: string, t: string, r: string)
    requires |t| <= |s| && t == s[|s| - |t|..] && |r| <= |t| && r == t[..|r|]
    requires forall k :: |r| <= k < |t| ==> IsWhitespace(t[k])
    ensures var i := |s| - |t|; r == s[i..i + |r|]
    ensures forall k :: |s| - |t| + |r| <= k < |s| ==> IsWhitespace(s[k])
  {
    var i := |s| - |t|;
    forall k | i + |r| <= k < |s|
      ensures IsWhitespace(s[k])
    {
      assert s[k] == t[k - i];
    }
  }

  /** What `trim` leaves neither starts nor ends with whitespace. */
  lemma TrimEnds(s: string)
    ensures var r := Trim(s); r == [] || (!IsWhitespace(r[0]) && !IsWhitespace(r[|r| - 1]))
  {
    var t := TrimStart(s);
    var r := TrimEnd(t);
    TrimStartEnds(s);
    TrimEndEnds(t);
    assert r == [] || r[0] == t[0];
  }

  /** Trimming twice is trimming once. */
  lemma TrimIdempotent(s: string)
    ensures Trim(Trim(s)) == Trim(s)
  {
    TrimEnds(s);
  }

  /** The capitals `toLowerCase` maps in Basic Latin and Latin-1: A-Z and U+00C0-U+00DE
      without the multiplication sign U+00D7, each 32 code points below its small letter. */
  predicate IsLatinCapital(c: char) {
    ('A' <= c <= 'Z') || ('\U{C0}' <= c <= '\U{DE}' && c != '\U{D7}')
  }

  /** `toLowerCase` on one character of Basic Latin or Latin-1. */
  function LowerChar(c: char): (d: char)
    ensures IsLatinCapital(c) ==> d as int == c as int + 32
    ensures !IsLatinCapital(c) ==> d == c
    ensures !IsLatinCapital(d)
  {
    if IsLatinCapital(c) then (c as int + 32) as char else c
  }

  /** `s.toLowerCase()`, character by character. */
  function Lower(s: string): (r: string)
    ensures |r| == |s|
    ensures forall i :: 0 <= i < |s| ==> r[i] == LowerChar(s[i])
  {
    seq(|s|, i requires 0 <= i < |s| => LowerChar(s[i]))
  }

  /** `hay.includes(needle)`: `needle` occurs in `hay` as a contiguous substring. */
  predicate Includes(hay: string, needle: string) {
    exists i | 0 <= i <= |hay| :: needle <= hay[i..]
  }

  /** Every string contains the empty string. */
  lemma IncludesEmpty(hay: string)
    ensures Includes(hay, "")
  {
    assert "" <= hay[0..];
  }

  /** `parts.join(sep)`. */
  function Join(parts: seq<string>, sep: char): string {
    if |parts| == 0 then ""
    else if |parts| == 1 then parts[0]
    else parts[0] + [sep] + Join(parts[1..], sep)
  }

  /** `s.split(sep)` for a one-character separator. */
  function Split(s: string, sep: char): (r: seq<string>)
    ensures |r| >= 1
  {
    if s == [] then [""]
    else
      var rest := Split(s[1..], sep);
      if s[0] == sep then [""] + rest else [[s[0]] + rest[0]] + rest[1..]
  }

  /** A string without the separator splits into itself alone. */
  lemma {:induction false} SplitNoSeparator(s: string, sep: char)
    requires sep !in s
    ensures Split(s, sep) == [s]
  {
    if s != [] {
      SplitNoSeparator(s[1..], sep);
      assert [s[0]] + s[1..] == s;
    }
  }

  /** Splitting at a separator placed between `a` and `b` splits each side on its own. */
  lemma {:induction false} SplitAround(a: string, b: string, sep: char)
    ensures Split(a + [sep] + b, sep) == Split(a, sep) + Split(b, sep)
  {
    var s := a + [sep] + b;
    if a == [] {
      assert s[1..] == b;
    } else {
      assert s[0] == a[0] && s[1..] == a[1..] + [sep] + b;
      SplitAround(a[1..], b, sep);
    }
  }

  /** A string that contains the separator splits into at least two pieces. */
  lemma {:induction false} SplitAtLeastTwo(s: string, sep: char)
    requires sep in s
    ensures |Split(s, sep)| >= 2
  {
    if s[0] != sep {
      SplitAtLeastTwo(s[1..], sep);
    }
  }

  /** `split` undoes `join` when no part contains the separator. */
  lemma {:induction false} SplitJoin(parts: seq<string>, sep: char)
    requires |parts| >= 1
    requires forall k :: 0 <= k < |parts| ==> sep !in parts[k]
    ensures Split(Join(parts, sep), sep) == parts
  {
    if |parts| > 1 {
      SplitAround(parts[0], Join(parts[1..], sep), sep);
      SplitJoin(parts[1..], sep);
      SplitNoSeparator(parts[0], sep);
      assert [parts[0]] + parts[1..] == parts;
    } else {
      SplitNoSeparator(parts[0], sep);
    }
  }

  /** Splitting a joined string yields at least one piece per part, and one more for
      every part that itself contains the separator. */
  lemma {:induction false} SplitJoinCount(parts: seq<string>, sep: char, k: nat)
    requires |parts| >= 1 && k < |parts|
    ensures |Split(Join(parts, sep), sep)| >= |parts| + (if sep in parts[k] then 1 else 0)
  {
    if |parts| > 1 {
      SplitAround(parts[0], Join(parts[1..], sep), sep);
      if k == 0 {
        SplitJoinCount(parts[1..], sep, 0);
        if sep in parts[0] { SplitAtLeastTwo(parts[0], sep); }
      } else {
        SplitJoinCount(parts[1..], sep, k - 1);
      }
    } else if sep in parts[0] {
      SplitAtLeastTwo(parts[0], sep);
    }
  }

  /** A character that is not the separator and occurs in no part does not occur in the join. */
  lemma {:induction false} JoinAvoids(parts: seq<string>, sep: char, c: char)
    requires c != sep
    requires forall k :: 0 <= k < |parts| ==> c !in parts[k]
    ensures c !in Join(parts, sep)
  {
    if |parts| > 1 {
      JoinAvoids(parts[1..], sep, c);
    }
  }

  /** `toLowerCase` maps nothing that it has already lowered. */
  lemma LowerIdempotent(s: string)
    ensures Lower(Lower(s)) == Lower(s)
  {
  }

  /** A string ending with the last part: `join` adds no trailing separator. */
  lemma {:induction false} JoinEndsWithLast(parts: seq<string>, sep: char)
    requires |parts| >= 1
    ensures var s := Join(parts, sep); |parts[|parts| - 1]| <= |s| && s[|s| - |parts[|parts| - 1]|..] == parts[|parts| - 1]
  {
    if |parts| > 1 {
      JoinEndsWithLast(parts[1..], sep);
    }
  }

  /** A joined string starts with its first part, followed by the separator when more parts follow. */
  lemma JoinStartsWithFirst(parts: seq<string>, sep: char)
    requires |parts| >= 1
    ensures var s := Join(parts, sep); |parts[0]| <= |s| && s[..|parts[0]|] == parts[0]
    ensures |parts| > 1 ==> Join(parts, sep)[|parts[0]|] == sep
  {
  }

  /** `n.toString()` for a natural number: its decimal digits, most significant first, with
      no leading zero. */
  function DecimalText(n: nat): (r: string)
    ensures |r| >= 1 && AllDigits(r)
    ensures |r| > 1 ==> r[0] != '0'
    ensures n > 0 ==> r[0] != '0'
  {
    if n < 10 then [DigitChar(n)] else DecimalText(n / 10) + [DigitChar(n % 10)]
  }

  /** The number a string of decimal digits denotes. */
  function DecimalValue(s: string): nat
    requires AllDigits(s)
  {
    if s == [] then 0 else 10 * DecimalValue(s[..|s| - 1]) + DigitValue(s[|s| - 1])
  }

  /** The text `DecimalText` writes reads back as the same number. */
  lemma {:induction false} DecimalTextValue(n: nat)
    ensures DecimalValue(DecimalText(n)) == n
  {
    if n >= 10 {
      var r := DecimalText(n);
      assert r[..|r| - 1] == DecimalText(n / 10);
      DecimalTextValue(n / 10);
    }
  }

  /** Distinct numbers have distinct decimal texts. */
  lemma DecimalTextInjective(m: nat, n: nat)
    requires DecimalText(m) == DecimalText(n)
    ensures m == n
  {
    DecimalTextValue(m);
    DecimalTextValue(n);
  }

  /** The number of UTF-16 code units of a character: two for one outside the Basic
      Multilingual Plane (a surrogate pair), one otherwise. */
  function CodeUnits(c: char): nat {
    if c as int > 0xFFFF then 2 else 1
  }

  /** `s.length` in JavaScript: UTF-16 code units, not characters. */
  function JsLength(s: string): (n: nat)
    ensures |s| <= n <= 2 * |s|
  {
    if s == [] then 0 else CodeUnits(s[0]) + JsLength(s[1..])
  }

  /** A string of Basic Multilingual Plane characters has one code unit per character. */
  lemma {:induction false} JsLengthBmp(s: string)
    requires forall i :: 0 <= i < |s| ==> s[i] as int <= 0xFFFF
    ensures JsLength(s) == |s|
  {
    if s != [] {
      JsLengthBmp(s[1..]);
    }
  }

  /** A character outside the Basic Multilingual Plane makes `length` exceed the count of
      characters. */
  lemma {:induction false} JsLengthAstral(s: string, i: nat)
    requires i < |s| && s[i] as int > 0xFFFF
    ensures JsLength(s) > |s|
  {
    if i > 0 {
      JsLengthAstral(s[1..], i - 1);
    }
  }
}
