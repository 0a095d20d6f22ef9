/**
 * String and array primitives of JavaScript, written out in Dafny so that the
 * models of the console's pages can use them with the same meaning as the
 * TypeScript code: `trim` and the regular-expression class `\s` use the
 * ECMAScript white-space set, `indexOf` returns -1 when nothing is found,
 * `split` with a one-character separator keeps empty pieces, and `slice`
 * counts negative bounds from the end.
 */
module JsText {

  /** A value that may be absent: JavaScript's `null`/`undefined` next to a value. */
  datatype Option<T> = None | Some(value: T)

  /** The outcome of an operation that may throw: its value, or the thrown error's message. */
  datatype Result<T> = Ok(value: T) | Error(message: string)

  /** ECMAScript WhiteSpace and LineTerminator code points: the set that both
      `String.prototype.trim` and the regular-expression class `\s` use. */
  predicate IsWhitespace(c: char) {
    var n := c as int;
    n == 0x9 || n == 0xA || n == 0xB || n == 0xC || n == 0xD || n == 0x20 ||
    n == 0xA0 || n == 0x1680 || (0x2000 <= n <= 0x200A) || n == 0x2028 ||
    n == 0x2029 || n == 0x202F || n == 0x205F || n == 0x3000 || n == 0xFEFF
  }

  /** `s.trimStart()` */
  function TrimStart(s: string): (r: string)
    ensures |r| <= |s|
    ensures r == [] || !IsWhitespace(r[0])
    ensures forall k :: 0 <= k < |s| - |r| ==> IsWhitespace(s[k])
  {
    if |s| > 0 && IsWhitespace(s[0]) then TrimStart(s[1..]) else s
  }

  /** `s.trimEnd()` */
  function TrimEnd(s: string): (r: string)
    ensures |r| <= |s|
    ensures r == [] || !IsWhitespace(r[|r| - 1])
    ensures forall k :: |r| <= k < |s| ==> IsWhitespace(s[k])
  {
    if |s| > 0 && IsWhitespace(s[|s| - 1]) then TrimEnd(s[..|s| - 1]) else s
  }

  /** `trimStart` removes a prefix: what is left is a suffix of `s`. */
  lemma {:induction false} TrimStartIsSuffix(s: string)
    ensures TrimStart(s) == s[|s| - |TrimStart(s)|..]
    decreases |s|
  {
    if |s| > 0 && IsWhitespace(s[0]) {
      TrimStartIsSuffix(s[1..]);
    }
  }

  /** `trimEnd` removes a suffix: what is left is a prefix of `s`. */
  lemma {:induction false} TrimEndIsPrefix(s: string)
    ensures TrimEnd(s) == s[..|TrimEnd(s)|]
    decreases |s|
  {
    if |s| > 0 && IsWhitespace(s[|s| - 1]) {
      TrimEndIsPrefix(s[..|s| - 1]);
    }
  }

  /** `s.trim()`: the longest infix of `s` that neither starts nor ends with white space. */
  function Trim(s: string): (r: string)
    ensures r == [] || (!IsWhitespace(r[0]) && !IsWhitespace(r[|r| - 1]))
    ensures |r| <= |s|
  {
    TrimEndIsPrefix(TrimStart(s));
    TrimEnd(TrimStart(s))
  }

  /** Trimming a string that already has no white space at either end changes nothing. */
  lemma {:induction false} TrimOfTrimmed(s: string)
    requires s == [] || (!IsWhitespace(s[0]) && !IsWhitespace(s[|s| - 1]))
    ensures Trim(s) == s
  {
  }

  /** A string that is all white space trims to the empty string, and only such strings do. */
  lemma {:induction false} TrimEmptyIff(s: string)
    ensures Trim(s) == [] <==> forall k :: 0 <= k < |s| ==> IsWhitespace(s[k])
  {
    var t := TrimStart(s);
    if Trim(s) == [] {
      assert TrimEnd(t) == [];
      assert t == [];
    } else {
      var r := Trim(s);
      TrimStartIsSuffix(s);
      TrimEndIsPrefix(t);
      assert r[0] == t[0] == s[|s| - |t|];
    }
  }

  function LowerChar(c: char): char {
    if 'A' <= c <= 'Z' then (c as int + 32) as char else c
  }

  function UpperChar(c: char): char {
    if 'a' <= c <= 'z' then (c as int - 32) as char else c
  }

  /** `s.toLowerCase()` on ASCII letters; every other character is kept. */
  function ToLower(s: string): (r: string)
    ensures |r| == |s|
  {
    seq(|s|, k requires 0 <= k < |s| => LowerChar(s[k]))
  }

  /** `s.toUpperCase()` on ASCII letters; every other character is kept. */
  function ToUpper(s: string): (r: string)
    ensures |r| == |s|
  {
    seq(|s|, k requires 0 <= k < |s| => UpperChar(s[k]))
  }

  /** `pat` occurs in `s` at index `k`. */
  predicate OccursAt(s: string, pat: string, k: int) {
    0 <= k && k + |pat| <= |s| && forall j :: 0 <= j < |pat| ==> s[k + j] == pat[j]
  }

  /** `s.startsWith(p)` */
  predicate StartsWith(s: string, p: string) {
    OccursAt(s, p, 0)
  }

  /** `s.endsWith(p)` */
  predicate EndsWith(s: string, p: string) {
    OccursAt(s, p, |s| - |p|)
  }

  /** `s.includes(sub)` */
  predicate Contains(s: string, sub: string) {
    exists k :: 0 <= k <= |s| - |sub| && OccursAt(s, sub, k)
  }

  /** `s.indexOf(pat, from)` for `0 <= from`: the first occurrence at or after `from`, or -1. */
  function IndexOf(s: string, pat: string, from: nat): (r: int)
    ensures r == -1 || (from <= r && OccursAt(s, pat, r))
    decreases |s| - from
  {
    if from + |pat| > |s| then -1
    else if OccursAt(s, pat, from) then from
    else IndexOf(s, pat, from + 1)
  }

  /** `IndexOf` finds the first occurrence: none starts between `from` and the result. */
  lemma {:induction false} IndexOfFirst(s: string, pat: string, from: nat)
    ensures var r := IndexOf(s, pat, from);
      forall k :: from <= k && (r == -1 || k < r) ==> !OccursAt(s, pat, k)
    decreases |s| - from
  {
    if from + |pat| <= |s| && !OccursAt(s, pat, from) {
      IndexOfFirst(s, pat, from + 1);
    }
  }

  /** `" ".repeat(n)` */
  function Spaces(n: nat): (r: string)
    ensures |r| == n && forall k :: 0 <= k < n ==> r[k] == ' '
  {
    seq(n, _ => ' ')
  }

  // ----- UTF-16 lengths -----

  /** Whether `c` lies outside the Basic Multilingual Plane, where UTF-16 needs a surrogate pair. */
  predicate IsAstral(c: char) {
    c as int > 0xFFFF
  }

  /** `s.length`: JavaScript counts UTF-16 code units, two for a code point above U+FFFF. */
  function Utf16Length(s: string): (n: nat)
    ensures |s| <= n <= 2 * |s|
  {
    if s == [] then 0 else (if IsAstral(s[0]) then 2 else 1) + Utf16Length(s[1..])
  }

  /** The UTF-16 length is the number of code points exactly when none lies above U+FFFF. */
  lemma {:induction false} Utf16LengthCountsUnits(s: string)
    ensures Utf16Length(s) == |s| <==> forall k :: 0 <= k < |s| ==> !IsAstral(s[k])
  {
    if s != [] {
      Utf16LengthCountsUnits(s[1..]);
      assert forall k :: 1 <= k < |s| ==> s[k] == s[1..][k - 1];
    }
  }

  lemma {:induction false} Utf16LengthAppend(a: string, b: string)
    ensures Utf16Length(a + b) == Utf16Length(a) + Utf16Length(b)
  {
    if a != [] {
      assert (a + b)[1..] == a[1..] + b;
      assert (a + b)[0] == a[0];
      Utf16LengthAppend(a[1..], b);
    } else {
      assert a + b == b;
    }
  }

  /** Spaces, like every code point of the Basic Multilingual Plane, count one unit each. */
  lemma SpacesUtf16Length(n: nat)
    ensures Utf16Length(Spaces(n)) == n
  {
    var r := Spaces(n);
    Utf16LengthCountsUnits(r);
    assert forall k :: 0 <= k < |r| ==> !IsAstral(r[k]);
  }

  /** `parts.join(sep)` */
  function Join(parts: seq<string>, sep: string): string {
    if |parts| == 0 then ""
    else if |parts| == 1 then parts[0]
    else parts[0] + sep + Join(parts[1..], sep)
  }

  lemma JoinPair(a: string, b: string, sep: string)
    ensures Join([a, b], sep) == a + sep + b
  {
    assert [a, b][1..] == [b];
  }

  /** `s.split(c)` for a one-character separator: the pieces between separators, empty ones included. */
  function Split(s: string, c: char): (r: seq<string>)
    ensures |r| >= 1
    ensures forall i :: 0 <= i < |r| ==> c !in r[i]
    decreases |s|
  {
    var i := IndexOf(s, [c], 0);
    IndexOfFirst(s, [c], 0);
    if i == -1 then
      assert forall k :: 0 <= k < |s| ==> s[k] != c by {
        forall k | 0 <= k < |s| ensures s[k] != c {
          assert !OccursAt(s, [c], k);
        }
      }
      [s]
    else
      assert forall k :: 0 <= k < i ==> s[k] != c by {
        forall k | 0 <= k < i ensures s[k] != c {
          assert !OccursAt(s, [c], k);
        }
      }
      [s[..i]] + Split(s[i + 1..], c)
  }

  /** Splitting on a separator and joining with it again gives back the string. */
  lemma {:induction false} JoinSplit(s: string, c: char)
    ensures Join(Split(s, c), [c]) == s
    decreases |s|
  {
    var i := IndexOf(s, [c], 0);
    if i != -1 {
      var rest := Split(s[i + 1..], c);
      JoinSplit(s[i + 1..], c);
      assert Split(s, c) == [s[..i]] + rest;
      assert Join([s[..i]] + rest, [c]) == s[..i] + [c] + Join(rest, [c]) by {
        assert ([s[..i]] + rest)[1..] == rest;
      }
      assert s[i..i + 1] == [c];
      assert s == s[..i] + [c] + s[i + 1..];
    }
  }

  /** Joining pieces free of the separator and splitting again gives back the pieces. */
  lemma {:induction false} SplitJoin(parts: seq<string>, c: char)
    requires parts != []
    requires forall i :: 0 <= i < |parts| ==> c !in parts[i]
    ensures Split(Join(parts, [c]), c) == parts
    decreases |parts|
  {
    if |parts| == 1 {
      SplitWithoutSeparator(parts[0], c);
    } else {
      var first, rest := parts[0], Join(parts[1..], [c]);
      var s := first + [c] + rest;
      assert Join(parts, [c]) == s;
      assert OccursAt(s, [c], |first|);
      IndexOfFirst(s, [c], 0);
      var i := IndexOf(s, [c], 0);
      forall k | 0 <= k < |first|
        ensures !OccursAt(s, [c], k)
      {
        assert s[k + 0] == first[k] && first[k] in first && c !in parts[0];
        assert s[k + 0] != [c][0];
      }
      assert i == |first|;
      assert s[..i] == first && s[i + 1..] == rest;
      SplitJoin(parts[1..], c);
    }
  }

  /** A string without the separator splits into itself alone. */
  lemma SplitWithoutSeparator(s: string, c: char)
    requires c !in s
    ensures Split(s, c) == [s]
  {
    forall k | 0 <= k < |s| ensures !OccursAt(s, [c], k) {
      assert s[k] in s && [c][0] == c;
    }
  }

  /** Trimming white space padded around an already trimmed string gives that string back. */
  lemma {:induction false} TrimPadded(p: string, x: string, q: string)
    requires forall k :: 0 <= k < |p| ==> IsWhitespace(p[k])
    requires forall k :: 0 <= k < |q| ==> IsWhitespace(q[k])
    requires x != [] && !IsWhitespace(x[0]) && !IsWhitespace(x[|x| - 1])
    ensures Trim(p + x + q) == x
  {
    TrimStartPadded(p, x + q);
    assert p + x + q == p + (x + q);
    TrimEndPadded(x, q);
  }

  lemma {:induction false} TrimStartPadded(p: string, y: string)
    requires forall k :: 0 <= k < |p| ==> IsWhitespace(p[k])
    requires y != [] && !IsWhitespace(y[0])
    ensures TrimStart(p + y) == y
    decreases |p|
  {
    if p != [] {
      assert (p + y)[1..] == p[1..] + y;
      TrimStartPadded(p[1..], y);
    } else {
      assert p + y == y;
    }
  }

  lemma {:induction false} TrimEndPadded(x: string, q: string)
    requires forall k :: 0 <= k < |q| ==> IsWhitespace(q[k])
    requires x != [] && !IsWhitespace(x[|x| - 1])
    ensures TrimEnd(x + q) == x
    decreases |q|
  {
    if q != [] {
      assert (x + q)[..|x + q| - 1] == x + q[..|q| - 1];
      TrimEndPadded(x, q[..|q| - 1]);
    } else {
      assert x + q == x;
    }
  }

  /** Keeps the elements of `xs` other than `x`: `xs.filter(e => e !== x)`. */
  function Without<T(==)>(xs: seq<T>, x: T): (r: seq<T>)
    ensures x !in r
    ensures forall k :: 0 <= k < |r| ==> r[k] in xs && r[k] != x
    ensures forall k :: 0 <= k < |xs| && xs[k] != x ==> xs[k] in r
    ensures |r| <= |xs|
  {
    if xs == [] then []
    else if xs[0] == x then Without(xs[1..], x)
    else [xs[0]] + Without(xs[1..], x)
  }

  /** Removing an element that does not occur changes nothing. */
  lemma {:induction false} WithoutAbsent<T>(xs: seq<T>, x: T)
    requires x !in xs
    ensures Without(xs, x) == xs
  {
    if xs != [] {
      WithoutAbsent(xs[1..], x);
    }
  }

  /** Removing an element just appended to a list without it gives the list back. */
  lemma {:induction false} WithoutAppended<T>(xs: seq<T>, x: T)
    requires x !in xs
    ensures Without(xs + [x], x) == xs
  {
    if xs == [] {
      assert [x][1..] == [];
    } else {
      assert (xs + [x])[1..] == xs[1..] + [x];
      WithoutAppended(xs[1..], x);
      assert xs == [xs[0]] + xs[1..];
    }
  }

  /** Every element occurs at most once. */
  predicate NoDuplicates<T(==)>(xs: seq<T>) {
    forall i, j :: 0 <= i < j < |xs| ==> xs[i] != xs[j]
  }

  lemma {:induction false} WithoutKeepsNoDuplicates<T>(xs: seq<T>, x: T)
    requires NoDuplicates(xs)
    ensures NoDuplicates(Without(xs, x))
  {
    if xs != [] {
      WithoutKeepsNoDuplicates(xs[1..], x);
    }
  }

  /** `xs.includes(x)` */
  predicate Includes<T(==)>(xs: seq<T>, x: T)
    decreases |xs|
  {
    xs != [] && (xs[0] == x || Includes(xs[1..], x))
  }

  lemma {:induction false} IncludesIsIn<T>(xs: seq<T>, x: T)
    ensures Includes(xs, x) <==> x in xs
  {
    if xs != [] {
      IncludesIsIn(xs[1..], x);
      assert xs == [xs[0]] + xs[1..];
    }
  }

  /** `xs.filter(p)` */
  function Filter<T>(xs: seq<T>, p: T -> bool): (r: seq<T>)
    ensures |r| <= |xs|
    ensures forall k :: 0 <= k < |r| ==> p(r[k])
  {
    if xs == [] then [] else (if p(xs[0]) then [xs[0]] else []) + Filter(xs[1..], p)
  }

  lemma {:induction false} FilterMembers<T>(xs: seq<T>, p: T -> bool, x: T)
    ensures x in Filter(xs, p) <==> x in xs && p(x)
  {
    if xs != [] {
      FilterMembers(xs[1..], p, x);
      assert xs == [xs[0]] + xs[1..];
    }
  }

  /** A filter that keeps every element returns the sequence itself. */
  lemma {:induction false} FilterKeepsAll<T>(xs: seq<T>, p: T -> bool)
    requires forall k :: 0 <= k < |xs| ==> p(xs[k])
    ensures Filter(xs, p) == xs
  {
    if xs != [] {
      FilterKeepsAll(xs[1..], p);
    }
  }

  /** Filters by predicates that agree everywhere agree. */
  lemma {:induction false} FilterSame<T>(xs: seq<T>, p: T -> bool, q: T -> bool)
    requires forall x :: p(x) == q(x)
    ensures Filter(xs, p) == Filter(xs, q)
  {
    if xs != [] {
      FilterSame(xs[1..], p, q);
    }
  }

  /** Filtering twice is filtering once by the conjunction. */
  lemma {:induction false} FilterFilter<T>(xs: seq<T>, p: T -> bool, q: T -> bool, both: T -> bool)
    requires forall x :: both(x) == (p(x) && q(x))
    ensures Filter(Filter(xs, p), q) == Filter(xs, both)
  {
    if xs != [] {
      FilterFilter(xs[1..], p, q, both);
      var rest := Filter(xs[1..], p);
      if p(xs[0]) {
        assert Filter(xs, p) == [xs[0]] + rest;
        assert ([xs[0]] + rest)[1..] == rest;
      } else {
        assert Filter(xs, p) == rest;
      }
    }
  }

  /** Filtering a concatenation filters each part. */
  lemma {:induction false} FilterAppend<T>(a: seq<T>, b: seq<T>, p: T -> bool)
    ensures Filter(a + b, p) == Filter(a, p) + Filter(b, p)
  {
    if a != [] {
      assert (a + b)[1..] == a[1..] + b;
      FilterAppend(a[1..], b, p);
    } else {
      assert a + b == b;
    }
  }

  /** Number of occurrences of `x` in `xs`. */
  function Count<T(==)>(xs: seq<T>, x: T): nat {
    if xs == [] then 0 else (if xs[0] == x then 1 else 0) + Count(xs[1..], x)
  }

  lemma {:induction false} CountAppend<T>(a: seq<T>, b: seq<T>, x: T)
    ensures Count(a + b, x) == Count(a, x) + Count(b, x)
  {
    if a != [] {
      assert (a + b)[1..] == a[1..] + b;
      CountAppend(a[1..], b, x);
    } else {
      assert a + b == b;
    }
  }

  lemma {:induction false} CountAbsent<T>(xs: seq<T>, x: T)
    requires x !in xs
    ensures Count(xs, x) == 0
  {
    if xs != [] {
      CountAbsent(xs[1..], x);
    }
  }

  /** A JavaScript index bound of `slice`: negative counts from the end, then clamped to [0, len]. */
  function SliceBound(b: int, len: nat): (r: nat)
    ensures r <= len
    ensures 0 <= b <= len ==> r == b
  {
    if b < 0 then (if b + len < 0 then 0 else b + len) else if b > len then len else b
  }

  /** `xs.slice(start, end)` */
  function Slice<T>(xs: seq<T>, start: int, end: int): (r: seq<T>)
    ensures var s, e := SliceBound(start, |xs|), SliceBound(end, |xs|);
            |r| == if s < e then e - s else 0
  {
    var s, e := SliceBound(start, |xs|), SliceBound(end, |xs|);
    if s < e then seq(e - s, k requires 0 <= k < e - s => xs[s + k]) else []
  }

  /** Every element of a slice comes from the sliced sequence. */
  lemma SliceMembers<T>(xs: seq<T>, start: int, end: int)
    ensures forall k :: 0 <= k < |Slice(xs, start, end)| ==> Slice(xs, start, end)[k] in xs
  {
    var r := Slice(xs, start, end);
    forall k | 0 <= k < |r|
      ensures r[k] in xs
    {
      assert r[k] == xs[SliceBound(start, |xs|) + k];
    }
  }

  /** A window of `size` elements from `start`: never longer than `size`, clipped at the end,
      and empty from the end on. */
  lemma SliceWindow<T>(xs: seq<T>, start: nat, size: nat)
    ensures |Slice(xs, start, start + size)| <= size
    ensures start <= |xs| ==>
      Slice(xs, start, start + size) == xs[start..if start + size <= |xs| then start + size else |xs|]
    ensures start >= |xs| ==> Slice(xs, start, start + size) == []
  {
  }

  /** Within bounds, `slice` is the subsequence between them. */
  lemma SliceInRange<T>(xs: seq<T>, start: int, end: int)
    requires 0 <= start <= end <= |xs|
    ensures Slice(xs, start, end) == xs[start..end]
  {
  }

  /** A negative bound counts from the end: `slice(start, -n)` drops the last `n` elements. */
  lemma SliceFromEnd<T>(xs: seq<T>, start: nat, n: nat)
    requires 0 < n && start + n <= |xs|
    ensures Slice(xs, start, -(n as int)) == xs[start..|xs| - n]
  {
  }

  // ----- decimal numbers -----

  predicate IsDigit(c: char) {
    '0' <= c <= '9'
  }

  function DigitChar(d: nat): char
    requires d < 10
  {
    ('0' as int + d) as char
  }

  /** The decimal digits of `n`, most significant first, without leading zeros: `String(n)`. */
  function NatToString(n: nat): (r: string)
    ensures |r| >= 1 && forall k :: 0 <= k < |r| ==> IsDigit(r[k])
  {
    if n < 10 then [DigitChar(n)] else NatToString(n / 10) + [DigitChar(n % 10)]
  }

  /** `String(i)` for an integer. */
  function IntToString(i: int): string {
    if i < 0 then "-" + NatToString(-i) else NatToString(i)
  }

  function DigitValue(c: char): nat
    requires IsDigit(c)
  {
    c as int - '0' as int
  }

  /** The value of a string of decimal digits. */
  function DigitsValue(s: string): nat
    requires forall k :: 0 <= k < |s| ==> IsDigit(s[k])
  {
    if s == [] then 0 else DigitsValue(s[..|s| - 1]) * 10 + DigitValue(s[|s| - 1])
  }

  /** A literal without its optional leading sign. */
  function LiteralBody(s: string): string {
    if |s| > 0 && (s[0] == '-' || s[0] == '+') then s[1..] else s
  }

  /** `[+-]?[0-9]+`: the integer literals this model lets `Number` and `parseInt(_, 10)` read. */
  predicate IsIntegerLiteral(s: string) {
    var body := LiteralBody(s);
    |body| >= 1 && forall k :: 0 <= k < |body| ==> IsDigit(body[k])
  }

  /** `parseInt(s, 10)` on an integer literal. */
  function ParseIntLiteral(s: string): int
    requires IsIntegerLiteral(s)
  {
    var v := DigitsValue(LiteralBody(s)) as int;
    if s[0] == '-' then -v else v
  }

  lemma {:induction false} DigitsOfNat(n: nat)
    ensures DigitsValue(NatToString(n)) == n
  {
    if n >= 10 {
      DigitsOfNat(n / 10);
      var r := NatToString(n);
      assert r[..|r| - 1] == NatToString(n / 10);
    }
  }

  /** `Number.MAX_SAFE_INTEGER`: up to this magnitude every integer is a double. */
  const MaxSafeInteger: int := 9007199254740991

  predicate AllDigits(s: string) {
    forall k :: 0 <= k < |s| ==> IsDigit(s[k])
  }

  /** Decimal digits with at most one `.` among them, and at least one digit. */
  predicate IsMantissa(m: string) {
    (|m| >= 1 && AllDigits(m)) ||
    (exists j :: 0 <= j < |m| && m[j] == '.' && |m| >= 2 && AllDigits(m[..j]) && AllDigits(m[j + 1..]))
  }

  /** ExponentPart: `e` or `E`, then a signed integer. */
  predicate IsExponentPart(x: string) {
    |x| >= 2 && (x[0] == 'e' || x[0] == 'E') && IsIntegerLiteral(x[1..])
  }

  /** StrUnsignedDecimalLiteral: `Infinity`, or a mantissa with an optional exponent. */
  predicate IsUnsignedDecimal(u: string) {
    u == "Infinity" ||
    exists e :: 0 <= e <= |u| && IsMantissa(u[..e]) && (e == |u| || IsExponentPart(u[e..]))
  }

  predicate IsHexDigit(c: char) {
    IsDigit(c) || 'a' <= c <= 'f' || 'A' <= c <= 'F'
  }

  /** NonDecimalIntegerLiteral: `0x`, `0o` or `0b` (either case) and at least one digit of that base. */
  predicate IsNonDecimalInteger(t: string) {
    |t| >= 3 && t[0] == '0' &&
    ((t[1] in "xX" && forall k :: 2 <= k < |t| ==> IsHexDigit(t[k])) ||
     (t[1] in "oO" && forall k :: 2 <= k < |t| ==> '0' <= t[k] <= '7') ||
     (t[1] in "bB" && forall k :: 2 <= k < |t| ==> t[k] == '0' || t[k] == '1'))
  }

  /** StringNumericLiteral: the strings `Number(s)` reads as a number and not as `NaN`. Around
      white space there is nothing, a decimal literal with an optional sign (`Infinity` included),
      or an unsigned hexadecimal, octal or binary literal. */
  predicate IsNumericString(s: string) {
    var t := Trim(s);
    t == [] || IsUnsignedDecimal(LiteralBody(t)) || IsNonDecimalInteger(t)
  }

  /** A mantissa begins with a digit or the point. */
  lemma MantissaStart(m: string)
    requires IsMantissa(m)
    ensures |m| >= 1 && (IsDigit(m[0]) || m[0] == '.')
  {
    if !(|m| >= 1 && AllDigits(m)) {
      var j :| 0 <= j < |m| && m[j] == '.' && |m| >= 2 && AllDigits(m[..j]) && AllDigits(m[j + 1..]);
      if j > 0 {
        assert m[..j][0] == m[0];
      }
    }
  }

  /** A string without white space at its ends whose first character can begin no numeric
      literal (not a digit, a sign, the point or the `I` of `Infinity`) is not numeric. */
  lemma NotNumericByFirstChar(s: string)
    requires |s| >= 1 && !IsWhitespace(s[0]) && !IsWhitespace(s[|s| - 1])
    requires !IsDigit(s[0]) && s[0] != '+' && s[0] != '-' && s[0] != '.' && s[0] != 'I'
    ensures !IsNumericString(s)
  {
    TrimOfTrimmed(s);
    assert LiteralBody(s) == s;
    forall e | 0 <= e <= |s| && IsMantissa(s[..e])
      ensures false
    {
      MantissaStart(s[..e]);
    }
  }

  /** The number of leading decimal digits. */
  function DigitRun(s: string): (n: nat)
    ensures n <= |s| && AllDigits(s[..n]) && (n == |s| || !IsDigit(s[n]))
  {
    if |s| > 0 && IsDigit(s[0]) then
      var n := DigitRun(s[1..]) + 1;
      assert forall k :: 1 <= k < n ==> s[..n][k] == s[1..][..n - 1][k - 1];
      n
    else 0
  }

  /** `parseInt(s, 10)`: leading white space and one sign are skipped, then the longest run of
      decimal digits is read; `None` is `NaN`, when the run is empty. */
  function ParseInt(s: string): Option<int> {
    var t := TrimStart(s);
    var body := LiteralBody(t);
    var n := DigitRun(body);
    if n == 0 then None
    else
      var v := DigitsValue(body[..n]) as int;
      Some(if |t| > 0 && t[0] == '-' then -v else v)
  }

  /** On an integer literal `parseInt` reads the whole literal. */
  lemma ParseIntOfLiteral(s: string)
    requires IsIntegerLiteral(s)
    ensures ParseInt(s) == Some(ParseIntLiteral(s))
  {
    var body := LiteralBody(s);
    assert !IsWhitespace(s[0]) by {
      assert IsDigit(s[0]) || s[0] == '-' || s[0] == '+' by {
        if |s| > 0 && (s[0] == '-' || s[0] == '+') {
        } else {
          assert s[0] == body[0];
        }
      }
    }
    assert TrimStart(s) == s;
    assert DigitRun(body) == |body|;
    assert body[..|body|] == body;
  }

  /** Reading back the decimal rendering of a safe integer yields the integer: `String(i)` is a
      numeric string without a point, and `parseInt` of it gives `i`. */
  lemma IntToStringRoundTrip(i: int)
    requires -MaxSafeInteger <= i <= MaxSafeInteger
    ensures IsIntegerLiteral(IntToString(i)) && '.' !in IntToString(i)
    ensures ParseIntLiteral(IntToString(i)) == i
    ensures IsNumericString(IntToString(i))
    ensures ParseInt(IntToString(i)) == Some(i)
  {
    IntToStringIsLiteral(i);
    IntegerIsNumeric(IntToString(i));
    ParseIntOfLiteral(IntToString(i));
  }

  /** `String(i)` is an optional minus sign and the digits of `|i|`, read back as `i`. */
  lemma IntToStringIsLiteral(i: int)
    ensures IsIntegerLiteral(IntToString(i)) && '.' !in IntToString(i)
    ensures ParseIntLiteral(IntToString(i)) == i
  {
    var s := IntToString(i);
    if i < 0 {
      var body := NatToString(-i);
      DigitsOfNat(-i);
      assert s == "-" + body;
      assert s[0] == '-' && s[1..] == body;
      assert LiteralBody(s) == body;
    } else {
      var body := NatToString(i);
      DigitsOfNat(i);
      assert s == body && IsDigit(s[0]);
      assert LiteralBody(s) == body;
    }
  }

  /** An integer literal is a numeric string. */
  lemma IntegerIsNumeric(s: string)
    requires IsIntegerLiteral(s)
    ensures IsNumericString(s)
  {
    var body := LiteralBody(s);
    assert IsDigit(s[|s| - 1]) by {
      assert s[|s| - 1] == body[|body| - 1];
    }
    assert !IsWhitespace(s[0]) by {
      if !(s[0] == '-' || s[0] == '+') {
        assert s[0] == body[0];
      }
    }
    TrimOfTrimmed(s);
    assert body[..|body|] == body;
    assert IsMantissa(body);
  }
}
