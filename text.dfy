/** The pieces of the JavaScript string and array runtime that the application
    relies on, stated over `string` (`seq<char>`): `trim`, `split` on one
    character, `join`, `padStart`, decimal printing of numbers, and the
    de-duplication performed by `Array.from(new Set(xs))`. */
module Text {

  // ---------------------------------------------------------------------------
  // trim

  /** The code points `String.prototype.trim` removes: ECMAScript WhiteSpace
      and LineTerminator. */
  predicate IsJsWhitespace(c: char) {
    || c == '\t' || c == '\n' || c == '\U{B}' || c == '\U{C}' || c == '\r' || c == ' '
    || c == '\U{A0}' || c == '\U{1680}' || ('\U{2000}' <= c <= '\U{200A}')
    || c == '\U{2028}' || c == '\U{2029}' || c == '\U{202F}' || c == '\U{205F}'
    || c == '\U{3000}' || c == '\U{FEFF}'
  }

  /** Drops the leading whitespace: the result is the suffix of `s` that
      starts at its first non-whitespace character. */
  function TrimStart(s: string): (r: string)
    ensures |r| <= |s| && r == s[|s| - |r|..]
    ensures r == [] || !IsJsWhitespace(r[0])
    ensures forall k :: 0 <= k < |s| - |r| ==> IsJsWhitespace(s[k])
  {
    if s == [] || !IsJsWhitespace(s[0]) then s else TrimStart(s[1..])
  }

  /** Drops the trailing whitespace: the result is the prefix of `s` that
      ends at its last non-whitespace character. */
  function TrimEnd(s: string): (r: string)
    ensures |r| <= |s| && r == s[..|r|]
    ensures r == [] || !IsJsWhitespace(r[|r| - 1])
    ensures forall k :: |r| <= k < |s| ==> IsJsWhitespace(s[k])
  {
    if s == [] || !IsJsWhitespace(s[|s| - 1]) then s else TrimEnd(s[..|s| - 1])
  }

  /** `s.trim()`. */
  function Trim(s: string): string {
    TrimEnd(TrimStart(s))
  }

  /** The trimmed string neither starts nor ends with whitespace, and every
      character that was cut off is whitespace. */
  lemma TrimShape(s: string)
    ensures |Trim(s)| <= |s|
    ensures Trim(s) == [] || (!IsJsWhitespace(Trim(s)[0]) && !IsJsWhitespace(Trim(s)[|Trim(s)| - 1]))
  {
    var u := TrimStart(s);
    var r := TrimEnd(u);
    if r != [] {
      assert r[0] == u[0];
    }
  }

  /** A string is left alone by `trim` exactly when it neither starts nor
      ends with whitespace. */
  lemma TrimFixedPoint(s: string)
    ensures Trim(s) == s <==> (s == [] || (!IsJsWhitespace(s[0]) && !IsJsWhitespace(s[|s| - 1])))
  {
    TrimShape(s);
  }

  /** A space in front of a trimmed, non-empty string is trimmed away. */
  lemma TrimSpaced(x: string)
    requires x != [] && Trim(x) == x
    ensures Trim(" " + x) == x
  {
    TrimFixedPoint(x);
    assert (" " + x)[1..] == x;
    assert TrimStart(" " + x) == TrimStart(x) == x;
  }

  /** Trimming twice is trimming once. */
  lemma TrimIdempotent(s: string)
    ensures Trim(Trim(s)) == Trim(s)
  {
    TrimShape(s);
    TrimFixedPoint(Trim(s));
  }

  // ---------------------------------------------------------------------------
  // split and join

  /** `s.split(sep)` for a one-character separator: the maximal pieces of `s`
      between separators, empty pieces included. */
  function Split(s: string, sep: char): (parts: seq<string>)
    ensures |parts| >= 1
    ensures forall k :: 0 <= k < |parts| ==> sep !in parts[k]
    decreases |s|
  {
    if s == [] then [""]
    else
      var rest := Split(s[1..], sep);
      if s[0] == sep then [""] + rest else [[s[0]] + rest[0]] + rest[1..]
  }

  /** `xs.join(sep)`. */
  function Join(sep: string, xs: seq<string>): string
  {
    if |xs| == 0 then "" else if |xs| == 1 then xs[0] else xs[0] + sep + Join(sep, xs[1..])
  }

  /** Joining one more element adds the separator and the element at the end. */
  lemma {:induction false} JoinAppend(sep: string, xs: seq<string>, x: string)
    ensures Join(sep, xs + [x]) == if xs == [] then x else Join(sep, xs) + sep + x
  {
    if |xs| > 1 {
      assert (xs + [x])[1..] == xs[1..] + [x];
      JoinAppend(sep, xs[1..], x);
    }
  }

  /** Splitting and joining back with the same separator gives the string back. */
  lemma {:induction false} JoinSplit(s: string, sep: char)
    ensures Join([sep], Split(s, sep)) == s
    decreases |s|
  {
    if s != [] {
      var rest := Split(s[1..], sep);
      JoinSplit(s[1..], sep);
      if s[0] == sep {
        assert Split(s, sep) == [""] + rest;
        assert ([""] + rest)[1..] == rest;
      } else if |rest| == 1 {
        assert Split(s, sep) == [[s[0]] + rest[0]];
      } else {
        var parts := [[s[0]] + rest[0]] + rest[1..];
        assert parts[1..] == rest[1..];
        assert Join([sep], rest) == rest[0] + [sep] + Join([sep], rest[1..]);
      }
    }
  }

  /** A piece without separators splits to itself. */
  lemma {:induction false} SplitNoSeparator(w: string, sep: char)
    requires sep !in w
    ensures Split(w, sep) == [w]
    decreases |w|
  {
    if w != [] {
      assert w == [w[0]] + w[1..] && w[0] != sep;
      SplitNoSeparator(w[1..], sep);
    }
  }

  /** A separator-free piece followed by the separator splits off as one part. */
  lemma {:induction false} SplitAfterPiece(w: string, sep: char, t: string)
    requires sep !in w
    ensures Split(w + [sep] + t, sep) == [w] + Split(t, sep)
    decreases |w|
  {
    var s := w + [sep] + t;
    if w == [] {
      assert s[1..] == t;
    } else {
      assert s[0] == w[0] != sep;
      assert s[1..] == w[1..] + [sep] + t;
      SplitAfterPiece(w[1..], sep, t);
      assert w == [w[0]] + w[1..];
    }
  }

  /** Joining separator-free pieces and splitting again gives the pieces back. */
  lemma {:induction false} SplitJoin(xs: seq<string>, sep: char)
    requires |xs| >= 1
    requires forall k :: 0 <= k < |xs| ==> sep !in xs[k]
    ensures Split(Join([sep], xs), sep) == xs
  {
    if |xs| == 1 {
      SplitNoSeparator(xs[0], sep);
    } else {
      SplitAfterPiece(xs[0], sep, Join([sep], xs[1..]));
      SplitJoin(xs[1..], sep);
    }
  }

  /** `xs.join('')` of two lists is the concatenation of their joins. */
  lemma {:induction false} ConcatAppend(a: seq<string>, b: seq<string>)
    ensures Join("", a + b) == Join("", a) + Join("", b)
    decreases |a|
  {
    if a == [] {
      assert a + b == b;
    } else if b == [] {
      assert a + b == a;
    } else if |a| == 1 {
      assert (a + b)[1..] == b;
    } else {
      assert (a + b)[1..] == a[1..] + b;
      ConcatAppend(a[1..], b);
    }
  }

  /** Element `i` of a list appears, whole, in the list's `join('')`. */
  lemma ConcatAt(xs: seq<string>, i: nat)
    requires i < |xs|
    ensures Join("", xs) == Join("", xs[..i]) + (xs[i] + Join("", xs[i + 1..]))
  {
    SliceAround(xs, i);
    ConcatAppend(xs[..i], [xs[i]] + xs[i + 1..]);
    ConcatCons(xs[i], xs[i + 1..]);
  }

  lemma SliceAround<T>(xs: seq<T>, i: nat)
    requires i < |xs|
    ensures xs == xs[..i] + ([xs[i]] + xs[i + 1..])
  {
  }

  lemma ConcatCons(x: string, xs: seq<string>)
    ensures Join("", [x] + xs) == x + Join("", xs)
  {
    if xs == [] {
      assert [x] + xs == [x];
    } else {
      assert ([x] + xs)[1..] == xs;
    }
  }

  // ---------------------------------------------------------------------------
  // decimal numbers

  predicate IsDigit(c: char) {
    '0' <= c <= '9'
  }

  predicate AllDigits(s: string) {
    forall k :: 0 <= k < |s| ==> IsDigit(s[k])
  }

  /** A decimal numeral as `String(n)` prints one: at least one digit, and no
      leading zero unless the numeral is "0". */
  predicate IsCanonicalDecimal(s: string) {
    |s| >= 1 && AllDigits(s) && (|s| > 1 ==> s[0] != '0')
  }

  function DigitChar(d: nat): (c: char)
    requires d < 10
    ensures IsDigit(c) && c as int - '0' as int == d
  {
    ('0' as int + d) as char
  }

  /** `String(n)` for a natural number: its canonical decimal numeral. */
  function NatToString(n: nat): (s: string)
    ensures IsCanonicalDecimal(s)
    decreases n
  {
    if n < 10 then [DigitChar(n)] else NatToString(n / 10) + [DigitChar(n % 10)]
  }

  /** `String(i)` for an integer: a minus sign before negative numbers. */
  function IntToString(i: int): (s: string)
    ensures |s| >= 1
  {
    if i < 0 then "-" + NatToString(-i) else NatToString(i)
  }

  /** The number a string of decimal digits denotes. */
  function DigitsValue(s: string): nat
    requires AllDigits(s)
  {
    if s == [] then 0 else 10 * DigitsValue(s[..|s| - 1]) + (s[|s| - 1] as int - '0' as int)
  }

  /** Reading back a printed number gives the number. */
  lemma {:induction false} DigitsValueOfNatToString(n: nat)
    ensures DigitsValue(NatToString(n)) == n
    decreases n
  {
    if n >= 10 {
      var s := NatToString(n);
      assert s[..|s| - 1] == NatToString(n / 10);
      DigitsValueOfNatToString(n / 10);
    }
  }

  lemma {:induction false} CanonicalPositive(s: string)
    requires IsCanonicalDecimal(s) && s[0] != '0'
    ensures DigitsValue(s) >= 1
  {
    if |s| > 1 {
      CanonicalPositive(s[..|s| - 1]);
    }
  }

  /** Printing the value of a canonical numeral gives the numeral back, so
      `NatToString` is a bijection between naturals and canonical numerals. */
  lemma {:induction false} NatToStringOfDigitsValue(s: string)
    requires IsCanonicalDecimal(s)
    ensures NatToString(DigitsValue(s)) == s
  {
    if |s| > 1 {
      var p := s[..|s| - 1];
      CanonicalPositive(p);
      NatToStringOfDigitsValue(p);
      var d := s[|s| - 1] as int - '0' as int;
      var v := DigitsValue(s);
      assert v / 10 == DigitsValue(p) && v % 10 == d;
      assert s == p + [s[|s| - 1]];
    }
  }

  /** Leading zeros do not change the value of a numeral. */
  lemma {:induction false} DigitsValueLeadingZeros(z: nat, t: string)
    requires AllDigits(t)
    ensures AllDigits(Repeat('0', z) + t)
    ensures DigitsValue(Repeat('0', z) + t) == DigitsValue(t)
    decreases z, |t|
  {
    var s := Repeat('0', z) + t;
    if t == [] {
      if z > 0 {
        assert s == Repeat('0', z - 1) + "0";
        DigitsValueLeadingZeros(z - 1, "0");
        assert DigitsValue("0") == 0;
        assert Repeat('0', z - 1) + "0" == Repeat('0', z - 1) + [] + "0";
        assert s[..|s| - 1] == Repeat('0', z - 1);
        DigitsValueLeadingZeros(z - 1, []);
        assert Repeat('0', z - 1) + [] == Repeat('0', z - 1);
      }
    } else {
      var t' := t[..|t| - 1];
      assert s[..|s| - 1] == Repeat('0', z) + t';
      DigitsValueLeadingZeros(z, t');
    }
  }

  // ---------------------------------------------------------------------------
  // padding and case

  function Repeat(c: char, n: nat): (r: string)
    ensures |r| == n && forall k :: 0 <= k < n ==> r[k] == c
  {
    if n == 0 then "" else [c] + Repeat(c, n - 1)
  }

  /** `s.padStart(width, fill)` with a one-character fill: `s` itself when it
      is already `width` long, otherwise `s` preceded by enough `fill`s to
      reach `width`. */
  function PadStart(s: string, width: nat, fill: char): (r: string)
    ensures |r| == if |s| >= width then |s| else width
    ensures r[|r| - |s|..] == s
    ensures forall k :: 0 <= k < |r| - |s| ==> r[k] == fill
  {
    if |s| >= width then s else Repeat(fill, width - |s|) + s
  }

  /** `toUpperCase` on one character, for the ASCII letters. */
  function ToUpperAscii(c: char): (u: char)
    ensures 'a' <= c <= 'z' ==> 'A' <= u <= 'Z' && u as int - c as int == 'A' as int - 'a' as int
    ensures !('a' <= c <= 'z') ==> u == c
  {
    if 'a' <= c <= 'z' then (c as int - 'a' as int + 'A' as int) as char else c
  }

  // ---------------------------------------------------------------------------
  // sequences

  predicate StartsWith(s: string, prefix: string) {
    |prefix| <= |s| && s[..|prefix|] == prefix
  }

  predicate IsAt(s: string, part: string, k: int) {
    0 <= k <= |s| - |part| && s[k..k + |part|] == part
  }

  /** `s.includes(part)`. */
  ghost predicate Contains(s: string, part: string) {
    exists k :: IsAt(s, part, k)
  }

  lemma ContainsMiddle(a: string, b: string, c: string)
    ensures Contains(a + b + c, b)
  {
    var s := a + b + c;
    assert s[|a|..|a| + |b|] == b;
    assert IsAt(s, b, |a|);
  }

  lemma ContainsInner(a: string, b: string, c: string)
    ensures Contains(a + (b + c), b)
  {
    var s := a + (b + c);
    assert s[|a|..|a| + |b|] == b;
    assert IsAt(s, b, |a|);
  }

  lemma ContainsFirst(a: string, b: string, c: string)
    ensures Contains(a + b + c, a)
  {
    assert (a + b + c)[..|a|] == a;
    assert IsAt(a + b + c, a, 0);
  }

  lemma ContainsWhole(s: string)
    ensures Contains(s, s)
  {
    assert IsAt(s, s, 0);
  }

  lemma ContainsTransitive(a: string, b: string, c: string)
    requires Contains(a, b) && Contains(b, c)
    ensures Contains(a, c)
  {
    var i :| IsAt(a, b, i);
    var j :| IsAt(b, c, j);
    forall k | 0 <= k < |c|
      ensures a[i + j + k] == c[k]
    {
      assert a[i..i + |b|][j + k] == b[j + k];
      assert b[j..j + |c|][k] == c[k];
    }
    assert IsAt(a, c, i + j);
  }

  predicate NoDups<T(==)>(xs: seq<T>) {
    forall i, j :: 0 <= i < j < |xs| ==> xs[i] != xs[j]
  }

  /** `Array.from(new Set(xs))`: every element once, at its first occurrence. */
  function Dedup(xs: seq<string>): (r: seq<string>)
    ensures NoDups(r)
    ensures forall x :: x in r <==> x in xs
  {
    if xs == [] then []
    else
      var d := Dedup(xs[..|xs| - 1]);
      var x := xs[|xs| - 1];
      if x in d then d else d + [x]
  }

  /** A list without duplicates is left as it is by `Dedup`. */
  lemma {:induction false} DedupOfDistinct(xs: seq<string>)
    requires NoDups(xs)
    ensures Dedup(xs) == xs
  {
    if xs != [] {
      var p := xs[..|xs| - 1];
      DedupOfDistinct(p);
      assert xs == p + [xs[|xs| - 1]];
    }
  }

  /** De-duplicating a duplicate-free list with one element appended keeps
      the list and appends the element only if it is new. */
  lemma DedupAppend(xs: seq<string>, x: string)
    requires NoDups(xs)
    ensures Dedup(xs + [x]) == if x in xs then xs else xs + [x]
  {
    assert (xs + [x])[..|xs|] == xs;
    DedupOfDistinct(xs);
  }

  /** `xs.filter(y => y !== x)`. */
  function RemoveAll(xs: seq<string>, x: string): (r: seq<string>)
    ensures x !in r
    ensures forall y :: y in r <==> y in xs && y != x
    ensures forall y :: y != x ==> multiset(r)[y] == multiset(xs)[y]
  {
    if xs == [] then []
    else
      assert xs == [xs[0]] + xs[1..];
      if xs[0] == x then RemoveAll(xs[1..], x)
    else [xs[0]] + RemoveAll(xs[1..], x)
  }

  /** Removing an element that is not there changes nothing. */
  lemma {:induction false} RemoveAllAbsent(xs: seq<string>, x: string)
    requires x !in xs
    ensures RemoveAll(xs, x) == xs
  {
    if xs != [] {
      RemoveAllAbsent(xs[1..], x);
    }
  }

  /** Removal works piece by piece: the order of what is kept is the order
      of the input. */
  lemma {:induction false} RemoveAllAppend(a: seq<string>, b: seq<string>, x: string)
    ensures RemoveAll(a + b, x) == RemoveAll(a, x) + RemoveAll(b, x)
  {
    if a == [] {
      assert a + b == b;
    } else {
      assert (a + b)[0] == a[0] && (a + b)[1..] == a[1..] + b;
      RemoveAllAppend(a[1..], b, x);
    }
  }

  /** `xs.filter(Boolean)` on strings: the empty strings dropped. */
  function NonEmpty(xs: seq<string>): (r: seq<string>)
    ensures "" !in r
    ensures forall y :: y in r <==> y in xs && y != ""
    ensures forall y :: y != "" ==> multiset(r)[y] == multiset(xs)[y]
  {
    RemoveAll(xs, "")
  }
}
