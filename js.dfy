/** The pieces of JavaScript's built-in semantics that the application's
    expressions rely on: truthiness, `String.prototype.length`, `trim`,
    number-to-string, `padStart`, string comparison, `Array.prototype.join`,
    `String.prototype.split`, and the "fill an object from a list" `reduce`. */
module Js {
  import opened Wrappers

  // ---------------------------------------------------------------------
  // Truthiness and length

  /** JavaScript truthiness of an optional string: `null`, `undefined`
      and the empty string are falsy, every other string is truthy. */
  predicate Truthy(s: Option<string>) {
    s.Some? && s.value != ""
  }

  /** `s.length` in JavaScript counts UTF-16 code units: a character outside
      the Basic Multilingual Plane takes two. This is what zod's `min(n)` on
      a string compares against. */
  function Utf16Length(s: string): (n: nat)
    ensures |s| <= n <= 2 * |s|
    ensures n == 0 <==> s == []
  {
    if s == [] then 0 else (if s[0] as int >= 0x1_0000 then 2 else 1) + Utf16Length(s[1..])
  }

  // ---------------------------------------------------------------------
  // trim()

  /** ECMAScript WhiteSpace and LineTerminator code points, the characters
      `String.prototype.trim` removes. */
  predicate IsWhiteSpace(c: char) {
    var k := c as int;
    k == 0x09 || k == 0x0A || k == 0x0B || k == 0x0C || k == 0x0D || k == 0x20
    || k == 0xA0 || k == 0x1680 || (0x2000 <= k <= 0x200A) || k == 0x2028 || k == 0x2029
    || k == 0x202F || k == 0x205F || k == 0x3000 || k == 0xFEFF
  }

  /** The first index at or after `i` that is not white space (or `|s|`). */
  function SkipSpace(s: string, i: nat): (j: nat)
    requires i <= |s|
    ensures i <= j <= |s|
    ensures forall k :: i <= k < j ==> IsWhiteSpace(s[k])
    ensures j < |s| ==> !IsWhiteSpace(s[j])
    decreases |s| - i
  {
    if i < |s| && IsWhiteSpace(s[i]) then SkipSpace(s, i + 1) else i
  }

  /** The end of `s[i..j]` once its trailing white space is dropped. */
  function SkipSpaceBack(s: string, i: nat, j: nat): (e: nat)
    requires i <= j <= |s|
    ensures i <= e <= j
    ensures forall k :: e <= k < j ==> IsWhiteSpace(s[k])
    ensures e > i ==> !IsWhiteSpace(s[e - 1])
  {
    if j > i && IsWhiteSpace(s[j - 1]) then SkipSpaceBack(s, i, j - 1) else j
  }

  /** `s.trim()`: empty exactly when `s` is all white space, and otherwise
      starting and ending with a character that is not (see `TrimIsMiddle`
      for where it lies in `s`). */
  function Trim(s: string): (r: string)
    ensures r == [] <==> forall k :: 0 <= k < |s| ==> IsWhiteSpace(s[k])
    ensures r != [] ==> !IsWhiteSpace(r[0]) && !IsWhiteSpace(r[|r| - 1])
  {
    var i := SkipSpace(s, 0);
    var j := SkipSpaceBack(s, i, |s|);
    s[i..j]
  }

  /** The trimmed text is the part of `s` between its leading and its
      trailing white space. */
  lemma TrimIsMiddle(s: string)
    ensures exists i, j :: (0 <= i <= j <= |s| && Trim(s) == s[i..j]
      && (forall k :: 0 <= k < i ==> IsWhiteSpace(s[k]))
      && (forall k :: j <= k < |s| ==> IsWhiteSpace(s[k])))
  {
    var i := SkipSpace(s, 0);
    var j := SkipSpaceBack(s, i, |s|);
    assert Trim(s) == s[i..j];
  }

  // ---------------------------------------------------------------------
  // Decimal digits: Number.prototype.toString and padStart

  function Pow10(n: nat): (r: nat)
    ensures r >= 1
  {
    if n == 0 then 1 else 10 * Pow10(n - 1)
  }

  predicate IsDigit(c: char) {
    '0' as int <= c as int <= '9' as int
  }

  function DigitChar(k: nat): (c: char)
    requires k < 10
    ensures IsDigit(c)
  {
    ('0' as int + k) as char
  }

  function DigitValue(c: char): (k: nat)
    requires IsDigit(c)
    ensures k < 10
  {
    c as int - '0' as int
  }

  /** The `w` lowest decimal digits of `n`, most significant first. */
  function Digits(n: nat, w: nat): (r: string)
    ensures |r| == w
    ensures forall i :: 0 <= i < w ==> IsDigit(r[i])
  {
    if w == 0 then "" else Digits(n / 10, w - 1) + [DigitChar(n % 10)]
  }

  /** The number of decimal digits of `n` (one for zero). */
  function NumDigits(n: nat): (k: nat)
    ensures 1 <= k && n < Pow10(k)
    ensures k > 1 ==> Pow10(k - 1) <= n
  {
    if n < 10 then 1 else 1 + NumDigits(n / 10)
  }

  /** The decimal value of a string of digits. */
  function DecimalValue(s: string): (v: nat)
    requires forall i :: 0 <= i < |s| ==> IsDigit(s[i])
    ensures v < Pow10(|s|)
  {
    if s == [] then 0 else 10 * DecimalValue(s[..|s| - 1]) + DigitValue(s[|s| - 1])
  }

  /** `String(n)` for a non-negative integer: its digits, no leading zero. */
  function NatToString(n: nat): (r: string)
    ensures r != [] && forall i :: 0 <= i < |r| ==> IsDigit(r[i])
    ensures |r| > 1 ==> r[0] != '0'
  {
    DigitsLeading(n, NumDigits(n));
    Digits(n, NumDigits(n))
  }

  lemma {:induction false} DigitsLeading(n: nat, w: nat)
    requires 1 <= w && n < Pow10(w) && (w > 1 ==> Pow10(w - 1) <= n)
    ensures w > 1 ==> Digits(n, w)[0] != '0'
  {
    if w == 1 {
    } else if w == 2 {
      assert 10 <= n < 100;
      assert Digits(n, 2)[0] == Digits(n / 10, 1)[0] == DigitChar(n / 10 % 10);
    } else {
      assert Pow10(w - 2) <= n / 10 < Pow10(w - 1);
      DigitsLeading(n / 10, w - 1);
      assert Digits(n, w)[0] == Digits(n / 10, w - 1)[0];
    }
  }

  /** Reading the digits of a number that fits in `w` digits gives the
      number back. */
  lemma {:induction false} DigitsValue(n: nat, w: nat)
    requires n < Pow10(w)
    ensures DecimalValue(Digits(n, w)) == n
  {
    if w > 0 {
      var d := Digits(n, w);
      assert d[..w - 1] == Digits(n / 10, w - 1);
      assert DigitValue(d[w - 1]) == n % 10;
      DigitsValue(n / 10, w - 1);
    }
  }

  lemma NatToStringValue(n: nat)
    ensures DecimalValue(NatToString(n)) == n
  {
    DigitsValue(n, NumDigits(n));
  }

  /** `String(n).padStart(w, "0")`, as date-fns's `addLeadingZeros` does
      for a non-negative number: at least `w` digits, and all of `n`. */
  function PadStart(n: nat, w: nat): (r: string)
    ensures |r| == if NumDigits(n) <= w then w else NumDigits(n)
    ensures forall i :: 0 <= i < |r| ==> IsDigit(r[i])
    ensures DecimalValue(r) == n
  {
    PowMonotone(NumDigits(n), if NumDigits(n) <= w then w else NumDigits(n));
    DigitsValue(n, if NumDigits(n) <= w then w else NumDigits(n));
    if NumDigits(n) <= w then Digits(n, w) else NatToString(n)
  }

  lemma {:induction false} PowMonotone(a: nat, b: nat)
    requires a <= b
    ensures Pow10(a) <= Pow10(b)
  {
    if a < b { PowMonotone(a, b - 1); }
  }

  // ---------------------------------------------------------------------
  // String comparison

  /** JavaScript's `a <= b` on strings: lexicographic order of the
      characters (for the digit and punctuation strings compared here,
      character order and UTF-16 code-unit order coincide). */
  predicate LexLe(a: string, b: string)
    decreases |a|
  {
    if a == [] then true
    else if b == [] then false
    else if a[0] != b[0] then a[0] < b[0]
    else LexLe(a[1..], b[1..])
  }

  /** Comparing two strings that start with equal-length parts: the first
      parts decide unless they are equal. */
  lemma {:induction false} LexLeConcat(a: string, c: string, b: string, d: string)
    requires |a| == |b|
    ensures LexLe(a + c, b + d) == if a == b then LexLe(c, d) else LexLe(a, b)
  {
    if a == [] {
      assert a + c == c && b + d == d;
    } else {
      assert (a + c)[0] == a[0] && (b + d)[0] == b[0];
      assert (a + c)[1..] == a[1..] + c && (b + d)[1..] == b[1..] + d;
      if a[0] == b[0] {
        LexLeConcat(a[1..], c, b[1..], d);
        assert a == [a[0]] + a[1..] && b == [b[0]] + b[1..];
      }
    }
  }

  lemma ConcatInjective(a: string, c: string, b: string, d: string)
    requires |a| == |b|
    ensures a + c == b + d <==> a == b && c == d
  {
    if a + c == b + d {
      assert a == (a + c)[..|a|] && b == (b + d)[..|b|];
      assert c == (a + c)[|a|..] && d == (b + d)[|b|..];
    }
  }

  /** Fixed-width digit strings compare as their numbers do. */
  lemma {:induction false} DigitsOrder(m: nat, n: nat, w: nat)
    requires m < Pow10(w) && n < Pow10(w)
    ensures Digits(m, w) == Digits(n, w) <==> m == n
    ensures LexLe(Digits(m, w), Digits(n, w)) <==> m <= n
  {
    if w > 0 {
      var qm, rm, qn, rn := m / 10, m % 10, n / 10, n % 10;
      assert m == 10 * qm + rm && n == 10 * qn + rn;
      assert qm < Pow10(w - 1) && qn < Pow10(w - 1);
      DigitsOrder(qm, qn, w - 1);
      var pm, pn := Digits(qm, w - 1), Digits(qn, w - 1);
      var cm, cn := [DigitChar(rm)], [DigitChar(rn)];
      LexLeConcat(pm, cm, pn, cn);
      ConcatInjective(pm, cm, pn, cn);
      assert LexLe(cm, cn) <==> rm <= rn by {
        assert cm[1..] == [] && cn[1..] == [];
      }
      assert cm == cn <==> rm == rn;
    }
  }

  // ---------------------------------------------------------------------
  // join and split

  /** `xs.join(sep)`: the elements with one `sep` between neighbours. */
  function Join(xs: seq<string>, sep: char): string
  {
    if |xs| == 0 then "" else if |xs| == 1 then xs[0] else xs[0] + [sep] + Join(xs[1..], sep)
  }

  /** `s.split(sep)`: the pieces between occurrences of `sep`; always at
      least one piece (`"".split(",")` is `[""]`). */
  function Split(s: string, sep: char): (r: seq<string>)
    ensures |r| >= 1
  {
    if s == [] then [""]
    else if s[0] == sep then [""] + Split(s[1..], sep)
    else var rest := Split(s[1..], sep); [[s[0]] + rest[0]] + rest[1..]
  }

  lemma {:induction false} SplitWithout(a: string, sep: char, b: string)
    requires sep !in a
    ensures Split(a + [sep] + b, sep) == [a] + Split(b, sep)
    ensures Split(a, sep) == [a]
  {
    if a == [] {
      assert a + [sep] + b == [sep] + b;
      assert ([sep] + b)[1..] == b;
    } else {
      SplitWithout(a[1..], sep, b);
      assert (a + [sep] + b)[1..] == a[1..] + [sep] + b;
      assert [a[0]] + a[1..] == a;
    }
  }

  /** Splitting a join gives back the elements, provided none of them
      contains the separator. */
  lemma {:induction false} SplitJoin(xs: seq<string>, sep: char)
    requires |xs| >= 1
    requires forall i :: 0 <= i < |xs| ==> sep !in xs[i]
    ensures Split(Join(xs, sep), sep) == xs
  {
    SplitWithout(xs[0], sep, "");
    if |xs| > 1 {
      SplitJoin(xs[1..], sep);
      SplitWithout(xs[0], sep, Join(xs[1..], sep));
      assert [xs[0]] + xs[1..] == xs;
    }
  }

  /** A first element and a list, none holding the separator, split back
      apart after joining. */
  lemma SplitJoinCons(x: string, ys: seq<string>, sep: char)
    requires sep !in x
    requires forall i :: 0 <= i < |ys| ==> sep !in ys[i]
    ensures Split(Join([x] + ys, sep), sep) == [x] + ys
  {
    var xs := [x] + ys;
    assert forall i :: 1 <= i < |xs| ==> xs[i] == ys[i - 1];
    SplitJoin(xs, sep);
  }

  lemma JoinCons(x: string, ys: seq<string>, sep: char)
    requires ys != []
    ensures Join([x] + ys, sep) == x + [sep] + Join(ys, sep)
  {
    assert ([x] + ys)[1..] == ys;
  }

  /** Joining two non-empty lists puts one separator between their joins. */
  lemma {:induction false} JoinAppend(xs: seq<string>, ys: seq<string>, sep: char)
    requires xs != [] && ys != []
    ensures Join(xs + ys, sep) == Join(xs, sep) + [sep] + Join(ys, sep)
  {
    assert (xs + ys)[0] == xs[0];
    if |xs| > 1 {
      assert (xs + ys)[1..] == xs[1..] + ys;
      JoinAppend(xs[1..], ys, sep);
    } else {
      assert (xs + ys)[1..] == ys;
    }
  }

  lemma JoinSplitHead(a: string, b: string, rest: seq<string>, sep: char)
    ensures Join([a + [sep] + b] + rest, sep) == Join([a, b] + rest, sep)
  {
    assert [a, b] + rest == [a] + ([b] + rest);
    JoinCons(a, [b] + rest, sep);
    if rest == [] {
      assert [b] + rest == [b];
      assert [a + [sep] + b] + rest == [a + [sep] + b];
    } else {
      JoinCons(b, rest, sep);
      JoinCons(a + [sep] + b, rest, sep);
    }
  }

  /** A field that holds the separator joins exactly as the two fields on
      either side of that separator would. */
  lemma JoinSplitField(xs: seq<string>, i: nat, a: string, b: string, sep: char)
    requires i < |xs| && xs[i] == a + [sep] + b
    ensures Join(xs, sep) == Join(xs[..i] + [a, b] + xs[i + 1..], sep)
  {
    var p, rest := xs[..i], xs[i + 1..];
    JoinSplitHead(a, b, rest, sep);
    if p == [] {
      assert xs == [xs[i]] + rest;
      assert xs[..i] + [a, b] + xs[i + 1..] == [a, b] + rest;
    } else {
      assert xs == p + ([xs[i]] + rest);
      assert xs[..i] + [a, b] + xs[i + 1..] == p + ([a, b] + rest);
      JoinAppend(p, [xs[i]] + rest, sep);
      JoinAppend(p, [a, b] + rest, sep);
    }
  }

  /** A joined string holds no character that is neither the separator nor
      in one of the elements. */
  lemma {:induction false} JoinAvoids(xs: seq<string>, sep: char, c: char)
    requires c != sep
    requires forall i :: 0 <= i < |xs| ==> c !in xs[i]
    ensures c !in Join(xs, sep)
  {
    if |xs| > 1 {
      JoinAvoids(xs[1..], sep, c);
    }
  }

  // ---------------------------------------------------------------------
  // Filling an object from a list

  /** `xs.reduce((acc, x) => { acc[key(x)] = val(x); return acc }, {})`:
      the entries are written in list order, so a later entry with the same
      key overwrites an earlier one. */
  function IndexBy<T, V>(xs: seq<T>, key: T -> string, val: T -> V): map<string, V>
  {
    if xs == [] then map[]
    else IndexBy(xs[..|xs| - 1], key, val)[key(xs[|xs| - 1]) := val(xs[|xs| - 1])]
  }

  /** The keys of the object are exactly the keys of the list. */
  lemma {:induction false} IndexByKeys<T, V>(xs: seq<T>, key: T -> string, val: T -> V, k: string)
    ensures k in IndexBy(xs, key, val) <==> exists i :: 0 <= i < |xs| && key(xs[i]) == k
  {
    if xs != [] {
      var n := |xs| - 1;
      IndexByKeys(xs[..n], key, val, k);
      if k in IndexBy(xs[..n], key, val) {
        var i :| 0 <= i < n && key(xs[..n][i]) == k;
        assert key(xs[i]) == k;
      }
      if key(xs[n]) != k && exists i :: 0 <= i < |xs| && key(xs[i]) == k {
        var i :| 0 <= i < |xs| && key(xs[i]) == k;
        assert xs[..n][i] == xs[i];
      }
    }
  }

  /** Every entry is the value of some element with that key. */
  lemma {:induction false} IndexByValues<T, V>(xs: seq<T>, key: T -> string, val: T -> V, k: string)
    requires k in IndexBy(xs, key, val)
    ensures exists i :: 0 <= i < |xs| && key(xs[i]) == k && IndexBy(xs, key, val)[k] == val(xs[i])
  {
    var n := |xs| - 1;
    if key(xs[n]) != k {
      IndexByValues(xs[..n], key, val, k);
      var i :| 0 <= i < n && key(xs[..n][i]) == k && IndexBy(xs[..n], key, val)[k] == val(xs[..n][i]);
      assert xs[..n][i] == xs[i];
    }
  }

  /** The object has a key for every element, and every entry comes from
      an element with that key. */
  lemma IndexByAll<T, V>(xs: seq<T>, key: T -> string, val: T -> V)
    ensures forall i :: 0 <= i < |xs| ==> key(xs[i]) in IndexBy(xs, key, val)
    ensures forall k :: k in IndexBy(xs, key, val) ==>
      (exists i :: 0 <= i < |xs| && key(xs[i]) == k && IndexBy(xs, key, val)[k] == val(xs[i]))
  {
    forall i | 0 <= i < |xs|
      ensures key(xs[i]) in IndexBy(xs, key, val)
    {
      IndexByKeys(xs, key, val, key(xs[i]));
    }
    forall k | k in IndexBy(xs, key, val)
      ensures exists i :: 0 <= i < |xs| && key(xs[i]) == k && IndexBy(xs, key, val)[k] == val(xs[i])
    {
      IndexByValues(xs, key, val, k);
    }
  }

  /** Each key maps to the value of the LAST element carrying it. */
  lemma {:induction false} IndexByLastWins<T, V>(xs: seq<T>, key: T -> string, val: T -> V, i: nat)
    requires i < |xs|
    requires forall j :: i < j < |xs| ==> key(xs[j]) != key(xs[i])
    ensures key(xs[i]) in IndexBy(xs, key, val)
    ensures IndexBy(xs, key, val)[key(xs[i])] == val(xs[i])
  {
    var n := |xs| - 1;
    if i < n {
      assert xs[..n][i] == xs[i];
      assert forall j :: i < j < n ==> xs[..n][j] == xs[j];
      IndexByLastWins(xs[..n], key, val, i);
    }
  }
}
