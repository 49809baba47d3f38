/**
 Strings as Redis and Python handle them: the bytewise order of sorted-set
 members, zero-padded numbers, and `str.split`.

 Members are text; UTF-8 keeps code points in order, so comparing characters
 agrees with comparing the encoded bytes.
 */
module Text {

  // ---- bytewise order ----

  predicate Less(a: string, b: string) {
    b != [] && (a == [] || a[0] < b[0] || (a[0] == b[0] && Less(a[1..], b[1..])))
  }

  lemma {:induction false} LessTotal(a: string, b: string)
    ensures Less(a, b) || a == b || Less(b, a)
    ensures !(Less(a, b) && Less(b, a))
    ensures a == b ==> !Less(a, b)
  {
    if a != [] && b != [] && a[0] == b[0] {
      LessTotal(a[1..], b[1..]);
      if a[1..] == b[1..] {
        assert a == [a[0]] + a[1..] && b == [b[0]] + b[1..];
      }
    }
  }

  lemma {:induction false} LessTransitive(a: string, b: string, c: string)
    requires Less(a, b) && Less(b, c)
    ensures Less(a, c)
  {
    if a != [] && a[0] == b[0] == c[0] {
      LessTransitive(a[1..], b[1..], c[1..]);
    }
  }

  /** Fields of equal width compare before whatever follows them. */
  lemma {:induction false} FieldOrder(p: string, q: string, x: string, y: string)
    requires |p| == |q|
    ensures Less(p + x, q + y) <==> Less(p, q) || (p == q && Less(x, y))
  {
    if p == [] {
      assert p + x == x && q + y == y;
    } else {
      assert (p + x)[1..] == p[1..] + x && (q + y)[1..] == q[1..] + y;
      FieldOrder(p[1..], q[1..], x, y);
      if p[0] == q[0] && p[1..] == q[1..] {
        assert p == [p[0]] + p[1..] && q == [q[0]] + q[1..];
      }
    }
  }

  // ---- zero-padded numbers ----

  const DIGITS := "0123456789abcdef"

  function Quotient(n: nat, base: nat): nat
    requires 0 < base
  {
    n / base
  }

  function Remainder(n: nat, base: nat): (r: nat)
    requires 0 < base
    ensures r < base
  {
    n % base
  }

  /** `n` can be written in `width` digits. */
  predicate Fits(n: nat, base: nat, width: nat)
    requires 2 <= base
    decreases width
  {
    if width == 0 then n == 0 else Fits(Quotient(n, base), base, width - 1)
  }

  lemma {:induction false} FitsTwoDigits(n: nat)
    ensures Fits(n, 10, 2) <==> n < 100
  {
  }

  /** Eight hexadecimal digits hold exactly the 32-bit numbers. */
  lemma {:induction false} FitsEightHexDigits(n: nat)
    ensures Fits(n, 16, 8) <==> n < 0x1_0000_0000
  {
    FitsFourHexDigits(n / 0x1_0000);
    assert Fits(n, 16, 8) == Fits(n / 16 / 16 / 16 / 16, 16, 4) by {
      assert Fits(n, 16, 8) == Fits(n / 16, 16, 7);
      assert Fits(n / 16, 16, 7) == Fits(n / 16 / 16, 16, 6);
      assert Fits(n / 16 / 16, 16, 6) == Fits(n / 16 / 16 / 16, 16, 5);
    }
  }

  lemma {:induction false} FitsFourHexDigits(n: nat)
    ensures Fits(n, 16, 4) <==> n < 0x1_0000
  {
    assert Fits(n, 16, 4) == Fits(n / 16, 16, 3);
    assert Fits(n / 16, 16, 3) == Fits(n / 16 / 16, 16, 2);
    assert Fits(n / 16 / 16, 16, 2) == Fits(n / 16 / 16 / 16, 16, 1);
  }

  /** `f"{n:0{width}d}"` in base 10 and `f"{n:0{width}x}"` in base 16, for numbers that fit. */
  function Padded(n: nat, base: nat, width: nat): (s: string)
    requires 2 <= base <= 16
    ensures |s| == width
    ensures forall i :: 0 <= i < width ==> s[i] in DIGITS
    decreases width
  {
    if width == 0 then ""
    else Padded(Quotient(n, base), base, width - 1) + [DIGITS[Remainder(n, base)]]
  }

  /** `int(s, base)`, for the digits that occur. */
  function ValueOf(s: string, base: nat): nat {
    if s == [] then 0 else base * ValueOf(s[..|s| - 1], base) + DigitValue(s[|s| - 1])
  }

  function DigitValue(c: char): nat {
    if '0' <= c <= '9' then c as nat - '0' as nat
    else if 'a' <= c <= 'f' then 10 + (c as nat - 'a' as nat)
    else 0
  }

  /** The digits written read back as the number. */
  lemma {:induction false} PaddedReads(n: nat, base: nat, width: nat)
    requires 2 <= base <= 16 && Fits(n, base, width)
    ensures ValueOf(Padded(n, base, width), base) == n
    decreases width
  {
    hide DigitValue;
    if width > 0 {
      var p, d := Padded(Quotient(n, base), base, width - 1), DIGITS[Remainder(n, base)];
      PaddedReads(Quotient(n, base), base, width - 1);
      Euclid(n, base);
      assert (p + [d])[..width - 1] == p;
      DigitReads(Remainder(n, base));
    }
  }

  lemma {:induction false} DigitReads(i: nat)
    requires i < 16
    ensures DigitValue(DIGITS[i]) == i
  {
  }

  lemma {:induction false} DigitOrder(i: nat, j: nat)
    requires i < 16 && j < 16
    ensures DIGITS[i] < DIGITS[j] <==> i < j
    ensures Less([DIGITS[i]], [DIGITS[j]]) <==> i < j
  {
  }

  lemma {:induction false} DivOrder(m: nat, n: nat, b: nat)
    requires b > 0
    ensures m < n <==> Quotient(m, b) < Quotient(n, b) || (Quotient(m, b) == Quotient(n, b) && Remainder(m, b) < Remainder(n, b))
  {
    Euclid(m, b);
    Euclid(n, b);
    QuotientOrder(b, Quotient(m, b), Remainder(m, b), Quotient(n, b), Remainder(n, b));
  }

  lemma {:induction false} Euclid(n: nat, b: nat)
    requires b > 0
    ensures n == b * Quotient(n, b) + Remainder(n, b)
  {
  }

  lemma {:induction false} QuotientOrder(b: nat, q: nat, r: nat, k: nat, l: nat)
    requires r < b && l < b
    ensures b * q + r < b * k + l <==> q < k || (q == k && r < l)
  {
    if q < k {
      MulStep(b, q, k);
    } else if k < q {
      MulStep(b, k, q);
    }
  }

  lemma {:induction false} MulStep(b: nat, x: nat, y: nat)
    requires x < y
    ensures b * x + b <= b * y
  {
    if x + 1 < y {
      MulStep(b, x, y - 1);
    }
    assert b * y == b * (y - 1) + b;
  }

  lemma {:induction false} LastDigitOrder(p: string, q: string, i: nat, j: nat)
    requires |p| == |q| && i < 16 && j < 16
    ensures Less(p + [DIGITS[i]], q + [DIGITS[j]]) <==> Less(p, q) || (p == q && i < j)
    ensures p + [DIGITS[i]] == q + [DIGITS[j]] <==> p == q && i == j
  {
    FieldOrder(p, q, [DIGITS[i]], [DIGITS[j]]);
    DigitOrder(i, j);
    DigitOrder(j, i);
    var x, y := p + [DIGITS[i]], q + [DIGITS[j]];
    if x == y {
      assert x[..|p|] == p && y[..|p|] == q && x[|p|] == y[|p|];
    }
  }

  /** Zero padding makes the bytewise order the numeric order. */
  lemma {:induction false} PaddedOrder(m: nat, n: nat, base: nat, width: nat)
    requires 2 <= base <= 16
    requires Fits(m, base, width) && Fits(n, base, width)
    ensures Less(Padded(m, base, width), Padded(n, base, width)) <==> m < n
    ensures Padded(m, base, width) == Padded(n, base, width) <==> m == n
    decreases width
  {
    if width > 0 {
      PaddedOrder(Quotient(m, base), Quotient(n, base), base, width - 1);
      PaddedStep(m, n, base, width);
    }
  }

  lemma {:induction false} PaddedStep(m: nat, n: nat, base: nat, width: nat)
    requires 2 <= base <= 16 && width > 0
    requires var p, q := Padded(Quotient(m, base), base, width - 1), Padded(Quotient(n, base), base, width - 1);
             && (Less(p, q) <==> Quotient(m, base) < Quotient(n, base))
             && (p == q <==> Quotient(m, base) == Quotient(n, base))
    ensures Less(Padded(m, base, width), Padded(n, base, width)) <==> m < n
    ensures Padded(m, base, width) == Padded(n, base, width) <==> m == n
  {
    var p, q := Padded(Quotient(m, base), base, width - 1), Padded(Quotient(n, base), base, width - 1);
    LastDigitOrder(p, q, Remainder(m, base), Remainder(n, base));
    DivOrder(m, n, base);
    DivOrder(n, m, base);
  }

  // ---- str.split ----

  /** Where `sep` first occurs in `s`, or `|s|`. */
  function IndexOf(s: string, sep: char): (i: nat)
    ensures i <= |s|
    ensures sep !in s[..i]
    ensures i < |s| ==> s[i] == sep
  {
    if s == [] then 0
    else if s[0] == sep then 0
    else
      var i := 1 + IndexOf(s[1..], sep);
      assert s[..i] == [s[0]] + s[1..][..i - 1];
      i
  }

  /** `s.split(sep, max)`: at most `max` cuts, the rest kept whole. */
  function Split(s: string, sep: char, max: nat): (parts: seq<string>)
    ensures 1 <= |parts| <= max + 1
    decreases max
  {
    var i := IndexOf(s, sep);
    if max == 0 || i == |s| then [s]
    else [s[..i]] + Split(s[i + 1..], sep, max - 1)
  }

  lemma {:induction false} IndexOfField(field: string, sep: char, rest: string)
    requires sep !in field
    ensures IndexOf(field + [sep] + rest, sep) == |field|
  {
    var s := field + [sep] + rest;
    assert s[|field|] == sep;
    assert forall k :: 0 <= k < |field| ==> s[k] == field[k];
    var i := IndexOf(s, sep);
    assert forall k :: 0 <= k < i ==> s[..i][k] == s[k];
  }

  /** Splitting undoes joining a separator-free field to anything at all. */
  lemma {:induction false} SplitField(field: string, sep: char, rest: string, max: nat)
    requires sep !in field && max > 0
    ensures Split(field + [sep] + rest, sep, max) == [field] + Split(rest, sep, max - 1)
  {
    var s := field + [sep] + rest;
    IndexOfField(field, sep, rest);
    assert s[..|field|] == field && s[|field| + 1..] == rest;
  }

  /** `sep.join(fields + [last])`. */
  function Join(fields: seq<string>, sep: char, last: string): string {
    if fields == [] then last else fields[0] + [sep] + Join(fields[1..], sep, last)
  }

  /** Splitting undoes joining; the last field may hold the separator. */
  lemma {:induction false} SplitJoin(fields: seq<string>, sep: char, last: string)
    requires forall f :: f in fields ==> sep !in f
    ensures Split(Join(fields, sep, last), sep, |fields|) == fields + [last]
  {
    if fields != [] {
      SplitField(fields[0], sep, Join(fields[1..], sep, last), |fields|);
      SplitJoin(fields[1..], sep, last);
      assert [fields[0]] + (fields[1..] + [last]) == fields + [last];
    }
  }
}
