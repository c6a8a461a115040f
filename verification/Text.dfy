// Delimiter-joined text and decimal numerals, as used in the strings that get hashed or signed.
module Text {

  predicate Free(s: string, c: char) { c !in s }

  // A field without the delimiter can be read back from the front of a joined string.
  lemma SplitFirst(c: char, a: string, x: string, b: string, y: string)
    requires Free(a, c) && Free(b, c) && a + [c] + x == b + [c] + y
    ensures a == b && x == y
  {
    NotLonger(c, a, x, b, y);
    NotLonger(c, b, y, a, x);
    var s := a + [c] + x;
    assert a == s[..|a|] == b;
    assert x == s[|a| + 1..] == y;
  }

  lemma NotLonger(c: char, a: string, x: string, b: string, y: string)
    requires Free(a, c) && a + [c] + x == b + [c] + y
    ensures |a| <= |b|
  {
    var s := a + [c] + x;
    assert s[|b|] == c;
    assert forall k :: 0 <= k < |a| ==> s[k] == a[k];
  }

  // And from the back.
  lemma SplitLast(c: char, x: string, a: string, y: string, b: string)
    requires Free(a, c) && Free(b, c) && x + [c] + a == y + [c] + b
    ensures x == y && a == b
  {
    NotEarlier(c, x, a, y, b);
    NotEarlier(c, y, b, x, a);
    var s := x + [c] + a;
    assert x == s[..|x|] == y;
    assert a == s[|x| + 1..] == b;
  }

  lemma NotEarlier(c: char, x: string, a: string, y: string, b: string)
    requires Free(a, c) && x + [c] + a == y + [c] + b
    ensures |y| <= |x|
  {
    var s := x + [c] + a;
    assert s[|y|] == c;
    assert forall k :: |x| < k < |s| ==> s[k] == a[k - |x| - 1];
  }

  // How often a character occurs: joining adds the counts, so a joined text shows how many
  // delimiters its fields hold.
  function Count(s: string, c: char): nat {
    if s == [] then 0 else (if s[0] == c then 1 else 0) + Count(s[1..], c)
  }

  lemma {:induction false} CountAppend(s: string, t: string, c: char)
    ensures Count(s + t, c) == Count(s, c) + Count(t, c)
    decreases |s|
  {
    if s == [] { assert s + t == t; }
    else {
      assert (s + t)[1..] == s[1..] + t;
      CountAppend(s[1..], t, c);
    }
  }

  lemma CountJoin(s: string, t: string, c: char)
    ensures Count(s + [c] + t, c) == Count(s, c) + 1 + Count(t, c)
  {
    CountAppend(s + [c], t, c);
    CountAppend(s, [c], c);
    assert Count([c], c) == 1;
  }

  lemma {:induction false} FreeIffCountZero(s: string, c: char)
    ensures Free(s, c) <==> Count(s, c) == 0
    decreases |s|
  {
    if s != [] {
      FreeIffCountZero(s[1..], c);
      assert s == [s[0]] + s[1..];
    }
  }

  // A text that holds the delimiter can be cut there.
  lemma CutAt(s: string, c: char) returns (u: string, v: string)
    requires !Free(s, c)
    ensures s == u + [c] + v && |u| < |s| && |v| < |s|
  {
    var i :| 0 <= i < |s| && s[i] == c;
    u, v := s[..i], s[i + 1..];
  }

  function Digit(d: nat): char
    requires d < 10
  {
    '0' + d as char
  }

  function Decimal(n: nat): string {
    if n < 10 then [Digit(n)] else Decimal(n / 10) + [Digit(n % 10)]
  }

  predicate IsDigit(c: char) { '0' <= c <= '9' }

  lemma {:induction false} DecimalFree(n: nat, c: char)
    requires !IsDigit(c)
    ensures Free(Decimal(n), c)
    decreases n
  {
    if n >= 10 { DecimalFree(n / 10, c); }
  }

  lemma {:induction false} DecimalInjective(m: nat, n: nat)
    requires Decimal(m) == Decimal(n)
    ensures m == n
    decreases m
  {
    var s := Decimal(m);
    assert s[|s| - 1] == Digit(m % 10) == Digit(n % 10);
    if m >= 10 && n >= 10 {
      assert Decimal(m / 10) == s[..|s| - 1] == Decimal(n / 10);
      DecimalInjective(m / 10, n / 10);
    } else if m >= 10 {
      DecimalNonempty(m / 10);
    } else if n >= 10 {
      DecimalNonempty(n / 10);
    }
  }

  lemma DecimalNonempty(n: nat)
    ensures |Decimal(n)| >= 1
  {}

  // Signed numerals.
  function Numeral(i: int): string {
    if i < 0 then "-" + Decimal(-i) else Decimal(i)
  }

  lemma NumeralFree(i: int, c: char)
    requires !IsDigit(c) && c != '-'
    ensures Free(Numeral(i), c)
  {
    DecimalFree(if i < 0 then -i else i, c);
  }

  lemma NumeralInjective(i: int, j: int)
    requires Numeral(i) == Numeral(j)
    ensures i == j
  {
    DecimalFree(if i < 0 then -i else i, '-');
    DecimalFree(if j < 0 then -j else j, '-');
    assert i < 0 ==> Numeral(i)[0] == '-' && Numeral(i)[1..] == Decimal(-i);
    assert j < 0 ==> Numeral(j)[0] == '-' && Numeral(j)[1..] == Decimal(-j);
    DecimalInjective(if i < 0 then -i else i, if j < 0 then -j else j);
  }
}
