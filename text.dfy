/** Java string operations the writers rely on, stated over `string` (= `seq<char>`). */
module Text {

  /** A Java reference that may be null. */
  datatype Option<T> = None | Some(value: T)

  /** `String.replace(char, char)`: every occurrence of `from` becomes `to`, nothing else moves. */
  function ReplaceChar(s: string, from: char, to: char): (r: string)
    ensures |r| == |s|
    ensures forall i :: 0 <= i < |s| ==> r[i] == (if s[i] == from then to else s[i])
    ensures from != to ==> from !in r
  {
    if s == [] then [] else [if s[0] == from then to else s[0]] + ReplaceChar(s[1..], from, to)
  }

  /** `String.replaceAll(" ", "")` for a one-character literal pattern: every `c` is dropped,
      every other character keeps its multiplicity. The contract says nothing about order;
      that the kept characters stay in order follows from `RemoveCharAppend` and
      `RemoveCharAbsent` together, applied piece by piece. */
  function RemoveChar(s: string, c: char): (r: string)
    ensures |r| <= |s|
    ensures c !in r
    ensures forall x :: multiset(r)[x] == (if x == c then 0 else multiset(s)[x])
  {
    if s == [] then []
    else
      assert s == [s[0]] + s[1..];
      (if s[0] == c then [] else [s[0]]) + RemoveChar(s[1..], c)
  }

  /** Replacing distributes over concatenation. */
  lemma {:induction false} ReplaceCharAppend(a: string, b: string, from: char, to: char)
    ensures ReplaceChar(a + b, from, to) == ReplaceChar(a, from, to) + ReplaceChar(b, from, to)
  {
    var l, r := ReplaceChar(a + b, from, to), ReplaceChar(a, from, to) + ReplaceChar(b, from, to);
    assert |l| == |r|;
    forall i | 0 <= i < |l| ensures l[i] == r[i] {
      if i < |a| { assert (a + b)[i] == a[i]; } else { assert (a + b)[i] == b[i - |a|]; }
    }
  }

  /** Removing distributes over concatenation. */
  lemma {:induction false} RemoveCharAppend(a: string, b: string, c: char)
    ensures RemoveChar(a + b, c) == RemoveChar(a, c) + RemoveChar(b, c)
  {
    if a == [] {
      assert a + b == b;
    } else {
      var head := if a[0] == c then [] else [a[0]];
      assert (a + b)[0] == a[0];
      assert (a + b)[1..] == a[1..] + b;
      assert RemoveChar(a + b, c) == head + RemoveChar(a[1..] + b, c);
      RemoveCharAppend(a[1..], b, c);
      assert RemoveChar(a, c) == head + RemoveChar(a[1..], c);
    }
  }

  /** A string without `c` is left as it is by RemoveChar. */
  lemma {:induction false} RemoveCharAbsent(s: string, c: char)
    requires c !in s
    ensures RemoveChar(s, c) == s
  {
    if s != [] {
      assert s[0] != c;
      assert c !in s[1..] by { forall i | 0 <= i < |s[1..]| ensures s[1..][i] != c { assert s[1..][i] == s[i + 1]; } }
      RemoveCharAbsent(s[1..], c);
      assert s == [s[0]] + s[1..];
    }
  }

  /** Where each of seven concatenated pieces sits in the whole. */
  lemma ConcatSlices(a: string, b: string, c: string, d: string, e: string, f: string, g: string)
    ensures var s := a + b + c + d + e + f + g;
            var i1, i2, i3 := |a|, |a| + |b|, |a| + |b| + |c|;
            var i4, i5, i6 := i3 + |d|, i3 + |d| + |e|, i3 + |d| + |e| + |f|;
            |s| == i6 + |g| && s[..i1] == a && s[i1..i2] == b && s[i2..i3] == c
            && s[i3..i4] == d && s[i4..i5] == e && s[i5..i6] == f && s[i6..] == g
  {
  }

  /** What Java string concatenation prints for a possibly-null `String`. */
  function NullableText(o: Option<string>): string
  {
    match o
    case Some(s) => s
    case None => "null"
  }

  // ---- decimal rendering of a Java `long` (Long.toString) ----------------------------

  predicate IsDigit(ch: char) { '0' <= ch <= '9' }

  predicate AllDigits(s: string) { forall i :: 0 <= i < |s| ==> IsDigit(s[i]) }

  function DigitChar(d: nat): (ch: char)
    requires d < 10
    ensures IsDigit(ch) && ch as int - '0' as int == d
  {
    ('0' as int + d) as char
  }

  /** The decimal digits of `n`, most significant first, without leading zeros. */
  function NatToString(n: nat): (r: string)
    ensures |r| >= 1 && AllDigits(r)
    ensures r[0] == '0' ==> n == 0
    decreases n
  {
    if n < 10 then [DigitChar(n)] else NatToString(n / 10) + [DigitChar(n % 10)]
  }

  /** `Long.toString`: a minus sign before the digits of a negative number. */
  function LongToString(n: int): (r: string)
    ensures |r| >= 1
    ensures ' ' !in r && '\n' !in r
    ensures n >= 0 <==> AllDigits(r)
  {
    if n < 0 then
      var r := "-" + NatToString(-n);
      assert r[0] == '-';
      r
    else NatToString(n)
  }

  /** Reads a string of decimal digits back as a number (the empty string reads as 0). */
  function ParseNat(s: string): nat
    requires AllDigits(s)
  {
    if s == [] then 0 else ParseNat(s[..|s| - 1]) * 10 + (s[|s| - 1] as int - '0' as int)
  }

  /** Reads an optionally negative decimal number back. */
  function ParseLong(s: string): int
    requires |s| >= 1
    requires s[0] == '-' ==> AllDigits(s[1..])
    requires s[0] != '-' ==> AllDigits(s)
  {
    if s[0] == '-' then -(ParseNat(s[1..]) as int) else ParseNat(s)
  }

  /** Reading the digits of `n` gives `n` back. */
  lemma {:induction false} ParseNatToString(n: nat)
    ensures ParseNat(NatToString(n)) == n
    decreases n
  {
    if n >= 10 {
      var s := NatToString(n);
      assert s[..|s| - 1] == NatToString(n / 10);
      ParseNatToString(n / 10);
    }
  }

  /** Appending a `0` digit multiplies the value read by ten. */
  lemma ParseNatAppendZero(s: string)
    requires AllDigits(s)
    ensures AllDigits(s + "0") && ParseNat(s + "0") == ParseNat(s) * 10
  {
    assert (s + "0")[..|s + "0"| - 1] == s;
  }

  /** Six appended zeros multiply the value read by one million. */
  lemma ParseNatAppendSixZeros(s: string)
    requires AllDigits(s)
    ensures AllDigits(s + "000000") && ParseNat(s + "000000") == ParseNat(s) * 1000000
  {
    var s1 := s + "0";
    ParseNatAppendZero(s);
    var s2 := s1 + "0";
    ParseNatAppendZero(s1);
    var s3 := s2 + "0";
    ParseNatAppendZero(s2);
    var s4 := s3 + "0";
    ParseNatAppendZero(s3);
    var s5 := s4 + "0";
    ParseNatAppendZero(s4);
    var s6 := s5 + "0";
    ParseNatAppendZero(s5);
    assert s6 == s + "000000";
  }

  /** Reading `Long.toString(n)` gives `n` back, for negative numbers too. */
  lemma LongToStringRoundTrip(n: int)
    ensures ParseLong(LongToString(n)) == n
  {
    if n < 0 {
      assert ("-" + NatToString(-n))[1..] == NatToString(-n);
      ParseNatToString(-n);
    } else {
      ParseNatToString(n);
    }
  }
}
