/**
 * Text helpers shared by the emitters and the argument parser: the decimal
 * form of integers (what Python's `str(int)` and C++'s `operator<<` print),
 * Python's `'   ' * n`, searching for a separator, and a comma-separated
 * list of integers together with the parsers that invert them.
 */
module Text {
  import opened Wrappers

  predicate IsDigit(c: char) { '0' <= c <= '9' }

  predicate AllDigits(s: string) { forall i :: 0 <= i < |s| ==> IsDigit(s[i]) }

  function DigitChar(d: nat): (c: char)
    requires d < 10
    ensures IsDigit(c) && c as int - '0' as int == d
  {
    (d + '0' as int) as char
  }

  function DigitValue(c: char): (d: nat)
    requires IsDigit(c)
    ensures d < 10
  {
    c as int - '0' as int
  }

  /** Decimal digits of n, most significant first, without leading zeros. */
  function NatToString(n: nat): (s: string)
    ensures |s| > 0 && AllDigits(s)
    ensures s[0] == '0' ==> n == 0
  {
    if n < 10 then [DigitChar(n)] else NatToString(n / 10) + [DigitChar(n % 10)]
  }

  /** Decimal form of an integer, with a leading '-' when it is negative. */
  function IntToString(i: int): (s: string)
    ensures |s| > 0 && (i < 0 <==> s[0] == '-')
  {
    if i < 0 then "-" + NatToString(-i) else NatToString(i)
  }

  /** The value of a string of decimal digits. */
  function DigitsValue(s: string): nat
    requires AllDigits(s)
  {
    if s == [] then 0 else DigitsValue(s[..|s| - 1]) * 10 + DigitValue(s[|s| - 1])
  }

  /** Reads back what IntToString prints; None for anything else. */
  function ParseInt(s: string): Option<int>
  {
    if |s| > 1 && s[0] == '-' && AllDigits(s[1..]) then Some(0 - DigitsValue(s[1..]) as int)
    else if |s| > 0 && AllDigits(s) then Some(DigitsValue(s))
    else None
  }

  lemma {:induction false} NatToStringValue(n: nat)
    ensures DigitsValue(NatToString(n)) == n
  {
    if n >= 10 {
      var s := NatToString(n);
      assert s[..|s| - 1] == NatToString(n / 10);
      NatToStringValue(n / 10);
    }
  }

  lemma IntToStringRoundTrip(i: int)
    ensures ParseInt(IntToString(i)) == Some(i)
  {
    if i < 0 {
      NegativeRoundTrip(i);
    } else {
      NatToStringValue(i);
      var s := NatToString(i);
      assert s[0] != '-';
    }
  }

  lemma NegativeRoundTrip(i: int)
    requires i < 0
    ensures ParseInt(IntToString(i)) == Some(i)
  {
    var d := NatToString(-i);
    var s := "-" + d;
    assert s[1..] == d;
    assert AllDigits(s[1..]);
    NatToStringValue(-i);
    assert DigitsValue(s[1..]) == -i;
  }

  /** Python's `'   ' * n`: three spaces repeated n times, empty when n <= 0. */
  function Spaces(n: int): (s: string)
    ensures |s| == if n <= 0 then 0 else 3 * n
    ensures forall k :: 0 <= k < |s| ==> s[k] == ' '
  {
    if n <= 0 then "" else "   " + Spaces(n - 1)
  }

  /** Index of the first occurrence of c in s, or |s| when there is none. */
  function IndexOf(s: string, c: char): (k: nat)
    ensures k <= |s|
    ensures k < |s| ==> s[k] == c
    ensures forall i :: 0 <= i < k ==> s[i] != c
  {
    if s == [] then 0 else if s[0] == c then 0 else 1 + IndexOf(s[1..], c)
  }

  /** Number of spaces at the start of s. */
  function LeadingSpaces(s: string): (k: nat)
    ensures k <= |s|
    ensures forall i :: 0 <= i < k ==> s[i] == ' '
    ensures k < |s| ==> s[k] != ' '
  {
    if s == [] || s[0] != ' ' then 0 else 1 + LeadingSpaces(s[1..])
  }

  /** `", ".join(str(x) for x in xs)`. */
  function Join(xs: seq<int>): string
  {
    if xs == [] then ""
    else if |xs| == 1 then IntToString(xs[0])
    else IntToString(xs[0]) + ", " + Join(xs[1..])
  }

  /** Splits a comma-space separated list of integers. */
  function ParseList(s: string): Option<seq<int>>
    decreases |s|
  {
    if s == [] then Some([])
    else
      var k := IndexOf(s, ',');
      if k == |s| then
        match ParseInt(s)
        case Some(v) => Some([v])
        case None => None
      else if k + 1 < |s| && s[k + 1] == ' ' && k + 2 < |s| then
        match ParseInt(s[..k])
        case None => None
        case Some(v) =>
          match ParseList(s[k + 2..])
          case Some(rest) => Some([v] + rest)
          case None => None
      else None
  }

  lemma IntToStringHasNoComma(i: int)
    ensures ',' !in IntToString(i) && ')' !in IntToString(i)
  {
    var s := IntToString(i);
    if i < 0 {
      assert s == "-" + NatToString(-i);
      assert forall k :: 1 <= k < |s| ==> IsDigit(s[k]) by {
        forall k | 1 <= k < |s| ensures IsDigit(s[k]) {
          assert s[k] == NatToString(-i)[k - 1];
        }
      }
    }
  }

  lemma {:induction false} JoinHasNoParen(xs: seq<int>)
    ensures ')' !in Join(xs)
  {
    if |xs| > 1 {
      IntToStringHasNoComma(xs[0]);
      JoinHasNoParen(xs[1..]);
    } else if |xs| == 1 {
      IntToStringHasNoComma(xs[0]);
    }
  }

  lemma {:induction false} JoinRoundTrip(xs: seq<int>)
    ensures ParseList(Join(xs)) == Some(xs)
    decreases |xs|
  {
    if |xs| == 1 {
      IntToStringRoundTrip(xs[0]);
      IntToStringHasNoComma(xs[0]);
      ParseListSingle(IntToString(xs[0]), xs[0]);
      assert [xs[0]] == xs;
    } else if |xs| > 1 {
      var head, tail := IntToString(xs[0]), Join(xs[1..]);
      assert Join(xs) == head + ", " + tail;
      IntToStringHasNoComma(xs[0]);
      IntToStringRoundTrip(xs[0]);
      JoinNonEmpty(xs[1..]);
      ParseListCons(head, tail, xs[0]);
      JoinRoundTrip(xs[1..]);
      assert [xs[0]] + xs[1..] == xs;
    }
  }

  lemma JoinNonEmpty(xs: seq<int>)
    requires xs != []
    ensures Join(xs) != []
  {
  }

  lemma ParseListSingle(s: string, v: int)
    requires ParseInt(s) == Some(v) && ',' !in s
    ensures ParseList(s) == Some([v])
  {
    assert IndexOf(s, ',') == |s|;
  }

  lemma ParseListCons(head: string, tail: string, v: int)
    requires ParseInt(head) == Some(v) && ',' !in head && tail != []
    ensures ParseList(head + ", " + tail) ==
      match ParseList(tail)
      case Some(rest) => Some([v] + rest)
      case None => None
  {
    var s := head + ", " + tail;
    assert s == head + (", " + tail);
    IndexOfPrefix(head, ", " + tail, ',');
    assert s[..|head|] == head;
    assert s[|head| + 2..] == tail;
  }

  lemma {:induction false} IndexOfPrefix(a: string, b: string, c: char)
    requires c !in a && b != [] && b[0] == c
    ensures IndexOf(a + b, c) == |a|
  {
    if a != [] {
      assert (a + b)[1..] == a[1..] + b;
      IndexOfPrefix(a[1..], b, c);
    }
  }

  lemma {:induction false} LeadingBlank(p: string, s: string)
    requires forall k :: 0 <= k < |p| ==> p[k] == ' '
    requires s == [] || s[0] != ' '
    ensures LeadingSpaces(p + s) == |p|
    decreases |p|
  {
    if p == [] {
      assert p + s == s;
    } else {
      assert (p + s)[1..] == p[1..] + s;
      LeadingBlank(p[1..], s);
    }
  }

  lemma LeadingSpacesOf(n: int, s: string)
    requires n >= 0 && (s == [] || s[0] != ' ')
    ensures LeadingSpaces(Spaces(n) + s) == 3 * n
    ensures (Spaces(n) + s)[3 * n..] == s
  {
    LeadingBlank(Spaces(n), s);
  }
}
