/** String operations of the JavaScript runtime that the commands rely on. */
module Text {

  /** Number of occurrences of `c` in `s`. */
  function CountChar(s: string, c: char): nat
  {
    multiset(s)[c]
  }

  /** A string without `c` has no occurrence of it, and conversely. */
  lemma CountCharZero(s: string, c: char)
    ensures CountChar(s, c) == 0 <==> forall j :: 0 <= j < |s| ==> s[j] != c
  {
    if CountChar(s, c) != 0 {
      assert c in multiset(s);
      assert c in s;
    }
  }

  /** Counting distributes over concatenation. */
  lemma CountCharConcat(a: string, b: string, c: char)
    ensures CountChar(a + b, c) == CountChar(a, c) + CountChar(b, c)
  {
  }

  /** `x` occurs in `s` starting at position `a`. */
  predicate OccursAt(x: string, s: string, a: int)
  {
    0 <= a <= |s| - |x| && s[a..a + |x|] == x
  }

  /** `x` occurs in `s` at some position. */
  predicate IsInfix(x: string, s: string)
  {
    exists a :: 0 <= a <= |s| && OccursAt(x, s, a)
  }

  lemma InfixAt(x: string, s: string, a: nat)
    requires OccursAt(x, s, a)
    ensures IsInfix(x, s)
  {
  }

  lemma InfixOfConcat(x: string, left: string, s: string, right: string)
    requires IsInfix(x, s)
    ensures IsInfix(x, left + s + right)
  {
    var a :| 0 <= a <= |s| && OccursAt(x, s, a);
    var t := left + s + right;
    assert t[|left| + a..|left| + a + |x|] == s[a..a + |x|];
    InfixAt(x, t, |left| + a);
  }

  /** `Array.prototype.join(sep)`. */
  function Join(parts: seq<string>, sep: string): string
  {
    if |parts| == 0 then ""
    else if |parts| == 1 then parts[0]
    else parts[0] + sep + Join(parts[1..], sep)
  }

  /** Every part of a join occurs in the joined string. */
  lemma {:induction false} JoinContains(parts: seq<string>, sep: string, i: nat)
    requires i < |parts|
    ensures IsInfix(parts[i], Join(parts, sep))
  {
    if |parts| == 1 {
      InfixAt(parts[0], Join(parts, sep), 0);
    } else if i == 0 {
      assert Join(parts, sep) == parts[0] + (sep + Join(parts[1..], sep));
      InfixAt(parts[0], Join(parts, sep), 0);
    } else {
      JoinContains(parts[1..], sep, i - 1);
      InfixOfConcat(parts[i], parts[0] + sep, Join(parts[1..], sep), "");
      assert parts[0] + sep + Join(parts[1..], sep) + "" == Join(parts, sep);
    }
  }

  /** Joining parts that do not contain `c` with the separator `[c]` yields
      exactly one `c` between consecutive parts, so the parts can be counted. */
  lemma {:induction false} JoinSeparatorCount(parts: seq<string>, c: char)
    requires |parts| > 0
    requires forall i :: 0 <= i < |parts| ==> CountChar(parts[i], c) == 0
    ensures CountChar(Join(parts, [c]), c) == |parts| - 1
  {
    if |parts| > 1 {
      JoinSeparatorCount(parts[1..], c);
    }
  }

  function Digit(d: nat): (c: char)
    requires d < 10
    ensures '0' <= c <= '9'
  {
    (d + '0' as int) as char
  }

  /** Decimal text of a non-negative integer, as JavaScript prints a count. */
  function NatToString(n: nat): (r: string)
    ensures |r| >= 1
    ensures forall i :: 0 <= i < |r| ==> '0' <= r[i] <= '9'
    ensures n < 10 ==> |r| == 1
    ensures n >= 10 ==> r[0] != '0'
  {
    if n < 10 then [Digit(n)] else NatToString(n / 10) + [Digit(n % 10)]
  }

  /** The decimal value of a digit string. */
  function DecimalValue(s: string): nat
    requires forall i :: 0 <= i < |s| ==> '0' <= s[i] <= '9'
  {
    if s == [] then 0 else 10 * DecimalValue(s[..|s| - 1]) + (s[|s| - 1] - '0') as nat
  }

  /** Printing a count loses nothing: reading the digits back gives the count. */
  lemma {:induction false} NatToStringRoundTrip(n: nat)
    ensures DecimalValue(NatToString(n)) == n
  {
    if n >= 10 {
      NatToStringRoundTrip(n / 10);
      var r := NatToString(n);
      assert r[..|r| - 1] == NatToString(n / 10);
    }
  }
}
