/** The console-line cleaner of the log-shipping middleware: given a console
    line whose terminal colour codes were already stripped, it drops the shell
    prompt, i.e. everything up to and including the second `>`, and trims the rest. */
module ConsoleLine {
  import opened Text

  /** No position of `s` in `[lo, hi)` holds `c`. */
  predicate Absent(s: string, c: char, lo: int, hi: int)
  {
    forall j :: lo <= j < hi && 0 <= j < |s| ==> s[j] != c
  }

  /** `s.indexOf(c, from)`: the first position at or after `from` holding `c`, or -1. */
  function IndexOf(s: string, c: char, from: nat): (r: int)
    ensures r == -1 <==> Absent(s, c, from, |s|)
    ensures r != -1 ==> from <= r < |s| && s[r] == c && Absent(s, c, from, r)
    decreases |s| - from
  {
    if from >= |s| then -1
    else if s[from] == c then from
    else IndexOf(s, c, from + 1)
  }

  /** `s.includes(c, from)` for a one-character search string. */
  predicate Includes(s: string, c: char, from: nat)
  {
    IndexOf(s, c, from) != -1
  }

  /** The characters `String.prototype.trim` removes: ECMAScript WhiteSpace
      (tab, vertical tab, form feed, space, no-break space, byte order mark and
      the space separators) and LineTerminator (LF, CR, U+2028, U+2029). */
  predicate IsTrimmable(c: char)
  {
    c == '\t' || c == '\n' || c == '\U{0B}' || c == '\U{0C}' || c == '\r' || c == ' ' ||
    c == '\U{A0}' || c == '\U{1680}' || ('\U{2000}' <= c <= '\U{200A}') ||
    c == '\U{2028}' || c == '\U{2029}' || c == '\U{202F}' || c == '\U{205F}' ||
    c == '\U{3000}' || c == '\U{FEFF}'
  }

  /** The first position at or after `i` that is not trimmable, or `|s|`. */
  function TrimStartIndex(s: string, i: nat): (k: nat)
    requires i <= |s|
    ensures i <= k <= |s|
    decreases |s| - i
  {
    if i < |s| && IsTrimmable(s[i]) then TrimStartIndex(s, i + 1) else i
  }

  /** The end of `s[lo..hi]` once its trailing trimmable characters are dropped. */
  function TrimEndIndex(s: string, lo: nat, hi: nat): (k: nat)
    requires lo <= hi <= |s|
    ensures lo <= k <= hi
    decreases hi
  {
    if lo < hi && IsTrimmable(s[hi - 1]) then TrimEndIndex(s, lo, hi - 1) else hi
  }

  /** Trimming from `i` skips exactly the trimmable run that starts there. */
  lemma {:induction false} TrimStartSkipsRun(s: string, i: nat)
    requires i <= |s|
    ensures var k := TrimStartIndex(s, i);
            (k == |s| || !IsTrimmable(s[k])) && forall j :: i <= j < k ==> IsTrimmable(s[j])
    decreases |s| - i
  {
    if i < |s| && IsTrimmable(s[i]) {
      TrimStartSkipsRun(s, i + 1);
    }
  }

  /** Trimming back from `hi` drops exactly the trimmable run that ends there. */
  lemma {:induction false} TrimEndDropsRun(s: string, lo: nat, hi: nat)
    requires lo <= hi <= |s|
    ensures var k := TrimEndIndex(s, lo, hi);
            (k == lo || !IsTrimmable(s[k - 1])) && forall j :: k <= j < hi ==> IsTrimmable(s[j])
    decreases hi
  {
    if lo < hi && IsTrimmable(s[hi - 1]) {
      TrimEndDropsRun(s, lo, hi - 1);
    }
  }

  /** `String.prototype.trim`: `s` without its leading and trailing trimmable characters. */
  function Trim(s: string): string
  {
    var lo := TrimStartIndex(s, 0);
    s[lo..TrimEndIndex(s, lo, |s|)]
  }

  /** `parseMessage`, applied to the output of the colour-code stripper. */
  function ParseMessage(stripped: string): (r: string)
  {
    var first := IndexOf(stripped, '>', 0);
    if Includes(stripped, '>', first + 1)
    then Trim(stripped[IndexOf(stripped, '>', first + 1) + 1..])
    else stripped
  }

  /** `c` is not a character the trim removes, so trimming keeps every `c`. */
  lemma TrimKeepsCount(s: string, c: char)
    requires !IsTrimmable(c)
    ensures CountChar(Trim(s), c) == CountChar(s, c)
  {
    var lo, hi := TrimCuts(s, c);
    assert s == (s[..lo] + s[lo..hi]) + s[hi..];
    CountCharConcat(s[..lo] + s[lo..hi], s[hi..], c);
    CountCharConcat(s[..lo], s[lo..hi], c);
  }

  /** Trimming cuts off a prefix and a suffix that hold no `c` it keeps. */
  lemma TrimCuts(s: string, c: char) returns (lo: nat, hi: nat)
    requires !IsTrimmable(c)
    ensures lo <= hi <= |s| && Trim(s) == s[lo..hi]
    ensures CountChar(s[..lo], c) == 0 && CountChar(s[hi..], c) == 0
  {
    lo := TrimStartIndex(s, 0);
    hi := TrimEndIndex(s, lo, |s|);
    TrimStartSkipsRun(s, 0);
    RunHasNo(s, 0, lo, c);
    assert s[..lo] == s[0..lo];
    TrimEndDropsRun(s, lo, |s|);
    RunHasNo(s, hi, |s|, c);
    assert s[hi..] == s[hi..|s|];
  }

  /** A run of trimmable characters holds no `c` that trimming keeps. */
  lemma RunHasNo(s: string, lo: nat, hi: nat, c: char)
    requires lo <= hi <= |s| && !IsTrimmable(c)
    requires forall j :: lo <= j < hi ==> IsTrimmable(s[j])
    ensures CountChar(s[lo..hi], c) == 0
  {
    CountCharZero(s[lo..hi], c);
  }

  /** Splitting `s` at its first `c`. */
  lemma SplitAtFirst(s: string, c: char, p: nat)
    requires p < |s| && s[p] == c && Absent(s, c, 0, p)
    ensures CountChar(s[..p], c) == 0
    ensures CountChar(s, c) == 1 + CountChar(s[p + 1..], c)
  {
    assert s == s[..p] + [s[p]] + s[p + 1..];
    CountCharZero(s[..p], c);
  }

  /** A line whose only `>` is at `first` has exactly one. */
  lemma OneMark(s: string, first: nat)
    requires first < |s| && s[first] == '>'
    requires Absent(s, '>', 0, first) && Absent(s, '>', first + 1, |s|)
    ensures CountChar(s, '>') == 1
  {
    SplitAtFirst(s, '>', first);
    var rest := s[first + 1..];
    assert forall j :: 0 <= j < |rest| ==> rest[j] == s[first + 1 + j];
    CountCharZero(rest, '>');
  }

  /** Counting around the first two `>` of a line, at `first` and `second`. */
  lemma MarksAt(s: string, first: nat, second: nat)
    requires first < second < |s| && s[first] == '>' && s[second] == '>'
    requires Absent(s, '>', 0, first) && Absent(s, '>', first + 1, second)
    ensures CountChar(s[..second], '>') == 1
    ensures CountChar(s, '>') == CountChar(s[second + 1..], '>') + 2
  {
    SplitAtFirst(s, '>', first);
    var rest := s[first + 1..];
    var q := second - first - 1;
    assert forall j :: 0 <= j < |rest| ==> rest[j] == s[first + 1 + j];
    SplitAtFirst(rest, '>', q);
    assert rest[q + 1..] == s[second + 1..];
    assert s[..second] == (s[..first] + [s[first]]) + rest[..q];
  }

  /** The line has a second `>` exactly when it has at least two. */
  lemma TwoMarks(s: string)
    ensures Includes(s, '>', IndexOf(s, '>', 0) + 1) <==> CountChar(s, '>') >= 2
  {
    var first := IndexOf(s, '>', 0);
    if first == -1 {
      CountCharZero(s, '>');
    } else {
      var second := IndexOf(s, '>', first + 1);
      if second == -1 {
        OneMark(s, first);
      } else {
        MarksAt(s, first, second);
      }
    }
  }

  /** A line with fewer than two `>` is returned as it is. */
  lemma FewerThanTwoMarksUnchanged(s: string)
    requires CountChar(s, '>') < 2
    ensures ParseMessage(s) == s
  {
    TwoMarks(s);
  }

  /** The position of the second `>` of a line that has two. */
  lemma SecondMark(s: string) returns (p: nat)
    requires CountChar(s, '>') >= 2
    ensures p < |s| && s[p] == '>' && CountChar(s[..p], '>') == 1
    ensures CountChar(s, '>') == CountChar(s[p + 1..], '>') + 2
    ensures ParseMessage(s) == Trim(s[p + 1..])
  {
    TwoMarks(s);
    var first := IndexOf(s, '>', 0);
    p := IndexOf(s, '>', first + 1);
    MarksAt(s, first, p);
    Cut(s, first, p);
  }

  /** When the line has a second `>`, the result is the trimmed text after it. */
  lemma {:induction false} Cut(s: string, first: int, second: int)
    requires first == IndexOf(s, '>', 0) && second == IndexOf(s, '>', first + 1) && second != -1
    ensures ParseMessage(s) == Trim(s[second + 1..])
  {
  }

  /** A line with two or more `>` becomes the trimmed text after its second `>`. */
  lemma CutAfterSecondMark(s: string)
    requires CountChar(s, '>') >= 2
    ensures exists p :: 0 <= p < |s| && s[p] == '>' && CountChar(s[..p], '>') == 1 &&
                        ParseMessage(s) == Trim(s[p + 1..])
  {
    var p := SecondMark(s);
  }

  /** Only the first two `>` are consumed: every later one survives the cut. */
  lemma LaterMarksSurvive(s: string)
    requires CountChar(s, '>') >= 2
    ensures CountChar(ParseMessage(s), '>') == CountChar(s, '>') - 2
  {
    var p := SecondMark(s);
    TrimKeepsCount(s[p + 1..], '>');
  }

  /** When the cut applies, the result has no surrounding whitespace. */
  lemma CutIsTrimmed(s: string)
    requires CountChar(s, '>') >= 2
    ensures var r := ParseMessage(s);
            r == [] || (!IsTrimmable(r[0]) && !IsTrimmable(r[|r| - 1]))
  {
    var p := SecondMark(s);
    TrimmedEnds(s[p + 1..]);
  }

  /** A trimmed string neither starts nor ends with a trimmable character. */
  lemma TrimmedEnds(u: string)
    ensures var t := Trim(u);
            t == [] || (!IsTrimmable(t[0]) && !IsTrimmable(t[|t| - 1]))
  {
    var lo := TrimStartIndex(u, 0);
    var hi := TrimEndIndex(u, lo, |u|);
    TrimStartSkipsRun(u, 0);
    TrimEndDropsRun(u, lo, |u|);
    assert Trim(u) == u[lo..hi];
  }

  /** Where the trimmed text sits in a suffix `s[q..]` of `s`. */
  lemma TrimOccurs(s: string, q: nat) returns (a: nat)
    requires q <= |s|
    ensures OccursAt(Trim(s[q..]), s, a)
  {
    var u := s[q..];
    var lo := TrimStartIndex(u, 0);
    var hi := TrimEndIndex(u, lo, |u|);
    assert Trim(u) == u[lo..hi];
    assert u[lo..hi] == s[q + lo..q + hi];
    a := q + lo;
  }

  /** The cut result is a contiguous piece of the line. */
  lemma CutIsInfix(s: string)
    requires CountChar(s, '>') >= 2
    ensures IsInfix(ParseMessage(s), s)
  {
    var p := SecondMark(s);
    var a := TrimOccurs(s, p + 1);
    InfixAt(Trim(s[p + 1..]), s, a);
  }

  /** The result is always a contiguous piece of the stripped line, so never longer. */
  lemma ResultIsSubstring(s: string)
    ensures IsInfix(ParseMessage(s), s)
    ensures |ParseMessage(s)| <= |s|
  {
    if CountChar(s, '>') >= 2 {
      CutIsInfix(s);
    } else {
      FewerThanTwoMarksUnchanged(s);
      InfixAt(s, s, 0);
    }
  }
}
