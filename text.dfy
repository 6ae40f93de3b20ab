/** The string and array library calls that the checkout front end
    (JavaScript) and the payment back end (Java) rely on, stated on
    `seq<char>`. */
module Text {

  function Min(a: int, b: int): int { if a <= b then a else b }

  // ---------------------------------------------------------------------
  // Array.prototype.filter
  // ---------------------------------------------------------------------

  /** The elements of `s` that `keep` accepts, in their original order. */
  function Filter<T>(s: seq<T>, keep: T -> bool): (r: seq<T>)
    ensures |r| <= |s|
  {
    if s == [] then [] else (if keep(s[0]) then [s[0]] else []) + Filter(s[1..], keep)
  }

  /** A `filter` that rejects every element returns nothing. */
  lemma {:induction false} FilterDropsAll<T>(s: seq<T>, keep: T -> bool)
    requires forall i :: 0 <= i < |s| ==> !keep(s[i])
    ensures Filter(s, keep) == []
  {
    if s != [] {
      FilterDropsAll(s[1..], keep);
    }
  }

  /** An element is kept exactly when it occurs in the input and is accepted. */
  lemma {:induction false} FilterMembers<T>(s: seq<T>, keep: T -> bool)
    ensures forall x :: x in Filter(s, keep) <==> x in s && keep(x)
  {
    if s != [] {
      FilterMembers(s[1..], keep);
      assert s == [s[0]] + s[1..];
    }
  }

  /** Filtering distributes over concatenation: the kept elements stay in order. */
  lemma {:induction false} FilterAppend<T>(a: seq<T>, b: seq<T>, keep: T -> bool)
    ensures Filter(a + b, keep) == Filter(a, keep) + Filter(b, keep)
  {
    if a == [] {
      assert a + b == b;
    } else {
      var head := if keep(a[0]) then [a[0]] else [];
      assert (a + b)[0] == a[0];
      assert (a + b)[1..] == a[1..] + b;
      assert Filter(a + b, keep) == head + Filter(a[1..] + b, keep);
      FilterAppend(a[1..], b, keep);
      assert Filter(a, keep) == head + Filter(a[1..], keep);
    }
  }

  /** A filter that accepts every element returns its input unchanged. */
  lemma {:induction false} FilterKeepsAll<T(!new)>(s: seq<T>, keep: T -> bool)
    requires forall i :: 0 <= i < |s| ==> keep(s[i])
    ensures Filter(s, keep) == s
  {
    if s != [] {
      FilterKeepsAll(s[1..], keep);
    }
  }

  // ---------------------------------------------------------------------
  // String.prototype.substring(0, n) and Array.prototype.join
  // ---------------------------------------------------------------------

  /** `s.substring(0, n)`: the first `n` characters, or all of `s` when it is shorter. */
  function Prefix(s: string, n: nat): (r: string)
    ensures |r| == Min(n, |s|)
    ensures r <= s
  {
    if n <= |s| then s[..n] else s
  }

  /** `parts.join(sep)`: the parts, left to right, with `sep` between neighbours. */
  function Join(parts: seq<string>, sep: string): string
  {
    if |parts| == 0 then ""
    else if |parts| == 1 then parts[0]
    else Join(parts[..|parts| - 1], sep) + sep + parts[|parts| - 1]
  }

  function TotalLength(parts: seq<string>): nat
  {
    if parts == [] then 0 else TotalLength(parts[..|parts| - 1]) + |parts[|parts| - 1]|
  }

  /** A join is as long as its parts plus one separator between each pair of neighbours. */
  lemma {:induction false} JoinLength(parts: seq<string>, sep: string)
    requires |parts| > 0
    ensures |Join(parts, sep)| == TotalLength(parts) + (|parts| - 1) * |sep|
  {
    if |parts| > 1 {
      JoinLength(parts[..|parts| - 1], sep);
    }
  }

  // ---------------------------------------------------------------------
  // Java's String.replace(c, "") and String.trim()
  // ---------------------------------------------------------------------

  function Other(c: char): char -> bool { (x: char) => x != c }

  /** `s.replace(c, "")`: every occurrence of `c` removed, the rest kept in order. */
  function RemoveChar(s: string, c: char): (r: string)
    ensures c !in r
    ensures forall x :: x in r <==> x in s && x != c
  {
    FilterMembers(s, Other(c));
    Filter(s, Other(c))
  }

  /** The characters Java's `trim` drops from both ends: every code point up to U+0020. */
  predicate Blank(c: char) { c <= ' ' }

  /** The leading blanks dropped: the longest suffix of `s` that does not start with a blank. */
  function TrimStart(s: string): (r: string)
    ensures |r| <= |s| && r == s[|s| - |r|..]
    ensures r == [] || !Blank(r[0])
    ensures forall i :: 0 <= i < |s| - |r| ==> Blank(s[i])
  {
    if s != [] && Blank(s[0]) then TrimStart(s[1..]) else s
  }

  /** The trailing blanks dropped: the longest prefix of `s` that does not end with a blank. */
  function TrimEnd(s: string): (r: string)
    ensures r <= s
    ensures r == [] || !Blank(r[|r| - 1])
    ensures forall i :: |r| <= i < |s| ==> Blank(s[i])
  {
    if s != [] && Blank(s[|s| - 1]) then TrimEnd(s[..|s| - 1]) else s
  }

  /** `s.trim()`. */
  function Trim(s: string): (r: string)
    ensures r == [] || (!Blank(r[0]) && !Blank(r[|r| - 1]))
    ensures forall x :: x in r ==> x in s
  {
    TrimEnd(TrimStart(s))
  }

  /** `trim` cuts a string into blank ends around its result. */
  lemma TrimSplits(s: string) returns (pre: string, post: string)
    ensures s == pre + Trim(s) + post
    ensures forall i :: 0 <= i < |pre| ==> Blank(pre[i])
    ensures forall i :: 0 <= i < |post| ==> Blank(post[i])
  {
    pre := TrimStartSplits(s);
    post := TrimEndSplits(TrimStart(s));
    Regroup(s, pre, TrimStart(s), TrimEnd(TrimStart(s)), post);
  }

  lemma Regroup<T>(s: seq<T>, a: seq<T>, rest: seq<T>, m: seq<T>, b: seq<T>)
    requires s == a + rest && rest == m + b
    ensures s == a + m + b
  {
  }

  lemma TrimStartSplits(s: string) returns (pre: string)
    ensures s == pre + TrimStart(s)
    ensures forall i :: 0 <= i < |pre| ==> Blank(pre[i])
  {
    pre := s[..|s| - |TrimStart(s)|];
  }

  lemma TrimEndSplits(t: string) returns (post: string)
    ensures t == TrimEnd(t) + post
    ensures forall i :: 0 <= i < |post| ==> Blank(post[i])
  {
    post := t[|TrimEnd(t)|..];
  }



  /** Filtering away both ends leaves the filter of the middle. */
  lemma FilterBetween<T>(pre: seq<T>, mid: seq<T>, post: seq<T>, keep: T -> bool)
    requires forall i :: 0 <= i < |pre| ==> !keep(pre[i])
    requires forall i :: 0 <= i < |post| ==> !keep(post[i])
    ensures Filter(pre + mid + post, keep) == Filter(mid, keep)
  {
    FilterDropsAll(pre, keep);
    FilterDropsAll(post, keep);
    FilterAppend(pre + mid, post, keep);
    FilterAppend(pre, mid, keep);
  }

  /** A string that already has no blank at either end is left alone by `trim`. */
  lemma TrimUnchanged(s: string)
    requires s == [] || (!Blank(s[0]) && !Blank(s[|s| - 1]))
    ensures Trim(s) == s
  {
  }

  // ---------------------------------------------------------------------
  // Decimal rendering of integers (`${n}` in JavaScript)
  // ---------------------------------------------------------------------

  predicate IsDigit(c: char) { '0' <= c <= '9' }

  function DigitChar(d: nat): (c: char)
    requires d < 10
    ensures IsDigit(c)
  {
    "0123456789"[d]
  }

  function DigitValue(c: char): nat
    requires IsDigit(c)
  {
    (c as int - '0' as int) as nat
  }

  /** The decimal digits of a natural number, most significant first. */
  function NatToDecimal(n: nat): (r: string)
    ensures |r| >= 1
    ensures forall i :: 0 <= i < |r| ==> IsDigit(r[i])
  {
    if n < 10 then [DigitChar(n)] else NatToDecimal(n / 10) + [DigitChar(n % 10)]
  }

  /** The number a string of decimal digits denotes. */
  function DecimalValue(s: string): nat
    requires forall i :: 0 <= i < |s| ==> IsDigit(s[i])
  {
    if s == [] then 0 else DecimalValue(s[..|s| - 1]) * 10 + DigitValue(s[|s| - 1])
  }

  /** Reading back the digits of `n` gives `n`. */
  lemma {:induction false} DecimalRoundTrip(n: nat)
    ensures DecimalValue(NatToDecimal(n)) == n
  {
    var r := NatToDecimal(n);
    if n < 10 {
      assert r[..|r| - 1] == [];
    } else {
      assert r[..|r| - 1] == NatToDecimal(n / 10);
      DecimalRoundTrip(n / 10);
    }
  }

  /** Distinct numbers have distinct decimal renderings. */
  lemma NatToDecimalInjective(m: nat, n: nat)
    requires NatToDecimal(m) == NatToDecimal(n)
    ensures m == n
  {
    DecimalRoundTrip(m);
    DecimalRoundTrip(n);
  }

  /** `${i}` for an integer: a minus sign before the digits of a negative value. */
  function IntToDecimal(i: int): string
  {
    if i < 0 then "-" + NatToDecimal(-i) else NatToDecimal(i)
  }

  /** The position of the first `c` in `s`, or `|s|` when there is none. */
  function IndexOf(s: string, c: char): (r: nat)
    ensures r <= |s|
    ensures r < |s| ==> s[r] == c
    ensures c !in s[..r]
  {
    if s == [] then 0
    else if s[0] == c then 0
    else
      assert s[..1 + IndexOf(s[1..], c)] == [s[0]] + s[1..][..IndexOf(s[1..], c)];
      1 + IndexOf(s[1..], c)
  }

  /** A string that does not hold `c` has no `c` to find. */
  lemma IndexOfAbsent(s: string, c: char)
    requires c !in s
    ensures IndexOf(s, c) == |s|
  {
  }

  /** `s.split(c)`: the pieces between the occurrences of `c`, in order. */
  function Split(s: string, c: char): (r: seq<string>)
    ensures |r| > 0
    ensures forall i :: 0 <= i < |r| ==> c !in r[i]
    decreases |s|
  {
    var k := IndexOf(s, c);
    if k == |s| then [s] else [s[..k]] + Split(s[k + 1..], c)
  }

  /** Joining onto a first part puts one separator after it. */
  lemma {:induction false} JoinCons(first: string, rest: seq<string>, sep: string)
    requires |rest| > 0
    ensures Join([first] + rest, sep) == first + sep + Join(rest, sep)
    decreases |rest|
  {
    var parts := [first] + rest;
    if |rest| > 1 {
      assert parts[..|parts| - 1] == [first] + rest[..|rest| - 1];
      JoinCons(first, rest[..|rest| - 1], sep);
    } else {
      assert parts[..|parts| - 1] == [first];
    }
  }

  /** One step of `Split`: the piece before the first `c`, then the pieces after it. */
  lemma SplitStep(s: string, c: char)
    requires IndexOf(s, c) < |s|
    ensures Split(s, c) == [s[..IndexOf(s, c)]] + Split(s[IndexOf(s, c) + 1..], c)
  {
  }

  /** A string is what comes before position `k`, its element there, and the rest. */
  lemma AroundIndex<T>(s: seq<T>, k: nat)
    requires k < |s|
    ensures s == s[..k] + [s[k]] + s[k + 1..]
  {
  }

  /** Splitting loses nothing: joining the pieces with `c` gives the string back. */
  lemma {:induction false} SplitJoin(s: string, c: char)
    ensures Join(Split(s, c), [c]) == s
    decreases |s|
  {
    var k := IndexOf(s, c);
    if k < |s| {
      var tail := s[k + 1..];
      SplitStep(s, c);
      SplitJoin(tail, c);
      JoinCons(s[..k], Split(tail, c), [c]);
      AroundIndex(s, k);
    }
  }

}
