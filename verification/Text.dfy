/** Text as the source's string functions see it: trimming, filtering, splitting at a character. */
module Text {
  import opened Digits

  predicate IsSpace(c: char) {
    c == ' ' || c == '\t' || c == '\n' || c == '\r'
  }

  function TrimStart(s: string): string {
    if s != [] && IsSpace(s[0]) then TrimStart(s[1..]) else s
  }

  function TrimEnd(s: string): string {
    if s != [] && IsSpace(s[|s| - 1]) then TrimEnd(s[..|s| - 1]) else s
  }

  function Trim(s: string): string {
    TrimEnd(TrimStart(s))
  }

  function UpperChar(c: char): char {
    if 'a' <= c <= 'z' then c - 'a' + 'A' else c
  }

  function Upper(s: string): string {
    seq(|s|, i requires 0 <= i < |s| => UpperChar(s[i]))
  }

  predicate NoSpaces(s: string) {
    forall i :: 0 <= i < |s| ==> !IsSpace(s[i])
  }

  lemma TrimNothing(s: string)
    requires NoSpaces(s)
    ensures Trim(s) == s
  {
  }

  /** The characters of `s` for which the test holds, in order. */
  function Filter(s: string, test: char -> bool): string {
    if s == [] then []
    else
      var front := Filter(s[..|s| - 1], test);
      if test(s[|s| - 1]) then front + [s[|s| - 1]] else front
  }

  lemma {:induction false} FilterAppend(a: string, b: string, test: char -> bool)
    ensures Filter(a + b, test) == Filter(a, test) + Filter(b, test)
  {
    if b == [] {
      assert a + b == a;
    } else {
      FilterAppend(a, b[..|b| - 1], test);
      assert (a + b)[..|a + b| - 1] == a + b[..|b| - 1];
    }
  }

  lemma {:induction false} FilterAll(s: string, test: char -> bool)
    requires forall i :: 0 <= i < |s| ==> test(s[i])
    ensures Filter(s, test) == s
  {
    if s != [] {
      FilterAll(s[..|s| - 1], test);
    }
  }

  lemma {:induction false} FilterNone(s: string, test: char -> bool)
    requires forall i :: 0 <= i < |s| ==> !test(s[i])
    ensures Filter(s, test) == []
  {
    if s != [] {
      FilterNone(s[..|s| - 1], test);
    }
  }

  lemma {:induction false} FilterKeeps(s: string, test: char -> bool)
    ensures forall i :: 0 <= i < |Filter(s, test)| ==> test(Filter(s, test)[i])
  {
    if s != [] {
      FilterKeeps(s[..|s| - 1], test);
    }
  }

  /** The position of the first `c`, or the length when there is none. */
  function IndexOf(s: string, c: char): (i: nat)
    ensures i <= |s| && (i < |s| ==> s[i] == c)
    ensures forall j :: 0 <= j < i ==> s[j] != c
  {
    if s == [] || s[0] == c then 0 else 1 + IndexOf(s[1..], c)
  }

  lemma {:induction false} IndexAfter(a: string, c: char, b: string)
    requires c !in a
    ensures IndexOf(a + [c] + b, c) == |a|
  {
    if a == [] {
      assert (a + [c] + b)[0] == c;
    } else {
      IndexAfter(a[1..], c, b);
      assert (a + [c] + b)[1..] == a[1..] + [c] + b;
    }
  }

  lemma {:induction false} IndexNone(s: string, c: char)
    requires c !in s
    ensures IndexOf(s, c) == |s|
  {
  }

  lemma DigitsHaveNo(s: string, c: char)
    requires AllDigits(s) && !IsDigit(c)
    ensures c !in s
  {
  }
}
