// Go's string helpers as far as the modelled code uses them. A string is a
// sequence of characters; the code only ever compares, cuts and joins at ASCII
// separators, for which characters and UTF-8 bytes agree.

module Text {

  datatype Option<+T> = None | Some(value: T)

  /** The index of the first c in s, or |s| when there is none. */
  function IndexOf(s: string, c: char): (i: nat)
    ensures i <= |s|
    ensures c !in s[..i]
    ensures i < |s| ==> s[i] == c
  {
    if s == "" || s[0] == c then 0
    else
      var i := 1 + IndexOf(s[1..], c);
      assert s[..i] == [s[0]] + s[1..][..i - 1];
      i
  }

  lemma {:induction false} IndexOfPrefix(p: string, c: char, rest: string)
    requires c !in p
    ensures IndexOf(p + [c] + rest, c) == |p|
  {
    var s := p + [c] + rest;
    if p == "" {
      assert s[0] == c;
    } else {
      assert s[1..] == p[1..] + [c] + rest;
      IndexOfPrefix(p[1..], c, rest);
    }
  }

  lemma {:induction false} IndexOfAbsent(p: string, c: char)
    requires c !in p
    ensures IndexOf(p, c) == |p|
  {
    if p != "" {
      IndexOfAbsent(p[1..], c);
    }
  }

  /** strings.Cut at a one-character separator. */
  function Cut(s: string, c: char): Option<(string, string)> {
    var i := IndexOf(s, c);
    if i == |s| then None else Some((s[..i], s[i + 1..]))
  }

  /** The cut is at the first separator. */
  lemma CutMeans(s: string, c: char, a: string, b: string)
    ensures Cut(s, c) == Some((a, b)) <==> c !in a && s == a + [c] + b
  {
    if c !in a && s == a + [c] + b {
      IndexOfPrefix(a, c, b);
      assert s[..|a|] == a && s[|a| + 1..] == b;
    }
    var i := IndexOf(s, c);
    if i < |s| { assert s == s[..i] + [s[i]] + s[i + 1..]; }
  }

  /** strings.Split at a one-character separator. */
  function Split(s: string, c: char): (parts: seq<string>)
    ensures parts != []
    ensures forall p :: p in parts ==> c !in p
    decreases |s|
  {
    var i := IndexOf(s, c);
    if i == |s| then [s] else [s[..i]] + Split(s[i + 1..], c)
  }

  /** strings.Join with a one-character separator. */
  function Join(parts: seq<string>, c: char): string {
    if parts == [] then ""
    else if |parts| == 1 then parts[0]
    else parts[0] + [c] + Join(parts[1..], c)
  }

  lemma JoinCons(head: string, tail: seq<string>, c: char)
    requires tail != []
    ensures Join([head] + tail, c) == head + [c] + Join(tail, c)
  {
    assert ([head] + tail)[1..] == tail;
  }

  lemma {:induction false} JoinSplit(s: string, c: char)
    ensures Join(Split(s, c), c) == s
    decreases |s|
  {
    hide IndexOf;
    var i := IndexOf(s, c);
    if i < |s| {
      hide Join;
      var head, rest := s[..i], s[i + 1..];
      JoinSplit(rest, c);
      JoinCons(head, Split(rest, c), c);
      assert s == head + [c] + rest;
    }
  }

  lemma SplitCons(p: string, c: char, rest: string)
    requires c !in p
    ensures Split(p + [c] + rest, c) == [p] + Split(rest, c)
  {
    IndexOfPrefix(p, c, rest);
    var s := p + [c] + rest;
    assert s[..|p|] == p && s[|p| + 1..] == rest;
  }

  lemma SplitAlone(p: string, c: char)
    requires c !in p
    ensures Split(p, c) == [p]
  {
    IndexOfAbsent(p, c);
  }

  lemma {:induction false} SplitJoin(parts: seq<string>, c: char)
    requires parts != []
    requires forall p :: p in parts ==> c !in p
    ensures Split(Join(parts, c), c) == parts
  {
    hide Split;
    if |parts| == 1 {
      SplitAlone(parts[0], c);
    } else {
      assert parts[0] in parts && forall p :: p in parts[1..] ==> p in parts;
      SplitCons(parts[0], c, Join(parts[1..], c));
      SplitJoin(parts[1..], c);
    }
  }

  predicate HasSuffix(s: string, suffix: string) {
    |suffix| <= |s| && s[|s| - |suffix|..] == suffix
  }

  predicate IsDigit(c: char) { '0' <= c <= '9' }

  predicate IsLower(c: char) { 'a' <= c <= 'z' }

  predicate IsUpper(c: char) { 'A' <= c <= 'Z' }

  predicate IsAlnum(c: char) { IsDigit(c) || IsLower(c) || IsUpper(c) }

  predicate HasPrefix(s: string, prefix: string) {
    |prefix| <= |s| && s[..|prefix|] == prefix
  }

  // ---- Decimal numbers ------------------------------------------------------

  /** str(n) */
  function Decimal(n: nat): string {
    (if n < 10 then "" else Decimal(n / 10)) + [('0' as int + n % 10) as char]
  }

  predicate AllDigits(s: string) { forall i :: 0 <= i < |s| ==> IsDigit(s[i]) }

  /** int(s) */
  function ValueOf(s: string): nat
    requires AllDigits(s)
  {
    if s == "" then 0 else 10 * ValueOf(s[..|s| - 1]) + (s[|s| - 1] as int - '0' as int)
  }

  lemma {:induction false} DecimalValue(n: nat)
    ensures Decimal(n) != "" && AllDigits(Decimal(n)) && ValueOf(Decimal(n)) == n
  {
    var front, last := if n < 10 then "" else Decimal(n / 10), ('0' as int + n % 10) as char;
    if n >= 10 { DecimalValue(n / 10); }
    assert Decimal(n) == front + [last] && (front + [last])[..|front|] == front;
  }

  // ---- Runs of one class of characters --------------------------------------

  /** The length of the longest prefix in the class. */
  function RunLength(s: string, cls: char -> bool): (n: nat)
    ensures n <= |s| && forall i :: 0 <= i < n ==> cls(s[i])
    ensures n < |s| ==> !cls(s[n])
  {
    if s == "" || !cls(s[0]) then 0 else 1 + RunLength(s[1..], cls)
  }

  lemma RunEnds(a: string, b: string, cls: char -> bool)
    requires (forall i :: 0 <= i < |a| ==> cls(a[i])) && (b == "" || !cls(b[0]))
    ensures RunLength(a + b, cls) == |a| && (a + b)[..|a|] == a && (a + b)[|a|..] == b
  {
    var s, n := a + b, RunLength(a + b, cls);
    assert forall i :: 0 <= i < |a| ==> s[i] == a[i];
    if b != "" { assert s[|a|] == b[0]; }
    assert n == |a|;
  }
}
