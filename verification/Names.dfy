// Authority names (access/types.go) and the suffix test policies make on them
// (access/user.go). A node's full name is the root's name followed by the labels on the
// way down; it is printed last label first.

module Names {
  import opened Text

  type Path = seq<string>

  function Reverse(names: seq<string>): (r: seq<string>)
    ensures |r| == |names|
    ensures forall i :: 0 <= i < |names| ==> r[i] == names[|names| - 1 - i]
  {
    seq(|names|, i requires 0 <= i < |names| => names[|names| - 1 - i])
  }

  /** CommonName: the names in reverse, joined with dots. */
  function Print(names: seq<string>): string { Join(Reverse(names), '.') }

  /** FullName.CommonName builds it from the back. */
  method CommonName(names: seq<string>) returns (result: string)
    ensures result == Print(names)
  {
    result := "";
    assert Join([], '.') == "";
    hide Join;
    var i := |names| - 1;
    while i >= 0
      invariant -1 <= i <= |names| - 1
      invariant result == Join(Reverse(names)[..|names| - 1 - i], '.')
    {
      var r := Reverse(names);
      var k := |names| - 1 - i;
      JoinSnoc(r[..k], r[k], '.');
      assert r[..k + 1] == r[..k] + [r[k]];
      if i < |names| - 1 { result := result + "."; }
      result := result + names[i];
      i := i - 1;
    }
    assert Reverse(names)[..|names|] == Reverse(names);
  }

  lemma {:induction false} JoinSnoc(parts: seq<string>, last: string, c: char)
    ensures Join(parts + [last], c) == if parts == [] then last else Join(parts, c) + [c] + last
  {
    if |parts| > 1 {
      JoinSnoc(parts[1..], last, c);
      assert (parts + [last])[1..] == parts[1..] + [last];
    } else if |parts| == 1 {
      assert (parts + [last])[1..] == [last];
    }
  }

  // ---- The suffix test is tree descent --------------------------------------

  predicate DotFree(p: Path) { forall i :: 0 <= i < |p| ==> '.' !in p[i] }

  predicate Descendant(p: Path, q: Path) { |q| < |p| && p[..|q|] == q }

  lemma PrintSnoc(root: string, p: Path, name: string)
    ensures Print([root] + p + [name]) == name + "." + Print([root] + p)
  {
    var names := [root] + p;
    var r := Reverse(names + [name]);
    assert r[0] == name && r[1..] == Reverse(names);
    assert |Reverse(names)| > 0;
  }

  lemma {:induction false} PrintRoot(root: string)
    ensures Print([root]) == root
  {
    assert Reverse([root]) == [root];
  }

  /** Equal tails after dot-free labels. */
  lemma FirstDot(a: string, b: string, x: string, y: string)
    requires '.' !in a && '.' !in b && a + "." + x == b + "." + y
    ensures a == b && x == y
  {
    IndexOfPrefix(a, '.', x);
    IndexOfPrefix(b, '.', y);
    var s := a + ['.'] + x;
    assert s == b + ['.'] + y;
    assert s[..|a|] == a && s[|a| + 1..] == x && s[..|b|] == b && s[|b| + 1..] == y;
  }

  lemma {:induction false} PrintLonger(root: string, p: Path)
    ensures |Print([root] + p)| >= |root| + |p|
  {
    if p == [] {
      assert [root] + p == [root];
      PrintRoot(root);
    } else {
      var rest := p[..|p| - 1];
      PrintLonger(root, rest);
      PrintSnoc(root, rest, p[|p| - 1]);
      assert [root] + p == [root] + rest + [p[|p| - 1]];
    }
  }

  /** Printed names tell nodes of one tree apart, whatever dots the root's name has. */
  lemma {:induction false} PrintInjective(root: string, p: Path, q: Path)
    requires DotFree(p) && DotFree(q) && Print([root] + p) == Print([root] + q)
    ensures p == q
  {
    PrintLonger(root, p);
    PrintLonger(root, q);
    PrintRoot(root);
    assert [root] + [] == [root];
    if p != [] && q != [] {
      var p', q' := p[..|p| - 1], q[..|q| - 1];
      var a, b := p[|p| - 1], q[|q| - 1];
      assert [root] + p == [root] + p' + [a] && [root] + q == [root] + q' + [b];
      PrintSnoc(root, p', a);
      PrintSnoc(root, q', b);
      FirstDot(a, b, Print([root] + p'), Print([root] + q'));
      PrintInjective(root, p', q');
    }
  }

  /** A dot starts a suffix of "label.rest" at the label's end or inside the rest. */
  lemma DottedSuffix(name: string, rest: string, s: string)
    requires '.' !in name
    ensures HasSuffix(name + "." + rest, "." + s) <==> rest == s || HasSuffix(rest, "." + s)
  {
    var all := name + "." + rest;
    var k := |all| - |s| - 1;
    if HasSuffix(all, "." + s) {
      assert all[k..] == "." + s && all[k] == '.';
      assert forall i :: 0 <= i < |name| ==> all[i] != '.';
      if k == |name| {
        assert all[k + 1..] == rest && ("." + s)[1..] == s;
      } else {
        assert all[k..] == rest[k - |name| - 1..];
      }
    }
    if rest == s { assert all[k..] == "." + s; }
    if HasSuffix(rest, "." + s) { assert all[k..] == rest[|rest| - |s| - 1..]; }
  }

  /** The test policies make: a node's printed name ends with a dot and another's exactly when
      it lies properly below the other in the tree. Labels are dot-free; the root's need not be. */
  lemma {:induction false} SuffixIsDescent(root: string, p: Path, q: Path)
    requires DotFree(p) && DotFree(q)
    ensures HasSuffix(Print([root] + p), "." + Print([root] + q)) <==> Descendant(p, q)
  {
    if p == [] {
      PrintLonger(root, q);
      PrintRoot(root);
      assert [root] + p == [root];
    } else {
      var p', a := p[..|p| - 1], p[|p| - 1];
      assert [root] + p == [root] + p' + [a];
      PrintSnoc(root, p', a);
      DottedSuffix(a, Print([root] + p'), Print([root] + q));
      SuffixIsDescent(root, p', q);
      if Print([root] + p') == Print([root] + q) { PrintInjective(root, p', q); }
      if |q| < |p| { assert p[..|q|] == p'[..|q|]; }
      assert p' == q || Descendant(p', q) <==> Descendant(p, q);
    }
  }

  /** Dotted labels break it: "a.b" directly under the root ends with the dot and printed name
      of the unrelated child "b". */
  lemma DottedLabelsBreakDescent()
    ensures HasSuffix(Print(["r"] + ["a.b"]), "." + Print(["r"] + ["b"])) && !Descendant(["a.b"], ["b"])
  {
    PrintSnoc("r", [], "a.b");
    PrintSnoc("r", [], "b");
    PrintRoot("r");
    assert ["r"] + [] == ["r"] && ["r"] + [] + ["a.b"] == ["r"] + ["a.b"] && ["r"] + [] + ["b"] == ["r"] + ["b"];
    assert ("a.b" + "." + "r")[1..] == "." + ("b" + "." + "r");
  }

  // ---- Parsing --------------------------------------------------------------

  function LowerChar(c: char): char { if IsUpper(c) then (c as int - 'A' as int + 'a' as int) as char else c }

  function Lower(s: string): (r: string)
    ensures |r| == |s| && forall i :: 0 <= i < |s| ==> r[i] == LowerChar(s[i])
  {
    seq(|s|, i requires 0 <= i < |s| => LowerChar(s[i]))
  }

  const UPPER_LETTERS := "ABCDEFGHIJKLMNOPQRSTUVWXYZ"
  const LOWER_LETTERS := "abcdefghijklmnopqrstuvwxyz"

  /** Lower-casing takes each capital to its small letter and leaves the rest alone, so doing
      it twice is doing it once. */
  lemma LowerTable(s: string)
    ensures forall i, k :: 0 <= i < |s| && 0 <= k < 26 && s[i] == UPPER_LETTERS[k] ==> Lower(s)[i] == LOWER_LETTERS[k]
    ensures forall i :: 0 <= i < |s| && s[i] !in UPPER_LETTERS ==> Lower(s)[i] == s[i]
    ensures Lower(Lower(s)) == Lower(s)
  {
    forall k | 0 <= k < 26 ensures LowerChar(UPPER_LETTERS[k]) == LOWER_LETTERS[k] {}
    forall c | IsUpper(c) ensures c in UPPER_LETTERS { assert UPPER_LETTERS[c as int - 'A' as int] == c; }
  }

  predicate LowerCase(s: string) { Lower(s) == s }

  /** ParseCommonNameToFullNameStrict: the labels below the domain, from the top down. */
  function ParseStrict(commonName: string, domain: string): Option<Path> {
    var cn, dot := Lower(commonName), "." + Lower(domain);
    if !HasSuffix(cn, dot) || |cn| == |dot| then None
    else Some(Reverse(Split(cn[..|cn| - |dot|], '.')))
  }

  /** slices.Reverse in place. */
  method ReverseInPlace(parts: array<string>)
    modifies parts
    ensures parts[..] == Reverse(old(parts[..]))
  {
    var i, j := 0, parts.Length - 1;
    while i < j
      invariant 0 <= i <= j + 1 && i + j == parts.Length - 1
      invariant forall k :: 0 <= k < i || j < k < parts.Length ==> parts[k] == old(parts[parts.Length - 1 - k])
      invariant forall k :: i <= k <= j ==> parts[k] == old(parts[k])
    {
      parts[i], parts[j] := parts[j], parts[i];
      i, j := i + 1, j - 1;
    }
  }

  method ParseCommonNameToFullNameStrict(commonName: string, domain: string) returns (r: Option<Path>)
    ensures r == ParseStrict(commonName, domain)
  {
    var cn, dot := Lower(commonName), "." + Lower(domain);
    if !HasSuffix(cn, dot) { return None; }
    cn := cn[..|cn| - |dot|];
    if cn == "" { return None; }
    var parts := Split(cn, '.');
    var a := new string[|parts|](i requires 0 <= i < |parts| => parts[i]);
    assert a[..] == parts;
    ReverseInPlace(a);
    return Some(a[..]);
  }

  lemma ReverseTwice(names: seq<string>)
    ensures Reverse(Reverse(names)) == names
  {
  }

  /** Printing below a domain: the labels joined, a dot, the domain. */
  lemma {:induction false} PrintBelow(domain: string, p: Path)
    requires p != []
    ensures Print([domain] + p) == Join(Reverse(p), '.') + "." + domain
  {
    var r := Reverse([domain] + p);
    assert r == Reverse(p) + [domain];
    JoinSnoc(Reverse(p), domain, '.');
  }

  /** Every accepted name prints back to its lower-cased self. */
  lemma AcceptedPrintsBack(commonName: string, domain: string)
    requires ParseStrict(commonName, domain).Some?
    ensures var p := ParseStrict(commonName, domain).value;
            p != [] && p != [""] && DotFree(p) && Print([Lower(domain)] + p) == Lower(commonName)
  {
    hide Split, Join, Print, Lower, DotFree;
    var cn, dot := Lower(commonName), "." + Lower(domain);
    var labels := cn[..|cn| - |dot|];
    var parts := Split(labels, '.');
    JoinSplit(labels, '.');
    ReverseTwice(parts);
    PrintBelow(Lower(domain), Reverse(parts));
    SuffixSplits(cn, labels, Lower(domain));
    ReversedDotFree(parts);
    if Reverse(parts) == [""] {
      assert parts == [Reverse(parts)[0]];
      JoinAlone(parts[0], '.');
    }
  }

  lemma SuffixSplits(s: string, front: string, back: string)
    requires HasSuffix(s, "." + back) && front == s[..|s| - |back| - 1]
    ensures s == front + "." + back
  {
    assert s == s[..|s| - |back| - 1] + s[|s| - |back| - 1..];
  }

  lemma ReversedDotFree(parts: seq<string>)
    ensures (forall x :: x in parts ==> '.' !in x) <==> DotFree(Reverse(parts))
  {
    if DotFree(Reverse(parts)) {
      forall x | x in parts ensures '.' !in x {
        var i :| 0 <= i < |parts| && parts[i] == x;
        assert Reverse(parts)[|parts| - 1 - i] == x;
      }
    }
  }

  lemma JoinAlone(s: string, c: char)
    ensures Join([s], c) == s
  {
  }

  /** Strict parsing undoes printing on lower-case dot-free labels, but for the two paths that
      print as nothing below the domain. */
  lemma ParsePrinted(domain: string, p: Path)
    requires DotFree(p) && LowerCase(domain) && forall i :: 0 <= i < |p| ==> LowerCase(p[i])
    ensures ParseStrict(Print([domain] + p), domain) == if p == [] || p == [""] then None else Some(p)
  {
    var cn := Print([domain] + p);
    PrintLowerCase(domain, p);
    if p == [] {
      assert [domain] + p == [domain];
      PrintRoot(domain);
    } else {
      var parts := Reverse(p);
      var labels := Join(parts, '.');
      PrintBelow(domain, p);
      var dot := "." + domain;
      assert cn == labels + dot;
      assert cn[|cn| - |dot|..] == dot && cn[..|cn| - |dot|] == labels;
      ReverseTwice(p);
      ReversedDotFree(parts);
      SplitJoin(parts, '.');
      if labels == "" {
        assert Split("", '.') == [""];
        assert p == Reverse([""]) == [""];
      }
    }
  }

  /** ParseCommonNameToFullName: the domain may be left off, and nothing is refused. */
  function ParseLenient(commonName: string, domain: string): Path {
    var cn, dot := Lower(commonName), "." + Lower(domain);
    Reverse(Split(if HasSuffix(cn, dot) then cn[..|cn| - |dot|] else cn, '.'))
  }

  lemma SplitInjective(s: string, t: string)
    requires Reverse(Split(s, '.')) == Reverse(Split(t, '.'))
    ensures s == t
  {
    ReverseTwice(Split(s, '.'));
    ReverseTwice(Split(t, '.'));
    JoinSplit(s, '.');
    JoinSplit(t, '.');
  }

  lemma LowerAppend(a: string, b: string)
    ensures Lower(a + b) == Lower(a) + Lower(b)
  {
  }

  /** A name with the domain left off means the node it means with the domain, exactly when it
      does not itself end in the domain. */
  lemma {:induction false} DomainIsOptional(name: string, domain: string)
    ensures ParseLenient(name, domain) == ParseLenient(name + "." + domain, domain)
            <==> !HasSuffix(Lower(name), "." + Lower(domain))
  {
    hide Split;
    var cn, dot := Lower(name), "." + Lower(domain);
    LowerAppend(name + ".", domain);
    LowerAppend(name, ".");
    assert Lower(".") == ".";
    var full := Lower(name + "." + domain);
    assert full == cn + dot;
    assert full[|full| - |dot|..] == dot && full[..|full| - |dot|] == cn;
    if HasSuffix(cn, dot) && ParseLenient(name, domain) == ParseLenient(name + "." + domain, domain) {
      SplitInjective(cn[..|cn| - |dot|], cn);
      assert false;
    }
  }

  lemma {:induction false} PrintLowerCase(domain: string, p: Path)
    requires LowerCase(domain) && forall i :: 0 <= i < |p| ==> LowerCase(p[i])
    ensures LowerCase(Print([domain] + p))
  {
    if p == [] {
      assert [domain] + p == [domain];
      PrintRoot(domain);
    } else {
      var p', a := p[..|p| - 1], p[|p| - 1];
      assert [domain] + p == [domain] + p' + [a];
      PrintSnoc(domain, p', a);
      PrintLowerCase(domain, p');
      LowerJoin(a, Print([domain] + p'));
    }
  }

  lemma LowerJoin(a: string, b: string)
    requires LowerCase(a) && LowerCase(b)
    ensures LowerCase(a + "." + b)
  {
    var s := a + "." + b;
    forall i | 0 <= i < |s| ensures LowerChar(s[i]) == s[i] {
      if i < |a| { assert Lower(a)[i] == s[i]; }
      else if i > |a| { assert Lower(b)[i - |a| - 1] == s[i]; }
    }
  }
}
