// The authority tree (access/authority.go): nodes linked by children maps and parent
// pointers, looked up, created and removed by walking down from the root.

module AuthorityTree {
  import opened Text
  import opened Names

  /** leafAuthority and intermediateAuthority in one class. */
  class Authority {
    const name: string
    const parent: Authority?
    const leaf: bool
    var children: map<string, Authority>

    constructor (name: string, parent: Authority?, leaf: bool)
      ensures this.name == name && this.parent == parent && this.leaf == leaf && children == map[]
    {
      this.name, this.parent, this.leaf, this.children := name, parent, leaf, map[];
    }
  }

  /** The tree by paths of labels below the root; the value tells leaves. */
  type Tree = map<Path, bool>

  function Parent(p: Path): Path
    requires p != []
  {
    p[..|p| - 1]
  }

  /** Children only under nodes that are there and are not leaves. */
  ghost predicate WellFormed(t: Tree) {
    [] in t && !t[[]] && forall p :: p in t && p != [] ==> Parent(p) in t && !t[Parent(p)]
  }

  lemma {:induction false} PrefixClosed(t: Tree, p: Path, k: nat)
    requires WellFormed(t) && p in t && k <= |p|
    ensures p[..k] in t && (k < |p| ==> !t[p[..k]])
  {
    if k < |p| {
      PrefixClosed(t, Parent(p), k);
      assert Parent(p)[..k] == p[..k];
    } else {
      assert p[..k] == p;
    }
  }

  /** Nothing on the way to p, short of p itself, is a leaf. */
  predicate Open(t: Tree, p: Path) { forall k :: 0 <= k < |p| && p[..k] in t ==> !t[p[..k]] }

  /** t with p and every node missing on the way to it. */
  ghost predicate Grown(t: Tree, t': Tree, p: Path, leaf: bool) {
    && (forall q :: q in t' <==> q in t || (|q| <= |p| && p[..|q|] == q))
    && (forall q :: q in t ==> t'[q] == t[q])
    && (forall q :: q in t' && q !in t ==> t'[q] == (q == p && leaf))
  }

  lemma {:induction false} GrownIsWellFormed(t: Tree, t': Tree, p: Path, leaf: bool)
    requires WellFormed(t) && Open(t, p) && Grown(t, t', p, leaf)
    ensures WellFormed(t')
  {
    forall q | q in t' && q != [] ensures Parent(q) in t' && !t'[Parent(q)] {
      if q !in t {
        assert p[..|q| - 1] == Parent(q);
      }
    }
  }

  /** Creating and removing a leaf under an existing node undo each other. */
  lemma RemoveUndoesCreate(t: Tree, t': Tree, p: Path, leaf: bool)
    requires WellFormed(t) && p != [] && p !in t && Parent(p) in t && Grown(t, t', p, leaf)
    ensures t' - {p} == t && forall n :: p + [n] !in t'
  {
    forall q | q in t' && q != p ensures q in t {
      if |q| < |p| {
        PrefixClosed(t, Parent(p), |q|);
        assert Parent(p)[..|q|] == p[..|q|];
      }
    }
    forall n ensures p + [n] !in t' {
      assert Parent(p + [n]) == p;
    }
  }

  /** Each path leads to its own node, under its parent's node, by its last label. */
  ghost predicate Placed(root: Authority, nodes: map<Path, Authority>) {
    && [] in nodes && nodes[[]] == root && root.parent == null && !root.leaf
    && (forall p, q :: p in nodes && q in nodes && nodes[p] == nodes[q] ==> p == q)
    && (forall p :: p in nodes && p != [] ==>
         && Parent(p) in nodes && nodes[p].parent == nodes[Parent(p)] && nodes[p].name == p[|p| - 1]
         && !nodes[Parent(p)].leaf)
  }

  /** The node's children are the nodes one label further. */
  ghost predicate ChildrenOf(nodes: map<Path, Authority>, p: Path)
    requires p in nodes
    reads nodes[p]
  {
    Agrees(nodes, p, nodes[p].children)
  }

  ghost predicate Agrees(nodes: map<Path, Authority>, p: Path, children: map<string, Authority>) {
    forall n :: (n in children <==> p + [n] in nodes) && (n in children ==> children[n] == nodes[p + [n]])
  }

  lemma AgreesAfterUnlink(nodes: map<Path, Authority>, q: Path, children: map<string, Authority>, p: Path, name: string)
    requires Agrees(nodes, q, children)
    ensures Agrees(nodes - {p + [name]}, q, if q == p then children - {name} else children)
  {
    forall n ensures p + [name] == q + [n] <==> p == q && name == n { SnocApart(p, name, q, n); }
  }

  lemma PlacedGrows(root: Authority, nodes: map<Path, Authority>, p: Path, child: Authority)
    requires Placed(root, nodes) && p in nodes && !nodes[p].leaf && p + [child.name] !in nodes
    requires child !in nodes.Values && child.parent == nodes[p]
    ensures Placed(root, nodes[p + [child.name] := child])
  {
    var q := p + [child.name];
    assert Parent(q) == p;
    assert forall r :: r in nodes ==> nodes[r] in nodes.Values;
  }

  lemma PlacedShrinks(root: Authority, nodes: map<Path, Authority>, p: Path)
    requires Placed(root, nodes) && p != [] && forall n :: p + [n] !in nodes
    ensures Placed(root, nodes - {p})
  {
    var fewer := nodes - {p};
    assert forall q :: q in fewer ==> q in nodes && fewer[q] == nodes[q];
    forall q | q in fewer && q != [] ensures Parent(q) in fewer {
      var n := q[|q| - 1];
      assert q == Parent(q) + [n];
      assert p + [n] !in nodes;
    }
  }

  lemma SnocApart(p: Path, n: string, q: Path, m: string)
    ensures p + [n] == q + [m] <==> p == q && n == m
  {
    if p + [n] == q + [m] {
      assert p == (p + [n])[..|p|] && q == (q + [m])[..|q|];
      assert (p + [n])[|p|] == n && (q + [m])[|q|] == m;
    }
  }

  lemma GrownByNothing(t: Tree)
    requires WellFormed(t)
    ensures Grown(t, t, [], false) && Open(t, [])
  {
    forall q: Path | |q| == 0 ensures q in t { assert q == []; }
  }

  lemma GrownStep(t: Tree, mid: Tree, p: Path, name: string, leaf: bool)
    requires WellFormed(t) && Grown(t, mid, p, false)
    ensures p + [name] in mid ==> Grown(t, mid, p + [name], false) && p + [name] in t
    ensures p + [name] !in mid ==> Grown(t, mid[p + [name] := leaf], p + [name], leaf) && p + [name] !in t
  {
    var q := p + [name];
    assert q[..|p|] == p;
    forall r: Path | |r| <= |q| ensures (q[..|r|] == r) <==> r == q || (|r| <= |p| && p[..|r|] == r) {
      if |r| <= |p| { assert q[..|r|] == p[..|r|]; } else { assert q[..|r|] == q; }
    }
  }

  /** A leaf met on the way was there before: up to it nothing has been created. */
  lemma LeafEndsWalk(t: Tree, now: Tree, p: Path, i: nat)
    requires WellFormed(t) && i < |p| && p[..i] in now && Grown(t, now, p[..i], false)
    ensures now[p[..i]] ==> p[..i] in t
    ensures now[p[..i]] ==> now == t && p[..i + 1] !in t && !Open(t, p)
    ensures p[..i] in t ==> now == t
    ensures p[..i] in t ==> now[p[..i]] == t[p[..i]]
  {
    if p[..i] in t {
      forall q | q in now ensures q in t {
        if q !in t { PrefixClosed(t, p[..i], |q|); }
      }
      assert now.Keys == t.Keys;
      if p[..i + 1] in t {
        PrefixClosed(t, p[..i + 1], i);
        assert p[..i + 1][..i] == p[..i];
      }
    }
  }

  lemma OpenStep(t: Tree, p: Path, i: nat)
    requires i < |p| && Open(t, p[..i]) && (p[..i] in t ==> !t[p[..i]])
    ensures Open(t, p[..i + 1])
  {
    var q := p[..i + 1];
    forall k | 0 <= k < |q| && q[..k] in t ensures !t[q[..k]] {
      assert q[..k] == p[..k];
      if k < i { assert p[..i][..k] == p[..k]; }
    }
  }

  class RootAuthority {
    const root: Authority
    ghost var nodes: map<Path, Authority>

    ghost function Tree(): Tree
      reads this
    {
      map p | p in nodes :: nodes[p].leaf
    }

    ghost predicate Valid()
      reads this, nodes.Values
    {
      Placed(root, nodes) && forall p :: p in nodes ==> ChildrenOf(nodes, p)
    }

    constructor (name: string)
      ensures Valid() && Tree() == map[[] := false] && root.name == name
    {
      var r := new Authority(name, null, false);
      root := r;
      nodes := map[[] := r];
    }

    lemma ValidIsWellFormed()
      requires Valid()
      ensures WellFormed(Tree())
    {
    }

    lemma RootAt()
      requires Valid()
      ensures [] in nodes && nodes[[]] == root && !root.leaf && root.parent == null
    {
    }

    lemma NodeAt(p: Path)
      requires Valid() && p in nodes && p != []
      ensures Parent(p) in nodes && nodes[p].parent == nodes[Parent(p)] && nodes[p].name == p[|p| - 1]
    {
    }

    lemma ChildAt(p: Path, n: string)
      requires Valid() && p in nodes
      ensures n in nodes[p].children <==> p + [n] in nodes
      ensures p + [n] in nodes ==> nodes[p].children[n] == nodes[p + [n]] && !nodes[p].leaf
    {
      assert ChildrenOf(nodes, p);
      assert Parent(p + [n]) == p;
    }

    /** Where a step of the descent is missing, so is all below it. */
    lemma MissingBelow(p: Path, k: nat)
      requires Valid() && k < |p| && p[..k] in nodes && p[k] !in nodes[p[..k]].children
      ensures p[..k + 1] !in nodes && p !in nodes
    {
      hide Placed;
      ChildAt(p[..k], p[k]);
      assert p[..k] + [p[k]] == p[..k + 1];
      ValidIsWellFormed();
      if p in nodes { PrefixClosed(Tree(), p, k + 1); }
    }

    /** FullName: recursion up the parents. */
    method FullName(a: Authority, ghost p: Path) returns (names: seq<string>)
      requires Valid() && p in nodes && nodes[p] == a
      ensures names == [root.name] + p
      decreases |p|
    {
      hide Valid;
      RootAt();
      if p != [] { NodeAt(p); }
      if a.parent == null {
        return [a.name];
      }
      assert p != [];
      var above := FullName(a.parent, Parent(p));
      names := above + [a.name];
    }

    method GetDescendant(fullName: Path) returns (found: bool, a: Authority)
      requires Valid()
      ensures found <==> fullName in nodes
      ensures found ==> a == nodes[fullName]
    {
      hide Valid;
      RootAt();
      a := root;
      for i := 0 to |fullName|
        invariant fullName[..i] in nodes && nodes[fullName[..i]] == a
      {
        ChildAt(fullName[..i], fullName[i]);
        assert fullName[..i] + [fullName[i]] == fullName[..i + 1];
        if fullName[i] !in a.children {
          MissingBelow(fullName, i);
          return false, a;
        }
        a := a.children[fullName[i]];
      }
      assert fullName[..|fullName|] == fullName;
      found := true;
    }

    /** CreateChild and CreateLeafChild: refused on a leaf and for a name that is taken. */
    method CreateChild(a: Authority, name: string, leaf: bool, ghost p: Path) returns (r: Option<Authority>)
      requires Valid() && p in nodes && nodes[p] == a
      modifies this`nodes, a
      ensures Valid() && (r.Some? <==> !a.leaf && p + [name] !in old(nodes))
      ensures r.None? ==> nodes == old(nodes)
      ensures r.Some? ==> fresh(r.value) && nodes == old(nodes)[p + [name] := r.value] && r.value.leaf == leaf
    {
      hide Valid;
      ChildAt(p, name);
      if a.leaf || name in a.children { return None; }
      var child := AddChild(a, name, leaf, p);
      r := Some(child);
    }

    /** The new node and its link. */
    method AddChild(a: Authority, name: string, leaf: bool, ghost p: Path) returns (child: Authority)
      requires Valid() && p in nodes && nodes[p] == a && !a.leaf && p + [name] !in nodes
      modifies this`nodes, a
      ensures Valid() && fresh(child) && nodes == old(nodes)[p + [name] := child] && child.leaf == leaf
    {
      hide Placed;
      ghost var before := nodes;
      child := new Authority(name, a, leaf);
      assert child !in nodes.Values;
      PlacedGrows(root, nodes, p, child);
      Apart(p);
      NoneBelow(p + [name]);
      a.children := a.children[name := child];
      nodes := nodes[p + [name] := child];
      forall q | q in nodes ensures ChildrenOf(nodes, q) {
        assert q in before ==> old(ChildrenOf(before, q));
        forall n ensures p + [name] == q + [n] <==> p == q && name == n { SnocApart(p, name, q, n); }
      }
    }

    lemma Apart(p: Path)
      requires Valid() && p in nodes
      ensures forall q :: q in nodes && q != p ==> nodes[q] != nodes[p]
    {
    }

    lemma NoneBelow(p: Path)
      requires Valid() && p !in nodes
      ensures forall n :: p + [n] !in nodes
    {
      forall n ensures p + [n] !in nodes {
        assert Parent(p + [n]) == p;
      }
    }

    /** GetChild and, where it finds none, CreateChild or CreateLeafChild: one step of the
        creating walks. */
    method Step(a: Authority, fullName: Path, i: nat, leaf: bool, ghost t: Tree) returns (ok: bool, child: Authority)
      requires Valid() && i < |fullName| && fullName[..i] in nodes && nodes[fullName[..i]] == a
      requires WellFormed(t) && Grown(t, Tree(), fullName[..i], false) && (leaf ==> i == |fullName| - 1)
      modifies this`nodes, nodes.Values
      ensures Valid() && (ok <==> fullName[..i + 1] in old(nodes) || !a.leaf)
      ensures !ok ==> nodes == old(nodes) && child == a
      ensures ok ==> fullName[..i + 1] in nodes && nodes[fullName[..i + 1]] == child
                     && Grown(t, Tree(), fullName[..i + 1], leaf && fullName[..i + 1] !in t)
      ensures nodes.Keys == old(nodes).Keys + if ok then {fullName[..i + 1]} else {}
      ensures forall q :: q in old(nodes) ==> q in nodes && nodes[q] == old(nodes)[q]
      ensures fresh(nodes.Values - old(nodes.Values))
    {
      hide Valid, WellFormed, Grown;
      ghost var p := fullName[..i];
      ghost var mid := Tree();
      var name := fullName[i];
      assert p + [name] == fullName[..i + 1];
      ChildAt(p, name);
      GrownStep(t, mid, p, name, leaf);
      if name in a.children {
        child, ok := a.children[name], true;
      } else {
        var created := CreateChild(a, name, leaf, p);
        ok := created.Some?;
        child := if ok then created.value else a;
        if ok { assert Tree() == mid[p + [name] := leaf]; }
      }
    }

    method CreateDescendant(fullName: Path) returns (ok: bool, a: Authority)
      requires Valid()
      modifies this`nodes, nodes.Values
      ensures Valid() && (ok <==> Open(old(Tree()), fullName))
      ensures ok ==> Grown(old(Tree()), Tree(), fullName, false) && fullName in nodes && a == nodes[fullName]
      ensures !ok ==> nodes == old(nodes)
      ensures forall q :: q in old(nodes) ==> q in nodes && nodes[q] == old(nodes)[q]
    {
      hide Valid, WellFormed, Grown, Open;
      ghost var t := Tree();
      RootAt();
      ValidIsWellFormed();
      GrownByNothing(t);
      a := root;
      for i := 0 to |fullName|
        invariant Valid() && fullName[..i] in nodes && nodes[fullName[..i]] == a
        invariant Grown(t, Tree(), fullName[..i], false) && Open(t, fullName[..i])
        invariant forall q :: q in old(nodes) ==> q in nodes && nodes[q] == old(nodes)[q]
        invariant fresh(nodes.Values - old(nodes.Values))
      {
        LeafEndsWalk(t, Tree(), fullName, i);
        assert a.leaf ==> nodes.Keys == Tree().Keys == old(nodes).Keys;
        ok, a := Step(a, fullName, i, false, t);
        if !ok { return; }
        OpenStep(t, fullName, i);
      }
      assert fullName[..|fullName|] == fullName;
      ok := true;
    }

    method CreateLeafDescendant(fullName: Path, makeParent: bool) returns (ok: bool, a: Authority)
      requires Valid()
      modifies this`nodes, nodes.Values
      ensures Valid()
      ensures ok <==> Open(old(Tree()), fullName) && (makeParent || fullName == [] || Parent(fullName) in old(nodes))
      ensures ok ==> Grown(old(Tree()), Tree(), fullName, fullName !in old(nodes))
      ensures ok ==> fullName in nodes && a == nodes[fullName]
      ensures !ok ==> nodes == old(nodes)
      ensures forall q :: q in old(nodes) ==> q in nodes && nodes[q] == old(nodes)[q]
    {
      hide Valid, WellFormed, Grown, Open;
      ghost var t := Tree();
      RootAt();
      ValidIsWellFormed();
      GrownByNothing(t);
      a := root;
      for i := 0 to |fullName|
        invariant Valid() && fullName[..i] in nodes && nodes[fullName[..i]] == a
        invariant Grown(t, Tree(), fullName[..i], i == |fullName| > 0 && fullName !in t) && Open(t, fullName[..i])
        invariant forall q :: q in old(nodes) ==> q in nodes && nodes[q] == old(nodes)[q]
        invariant fresh(nodes.Values - old(nodes.Values))
        invariant !makeParent && i < |fullName| ==> fullName[..i] in t
        invariant !makeParent && i == |fullName| > 0 ==> Parent(fullName) in t
      {
        LeafEndsWalk(t, Tree(), fullName, i);
        assert a.leaf || fullName[..i] in t ==> nodes.Keys == Tree().Keys == old(nodes).Keys;
        ChildAt(fullName[..i], fullName[i]);
        assert fullName[..i] + [fullName[i]] == fullName[..i + 1];
        if fullName[i] !in a.children && i < |fullName| - 1 && !makeParent {
          ParentNeedsPrefixes(t, fullName, i);
          return false, a;
        }
        ok, a := Step(a, fullName, i, i == |fullName| - 1, t);
        if !ok { return; }
        OpenStep(t, fullName, i);
        assert i == |fullName| - 1 ==> fullName[..i + 1] == fullName;
      }
      assert fullName[..|fullName|] == fullName;
      ok := true;
    }

    lemma ParentNeedsPrefixes(t: Tree, p: Path, i: nat)
      requires WellFormed(t) && i < |p| - 1
      ensures Parent(p) in t ==> p[..i + 1] in t
    {
      if Parent(p) in t {
        PrefixClosed(t, Parent(p), i + 1);
        assert Parent(p)[..i + 1] == p[..i + 1];
      }
    }

    method RemoveChild(a: Authority, name: string, ghost p: Path) returns (ok: bool)
      requires Valid() && p in nodes && nodes[p] == a
      modifies this`nodes, a
      ensures Valid()
      ensures ok <==> p + [name] in old(nodes) && forall n :: p + [name] + [n] !in old(nodes)
      ensures nodes == if ok then old(nodes) - {p + [name]} else old(nodes)
    {
      hide Valid;
      ChildAt(p, name);
      if name !in a.children { return false; }
      ghost var q := p + [name];
      forall n ensures n in nodes[q].children <==> q + [n] in nodes { ChildAt(q, n); }
      if |a.children[name].children| > 0 {
        assert exists n :: n in nodes[q].children;
        return false;
      }
      Unlink(a, name, p);
      ok := true;
    }

    /** delete(a.children, name). */
    method Unlink(a: Authority, name: string, ghost p: Path)
      requires Valid() && p in nodes && nodes[p] == a && forall n :: p + [name] + [n] !in nodes
      modifies this`nodes, a
      ensures Valid() && nodes == old(nodes) - {p + [name]}
    {
      hide Placed;
      Apart(p);
      PlacedShrinks(root, nodes, p + [name]);
      ghost var before := nodes;
      hide Agrees;
      a.children := a.children - {name};
      nodes := nodes - {p + [name]};
      forall q | q in nodes ensures ChildrenOf(nodes, q) {
        assert old(ChildrenOf(before, q));
        AgreesAfterUnlink(before, q, old(before[q].children), p, name);
      }
    }

    method RemoveDescendant(fullName: Path) returns (ok: bool)
      requires Valid()
      modifies this`nodes, nodes.Values
      ensures Valid()
      ensures ok <==> fullName != [] && fullName in old(nodes) && forall n :: fullName + [n] !in old(nodes)
      ensures nodes == if ok then old(nodes) - {fullName} else old(nodes)
    {
      hide Valid;
      if |fullName| == 0 { return false; }
      ghost var p := Parent(fullName);
      var name := fullName[|fullName| - 1];
      assert p + [name] == fullName;
      var found, above := GetDescendant(fullName[..|fullName| - 1]);
      if !found {
        NoneBelow(p);
        return false;
      }
      ok := RemoveChild(above, name, p);
    }

    /** Resolving a listed name: strict parse below the domain, then descent. */
    method Resolve(commonName: string) returns (found: bool, a: Authority)
      requires Valid()
      ensures found <==> ParseStrict(commonName, root.name).Some? && ParseStrict(commonName, root.name).value in nodes
      ensures found ==> a == nodes[ParseStrict(commonName, root.name).value]
    {
      var p := ParseCommonNameToFullNameStrict(commonName, root.name);
      if p.None? { return false, root; }
      found, a := GetDescendant(p.value);
    }

    /** The printed name of a node resolves to that node: for lower-case dot-free labels, but
        for the root and its nameless child. */
    method PrintThenResolve(a: Authority, ghost p: Path) returns (found: bool, b: Authority)
      requires Valid() && p in nodes && nodes[p] == a
      requires DotFree(p) && LowerCase(root.name) && forall i :: 0 <= i < |p| ==> LowerCase(p[i])
      ensures found <==> p != [] && p != [""]
      ensures found ==> b == a
    {
      var names := FullName(a, p);
      var cn := CommonName(names);
      ParsePrinted(root.name, p);
      found, b := Resolve(cn);
    }

    /** The policy test on two nodes' printed names tells descent in the tree. */
    method EndsWithDotted(a: Authority, ghost p: Path, b: Authority, ghost q: Path) returns (below: bool)
      requires Valid() && p in nodes && nodes[p] == a && q in nodes && nodes[q] == b && DotFree(p) && DotFree(q)
      ensures below <==> Descendant(p, q)
    {
      var names := FullName(a, p);
      var userName := CommonName(names);
      names := FullName(b, q);
      var name := CommonName(names);
      SuffixIsDescent(root.name, p, q);
      below := HasSuffix(userName, "." + name);
    }
  }
}
