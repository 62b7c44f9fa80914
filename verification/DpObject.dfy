// The control plane's dp_object reconcile loop (reconcile/dp_object.go and the selector
// match of dpbroker/broker.go), down to what the node's slots run in the end.

module DpObject {
  import opened Text
  import opened Objects

  /** One declared entry: files are "<role>=<cplane_file>". */
  datatype Item = Item(name: string, node: string, slot: string, files: seq<string>)

  datatype Pick = Pick(item: Item, spec: nat, ties: seq<string>)

  /** The control plane's file store at the moment of one push. */
  type Store = string -> Option<string>

  /** A connected node as the controller knows it. */
  datatype Peer = Peer(dpType: string, commonName: string)

  function NodeLabel(commonName: string): string { commonName[..IndexOf(commonName, '.')] }

  function MatchSelector(selector: string, p: Peer): nat {
    if selector == "*" then 1
    else if selector == p.dpType + "/*" then 2
    else if selector == p.commonName || selector == p.dpType + "/" + NodeLabel(p.commonName)
            || selector == NodeLabel(p.commonName) then 3
    else 0
  }

  /** A node certified as "<node>.<rest>" is named by exactly three selectors; the two group
      selectors score by their own rank even where they also spell its name. */
  lemma SelectorScores(selector: string, node: string, rest: string, dpType: string)
    requires '.' !in node
    ensures var score := MatchSelector(selector, Peer(dpType, node + "." + rest));
            && (selector == "*" ==> score == 1)
            && (selector == dpType + "/*" ==> score == 2)
            && (selector != "*" && selector != dpType + "/*" ==>
                  score == if selector in {node, dpType + "/" + node, node + "." + rest} then 3 else 0)
  {
    IndexOfPrefix(node, '.', rest);
    assert node + "." + rest == node + ['.'] + rest;
    assert (node + "." + rest)[..|node|] == node;
    assert (dpType + "/*")[|dpType|] == '/';
  }

  // ---- Which entry a slot gets ----------------------------------------------

  predicate Applies(x: Item, p: Peer, slot: string) { x.slot == slot && MatchSelector(x.node, p) > 0 }

  /** Entry k is the unique most specific match for its slot. */
  predicate Wins(items: seq<Item>, p: Peer, k: int) {
    && 0 <= k < |items| && Applies(items[k], p, items[k].slot)
    && forall j :: 0 <= j < |items| && j != k && items[j].slot == items[k].slot ==>
         MatchSelector(items[j].node, p) < MatchSelector(items[k].node, p)
  }

  ghost predicate Decided(items: seq<Item>, p: Peer, slot: string) {
    exists k :: Wins(items, p, k) && items[k].slot == slot
  }

  /** Every slot with a match has a unique most specific one. */
  ghost predicate AllDecided(items: seq<Item>, p: Peer) {
    forall i :: 0 <= i < |items| && Applies(items[i], p, items[i].slot) ==> Decided(items, p, items[i].slot)
  }

  /** sel holds exactly the winners. */
  ghost predicate Selection(items: seq<Item>, p: Peer, sel: map<string, Item>) {
    && (forall k :: Wins(items, p, k) ==> items[k].slot in sel && sel[items[k].slot] == items[k])
    && (forall s :: s in sel ==> Decided(items, p, s))
  }

  /** The best pick of a slot after some items: a leader, and whether it is alone. */
  ghost predicate Leads(items: seq<Item>, p: Peer, slot: string, pick: Pick, k: int) {
    && 0 <= k < |items| && items[k] == pick.item && Applies(items[k], p, slot)
    && pick.spec == MatchSelector(items[k].node, p) && |pick.ties| >= 1
    && (forall j :: 0 <= j < |items| && items[j].slot == slot ==> MatchSelector(items[j].node, p) <= pick.spec)
    && (|pick.ties| == 1 <==> Wins(items, p, k))
  }

  ghost predicate BestSoFar(items: seq<Item>, p: Peer, best: map<string, Pick>) {
    && (forall s :: s in best ==> exists k :: Leads(items, p, s, best[s], k))
    && (forall i :: 0 <= i < |items| && Applies(items[i], p, items[i].slot) ==> items[i].slot in best)
  }

  /** One item more: the body of the selection loop. */
  lemma {:induction false} BestStep(items: seq<Item>, p: Peer, best: map<string, Pick>, x: Item,
                                    next: map<string, Pick>)
    requires BestSoFar(items, p, best)
    requires var spec := MatchSelector(x.node, p);
             next == if spec == 0 then best
                     else if x.slot !in best || spec > best[x.slot].spec then best[x.slot := Pick(x, spec, [x.name])]
                     else if spec == best[x.slot].spec then
                       best[x.slot := best[x.slot].(ties := best[x.slot].ties + [x.name])]
                     else best
    ensures BestSoFar(items + [x], p, next)
  {
    hide MatchSelector, Wins;
    var all := items + [x];
    var spec := MatchSelector(x.node, p);
    assert forall j :: 0 <= j < |items| ==> all[j] == items[j];
    assert all[|items|] == x;
    forall s | s in next ensures exists k :: Leads(all, p, s, next[s], k) {
      if s == x.slot && spec > 0 && (s !in best || spec > best[s].spec) {
        LeadTaken(items, p, best, x);
        assert Leads(all, p, s, next[s], |items|);
      } else {
        var k :| Leads(items, p, s, best[s], k);
        LeadKept(items, p, s, best[s], k, x);
        assert Leads(all, p, s, next[s], k);
      }
    }
  }

  lemma BestOfNone(p: Peer)
    ensures BestSoFar([], p, map[])
  {
  }

  lemma LeadTaken(items: seq<Item>, p: Peer, best: map<string, Pick>, x: Item)
    requires BestSoFar(items, p, best)
    requires var spec := MatchSelector(x.node, p); spec > 0 && (x.slot !in best || spec > best[x.slot].spec)
    ensures Leads(items + [x], p, x.slot, Pick(x, MatchSelector(x.node, p), [x.name]), |items|)
  {
    hide MatchSelector;
    forall j | 0 <= j < |items| && items[j].slot == x.slot
      ensures MatchSelector(items[j].node, p) < MatchSelector(x.node, p)
    {
      if x.slot in best {
        var k :| Leads(items, p, x.slot, best[x.slot], k);
      } else {
        assert !Applies(items[j], p, items[j].slot);
      }
    }
  }

  lemma LeadKept(items: seq<Item>, p: Peer, slot: string, pick: Pick, k: int, x: Item)
    requires Leads(items, p, slot, pick, k)
    requires x.slot != slot || MatchSelector(x.node, p) <= pick.spec
    ensures var tied := x.slot == slot && MatchSelector(x.node, p) == pick.spec;
            var ties := if tied then pick.ties + [x.name] else pick.ties;
            Leads(items + [x], p, slot, pick.(ties := ties), k)
  {
    hide MatchSelector;
    var all := items + [x];
    assert forall j :: 0 <= j < |items| ==> all[j] == items[j];
    assert all[|items|] == x;
    if x.slot == slot && MatchSelector(x.node, p) == pick.spec {
      assert !Wins(all, p, k);
    } else {
      assert Wins(all, p, k) <==> Wins(items, p, k);
    }
  }

  /** dpObjectsForNode: the winners, or an error when some slot is tied. */
  method DpObjectsForNode(items: seq<Item>, p: Peer) returns (r: Option<map<string, Item>>)
    ensures r.Some? <==> AllDecided(items, p)
    ensures r.Some? ==> Selection(items, p, r.value)
  {
    hide MatchSelector, BestSoFar, Applies;
    var best: map<string, Pick> := map[];
    BestOfNone(p);
    for i := 0 to |items|
      invariant BestSoFar(items[..i], p, best)
    {
      var x := items[i];
      ghost var was := best;
      var spec := MatchSelector(x.node, p);
      if spec != 0 {
        if x.slot !in best || spec > best[x.slot].spec {
          best := best[x.slot := Pick(x, spec, [x.name])];
        } else if spec == best[x.slot].spec {
          best := best[x.slot := best[x.slot].(ties := best[x.slot].ties + [x.name])];
        }
      }
      assert items[..i + 1] == items[..i] + [x];
      BestStep(items[..i], p, was, x, best);
    }
    assert items[..|items|] == items;
    var out: map<string, Item> := map[];
    var tied := false;
    var todo := best.Keys;
    while todo != {}
      invariant todo <= best.Keys
      invariant tied <==> exists s :: s in best.Keys - todo && |best[s].ties| > 1
      invariant out.Keys <= best.Keys - todo
      invariant forall s :: s in best.Keys - todo && |best[s].ties| <= 1 ==> s in out
      invariant forall s :: s in out ==> |best[s].ties| <= 1 && out[s] == best[s].item
    {
      var slot :| slot in todo;
      todo := todo - {slot};
      if |best[slot].ties| > 1 {
        tied := true;
      } else {
        out := out[slot := best[slot].item];
      }
    }
    BestDecides(items, p, best);
    if tied { return None; }
    return Some(out);
  }

  lemma BestDecides(items: seq<Item>, p: Peer, best: map<string, Pick>)
    requires BestSoFar(items, p, best)
    ensures forall s :: s in best ==> |best[s].ties| >= 1 && (|best[s].ties| == 1 <==> Decided(items, p, s))
    ensures forall k :: Wins(items, p, k) ==> items[k].slot in best && best[items[k].slot].item == items[k]
    ensures forall i :: 0 <= i < |items| && Applies(items[i], p, items[i].slot) ==> items[i].slot in best
    ensures forall s :: s in best ==>
              exists i :: 0 <= i < |items| && Applies(items[i], p, items[i].slot) && items[i].slot == s
  {
    hide MatchSelector;
    forall s | s in best
      ensures |best[s].ties| >= 1 && (|best[s].ties| == 1 <==> Decided(items, p, s))
      ensures exists i :: 0 <= i < |items| && Applies(items[i], p, items[i].slot) && items[i].slot == s
    {
      var k :| Leads(items, p, s, best[s], k);
      if Decided(items, p, s) {
        var w :| Wins(items, p, w) && items[w].slot == s;
        assert MatchSelector(items[k].node, p) >= MatchSelector(items[w].node, p);
        assert w == k;
      }
    }
    forall w | Wins(items, p, w) ensures items[w].slot in best && best[items[w].slot].item == items[w] {
      var s := items[w].slot;
      assert Applies(items[w], p, s);
      var k :| Leads(items, p, s, best[s], k);
      assert MatchSelector(items[k].node, p) >= MatchSelector(items[w].node, p);
      assert w == k;
    }
  }

  // ---- Declaration order does not matter ------------------------------------

  /** A winner, told from the bag of entries alone. */
  predicate WinsAmong(bag: multiset<Item>, p: Peer, x: Item) {
    && bag[x] == 1 && Applies(x, p, x.slot)
    && forall y :: y in bag && y != x && y.slot == x.slot ==> MatchSelector(y.node, p) < MatchSelector(x.node, p)
  }

  lemma CountsOnce(items: seq<Item>, k: nat)
    requires k < |items|
    ensures multiset(items)[items[k]] == 1 <==> forall j :: 0 <= j < |items| && j != k ==> items[j] != items[k]
  {
    var x, before, after := items[k], items[..k], items[k + 1..];
    assert items == before + [x] + after;
    assert multiset(items)[x] == multiset(before)[x] + 1 + multiset(after)[x];
    if x in before {
      var j :| 0 <= j < k && before[j] == x;
      assert items[j] == x;
    } else if x in after {
      var j :| 0 <= j < |after| && after[j] == x;
      assert items[j + k + 1] == x;
    } else {
      forall j | 0 <= j < |items| && j != k ensures items[j] != x {
        assert items[j] in if j < k then before else after;
      }
    }
  }

  lemma WinsIsOrderFree(items: seq<Item>, p: Peer, k: nat)
    requires k < |items|
    ensures Wins(items, p, k) <==> WinsAmong(multiset(items), p, items[k])
  {
    CountsOnce(items, k);
    if Wins(items, p, k) {
      forall y | y in multiset(items) && y != items[k] && y.slot == items[k].slot
        ensures MatchSelector(y.node, p) < MatchSelector(items[k].node, p)
      {
        assert y in items;
      }
    }
    if WinsAmong(multiset(items), p, items[k]) {
      forall j | 0 <= j < |items| && j != k && items[j].slot == items[k].slot
        ensures MatchSelector(items[j].node, p) < MatchSelector(items[k].node, p)
      {
        assert items[j] in multiset(items);
      }
    }
  }

  lemma DecidedElsewhere(a: seq<Item>, b: seq<Item>, p: Peer, k: int) returns (m: int)
    requires multiset(a) == multiset(b) && Wins(a, p, k)
    ensures Wins(b, p, m) && b[m] == a[k]
  {
    WinsIsOrderFree(a, p, k);
    assert a[k] in multiset(b);
    m :| 0 <= m < |b| && b[m] == a[k];
    WinsIsOrderFree(b, p, m);
  }

  /** Reordering the declarations changes neither whether a node's selection succeeds nor
      what it selects. */
  lemma OrderDoesNotMatter(a: seq<Item>, b: seq<Item>, p: Peer, sa: map<string, Item>, sb: map<string, Item>)
    requires multiset(a) == multiset(b)
    ensures AllDecided(a, p) <==> AllDecided(b, p)
    ensures Selection(a, p, sa) && Selection(b, p, sb) ==> sa == sb
  {
    if AllDecided(a, p) { DecidesElsewhere(a, b, p); }
    if AllDecided(b, p) { DecidesElsewhere(b, a, p); }
    if Selection(a, p, sa) && Selection(b, p, sb) {
      SelectsElsewhere(a, b, p, sa, sb);
      SelectsElsewhere(b, a, p, sb, sa);
    }
  }

  lemma DecidesElsewhere(a: seq<Item>, b: seq<Item>, p: Peer)
    requires multiset(a) == multiset(b) && AllDecided(a, p)
    ensures AllDecided(b, p)
  {
    forall i | 0 <= i < |b| && Applies(b[i], p, b[i].slot) ensures Decided(b, p, b[i].slot) {
      assert b[i] in multiset(a);
      var j :| 0 <= j < |a| && a[j] == b[i];
      assert Decided(a, p, a[j].slot);
      var k :| Wins(a, p, k) && a[k].slot == b[i].slot;
      var m := DecidedElsewhere(a, b, p, k);
    }
  }

  lemma SelectsElsewhere(a: seq<Item>, b: seq<Item>, p: Peer, sa: map<string, Item>, sb: map<string, Item>)
    requires multiset(a) == multiset(b) && Selection(a, p, sa) && Selection(b, p, sb)
    ensures forall s :: s in sa ==> s in sb && sb[s] == sa[s]
  {
    forall s | s in sa ensures s in sb && sb[s] == sa[s] {
      var k :| Wins(a, p, k) && a[k].slot == s;
      var m := DecidedElsewhere(a, b, p, k);
    }
  }

  // ---- Building the request -------------------------------------------------

  /** The line reads "<role>=<name>": the role ends at the first '='. */
  predicate Names(line: string, role: string, name: string) { '=' !in role && line == role + "=" + name }

  lemma CutNames(line: string, role: string, name: string)
    ensures Names(line, role, name) <==> Cut(line, '=') == Some((role, name))
  {
    CutMeans(line, '=', role, name);
  }

  /** The file is the one a line asks for, with the content the store has under its name. */
  predicate Asked(read: Store, line: string, f: ObjectFile) {
    Names(line, f.role, f.name) && f.role != "" && f.name != "" && read(f.name) == Some(f.content)
  }

  /** The line asks for a file the store has. */
  ghost predicate Asks(read: Store, line: string) { exists f :: Asked(read, line, f) }

  ghost predicate AllAsked(read: Store, lines: seq<string>) {
    forall j :: 0 <= j < |lines| ==> Asks(read, lines[j])
  }

  lemma ReadableIsAsked(read: Store, line: string)
    ensures Readable(read, line) <==> Asks(read, line)
    ensures Readable(read, line) ==> Asked(read, line, FileOf(read, line))
  {
    if Readable(read, line) {
      var f := FileOf(read, line);
      CutNames(line, f.role, f.name);
      assert Asked(read, line, f);
    }
    if Asks(read, line) {
      var f :| Asked(read, line, f);
      CutNames(line, f.role, f.name);
    }
  }

  lemma AllReadableIsAsked(read: Store, lines: seq<string>)
    ensures AllReadable(read, lines) <==> AllAsked(read, lines)
    ensures AllReadable(read, lines) ==>
              |FilesOf(read, lines)| == |lines|
              && forall j :: 0 <= j < |lines| ==> Asked(read, lines[j], FilesOf(read, lines)[j])
  {
    hide Readable, FileOf, Asked, Asks;
    forall j | 0 <= j < |lines| ensures Readable(read, lines[j]) <==> Asks(read, lines[j]) {
      ReadableIsAsked(read, lines[j]);
    }
    if AllReadable(read, lines) {
      forall j | 0 <= j < |lines| ensures Asked(read, lines[j], FilesOf(read, lines)[j]) {
        ReadableIsAsked(read, lines[j]);
      }
    }
  }

  /** "<role>=<cplane_file>", both nonempty, the file readable. */
  predicate Readable(read: Store, spec: string) {
    var c := Cut(spec, '=');
    c.Some? && c.value.0 != "" && c.value.1 != "" && read(c.value.1).Some?
  }

  predicate AllReadable(read: Store, files: seq<string>) { forall i :: 0 <= i < |files| ==> Readable(read, files[i]) }

  function FileOf(read: Store, spec: string): ObjectFile
    requires Readable(read, spec)
  {
    var c := Cut(spec, '=').value;
    ObjectFile(c.0, c.1, read(c.1).value)
  }

  function FilesOf(read: Store, files: seq<string>): (out: seq<ObjectFile>)
    requires AllReadable(read, files)
  {
    seq(|files|, i requires 0 <= i < |files| => FileOf(read, files[i]))
  }

  ghost predicate Buildable(read: Store, sel: map<string, Item>) {
    forall s :: s in sel ==> AllReadable(read, sel[s].files)
  }

  /** The request declares every selected slot once, with its entry's files in order. */
  ghost predicate Requests(read: Store, sel: map<string, Item>, objects: seq<DesiredObject>)
    requires Buildable(read, sel)
  {
    && Distinct(objects)
    && (forall s :: s in sel <==> s in Declared(objects))
    && (forall i :: 0 <= i < |objects| ==>
         objects[i].slot in sel && objects[i].files == FilesOf(read, sel[objects[i].slot].files))
  }

  /** The inner loop of buildSyncObjects. */
  method ReadFiles(files: seq<string>, read: Store) returns (r: Option<seq<ObjectFile>>)
    ensures r.Some? <==> AllReadable(read, files)
    ensures r.Some? <==> AllAsked(read, files)
    ensures r.Some? ==> r.value == FilesOf(read, files)
    ensures r.Some? ==> |r.value| == |files| && forall j :: 0 <= j < |files| ==> Asked(read, files[j], r.value[j])
  {
    var out: seq<ObjectFile> := [];
    var failed := false;
    for i := 0 to |files|
      invariant failed <==> !AllReadable(read, files[..i])
      invariant !failed ==> out == FilesOf(read, files[..i])
    {
      var c := Cut(files[i], '=');
      if c.None? || c.value.0 == "" || c.value.1 == "" {
        failed := true;
      } else {
        var content := read(c.value.1);
        if content.None? {
          failed := true;
        } else {
          out := out + [ObjectFile(c.value.0, c.value.1, content.value)];
        }
      }
      assert files[..i + 1] == files[..i] + [files[i]];
    }
    assert files[..|files|] == files;
    AllReadableIsAsked(read, files);
    if failed { return None; }
    return Some(out);
  }

  /** buildSyncObjects: all selected slots or nothing. */
  method BuildSyncObjects(sel: map<string, Item>, read: Store) returns (r: Option<seq<DesiredObject>>)
    ensures r.Some? <==> Buildable(read, sel)
    ensures r.Some? ==> Requests(read, sel, r.value)
    ensures r.Some? <==> forall s :: s in sel ==> AllAsked(read, sel[s].files)
    ensures r.Some? ==>
              forall i :: 0 <= i < |r.value| ==>
                var d := r.value[i];
                && d.slot in sel && |d.files| == |sel[d.slot].files|
                && forall j :: 0 <= j < |d.files| ==> Asked(read, sel[d.slot].files[j], d.files[j])
  {
    hide Asked, Readable, FileOf;
    var objects: seq<DesiredObject> := [];
    var failed := false;
    var todo := sel.Keys;
    while todo != {}
      invariant todo <= sel.Keys
      invariant failed <==> exists s :: s in sel.Keys - todo && !AllReadable(read, sel[s].files)
      invariant !failed ==> Distinct(objects) && Declared(objects) == sel.Keys - todo
      invariant !failed ==> forall i :: 0 <= i < |objects| ==> Requested(read, sel, objects[i])
    {
      var slot :| slot in todo;
      var files := ReadFiles(sel[slot].files, read);
      if files.None? {
        failed := true;
      } else {
        var d := DesiredObject(slot, files.value);
        DeclaredSnoc(objects, d);
        objects := objects + [d];
      }
      todo := todo - {slot};
    }
    forall s | s in sel
      ensures AllReadable(read, sel[s].files) <==> AllAsked(read, sel[s].files)
      ensures AllReadable(read, sel[s].files) ==>
                forall j :: 0 <= j < |sel[s].files| ==>
                  Asked(read, sel[s].files[j], FilesOf(read, sel[s].files)[j])
    {
      AllReadableIsAsked(read, sel[s].files);
    }
    if failed { return None; }
    return Some(objects);
  }

  ghost predicate Requested(read: Store, sel: map<string, Item>, d: DesiredObject) {
    d.slot in sel && AllReadable(read, sel[d.slot].files) && d.files == FilesOf(read, sel[d.slot].files)
  }

  lemma DeclaredSnoc(objects: seq<DesiredObject>, d: DesiredObject)
    ensures Declared(objects + [d]) == Declared(objects) + {d.slot}
    ensures Distinct(objects) && d.slot !in Declared(objects) ==> Distinct(objects + [d])
  {
    var all := objects + [d];
    assert all[|objects|] == d;
    forall s ensures s in Declared(all) <==> s in Declared(objects) + {d.slot} {
      if s in Declared(objects) {
        var i :| 0 <= i < |objects| && objects[i].slot == s;
        assert all[i].slot == s;
      }
    }
    if Distinct(objects) && d.slot !in Declared(objects) {
      forall i, j | 0 <= i < j < |all| ensures all[i].slot != all[j].slot {
        assert all[i] == objects[i] && objects[i].slot in Declared(objects);
      }
    }
  }

  // ---- One push, end to end -------------------------------------------------

  /** What a push needs: every slot decided, every winner's files well formed and readable. */
  ghost predicate Pushable(items: seq<Item>, p: Peer, read: Store) {
    AllDecided(items, p) && forall k :: Wins(items, p, k) ==> AllReadable(read, items[k].files)
  }

  /** The agent runs exactly what the entries say: each decided slot its winner's contents,
      no other slot anything, and no file on disk beyond the running ones. */
  ghost predicate Converged(items: seq<Item>, p: Peer, read: Store, agent: ObjectManager)
    reads agent
    requires Pushable(items, p, read)
  {
    && (forall s :: s in agent.running <==> Decided(items, p, s))
    && (forall k :: Wins(items, p, k) ==>
         Runs(agent.running[items[k].slot], FilesOf(read, items[k].files)))
    && (forall e :: e in agent.dir <==> Referenced(agent.loaded, e))
  }

  /** Everything the entries select is acceptable to the agent. */
  ghost predicate Acceptable(items: seq<Item>, p: Peer, read: Store, slots: set<string>)
    requires Pushable(items, p, read)
  {
    forall k :: Wins(items, p, k) ==>
      items[k].slot in slots && ValidSet(DesiredObject(items[k].slot, FilesOf(read, items[k].files)))
  }

  /** The record already holds every winner's set. */
  ghost predicate Recorded(items: seq<Item>, p: Peer, read: Store, agent: ObjectManager)
    reads agent
    requires Pushable(items, p, read)
  {
    forall k :: Wins(items, p, k) ==>
              Has(agent.loaded, items[k].slot, SetOf(agent.digest, FilesOf(read, items[k].files)))
  }

  /** The agent's digests tell the winners' files apart. */
  ghost predicate AllKnown(items: seq<Item>, p: Peer, read: Store, known: set<NamedBytes>)
    requires Pushable(items, p, read)
  {
    forall k :: Wins(items, p, k) ==> Known(known, FilesOf(read, items[k].files))
  }

  lemma RequestsKnown(items: seq<Item>, p: Peer, read: Store, sel: map<string, Item>, objects: seq<DesiredObject>,
                      known: set<NamedBytes>)
    requires Pushable(items, p, read) && Selection(items, p, sel) && Buildable(read, sel)
    requires Requests(read, sel, objects) && AllKnown(items, p, read, known)
    ensures forall i :: 0 <= i < |objects| ==> Known(known, objects[i].files)
  {
    hide FilesOf, Known, MatchSelector;
    forall i | 0 <= i < |objects| ensures Known(known, objects[i].files) {
      var k := RequestWinner(items, p, read, sel, objects, i);
    }
  }

  lemma SelectionPushable(items: seq<Item>, p: Peer, read: Store, sel: map<string, Item>)
    requires AllDecided(items, p) && Selection(items, p, sel)
    ensures Pushable(items, p, read) <==> Buildable(read, sel)
    ensures forall s :: s in sel <==> Decided(items, p, s)
  {
    hide MatchSelector, AllReadable;
    if Buildable(read, sel) {
      forall k | Wins(items, p, k) ensures AllReadable(read, items[k].files) {
        assert sel[items[k].slot] == items[k];
      }
    }
    if Pushable(items, p, read) {
      forall s | s in sel ensures AllReadable(read, sel[s].files) {
        var k :| Wins(items, p, k) && items[k].slot == s;
      }
    }
  }

  /** Each requested object is a winner's. */
  lemma RequestWinner(items: seq<Item>, p: Peer, read: Store, sel: map<string, Item>, objects: seq<DesiredObject>,
                      i: int)
      returns (k: int)
    requires Pushable(items, p, read) && Selection(items, p, sel) && Buildable(read, sel)
    requires Requests(read, sel, objects) && 0 <= i < |objects|
    ensures Wins(items, p, k) && objects[i] == DesiredObject(items[k].slot, FilesOf(read, items[k].files))
  {
    assert Decided(items, p, objects[i].slot);
    k :| Wins(items, p, k) && items[k].slot == objects[i].slot;
  }

  lemma WinnerRequested(items: seq<Item>, p: Peer, read: Store, sel: map<string, Item>, objects: seq<DesiredObject>,
                        k: int)
      returns (i: int)
    requires Pushable(items, p, read) && Selection(items, p, sel) && Buildable(read, sel)
    requires Requests(read, sel, objects) && Wins(items, p, k)
    ensures 0 <= i < |objects| && objects[i] == DesiredObject(items[k].slot, FilesOf(read, items[k].files))
  {
    i :| 0 <= i < |objects| && objects[i].slot == items[k].slot;
  }

  lemma RequestsAccepted(items: seq<Item>, p: Peer, read: Store, sel: map<string, Item>, objects: seq<DesiredObject>,
                         slots: set<string>)
    requires Pushable(items, p, read) && Selection(items, p, sel) && Buildable(read, sel)
    requires Requests(read, sel, objects)
    ensures AllAccepted(slots, objects) <==> Acceptable(items, p, read, slots)
  {
    hide MatchSelector, ValidSet, FilesOf;
    AcceptedAreDistinct(slots, objects);
    if Acceptable(items, p, read, slots) {
      forall i | 0 <= i < |objects| ensures Accepted(slots, objects, i) {
        var k := RequestWinner(items, p, read, sel, objects, i);
      }
    }
    if AllAccepted(slots, objects) {
      forall k | Wins(items, p, k)
        ensures items[k].slot in slots && ValidSet(DesiredObject(items[k].slot, FilesOf(read, items[k].files)))
      {
        var i := WinnerRequested(items, p, read, sel, objects, k);
        assert Accepted(slots, objects, i);
      }
    }
  }

  lemma RequestsSettled(items: seq<Item>, p: Peer, read: Store, sel: map<string, Item>, objects: seq<DesiredObject>,
                        agent: ObjectManager)
    requires Pushable(items, p, read) && Selection(items, p, sel) && Buildable(read, sel)
    requires Requests(read, sel, objects) && Recorded(items, p, read, agent)
    ensures Settled(agent.digest, agent.slots, objects, agent.loaded)
  {
    hide Wins, FilesOf, SetOf;
    forall i | 0 <= i < |objects| && Accepted(agent.slots, objects, i)
      ensures Has(agent.loaded, objects[i].slot, SetOf(agent.digest, objects[i].files))
    {
      var k := RequestWinner(items, p, read, sel, objects, i);
    }
  }

  lemma UsableFiles(d: DesiredObject)
    requires ValidSet(d)
    ensures ValidFiles(d.files)
  {
  }

  /** A sync without errors leaves the agent running exactly the entries. */
  lemma {:induction false} SyncConverges(items: seq<Item>, p: Peer, read: Store, sel: map<string, Item>,
                                         objects: seq<DesiredObject>,
                      before: map<string, FileSet>, agent: ObjectManager)
    requires Pushable(items, p, read) && Selection(items, p, sel) && Buildable(read, sel)
    requires Requests(read, sel, objects) && AllAccepted(agent.slots, objects) && agent.Valid()
    requires AllKnown(items, p, read, agent.known)
    requires Synced(agent.digest, agent.slots, objects, before, agent.loaded, true)
    requires forall e :: e in agent.dir <==> Referenced(agent.loaded, e)
    ensures Converged(items, p, read, agent) && Recorded(items, p, read, agent)
  {
    hide FilesOf, SetOf, Backed, ValidSet, Runs, Referenced;
    SelectionPushable(items, p, read, sel);
    forall k | Wins(items, p, k)
      ensures Has(agent.loaded, items[k].slot, SetOf(agent.digest, FilesOf(read, items[k].files)))
      ensures Runs(agent.running[items[k].slot], FilesOf(read, items[k].files))
    {
      var i := WinnerRequested(items, p, read, sel, objects, k);
      assert Accepted(agent.slots, objects, i);
      UsableFiles(objects[i]);
      RecordedIsRunning(agent.digest, agent.known, agent.dir, agent.running[items[k].slot], objects[i].files);
    }
    forall s ensures s in agent.running <==> Decided(items, p, s) {
      if s in sel { var k :| Wins(items, p, k) && items[k].slot == s; }
    }
  }

  ghost predicate RunsLine(read: Store, line: string, run: map<string, Bound>) {
    forall role, name :: Names(line, role, name) ==> role in run && read(name) == Some(run[role].bytes)
  }

  ghost predicate NamesRole(line: string, role: string) { exists name :: Names(line, role, name) }

  /** The slot runs, under every role a line of the entry names, what the store has under the
      line's file name, and nothing under any other role. */
  ghost predicate Serves(read: Store, lines: seq<string>, run: map<string, Bound>) {
    && (forall j :: 0 <= j < |lines| ==> RunsLine(read, lines[j], run))
    && (forall role :: role in run ==> exists j :: 0 <= j < |lines| && NamesRole(lines[j], role))
  }

  /** What converged means for the lines of the entries. */
  lemma ConvergedServes(items: seq<Item>, p: Peer, read: Store, agent: ObjectManager, k: int)
    requires Pushable(items, p, read) && Converged(items, p, read, agent) && Acceptable(items, p, read, agent.slots)
    requires Wins(items, p, k)
    ensures items[k].slot in agent.running && Serves(read, items[k].files, agent.running[items[k].slot])
  {
    hide MatchSelector, FilesOf, Readable, Serves;
    assert Decided(items, p, items[k].slot);
    FilesServe(read, items[k].files, agent.running[items[k].slot]);
  }

  lemma WinnersServed(items: seq<Item>, p: Peer, read: Store, agent: ObjectManager)
    requires Pushable(items, p, read) && Converged(items, p, read, agent) && Acceptable(items, p, read, agent.slots)
    ensures forall s :: s in agent.running <==> Decided(items, p, s)
    ensures forall k :: Wins(items, p, k) ==>
              items[k].slot in agent.running && Serves(read, items[k].files, agent.running[items[k].slot])
  {
    hide MatchSelector, FilesOf, Readable, Serves, Runs, ValidSet;
    forall k | Wins(items, p, k)
      ensures items[k].slot in agent.running && Serves(read, items[k].files, agent.running[items[k].slot])
    {
      ConvergedServes(items, p, read, agent, k);
    }
  }

  lemma FilesServe(read: Store, lines: seq<string>, run: map<string, Bound>)
    requires AllReadable(read, lines) && ValidFiles(FilesOf(read, lines)) && Runs(run, FilesOf(read, lines))
    ensures Serves(read, lines, run)
  {
    hide Readable, Names, FilesOf, ValidFiles, Runs, Asked;
    AllReadableIsAsked(read, lines);
    forall j | 0 <= j < |lines| ensures RunsLine(read, lines[j], run) {
      LineServes(read, lines[j], FilesOf(read, lines), run, j);
    }
    forall role | role in run ensures exists j :: 0 <= j < |lines| && NamesRole(lines[j], role) {
      var j := RoleFile(FilesOf(read, lines), run, role);
      assert Asked(read, lines[j], FilesOf(read, lines)[j]);
      AskedNames(read, lines[j], FilesOf(read, lines)[j]);
    }
  }

  lemma AskedNames(read: Store, line: string, f: ObjectFile)
    requires Asked(read, line, f)
    ensures NamesRole(line, f.role)
  {
  }

  lemma LineServes(read: Store, line: string, files: seq<ObjectFile>, run: map<string, Bound>, j: int)
    requires ValidFiles(files) && Runs(run, files) && 0 <= j < |files| && Asked(read, line, files[j])
    ensures RunsLine(read, line, run)
  {
    SetAt((s: string) => s, files, j);
    CutNames(line, files[j].role, files[j].name);
    forall role, name | Names(line, role, name) ensures role == files[j].role && name == files[j].name {
      CutNames(line, role, name);
    }
  }

  lemma RoleFile(files: seq<ObjectFile>, run: map<string, Bound>, role: string) returns (j: int)
    requires Runs(run, files) && role in run
    ensures 0 <= j < |files| && files[j].role == role
  {
    SetRoles((s: string) => s, files, role);
    j :| 0 <= j < |files| && files[j].role == role;
  }

  /** The call to the agent: answered, never delivered, processed with its answer lost, or
      refused by an agent too old to have it. */
  datatype Link = Answers | Drops | LosesReply | Unimplemented

  /** The push closure of the reconcile loop, with what it records as the node's status. */
  method Push(items: seq<Item>, p: Peer, read: Store, link: Link, agent: ObjectManager) returns (sent: bool, ok: bool)
    requires agent.Valid() && (Pushable(items, p, read) ==> AllKnown(items, p, read, agent.known))
    modifies agent
    ensures agent.Valid()
    ensures sent <==> Pushable(items, p, read)
    ensures !sent ==> !ok
    ensures !sent || link in {Drops, Unimplemented} ==>
              agent.dir == old(agent.dir) && agent.loaded == old(agent.loaded) && agent.running == old(agent.running)
    ensures ok && link.Answers? ==> Converged(items, p, read, agent) && Recorded(items, p, read, agent)
    ensures ok && link.Answers? ==>
              && (forall s :: s in agent.running <==> Decided(items, p, s))
              && forall k :: Wins(items, p, k) ==>
                   items[k].slot in agent.running && Serves(read, items[k].files, agent.running[items[k].slot])
    ensures sent && agent.reliable && link in {Answers, LosesReply} && Acceptable(items, p, read, agent.slots) ==>
              Converged(items, p, read, agent) && Recorded(items, p, read, agent)
    ensures sent && agent.reliable && link.Answers? ==> (ok <==> Acceptable(items, p, read, agent.slots))
    ensures ok && !link.Answers? ==> link.Unimplemented? && forall s :: !Decided(items, p, s)
    ensures sent && link.Unimplemented? ==> (ok <==> forall s :: !Decided(items, p, s))
    ensures sent && old(Recorded(items, p, read, agent)) ==> agent.loads == old(agent.loads)
  {
    hide Wins, FilesOf, SetOf, Known, AllKnown, Converged, Acceptable, Recorded, Selection, Requests, Referenced,
         Synced, Accepted, Serves, Asked;
    sent, ok := false, false;
    var sel := DpObjectsForNode(items, p);
    if sel.Some? {
      SelectionPushable(items, p, read, sel.value);
      var objects := BuildSyncObjects(sel.value, read);
      if objects.Some? {
        sent := true;
        if link.Answers? || link.LosesReply? {
          RequestsAccepted(items, p, read, sel.value, objects.value, agent.slots);
          RequestsKnown(items, p, read, sel.value, objects.value, agent.known);
          if Recorded(items, p, read, agent) { RequestsSettled(items, p, read, sel.value, objects.value, agent); }
          ghost var before := agent.loaded;
          var synced := agent.Sync(objects.value);
          if AllAccepted(agent.slots, objects.value) && (synced || agent.reliable) {
            SyncConverges(items, p, read, sel.value, objects.value, before, agent);
          }
          ok := synced && link.Answers?;
          if ok { WinnersServed(items, p, read, agent); }
        } else {
          ok := link.Unimplemented? && |objects.value| == 0;
          NothingRequested(items, p, read, sel.value, objects.value);
        }
      }
    }
  }

  lemma NothingRequested(items: seq<Item>, p: Peer, read: Store, sel: map<string, Item>, objects: seq<DesiredObject>)
    requires Pushable(items, p, read) && Selection(items, p, sel) && Buildable(read, sel)
    requires Requests(read, sel, objects)
    ensures |objects| == 0 <==> forall s :: !Decided(items, p, s)
  {
    SelectionPushable(items, p, read, sel);
    if |objects| > 0 {
      assert Decided(items, p, objects[0].slot);
    } else {
      forall s ensures !Decided(items, p, s) {
        assert s !in Declared(objects);
      }
    }
  }

  // ---- When a re-uploaded file triggers a push ------------------------------

  /** DpObjectReferences, as the test for an entry that uses the file. */
  ghost predicate References(x: Item, name: string) {
    exists i :: 0 <= i < |x.files| && Uses(x.files[i], name)
  }

  ghost predicate Uses(line: string, name: string) { exists role :: Names(line, role, name) }

  lemma CutUses(line: string, name: string)
    ensures Uses(line, name) <==> Cut(line, '=').Some? && Cut(line, '=').value.1 == name
  {
    if role :| Names(line, role, name) { CutNames(line, role, name); }
    var c := Cut(line, '=');
    if c.Some? { CutNames(line, c.value.0, c.value.1); }
  }

  method DpObjectReferences(items: seq<Item>, name: string) returns (refs: seq<string>)
    ensures forall n :: n in refs <==> exists i :: 0 <= i < |items| && items[i].name == n && References(items[i], name)
  {
    refs := [];
    for i := 0 to |items|
      invariant forall n :: n in refs <==> exists j :: 0 <= j < i && items[j].name == n && References(items[j], name)
    {
      var found := false;
      for j := 0 to |items[i].files|
        invariant !found && forall k :: 0 <= k < j ==> !Uses(items[i].files[k], name)
      {
        var c := Cut(items[i].files[j], '=');
        CutUses(items[i].files[j], name);
        if c.Some? && c.value.1 == name {
          found := true;
          assert Uses(items[i].files[j], name);
          break;
        }
      }
      assert found <==> References(items[i], name);
      if found { refs := refs + [items[i].name]; }
    }
  }

  /** No push is missed: an upload of a file no entry references changes neither whether any
      node can be pushed to nor the contents its slots are to run. */
  lemma {:induction false} UnreferencedUploadChangesNothing(items: seq<Item>, p: Peer, read: Store, read': Store,
                                                            name: string)
    requires forall n :: n != name ==> read(n) == read'(n)
    requires forall i :: 0 <= i < |items| ==> !References(items[i], name)
    ensures Pushable(items, p, read) <==> Pushable(items, p, read')
    ensures Pushable(items, p, read) ==>
              forall k :: Wins(items, p, k) ==> FilesOf(read, items[k].files) == FilesOf(read', items[k].files)
  {
    hide MatchSelector;
    forall k, j | 0 <= k < |items| && 0 <= j < |items[k].files|
      ensures Readable(read, items[k].files[j]) <==> Readable(read', items[k].files[j])
      ensures Readable(read, items[k].files[j]) ==> FileOf(read, items[k].files[j]) == FileOf(read', items[k].files[j])
    {
      assert !References(items[k], name);
      assert !Uses(items[k].files[j], name);
      CutUses(items[k].files[j], name);
    }
  }
}
