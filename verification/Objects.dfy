// The agent's dp_object manager (dataplane/objects.go): slots, the content-addressed
// directory, and Sync, any of whose writes, loads, unloads and removals may fail.

module Objects {
  import opened Text

  datatype ObjectFile = ObjectFile(role: string, name: string, content: string)

  datatype DesiredObject = DesiredObject(slot: string, files: seq<ObjectFile>)

  /** objectFile: the store name and the hex digest; the path in the directory follows. */
  datatype Stored = Stored(name: string, sum: string)

  type FileSet = map<string, Stored> // role -> file

  /** What a slot runs per role: the directory entry it was loaded from and its bytes. */
  datatype Bound = Bound(entry: string, bytes: string)

  type Digest = string -> string

  /** The entry name: 16 hex digits of the digest, a dash, the store name. */
  function Entry(f: Stored): string {
    (if |f.sum| < 16 then f.sum else f.sum[..16]) + "-" + f.name
  }

  /** A file's name and bytes. */
  type NamedBytes = (string, string)

  function Address(digest: Digest, f: NamedBytes): string { Entry(Stored(f.0, digest(f.1))) }

  /** Among these files, an entry name (16 hex digits of the digest, and the store name) stands
      for one content. */
  ghost predicate Tells(digest: Digest, known: set<NamedBytes>) {
    forall f, g :: f in known && g in known && Address(digest, f) == Address(digest, g) ==> f.1 == g.1
  }

  /** filepath.IsLocal and filepath.Base(name) == name. */
  predicate PlainName(name: string) { name !in ["", ".."] && '/' !in name }

  predicate ValidFiles(files: seq<ObjectFile>) {
    && (forall i :: 0 <= i < |files| ==> files[i].role != "" && PlainName(files[i].name))
    && (forall i, j :: 0 <= i < j < |files| ==> files[i].role != files[j].role)
  }

  predicate ValidSet(d: DesiredObject) { d.files != [] && ValidFiles(d.files) }

  /** The entries of an accepted set lie directly in the directory, under names of their own. */
  lemma EntriesAreFlat(digest: Digest, d: DesiredObject, i: nat)
    requires ValidSet(d) && i < |d.files| && (forall s :: '/' !in digest(s) && digest(s) != "")
    ensures '/' !in Entry(StoredAs(digest, d.files[i])) && Entry(StoredAs(digest, d.files[i])) !in {"", ".", ".."}
  {
    var f := StoredAs(digest, d.files[i]);
    assert f.sum != "" && '/' !in f.sum && '/' !in f.name;
    var e := Entry(f);
    assert '-' in e by { assert e[if |f.sum| < 16 then |f.sum| else 16] == '-'; }
  }

  function StoredAs(digest: Digest, f: ObjectFile): Stored { Stored(f.name, digest(f.content)) }

  function SetOf(digest: Digest, files: seq<ObjectFile>): FileSet {
    if files == [] then map[]
    else var last := files[|files| - 1]; SetOf(digest, files[..|files| - 1])[last.role := StoredAs(digest, last)]
  }

  /** The bytes a slot is to run, by role. */
  function BytesOf(files: seq<ObjectFile>): map<string, string> {
    if files == [] then map[]
    else var last := files[|files| - 1]; BytesOf(files[..|files| - 1])[last.role := last.content]
  }

  lemma {:induction false} SetAt(digest: Digest, files: seq<ObjectFile>, i: nat)
    requires ValidFiles(files) && i < |files|
    ensures var r := files[i].role;
            r in SetOf(digest, files) && SetOf(digest, files)[r] == StoredAs(digest, files[i])
            && r in BytesOf(files) && BytesOf(files)[r] == files[i].content
  {
    if i < |files| - 1 { SetAt(digest, files[..|files| - 1], i); }
  }

  lemma {:induction false} SetRoles(digest: Digest, files: seq<ObjectFile>, r: string)
    ensures r in SetOf(digest, files) <==> exists i :: 0 <= i < |files| && files[i].role == r
    ensures r in BytesOf(files) <==> r in SetOf(digest, files)
  {
    if files != [] {
      var rest := files[..|files| - 1];
      SetRoles(digest, rest, r);
      if r in SetOf(digest, rest) {
        var i :| 0 <= i < |rest| && rest[i].role == r;
        assert files[i].role == r;
      }
    }
  }

  // ---- The manager's promise ------------------------------------------------

  /** One running set: recorded as what the slot runs, its files on disk with the bytes the
      slot was loaded from. */
  ghost predicate Backed(digest: Digest, known: set<NamedBytes>, dir: map<string, string>, set_: FileSet,
                         run: map<string, Bound>) {
    && run.Keys == set_.Keys
    && forall r :: r in set_ ==>
         && set_[r].sum == digest(run[r].bytes) && (set_[r].name, run[r].bytes) in known
         && run[r].entry == Entry(set_[r])
         && run[r].entry in dir && dir[run[r].entry] == run[r].bytes
  }

  ghost predicate AllBacked(digest: Digest, known: set<NamedBytes>, dir: map<string, string>,
                            loaded: map<string, FileSet>,
                            running: map<string, map<string, Bound>>) {
    running.Keys == loaded.Keys && forall s :: s in loaded ==> Backed(digest, known, dir, loaded[s], running[s])
  }

  /** No running set has other bytes under this file's entry name. */
  ghost predicate NoClash(digest: Digest, loaded: map<string, FileSet>, running: map<string, map<string, Bound>>,
                          f: ObjectFile) {
    forall s, r :: (s in loaded && r in loaded[s] && s in running && r in running[s]
                    && Entry(loaded[s][r]) == Entry(StoredAs(digest, f))) ==> running[s][r].bytes == f.content
  }

  /** Writing a file under its content address disturbs no running set exactly when none has
      other bytes under that address: otherwise a running file is overwritten. */
  lemma {:induction false} WriteKeepsBacked(digest: Digest, known: set<NamedBytes>, dir: map<string, string>,
                                            loaded: map<string, FileSet>,
                                            running: map<string, map<string, Bound>>, f: ObjectFile)
    requires AllBacked(digest, known, dir, loaded, running)
    ensures AllBacked(digest, known, dir[Entry(StoredAs(digest, f)) := f.content], loaded, running)
            <==> NoClash(digest, loaded, running, f)
  {
    hide Entry;
    var e := Entry(StoredAs(digest, f));
    var dir' := dir[e := f.content];
    if NoClash(digest, loaded, running, f) {
      forall s | s in loaded ensures Backed(digest, known, dir', loaded[s], running[s]) {
        assert Backed(digest, known, dir, loaded[s], running[s]);
      }
    }
    if AllBacked(digest, known, dir', loaded, running) {
      forall s, r | s in loaded && r in loaded[s] && Entry(loaded[s][r]) == e ensures running[s][r].bytes == f.content {
        assert Backed(digest, known, dir', loaded[s], running[s]);
      }
    }
  }

  lemma KnownFilesDoNotClash(digest: Digest, known: set<NamedBytes>, dir: map<string, string>,
                             loaded: map<string, FileSet>,
                             running: map<string, map<string, Bound>>, f: ObjectFile)
    requires Tells(digest, known) && AllBacked(digest, known, dir, loaded, running) && (f.name, f.content) in known
    ensures NoClash(digest, loaded, running, f)
  {
    hide Entry;
    forall s, r | s in loaded && r in loaded[s] && Entry(loaded[s][r]) == Entry(StoredAs(digest, f))
      ensures running[s][r].bytes == f.content
    {
      assert Backed(digest, known, dir, loaded[s], running[s]);
      assert loaded[s][r] == Stored(loaded[s][r].name, digest(running[s][r].bytes));
      assert Address(digest, (loaded[s][r].name, running[s][r].bytes)) == Address(digest, (f.name, f.content));
    }
  }

  /** Such digests and files exist: two contents told apart, of one file name. */
  lemma SomeDigestTells() returns (digest: Digest, known: set<NamedBytes>, objects: seq<DesiredObject>)
    ensures Tells(digest, known) && |objects| == 2 && objects[0].slot != objects[1].slot
    ensures forall i :: 0 <= i < |objects| ==> ValidSet(objects[i]) && Known(known, objects[i].files)
    ensures |objects[0].files| == |objects[1].files| == 1
    ensures objects[0].files[0].name == objects[1].files[0].name
    ensures objects[0].files[0].content != objects[1].files[0].content
  {
    digest := (c: string) => if c == "A" then "0000000000000000" else "1111111111111111";
    known := {("lb.o", "A"), ("lb.o", "B")};
    objects := [DesiredObject("balancer", [ObjectFile("main", "lb.o", "A")]),
                DesiredObject("capture", [ObjectFile("main", "lb.o", "B")])];
    assert Address(digest, ("lb.o", "A"))[0] == '0' && Address(digest, ("lb.o", "B"))[0] == '1';
  }

  ghost predicate Known(known: set<NamedBytes>, files: seq<ObjectFile>) {
    forall i :: 0 <= i < |files| ==> (files[i].name, files[i].content) in known
  }

  lemma GrowKeepsBacked(digest: Digest, known: set<NamedBytes>, dir: map<string, string>, dir': map<string, string>,
                        loaded: map<string, FileSet>, running: map<string, map<string, Bound>>)
    requires AllBacked(digest, known, dir, loaded, running)
    requires forall s, r :: s in loaded && r in loaded[s] && Entry(loaded[s][r]) in dir ==>
               Entry(loaded[s][r]) in dir' && dir'[Entry(loaded[s][r])] == dir[Entry(loaded[s][r])]
    ensures AllBacked(digest, known, dir', loaded, running)
  {
    forall s | s in loaded ensures Backed(digest, known, dir', loaded[s], running[s]) {
      assert Backed(digest, known, dir, loaded[s], running[s]);
    }
  }

  /** sameSet compares names and digests role by role. */
  method SameSet(a: FileSet, b: FileSet) returns (same: bool)
    ensures same <==> a == b
  {
    if |a| != |b| { return false; }
    var todo := a.Keys;
    while todo != {}
      invariant todo <= a.Keys
      invariant forall r :: r in a.Keys - todo ==> r in b && b[r] == a[r]
    {
      var r :| r in todo;
      if r !in b || b[r].name != a[r].name || b[r].sum != a[r].sum { return false; }
      todo := todo - {r};
    }
    assert a.Keys <= b.Keys;
    SameKeys(a.Keys, b.Keys);
    return true;
  }

  lemma SameKeys(a: set<string>, b: set<string>)
    requires a <= b && |a| == |b|
    ensures a == b
  {
    assert |b - a| == |b| - |a|;
  }

  // ---- What a Sync is asked to do -------------------------------------------

  function Declared(objects: seq<DesiredObject>): set<string> { set i | 0 <= i < |objects| :: objects[i].slot }

  predicate Once(objects: seq<DesiredObject>, i: nat)
    requires i < |objects|
  {
    forall j :: 0 <= j < |objects| && j != i ==> objects[j].slot != objects[i].slot
  }

  /** Declared once, for a slot the agent has, with a usable file set. */
  predicate Accepted(slots: set<string>, objects: seq<DesiredObject>, i: nat)
    requires i < |objects|
  {
    Once(objects, i) && objects[i].slot in slots && ValidSet(objects[i])
  }

  predicate Distinct(objects: seq<DesiredObject>) {
    forall i, j :: 0 <= i < j < |objects| ==> objects[i].slot != objects[j].slot
  }

  function CountSlot(objects: seq<DesiredObject>, slot: string): nat {
    if objects == [] then 0
    else CountSlot(objects[..|objects| - 1], slot) + if objects[|objects| - 1].slot == slot then 1 else 0
  }

  lemma {:induction false} CountSlotBounds(objects: seq<DesiredObject>, slot: string)
    ensures CountSlot(objects, slot) == 0 <==> forall j :: 0 <= j < |objects| ==> objects[j].slot != slot
  {
    if objects != [] { CountSlotBounds(objects[..|objects| - 1], slot); }
  }

  lemma {:induction false} OnceIsCount(objects: seq<DesiredObject>, i: nat)
    requires i < |objects|
    ensures CountSlot(objects, objects[i].slot) >= 1
    ensures Once(objects, i) <==> CountSlot(objects, objects[i].slot) == 1
  {
    var rest := objects[..|objects| - 1];
    if i < |objects| - 1 {
      OnceIsCount(rest, i);
      if Once(rest, i) && objects[|rest|].slot != objects[i].slot { assert Once(objects, i); }
    } else {
      CountSlotBounds(rest, objects[i].slot);
    }
  }

  ghost predicate Referenced(loaded: map<string, FileSet>, entry: string) {
    exists s, r :: s in loaded && r in loaded[s] && Entry(loaded[s][r]) == entry
  }

  ghost predicate Has(loaded: map<string, FileSet>, slot: string, set_: FileSet) {
    slot in loaded && loaded[slot] == set_
  }

  ghost predicate SameAt(a: map<string, FileSet>, b: map<string, FileSet>, slot: string) {
    (slot in a <==> slot in b) && (slot in a ==> a[slot] == b[slot])
  }

  /** The record after the first n objects were synced: an accepted one has its set, or kept
      what it had (only if something failed); every other slot kept what it had. */
  ghost predicate Progress(digest: Digest, slots: set<string>, objects: seq<DesiredObject>, n: nat,
                           before: map<string, FileSet>, after: map<string, FileSet>, exact: bool)
    requires n <= |objects|
  {
    && (forall i :: 0 <= i < n && Accepted(slots, objects, i) ==>
         Has(after, objects[i].slot, SetOf(digest, objects[i].files))
         || (!exact && SameAt(before, after, objects[i].slot)))
    && (forall s :: (forall i :: 0 <= i < n && objects[i].slot == s ==> !Accepted(slots, objects, i)) ==>
          SameAt(before, after, s))
  }

  /** What one Sync does to the record: an accepted object's slot has its set (or, inexactly,
      kept what it had); a slot declared only by refused objects kept what it had; a slot
      nothing declares is gone (or, inexactly, kept what it had). */
  ghost predicate Synced(digest: Digest, slots: set<string>, objects: seq<DesiredObject>,
                         before: map<string, FileSet>, after: map<string, FileSet>, exact: bool) {
    && (forall i :: 0 <= i < |objects| && Accepted(slots, objects, i) ==>
         Has(after, objects[i].slot, SetOf(digest, objects[i].files))
         || (!exact && SameAt(before, after, objects[i].slot)))
    && (forall i :: 0 <= i < |objects| && !Accepted(slots, objects, i) ==> SameAt(before, after, objects[i].slot))
    && (forall s :: s !in Declared(objects) ==> s !in after || (!exact && SameAt(before, after, s)))
  }

  ghost predicate AllAccepted(slots: set<string>, objects: seq<DesiredObject>) {
    forall i :: 0 <= i < |objects| ==> Accepted(slots, objects, i)
  }

  /** Nothing left to load. */
  ghost predicate Settled(digest: Digest, slots: set<string>, objects: seq<DesiredObject>,
                          loaded: map<string, FileSet>) {
    forall i :: 0 <= i < |objects| && Accepted(slots, objects, i) ==>
      Has(loaded, objects[i].slot, SetOf(digest, objects[i].files))
  }

  lemma AcceptedAreDistinct(slots: set<string>, objects: seq<DesiredObject>)
    ensures AllAccepted(slots, objects) ==> Distinct(objects)
    ensures Distinct(objects) ==> forall i :: 0 <= i < |objects| ==> Once(objects, i)
  {
    if AllAccepted(slots, objects) {
      forall i, j | 0 <= i < j < |objects| ensures objects[i].slot != objects[j].slot {
        assert Accepted(slots, objects, i);
      }
    }
  }

  lemma SyncSlotProgresses(digest: Digest, slots: set<string>, objects: seq<DesiredObject>, i: nat,
                           before: map<string, FileSet>,
                           mid: map<string, FileSet>, after: map<string, FileSet>, exact: bool, good: bool)
    requires i < |objects| && Progress(digest, slots, objects, i, before, mid, exact)
    requires after == mid || (Accepted(slots, objects, i)
                              && after == mid[objects[i].slot := SetOf(digest, objects[i].files)])
    requires good && Accepted(slots, objects, i) ==> Has(after, objects[i].slot, SetOf(digest, objects[i].files))
    ensures Progress(digest, slots, objects, i + 1, before, after, exact && good)
  {
    hide SetOf, ValidSet;
    forall s | forall j :: 0 <= j < i + 1 && objects[j].slot == s ==> !Accepted(slots, objects, j)
      ensures SameAt(before, after, s)
    {
      assert SameAt(before, mid, s);
    }
    forall j | 0 <= j < i + 1 && Accepted(slots, objects, j)
      ensures Has(after, objects[j].slot, SetOf(digest, objects[j].files))
              || (!(exact && good) && SameAt(before, after, objects[j].slot))
    {
      if j < i {
        assert objects[j].slot != objects[i].slot;
        assert SameAt(mid, after, objects[j].slot);
      } else {
        assert forall k :: 0 <= k < i ==> objects[k].slot != objects[j].slot;
        assert SameAt(before, mid, objects[j].slot);
      }
    }
  }

  lemma UnloadSyncs(digest: Digest, slots: set<string>, objects: seq<DesiredObject>, before: map<string, FileSet>,
                    mid: map<string, FileSet>, after: map<string, FileSet>, loadedAll: bool, exact: bool)
    requires Progress(digest, slots, objects, |objects|, before, mid, loadedAll)
    requires forall s :: s in after ==> s in mid && after[s] == mid[s]
    requires forall s :: s in mid && s in Declared(objects) ==> s in after
    requires exact ==> loadedAll && after.Keys <= Declared(objects)
    ensures Synced(digest, slots, objects, before, after, exact)
  {
    hide SetOf, ValidSet;
    forall i | 0 <= i < |objects| && !Accepted(slots, objects, i)
      ensures SameAt(before, after, objects[i].slot)
    {
      forall j | 0 <= j < |objects| && objects[j].slot == objects[i].slot ensures !Accepted(slots, objects, j) {
        if j != i { assert !Once(objects, j); }
      }
      assert SameAt(before, mid, objects[i].slot) && objects[i].slot in Declared(objects);
    }
    forall i | 0 <= i < |objects| && Accepted(slots, objects, i)
      ensures Has(after, objects[i].slot, SetOf(digest, objects[i].files))
              || (!exact && SameAt(before, after, objects[i].slot))
    {
      assert objects[i].slot in Declared(objects);
    }
    forall s | s !in Declared(objects)
      ensures s !in after || (!exact && SameAt(before, after, s))
    {
      if s in after {
        assert forall i :: 0 <= i < |objects| ==> objects[i].slot in Declared(objects);
        assert SameAt(before, mid, s);
      }
    }
  }

  lemma ShrinkKeepsBacked(digest: Digest, known: set<NamedBytes>, dir: map<string, string>, dir': map<string, string>,
                          loaded: map<string, FileSet>, running: map<string, map<string, Bound>>)
    requires AllBacked(digest, known, dir, loaded, running)
    requires forall e :: e in dir' ==> e in dir && dir'[e] == dir[e]
    requires forall e :: e in dir && Referenced(loaded, e) ==> e in dir'
    ensures AllBacked(digest, known, dir', loaded, running)
  {
    forall s, r | s in loaded && r in loaded[s] ensures Referenced(loaded, Entry(loaded[s][r])) {}
    GrowKeepsBacked(digest, known, dir, dir', loaded, running);
  }

  lemma DropKeepsBacked(digest: Digest, known: set<NamedBytes>, dir: map<string, string>, loaded: map<string, FileSet>,
                        running: map<string, map<string, Bound>>, slot: string)
    requires AllBacked(digest, known, dir, loaded, running)
    ensures AllBacked(digest, known, dir, loaded - {slot}, running - {slot})
  {
  }

  lemma BackedIsPresent(digest: Digest, known: set<NamedBytes>, dir: map<string, string>, loaded: map<string, FileSet>,
                        running: map<string, map<string, Bound>>)
    requires AllBacked(digest, known, dir, loaded, running)
    ensures forall e :: Referenced(loaded, e) ==> e in dir
  {
    forall e | Referenced(loaded, e) ensures e in dir {
      var s, r :| s in loaded && r in loaded[s] && Entry(loaded[s][r]) == e;
      assert Backed(digest, known, dir, loaded[s], running[s]);
    }
  }

  /** A slot whose recorded set is this one runs exactly these contents: nothing but the
      record is needed to know what runs. */
  lemma RecordedIsRunning(digest: Digest, known: set<NamedBytes>, dir: map<string, string>, run: map<string, Bound>,
                          files: seq<ObjectFile>)
    requires Tells(digest, known) && ValidFiles(files) && Known(known, files)
    requires Backed(digest, known, dir, SetOf(digest, files), run)
    ensures Runs(run, files)
  {
    forall r ensures r in run <==> r in BytesOf(files) { SetRoles(digest, files, r); }
    forall r | r in run ensures run[r].bytes == BytesOf(files)[r] {
      SetRoles(digest, files, r);
      var i :| 0 <= i < |files| && files[i].role == r;
      SetAt(digest, files, i);
      assert Address(digest, (files[i].name, run[r].bytes)) == Address(digest, (files[i].name, files[i].content));
    }
  }

  // ---- The manager ----------------------------------------------------------

  class ObjectManager {
    const digest: Digest
    const slots: set<string>
    const reliable: bool
    ghost const known: set<NamedBytes> // all files it is ever sent
    var dir: map<string, string>
    var loaded: map<string, FileSet>
    var running: map<string, map<string, Bound>> // the slots' own state
    ghost var loads: nat // successful or not, how often a slot's Load was called

    /** Every file of a running set is on disk with the bytes it was loaded from, each
        slot's recorded set is what it runs, and recorded slots exist. */
    ghost predicate Valid()
      reads this
    {
      && Tells(digest, known) && loaded.Keys <= slots
      && AllBacked(digest, known, dir, loaded, running)
    }

    constructor (digest: Digest, slots: set<string>, reliable: bool, ghost known: set<NamedBytes>)
      requires Tells(digest, known)
      ensures Valid() && loaded == map[] && running == map[] && dir == map[]
      ensures this.digest == digest && this.slots == slots && this.reliable == reliable && this.known == known
    {
      this.digest, this.slots, this.reliable, this.known := digest, slots, reliable, known;
      this.dir, this.loaded, this.running, this.loads := map[], map[], map[], 0;
    }

    method Fails() returns (f: bool)
      ensures reliable ==> !f
    {
      var x: bool := *;
      f := x && !reliable;
    }

    method ValidateSet(d: DesiredObject) returns (r: Option<FileSet>)
      ensures r.Some? <==> ValidSet(d)
      ensures r.Some? ==> r.value == SetOf(digest, d.files)
    {
      if |d.files| == 0 { return None; }
      var out: FileSet := map[];
      for i := 0 to |d.files|
        invariant ValidFiles(d.files[..i]) && out == SetOf(digest, d.files[..i])
      {
        var f := d.files[i];
        ghost var pre := d.files[..i];
        assert d.files[..i + 1] == pre + [f] && (pre + [f])[..i] == pre;
        SetRoles(digest, pre, f.role);
        if f.role == "" || !PlainName(f.name) { assert !ValidFiles(d.files); return None; }
        if f.role in out {
          ghost var j :| 0 <= j < i && pre[j].role == f.role;
          assert d.files[j].role == d.files[i].role;
          return None;
        }
        out := out[f.role := StoredAs(digest, f)];
      }
      assert d.files[..|d.files|] == d.files;
      return Some(out);
    }

    /** writeFileAtomic: temp file and rename. A failure may leave a temp file behind, but
        never touches an entry that exists. */
    method WriteFile(f: ObjectFile) returns (ok: bool)
      requires Valid() && (f.name, f.content) in known
      modifies this`dir
      ensures Valid()
      ensures ok ==> Entry(StoredAs(digest, f)) in dir && dir[Entry(StoredAs(digest, f))] == f.content
      ensures forall e :: e in old(dir) ==> e in dir
      ensures forall e :: e in old(dir) && e != Entry(StoredAs(digest, f)) ==> dir[e] == old(dir)[e]
      ensures reliable ==> ok
    {
      var fail := Fails();
      if fail {
        var tmp: string := *;
        if tmp !in dir {
          GrowKeepsBacked(digest, known, dir, dir[tmp := f.content], loaded, running);
          dir := dir[tmp := f.content];
        }
        return false;
      }
      KnownFilesDoNotClash(digest, known, dir, loaded, running, f);
      WriteKeepsBacked(digest, known, dir, loaded, running, f);
      dir := dir[Entry(StoredAs(digest, f)) := f.content];
      return true;
    }

    /** The write loop of syncSlotLocked. */
    method WriteAll(files: seq<ObjectFile>) returns (ok: bool)
      requires Valid() && Known(known, files)
      modifies this`dir
      ensures Valid()
      ensures ok ==> forall i :: 0 <= i < |files| ==>
                Entry(StoredAs(digest, files[i])) in dir && dir[Entry(StoredAs(digest, files[i]))] == files[i].content
      ensures reliable ==> ok
    {
      for i := 0 to |files|
        invariant Valid()
        invariant forall j :: 0 <= j < i ==>
          Entry(StoredAs(digest, files[j])) in dir && dir[Entry(StoredAs(digest, files[j]))] == files[j].content
      {
        forall j | 0 <= j < i && Entry(StoredAs(digest, files[j])) == Entry(StoredAs(digest, files[i]))
          ensures files[j].content == files[i].content
        {
          SameEntrySameContent(digest, known, files[j], files[i]);
        }
        ok := WriteFile(files[i]);
        if !ok { return; }
      }
      return true;
    }

    /** slot.Load: switches the slot to the written files at once, or leaves it alone. */
    method Load(slot: string, files: seq<ObjectFile>) returns (ok: bool)
      requires Valid() && slot in slots && ValidFiles(files) && Known(known, files)
      requires forall i :: 0 <= i < |files| ==>
        Entry(StoredAs(digest, files[i])) in dir && dir[Entry(StoredAs(digest, files[i]))] == files[i].content
      modifies this`loaded, this`running, this`loads
      ensures Valid() && loads == old(loads) + 1 && (reliable ==> ok)
      ensures loaded == if ok then old(loaded)[slot := SetOf(digest, files)] else old(loaded)
      ensures !ok ==> running == old(running)
    {
      loads := loads + 1;
      var fail := Fails();
      if fail { return false; }
      var run: map<string, Bound> := map[];
      for i := 0 to |files|
        invariant Backed(digest, known, dir, SetOf(digest, files[..i]), run)
      {
        assert files[..i + 1][..i] == files[..i];
        var e := Entry(StoredAs(digest, files[i]));
        run := run[files[i].role := Bound(e, dir[e])];
      }
      assert files[..|files|] == files;
      loaded := loaded[slot := SetOf(digest, files)];
      running := running[slot := run];
      return true;
    }

    method SyncSlot(objects: seq<DesiredObject>, i: nat) returns (ok: bool)
      requires Valid() && i < |objects| && Known(known, objects[i].files)
      modifies this`dir, this`loaded, this`running, this`loads
      ensures Valid()
      ensures loaded == old(loaded)
              || (Accepted(slots, objects, i)
                  && loaded == old(loaded)[objects[i].slot := SetOf(digest, objects[i].files)])
      ensures ok && Once(objects, i) ==> Accepted(slots, objects, i)
      ensures (ok || reliable) && Accepted(slots, objects, i) ==>
                Has(loaded, objects[i].slot, SetOf(digest, objects[i].files))
      ensures reliable && Accepted(slots, objects, i) ==> ok
      ensures !Once(objects, i) ==> ok
      ensures !Accepted(slots, objects, i) || Has(old(loaded), objects[i].slot, SetOf(digest, objects[i].files)) ==>
                loads == old(loads)
    {
      var d := objects[i];
      var n := 0;
      for j := 0 to |objects|
        invariant n == CountSlot(objects[..j], d.slot)
      {
        assert objects[..j + 1][..j] == objects[..j];
        if objects[j].slot == d.slot { n := n + 1; }
      }
      assert objects[..|objects|] == objects;
      OnceIsCount(objects, i);
      if n > 1 { return true; }
      if d.slot !in slots { return false; }
      var want := ValidateSet(d);
      if want.None? { return false; }
      var current: FileSet := map[];
      if d.slot in loaded { current := loaded[d.slot]; }
      var same := SameSet(current, want.value);
      if same {
        SetRoles(digest, d.files, d.files[0].role);
        return true;
      }
      ok := WriteAll(d.files);
      if ok {
        ok := Load(d.slot, d.files);
      }
    }

    /** The unload loop of Sync. */
    method UnloadOthers(desired: set<string>) returns (ok: bool)
      requires Valid()
      modifies this`loaded, this`running
      ensures Valid()
      ensures forall s :: s in loaded ==> s in old(loaded) && loaded[s] == old(loaded)[s]
      ensures forall s :: s in old(loaded) && s in desired ==> s in loaded
      ensures ok || reliable ==> loaded.Keys <= desired
      ensures reliable ==> ok
    {
      hide AllBacked, Backed;
      ok := true;
      var todo := loaded.Keys;
      while todo != {}
        invariant Valid() && todo <= loaded.Keys
        invariant forall s :: s in loaded ==> s in old(loaded) && loaded[s] == old(loaded)[s]
        invariant forall s :: s in old(loaded) && s in desired ==> s in loaded
        invariant ok ==> loaded.Keys <= desired + todo
        invariant reliable ==> ok
      {
        var slot :| slot in todo;
        todo := todo - {slot};
        if slot !in desired {
          var fail := Fails();
          if fail {
            ok := false;
          } else {
            DropKeepsBacked(digest, known, dir, loaded, running, slot);
            loaded := loaded - {slot};
            running := running - {slot};
          }
        }
      }
    }

    /** The removal loop of collectLocked. */
    method RemoveOthers(keep: set<string>) returns (ok: bool)
      modifies this`dir
      ensures forall e :: e in dir ==> e in old(dir) && dir[e] == old(dir)[e]
      ensures forall e :: e in old(dir) && e in keep ==> e in dir
      ensures ok ==> dir.Keys <= keep
      ensures reliable ==> ok
    {
      ok := true;
      var todo := dir.Keys;
      while todo != {}
        invariant todo <= dir.Keys
        invariant forall e :: e in dir ==> e in old(dir) && dir[e] == old(dir)[e]
        invariant forall e :: e in old(dir) && e in keep ==> e in dir
        invariant ok ==> dir.Keys <= keep + todo
        invariant reliable ==> ok
      {
        var e :| e in todo;
        todo := todo - {e};
        if e !in keep {
          var fail := Fails();
          if fail { ok := false; } else { dir := dir - {e}; }
        }
      }
    }

    /** collectLocked: removes the entries no recorded set references. */
    method Collect() returns (ok: bool)
      requires Valid()
      modifies this`dir
      ensures Valid()
      ensures forall e :: e in dir ==> e in old(dir) && dir[e] == old(dir)[e]
      ensures forall e :: e in old(dir) && Referenced(loaded, e) ==> e in dir
      ensures ok || reliable ==> forall e :: e in dir <==> Referenced(loaded, e)
      ensures reliable ==> ok
    {
      hide AllBacked, Backed;
      var fail := Fails();
      if fail { return false; }
      var keep := set s, r | s in loaded && r in loaded[s] :: Entry(loaded[s][r]);
      assert forall e :: e in keep <==> Referenced(loaded, e);
      ok := RemoveOthers(keep);
      ShrinkKeepsBacked(digest, known, old(dir), dir, loaded, running);
      BackedIsPresent(digest, known, dir, loaded, running);
    }

    /** The first loop of Sync. */
    method Declare(objects: seq<DesiredObject>) returns (desired: set<string>, ok: bool)
      ensures desired == Declared(objects) && (ok <==> Distinct(objects))
    {
      ok, desired := true, {};
      for i := 0 to |objects|
        invariant desired == Declared(objects[..i])
        invariant ok <==> Distinct(objects[..i])
      {
        var d := objects[i];
        if d.slot in desired {
          assert exists j :: 0 <= j < i && objects[j].slot == d.slot;
          ok := false;
        } else {
          desired := desired + {d.slot};
        }
      }
      assert objects[..|objects|] == objects;
    }

    /** One SyncObjects. `ok` is the absence of any error. */
    method Sync(objects: seq<DesiredObject>) returns (ok: bool)
      requires Valid() && forall i :: 0 <= i < |objects| ==> Known(known, objects[i].files)
      modifies this`dir, this`loaded, this`running, this`loads
      ensures Valid()
      ensures Synced(digest, slots, objects, old(loaded), loaded, ok || reliable)
      ensures ok ==> AllAccepted(slots, objects)
      ensures reliable && AllAccepted(slots, objects) ==> ok
      ensures ok || reliable ==> forall e :: e in dir <==> Referenced(loaded, e)
      ensures Settled(digest, slots, objects, old(loaded)) ==> loads == old(loads)
    {
      hide AllBacked, Backed, Synced, ValidSet, SetOf, Referenced, Tells, Known;
      var desired;
      desired, ok := Declare(objects);
      ghost var distinct := ok;
      AcceptedAreDistinct(slots, objects);
      for i := 0 to |objects|
        invariant Valid() && (ok ==> distinct)
        invariant Progress(digest, slots, objects, i, old(loaded), loaded, ok || reliable)
        invariant ok ==> forall j :: 0 <= j < i ==> Accepted(slots, objects, j)
        invariant reliable && AllAccepted(slots, objects) ==> ok
        invariant Settled(digest, slots, objects, old(loaded)) ==> loads == old(loads) && loaded == old(loaded)
      {
        ghost var mid, exact := loaded, ok || reliable;
        var good := SyncSlot(objects, i);
        SyncSlotProgresses(digest, slots, objects, i, old(loaded), mid, loaded, exact, good || reliable);
        ok := ok && good;
      }
      ghost var mid, loadedAll := loaded, ok || reliable;
      var unloaded := UnloadOthers(desired);
      var collected := Collect();
      ok := ok && unloaded && collected;
      UnloadSyncs(digest, slots, objects, old(loaded), mid, loaded, loadedAll, ok || reliable);
    }
  }

  lemma SameEntrySameContent(digest: Digest, known: set<NamedBytes>, f: ObjectFile, g: ObjectFile)
    requires Tells(digest, known) && (f.name, f.content) in known && (g.name, g.content) in known
    requires Entry(StoredAs(digest, f)) == Entry(StoredAs(digest, g))
    ensures f.content == g.content
  {
    assert Address(digest, (f.name, f.content)) == Address(digest, (g.name, g.content));
  }

  /** The slot runs exactly these contents, role by role. */
  ghost predicate Runs(run: map<string, Bound>, files: seq<ObjectFile>) {
    run.Keys == BytesOf(files).Keys && forall r :: r in run ==> run[r].bytes == BytesOf(files)[r]
  }
}
