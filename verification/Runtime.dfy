// The node's container runtime and volume root as the workload engine sees them
// (the Runtime interface of workload/workload.go, ensureVolumes of
// workload/volume.go). Every call may fail, before or after taking effect, and
// containers may change state, objects may vanish and images may come and go on
// their own between any two calls. A calm runtime does none of this.

module Runtime {
  import opened Text
  import opened SpecHash

  datatype CtrState = Created | Running | Exited | Unknown

  datatype Pod = Pod(name: string, network: string)

  datatype Ctr = Ctr(name: string, hash: string, config: Spec, state: CtrState, pod: nat)

  /** The managed sandboxes and containers by id, the images, and the next free id. */
  datatype Sys = Sys(pods: map<nat, Pod>, ctrs: map<nat, Ctr>, images: set<string>, next: nat)

  datatype Op = StopContainer | RemoveContainer | StopSandbox | RemoveSandbox
              | RunSandbox | CreateContainer | StartContainer

  /** The calls that only ask, and the volume directories. */
  datatype Query = Listing | ImageStatus(image: string) | Directories

  /** What a converge learns of the node and does to it, in order, with what failed. */
  datatype Event =
    | PodsListed(pods: map<nat, Pod>)
    | Listed(ctrs: map<nat, Ctr>)
    | ImagePresent(image: string)
    | PullRequested(image: string)
    | VolumesReady(volumes: seq<Volume>)
    | Failed(query: Query)
    | Call(op: Op, name: string, ok: bool)

  // ---- State predicates -----------------------------------------------------

  /** Labelled with the hash of the spec it was created from, which was valid. */
  predicate Labelled(hash: string, config: Spec) { hash == Stream(config) && Valid(config) }

  /** The sandbox is the container's: its name, and on the network the container asks for
      (the node's own unless it asks for the pod network). */
  predicate Houses(pod: Pod, ctr: Ctr) {
    && pod.name == ctr.name
    && (pod.network == "pod" || pod.network == "host")
    && (pod.network == "pod" <==> ctr.config.network == "pod")
  }

  /** A container lives in its own sandbox and is labelled by its spec; ids below next are
      used up. */
  ghost predicate Linked(s: Sys) {
    && (forall c :: c in s.ctrs ==> s.ctrs[c].pod in s.pods && Houses(s.pods[s.ctrs[c].pod], s.ctrs[c]))
    && (forall p :: p in s.pods ==> p < s.next)
    && (forall c :: c in s.ctrs ==> c < s.next)
    && (forall c :: c in s.ctrs ==> Labelled(s.ctrs[c].hash, s.ctrs[c].config))
  }

  /** Never more than one managed sandbox or container per name. */
  ghost predicate OnePerName(s: Sys) {
    && (forall p, q :: p in s.pods && q in s.pods && s.pods[p].name == s.pods[q].name ==> p == q)
    && (forall c, d :: c in s.ctrs && d in s.ctrs && s.ctrs[c].name == s.ctrs[d].name ==> c == d)
  }

  ghost predicate Same(c: Ctr, d: Ctr) { c.(state := Created) == d.(state := Created) }

  /** Nothing outside name n appeared between s and t. */
  ghost predicate ShrunkOutside(n: string, s: Sys, t: Sys) {
    && (forall p :: p in t.pods && t.pods[p].name != n ==> p in s.pods && s.pods[p] == t.pods[p])
    && (forall c :: c in t.ctrs && t.ctrs[c].name != n ==> c in s.ctrs && Same(s.ctrs[c], t.ctrs[c]))
  }

  ghost predicate Shrunk(s: Sys, t: Sys) {
    && (forall p :: p in t.pods ==> p in s.pods && s.pods[p] == t.pods[p])
    && (forall c :: c in t.ctrs ==> c in s.ctrs && Same(s.ctrs[c], t.ctrs[c]))
  }

  /** Everything outside name n is the same in s and t. */
  ghost predicate SameOutside(n: string, s: Sys, t: Sys) {
    && s.images == t.images
    && (forall p :: p in t.pods && t.pods[p].name != n ==> p in s.pods && s.pods[p] == t.pods[p])
    && (forall p :: p in s.pods && s.pods[p].name != n ==> p in t.pods && s.pods[p] == t.pods[p])
    && (forall c :: c in t.ctrs && t.ctrs[c].name != n ==> c in s.ctrs && s.ctrs[c] == t.ctrs[c])
    && (forall c :: c in s.ctrs && s.ctrs[c].name != n ==> c in t.ctrs && s.ctrs[c] == t.ctrs[c])
  }

  ghost predicate NoPod(s: Sys, n: string) { forall p :: p in s.pods ==> s.pods[p].name != n }

  ghost predicate NoCtr(s: Sys, n: string) { forall c :: c in s.ctrs ==> s.ctrs[c].name != n }

  /** What may happen to the node without the engine. */
  ghost predicate Evolves(s: Sys, t: Sys) { Shrunk(s, t) && Linked(t) && t.next == s.next }

  // ---- Effects of the mutating calls ----------------------------------------

  function StopCtr(s: Sys, id: nat): Sys {
    if id in s.ctrs && s.ctrs[id].state == Running
    then s.(ctrs := s.ctrs[id := s.ctrs[id].(state := Exited)]) else s
  }

  function RemoveCtr(s: Sys, id: nat): Sys { s.(ctrs := s.ctrs - {id}) }

  function StopPod(s: Sys, id: nat): Sys {
    s.(ctrs := map c | c in s.ctrs :: if s.ctrs[c].pod == id && s.ctrs[c].state == Running
                                      then s.ctrs[c].(state := Exited) else s.ctrs[c])
  }

  /** Removing a sandbox removes the containers in it. */
  function RemovePod(s: Sys, id: nat): Sys {
    s.(pods := s.pods - {id}, ctrs := map c | c in s.ctrs && s.ctrs[c].pod != id :: s.ctrs[c])
  }

  function RunPod(s: Sys, pod: Pod): Sys { s.(pods := s.pods[s.next := pod], next := s.next + 1) }

  function CreateCtr(s: Sys, ctr: Ctr): Sys { s.(ctrs := s.ctrs[s.next := ctr], next := s.next + 1) }

  function StartCtr(s: Sys, id: nat): Sys {
    if id in s.ctrs then s.(ctrs := s.ctrs[id := s.ctrs[id].(state := Running)]) else s
  }

  /** Volumes reported ready are plain directories. */
  ghost predicate VolumesThere(log: seq<Event>, dirs: map<string, bool>) {
    forall i, v :: 0 <= i < |log| && log[i].VolumesReady? && v in log[i].volumes ==> v.name in dirs && dirs[v.name]
  }

  ghost predicate Good(s: Sys) { Linked(s) && OnePerName(s) }

  /** names knows every object there is, and no id from next on. */
  ghost predicate Named(s: Sys, names: map<nat, string>) {
    && (forall p :: p in s.pods ==> p in names && names[p] == s.pods[p].name)
    && (forall c :: c in s.ctrs ==> c in names && names[c] == s.ctrs[c].name)
    && (forall i :: i in names ==> i < s.next)
  }

  lemma ShrunkKeeps(s: Sys, t: Sys, names: map<nat, string>)
    requires OnePerName(s) && Shrunk(s, t) && s.next == t.next && Named(s, names)
    ensures OnePerName(t) && Named(t, names)
  {
    forall c | c in t.ctrs ensures Same(s.ctrs[c], t.ctrs[c]) {}
  }

  lemma ShrunkTrans(s: Sys, t: Sys, u: Sys)
    requires Shrunk(s, t) && Shrunk(t, u)
    ensures Shrunk(s, u)
  {
    forall c | c in u.ctrs ensures c in s.ctrs && Same(s.ctrs[c], u.ctrs[c]) {
      assert Same(t.ctrs[c], u.ctrs[c]);
    }
  }

  lemma StopCtrShrinks(s: Sys, id: nat)
    requires Linked(s)
    ensures Linked(StopCtr(s, id)) && Shrunk(s, StopCtr(s, id))
  {
    hide Labelled;
  }

  lemma StopPodShrinks(s: Sys, id: nat)
    requires Linked(s)
    ensures Linked(StopPod(s, id)) && Shrunk(s, StopPod(s, id))
  {
    hide Labelled;
  }

  lemma RemovePodShrinks(s: Sys, id: nat)
    requires Linked(s)
    ensures Linked(RemovePod(s, id)) && Shrunk(s, RemovePod(s, id))
  {
    hide Labelled;
  }

  lemma StartCtrShrinks(s: Sys, id: nat)
    requires Linked(s)
    ensures Linked(StartCtr(s, id)) && Shrunk(s, StartCtr(s, id))
  {
    hide Labelled;
  }

  lemma RemoveCtrShrinks(s: Sys, id: nat)
    requires Linked(s)
    ensures Linked(RemoveCtr(s, id)) && Shrunk(s, RemoveCtr(s, id))
  {
    hide Labelled;
  }

  lemma StillReady(log: seq<Event>, e: Event, dirs: map<string, bool>)
    requires VolumesThere(log, dirs) && !e.VolumesReady?
    ensures VolumesThere(log + [e], dirs)
  {
  }

  lemma RunPodLinked(s: Sys, pod: Pod)
    requires Linked(s)
    ensures Linked(RunPod(s, pod))
  {
    hide Labelled;
    var t := RunPod(s, pod);
    forall c | c in t.ctrs ensures t.ctrs[c].pod in t.pods && Houses(t.pods[t.ctrs[c].pod], t.ctrs[c]) {
      assert s.ctrs[c].pod in s.pods;
    }
  }

  lemma RunPodGood(s: Sys, pod: Pod, names: map<nat, string>)
    requires Good(s) && NoPod(s, pod.name) && Named(s, names)
    ensures Good(RunPod(s, pod)) && ShrunkOutside(pod.name, s, RunPod(s, pod))
    ensures Named(RunPod(s, pod), names[s.next := pod.name])
  {
    hide Labelled;
    RunPodLinked(s, pod);
    RunPodOnePerName(s, pod);
    hide Linked, OnePerName, ShrunkOutside, NoPod;
    assert forall i :: i in names ==> i < s.next;
  }

  lemma RunPodOnePerName(s: Sys, pod: Pod)
    requires Linked(s) && OnePerName(s) && NoPod(s, pod.name)
    ensures OnePerName(RunPod(s, pod)) && ShrunkOutside(pod.name, s, RunPod(s, pod))
  {
    hide Labelled;
  }

  lemma CreateCtrLinked(s: Sys, ctr: Ctr)
    requires Linked(s) && ctr.pod in s.pods && Houses(s.pods[ctr.pod], ctr) && Labelled(ctr.hash, ctr.config)
    ensures Linked(CreateCtr(s, ctr))
  {
    hide Labelled;
  }

  lemma CreateCtrOnePerName(s: Sys, ctr: Ctr)
    requires Linked(s) && OnePerName(s) && NoCtr(s, ctr.name)
    ensures OnePerName(CreateCtr(s, ctr)) && ShrunkOutside(ctr.name, s, CreateCtr(s, ctr))
  {
    hide Labelled;
  }

  lemma {:induction false} CreateCtrGood(s: Sys, ctr: Ctr, names: map<nat, string>)
    requires Good(s) && NoCtr(s, ctr.name) && Named(s, names)
    requires ctr.pod in s.pods && Houses(s.pods[ctr.pod], ctr) && Labelled(ctr.hash, ctr.config)
    ensures Good(CreateCtr(s, ctr)) && ShrunkOutside(ctr.name, s, CreateCtr(s, ctr))
    ensures Named(CreateCtr(s, ctr), names[s.next := ctr.name])
  {
    CreateCtrLinked(s, ctr);
    CreateCtrOnePerName(s, ctr);
    hide Labelled, Linked, OnePerName, ShrunkOutside, NoCtr;
  }

  /** Removing what is called n touches nothing else. */
  lemma CtrTeardownIsLocal(s: Sys, id: nat, n: string)
    requires id in s.ctrs && s.ctrs[id].name == n
    ensures SameOutside(n, s, RemoveCtr(StopCtr(s, id), id))
  {
  }

  lemma PodTeardownIsLocal(s: Sys, id: nat, n: string)
    requires Linked(s) && id in s.pods && s.pods[id].name == n
    ensures SameOutside(n, s, RemovePod(StopPod(s, id), id))
  {
    hide Labelled;
  }

  lemma SameOutsideTrans(n: string, s: Sys, t: Sys, u: Sys)
    requires SameOutside(n, s, t) && SameOutside(n, t, u)
    ensures SameOutside(n, s, u)
  {
  }

  lemma ShrunkOutsideTrans(n: string, s: Sys, t: Sys, u: Sys)
    requires ShrunkOutside(n, s, t) && ShrunkOutside(n, t, u)
    ensures ShrunkOutside(n, s, u)
  {
    forall c | c in u.ctrs && u.ctrs[c].name != n ensures c in s.ctrs && Same(s.ctrs[c], u.ctrs[c]) {
      assert Same(t.ctrs[c], u.ctrs[c]);
    }
  }

  lemma ShrunkIsOutside(n: string, s: Sys, t: Sys)
    requires Shrunk(s, t)
    ensures ShrunkOutside(n, s, t)
  {
  }

  // ---- The node -------------------------------------------------------------

  class Node {
    const calm: bool
    var sys: Sys
    var dirs: map<string, bool> // volume root entries; true = a plain directory
    ghost var names: map<nat, string> // every object ever handed out
    ghost var log: seq<Event>

    ghost predicate Valid()
      reads this
    {
      Good(sys) && Named(sys, names) && VolumesThere(log, dirs)
    }

    constructor (initial: Sys, dirs: map<string, bool>, calm: bool)
      requires Linked(initial) && OnePerName(initial)
      requires initial.pods.Keys !! initial.ctrs.Keys
      ensures Valid() && sys == initial && log == [] && this.calm == calm && this.dirs == dirs
    {
      this.calm, this.sys, this.dirs, this.log := calm, initial, dirs, [];
      this.names := map i | i in initial.pods.Keys + initial.ctrs.Keys ::
        if i in initial.pods then initial.pods[i].name else initial.ctrs[i].name;
    }

    /** The world moves on: any smaller linked state, any images. */
    method Drift()
      requires Valid()
      modifies this`sys
      ensures Valid() && Evolves(old(sys), sys) && (calm ==> sys == old(sys))
    {
      hide Labelled;
      var t: Sys := *;
      if !calm && MayBecome(sys, t) {
        ShrunkKeeps(sys, t, names);
        sys := t;
      }
    }

    predicate MayBecome(s: Sys, t: Sys)
      ensures MayBecome(s, t) <==> Evolves(s, t)
    {
      && t.next == s.next
      && (forall p <- t.pods :: p in s.pods && s.pods[p] == t.pods[p] && p < t.next)
      && (forall c <- t.ctrs :: c in s.ctrs && s.ctrs[c].(state := Created) == t.ctrs[c].(state := Created)
                                && t.ctrs[c].pod in t.pods && Houses(t.pods[t.ctrs[c].pod], t.ctrs[c]) && c < t.next
                                && Labelled(t.ctrs[c].hash, t.ctrs[c].config))
    }

    method ListPods() returns (r: Option<map<nat, Pod>>)
      requires Valid()
      modifies this`sys, this`log
      ensures Valid() && Evolves(old(sys), sys) && (calm ==> sys == old(sys) && r.Some?)
      ensures r.Some? ==> r.value == sys.pods
      ensures log == old(log) + [if r.Some? then PodsListed(sys.pods) else Failed(Listing)]
    {
      hide Labelled;
      Drift();
      var fail: bool := *;
      r := if fail && !calm then None else Some(sys.pods);
      log := log + [if r.Some? then PodsListed(sys.pods) else Failed(Listing)];
    }

    method ListCtrs() returns (r: Option<map<nat, Ctr>>)
      requires Valid()
      modifies this`sys, this`log
      ensures Valid() && Evolves(old(sys), sys) && (calm ==> sys == old(sys) && r.Some?)
      ensures r.Some? ==> r.value == sys.ctrs
      ensures log == old(log) + [if r.Some? then Listed(sys.ctrs) else Failed(Listing)]
    {
      hide Labelled;
      Drift();
      var fail: bool := *;
      r := if fail && !calm then None else Some(sys.ctrs);
      log := log + [if r.Some? then Listed(sys.ctrs) else Failed(Listing)];
    }

    /** ImageStatus: Some(present), or None when the call fails. */
    method ImageStatus(image: string) returns (r: Option<bool>)
      requires Valid()
      modifies this`sys, this`log
      ensures Valid() && Evolves(old(sys), sys) && (calm ==> sys == old(sys) && r.Some?)
      ensures r.Some? ==> r.value == (image in sys.images)
      ensures log == old(log) + match r { case None => [Failed(Query.ImageStatus(image))]
                                          case Some(present) => if present then [ImagePresent(image)] else [] }
    {
      hide Labelled;
      Drift();
      var fail: bool := *;
      r := if fail && !calm then None else Some(image in sys.images);
      match r {
        case None => log := log + [Failed(Query.ImageStatus(image))];
        case Some(present) => if present { log := log + [ImagePresent(image)]; }
      }
    }

    /** Moves to a smaller state. */
    method Advance(t: Sys)
      requires Valid() && Linked(t) && Shrunk(sys, t) && t.next == sys.next
      modifies this`sys
      ensures Valid() && sys == t
      ensures forall s :: Shrunk(s, old(sys)) ==> Shrunk(s, t)
    {
      ShrunkKeeps(sys, t, names);
      forall s | Shrunk(s, sys) ensures Shrunk(s, t) { ShrunkTrans(s, sys, t); }
      sys := t;
    }

    /** The outcome of a mutating call: whether it took effect, whether it reported success. */
    method Outcome() returns (applied: bool, ok: bool)
      ensures ok ==> applied
      ensures calm ==> ok
    {
      var a: bool, o: bool := *, *;
      applied, ok := a || calm, (a && o) || calm;
    }

    ghost method Record(op: Op, id: nat, ok: bool)
      requires Valid() && id in names
      modifies this`log
      ensures Valid() && log == old(log) + [Call(op, names[id], ok)]
    {
      log := log + [Call(op, names[id], ok)];
    }

    method StopContainer(id: nat) returns (ok: bool)
      requires Valid() && id in names
      modifies this`sys, this`log
      ensures Valid() && Shrunk(old(sys), sys)
      ensures calm ==> ok && sys == StopCtr(old(sys), id)
      ensures log == old(log) + [Call(Op.StopContainer, names[id], ok)]
    {
      hide Linked, OnePerName, Named, VolumesThere;
      Drift();
      var applied;
      applied, ok := Outcome();
      StopCtrShrinks(sys, id);
      if applied { Advance(StopCtr(sys, id)); }
      Record(Op.StopContainer, id, ok);
    }

    method RemoveContainer(id: nat) returns (ok: bool)
      requires Valid() && id in names
      modifies this`sys, this`log
      ensures Valid() && Shrunk(old(sys), sys)
      ensures ok ==> id !in sys.ctrs
      ensures calm ==> ok && sys == RemoveCtr(old(sys), id)
      ensures log == old(log) + [Call(Op.RemoveContainer, names[id], ok)]
    {
      hide Linked, OnePerName, Named, VolumesThere;
      Drift();
      var applied;
      applied, ok := Outcome();
      RemoveCtrShrinks(sys, id);
      if applied { Advance(RemoveCtr(sys, id)); }
      Record(Op.RemoveContainer, id, ok);
    }

    method StopSandbox(id: nat) returns (ok: bool)
      requires Valid() && id in names
      modifies this`sys, this`log
      ensures Valid() && Shrunk(old(sys), sys)
      ensures calm ==> ok && sys == StopPod(old(sys), id)
      ensures log == old(log) + [Call(Op.StopSandbox, names[id], ok)]
    {
      hide Linked, OnePerName, Named, VolumesThere;
      Drift();
      var applied;
      applied, ok := Outcome();
      StopPodShrinks(sys, id);
      if applied { Advance(StopPod(sys, id)); }
      Record(Op.StopSandbox, id, ok);
    }

    method RemoveSandbox(id: nat) returns (ok: bool)
      requires Valid() && id in names
      modifies this`sys, this`log
      ensures Valid() && Shrunk(old(sys), sys)
      ensures ok ==> id !in sys.pods
      ensures calm ==> ok && sys == RemovePod(old(sys), id)
      ensures log == old(log) + [Call(Op.RemoveSandbox, names[id], ok)]
    {
      hide Linked, OnePerName, Named, VolumesThere;
      Drift();
      var applied;
      applied, ok := Outcome();
      RemovePodShrinks(sys, id);
      if applied { Advance(RemovePod(sys, id)); }
      Record(Op.RemoveSandbox, id, ok);
    }

    /** Some(id) of the new sandbox; None on failure, which may still have made it. */
    method RunSandbox(pod: Pod) returns (r: Option<nat>)
      requires Valid() && NoPod(sys, pod.name)
      modifies this`sys, this`names, this`log
      ensures Valid() && ShrunkOutside(pod.name, old(sys), sys)
      ensures forall c :: c in sys.ctrs ==> c in old(sys).ctrs && Same(old(sys).ctrs[c], sys.ctrs[c])
      ensures r.Some? ==>
                r.value in sys.pods && sys.pods[r.value] == pod && r.value in names && names[r.value] == pod.name
      ensures forall i :: i in old(names) ==> i in names && names[i] == old(names)[i]
      ensures calm ==> r.Some? && sys == RunPod(old(sys), pod)
      ensures log == old(log) + [Call(Op.RunSandbox, pod.name, r.Some?)]
    {
      hide Linked, OnePerName, VolumesThere;
      Drift();
      ShrunkIsOutside(pod.name, old(sys), sys);
      var applied, ok := Outcome();
      r := if ok then Some(sys.next) else None;
      if applied {
        RunPodGood(sys, pod, names);
        ShrunkOutsideTrans(pod.name, old(sys), sys, RunPod(sys, pod));
        names := names[sys.next := pod.name];
        sys := RunPod(sys, pod);
      }
      StillReady(log, Call(Op.RunSandbox, pod.name, r.Some?), dirs);
      log := log + [Call(Op.RunSandbox, pod.name, r.Some?)];
    }

    /** Some(id) of the new container; the sandbox has to exist when the call lands. */
    method CreateContainer(ctr: Ctr) returns (r: Option<nat>)
      requires Valid() && NoCtr(sys, ctr.name)
      requires ctr.pod in names && names[ctr.pod] == ctr.name && Labelled(ctr.hash, ctr.config)
      requires ctr.pod in sys.pods ==> Houses(sys.pods[ctr.pod], ctr)
      modifies this`sys, this`names, this`log
      ensures Valid() && ShrunkOutside(ctr.name, old(sys), sys)
      ensures forall p :: p in sys.pods ==> p in old(sys).pods && old(sys).pods[p] == sys.pods[p]
      ensures r.Some? ==> r.value in names && names[r.value] == ctr.name
      ensures forall i :: i in old(names) ==> i in names && names[i] == old(names)[i]
      ensures calm && ctr.pod in old(sys).pods ==> r == Some(old(sys).next) && sys == CreateCtr(old(sys), ctr)
      ensures log == old(log) + [Call(Op.CreateContainer, ctr.name, r.Some?)]
    {
      hide Labelled, Linked, OnePerName, VolumesThere;
      Drift();
      ShrunkIsOutside(ctr.name, old(sys), sys);
      assert NoCtr(sys, ctr.name) by {
        forall c | c in sys.ctrs ensures sys.ctrs[c].name != ctr.name { assert Same(old(sys).ctrs[c], sys.ctrs[c]); }
      }
      var applied, ok := Outcome();
      var lands := ctr.pod in sys.pods;
      r := if ok && lands then Some(sys.next) else None;
      if applied && lands {
        CreateCtrGood(sys, ctr, names);
        ShrunkOutsideTrans(ctr.name, old(sys), sys, CreateCtr(sys, ctr));
        names := names[sys.next := ctr.name];
        sys := CreateCtr(sys, ctr);
      }
      StillReady(log, Call(Op.CreateContainer, ctr.name, r.Some?), dirs);
      log := log + [Call(Op.CreateContainer, ctr.name, r.Some?)];
    }

    method StartContainer(id: nat) returns (ok: bool)
      requires Valid() && id in names
      modifies this`sys, this`log
      ensures Valid() && Shrunk(old(sys), sys)
      ensures calm && id in old(sys).ctrs ==> ok && sys == StartCtr(old(sys), id)
      ensures log == old(log) + [Call(Op.StartContainer, names[id], ok)]
    {
      hide Linked, OnePerName, Named, VolumesThere;
      Drift();
      var applied;
      applied, ok := Outcome();
      ok := ok && id in sys.ctrs;
      StartCtrShrinks(sys, id);
      if applied { Advance(StartCtr(sys, id)); }
      Record(Op.StartContainer, id, ok);
    }

    /** Hands the image to the background puller (its own state is in Pulls.dfy). */
    method RequestPull(image: string)
      requires Valid()
      modifies this`log
      ensures Valid() && log == old(log) + [PullRequested(image)]
    {
      log := log + [PullRequested(image)];
    }

    /** ensureVolumes: every volume is a plain directory afterwards, or the call fails. */
    method EnsureVolumes(vols: seq<Volume>) returns (ok: bool)
      requires Valid()
      modifies this`dirs, this`log
      ensures Valid()
      ensures ok ==> forall v :: v in vols ==> v.name in dirs && dirs[v.name]
      ensures forall d :: d in old(dirs) ==> d in dirs && dirs[d] == old(dirs)[d]
      ensures forall d :: d in dirs && d !in old(dirs) ==> dirs[d]
      ensures calm && (forall v :: v in vols && v.name in old(dirs) ==> old(dirs)[v.name]) ==> ok
      ensures log == old(log) + [if ok then VolumesReady(vols) else Failed(Directories)]
    {
      for i := 0 to |vols|
        invariant Valid() && log == old(log)
        invariant forall j :: 0 <= j < i ==> vols[j].name in dirs && dirs[vols[j].name]
        invariant forall d :: d in old(dirs) ==> d in dirs && dirs[d] == old(dirs)[d]
        invariant forall d :: d in dirs && d !in old(dirs) ==> dirs[d]
      {
        var fail: bool := *;
        if fail && !calm { log := log + [Failed(Directories)]; return false; } // Lstat or Mkdir failed
        var v := vols[i];
        assert v in vols;
        if v.name !in dirs { dirs := dirs[v.name := true]; }
        if !dirs[v.name] { log := log + [Failed(Directories)]; return false; } // a symlink or file: refused
      }
      log := log + [VolumesReady(vols)];
      return true;
    }
  }
}
