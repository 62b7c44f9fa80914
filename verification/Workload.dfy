// The container engine (workload/workload.go): Apply and Converge reconcile the
// desired specs against a runtime whose every call can fail.

module Workload {
  import opened Text
  import opened SpecHash
  import opened Runtime

  // ---- What a converge may and must do --------------------------------------

  /** The container stays as it is: right hash, and running or intentionally stopped. */
  ghost predicate Kept(spec: Spec, c: Ctr) {
    c.hash == Stream(spec) && (c.state == Running || (c.state == Exited && spec.restart != "always"))
  }

  /** The volumes a spec asks for were found to be, or made, plain directories. */
  ghost predicate Readied(spec: Spec, e: Event) {
    e.VolumesReady? && |e.volumes| == |spec.volumes|
    && forall i :: 0 <= i < |spec.volumes| ==> ParseVolume(spec.volumes[i]) == Some(e.volumes[i])
  }

  /** Everything that has to be known before the old container may go down, found in
      the log between the start k of the converge and the call at i. */
  ghost predicate Justified(spec: Spec, log: seq<Event>, k: nat, i: nat)
    requires i <= |log|
  {
    && Valid(spec)
    && (exists j :: k <= j < i && log[j] == ImagePresent(spec.image))
    && (exists j :: k <= j < i && Readied(spec, log[j]))
  }

  predicate Teardown(op: Op) {
    op in {Op.StopContainer, Op.RemoveContainer, Op.StopSandbox, Op.RemoveSandbox}
  }

  /** None of the listed containers of this name may stay as it is. */
  ghost predicate NoneKept(spec: Spec, listed: map<nat, Ctr>, n: string) {
    forall c :: c in listed && listed[c].name == n ==> !Kept(spec, listed[c])
  }

  ghost predicate SafeCall(desired: map<string, Spec>, listed: map<nat, Ctr>, log: seq<Event>, k: nat, i: nat)
    requires i < |log| && log[i].Call?
  {
    var n := log[i].name;
    if n in desired then Justified(desired[n], log, k, i) && NoneKept(desired[n], listed, n)
    else Teardown(log[i].op)
  }

  /** Every mutating call of the converge that wrote log[k..m] is safe by this listing. */
  ghost predicate Safe(desired: map<string, Spec>, listed: map<nat, Ctr>, log: seq<Event>, k: nat, m: nat)
    requires m <= |log|
  {
    forall i :: k <= i < m && log[i].Call? ==> SafeCall(desired, listed, log, k, i)
  }

  ghost predicate ListedSafe(desired: map<string, Spec>, log: seq<Event>, k: nat, i: nat, j: nat)
    requires i < |log| && log[i].Call?
  {
    k <= j < i && log[j].Listed? && SafeCall(desired, log[j].ctrs, log, k, i)
  }

  /** Every mutating call in log[k..m] is safe by what the same converge listed before it. */
  ghost predicate Obeys(desired: map<string, Spec>, log: seq<Event>, k: nat, m: nat)
    requires m <= |log|
  {
    forall i :: k <= i < m && log[i].Call? ==> exists j :: ListedSafe(desired, log, k, i, j)
  }

  /** Every listed container of the name is of another spec, or neither runs nor was left
      exited under a policy other than always. */
  ghost predicate NoneUsable(spec: Spec, listed: map<nat, Ctr>, n: string) {
    forall c :: c in listed && listed[c].name == n && listed[c].hash == Stream(spec) ==>
      listed[c].state != Running && (listed[c].state == Exited ==> spec.restart == "always")
  }

  /** What is not desired is only stopped and removed. */
  lemma UndesiredOnlyGoesDown(desired: map<string, Spec>, log: seq<Event>, k: nat, m: nat, i: nat)
    requires m <= |log| && Obeys(desired, log, k, m)
    requires k <= i < m && log[i].Call? && log[i].name !in desired
    ensures log[i].op != Op.RunSandbox && log[i].op != Op.CreateContainer && log[i].op != Op.StartContainer
  {
    var j :| ListedSafe(desired, log, k, i, j);
  }

  /** So a desired container goes down only after its new spec was found valid, its image
      present and its volumes there, and never when the listing showed it running as desired. */
  lemma TornDownOnlyWhenReady(desired: map<string, Spec>, log: seq<Event>, dirs: map<string, bool>, k: nat, m: nat,
                              i: nat)
    requires m <= |log| && Obeys(desired, log, k, m) && VolumesThere(log, dirs)
    requires k <= i < m && log[i].Call? && log[i].name in desired
    ensures var spec := desired[log[i].name];
            && Valid(spec)
            && (exists j :: k <= j < i && log[j] == ImagePresent(spec.image))
            && (forall v :: v in spec.volumes ==> ParseVolume(v).Some? && ParseVolume(v).value.name in dirs
                                                  && dirs[ParseVolume(v).value.name])
            && (exists j :: k <= j < i && log[j].Listed? && NoneUsable(spec, log[j].ctrs, log[i].name))
  {
    hide ParseVolume, SpecHash.Valid;
    var spec := desired[log[i].name];
    var j :| ListedSafe(desired, log, k, i, j);
    var l :| k <= l < i && Readied(spec, log[l]);
    forall v | v in spec.volumes
      ensures ParseVolume(v).Some? && ParseVolume(v).value.name in dirs && dirs[ParseVolume(v).value.name]
    {
      var x :| 0 <= x < |spec.volumes| && spec.volumes[x] == v;
      assert log[l].volumes[x] in log[l].volumes;
    }
  }

  /** The calls of a launch in order: the sandbox, its container, and the start; or, when the
      container could not be made, the teardown of the sandbox. */
  ghost predicate Launched(a: seq<Event>, b: seq<Event>, n: string, ok: bool) {
    || (b == a + [Call(Op.RunSandbox, n, false)] && !ok)
    || b == a + [Call(Op.RunSandbox, n, true), Call(Op.CreateContainer, n, true), Call(Op.StartContainer, n, ok)]
    || (!ok && exists gone :: TornDown(a + [Call(Op.RunSandbox, n, true), Call(Op.CreateContainer, n, false)], b,
                                       Op.StopSandbox, Op.RemoveSandbox, n, gone))
  }

  lemma RolledBack(a: seq<Event>, b: seq<Event>, c: seq<Event>, n: string, gone: bool)
    requires b == a + [Call(Op.RunSandbox, n, true)] + [Call(Op.CreateContainer, n, false)]
    requires TornDown(b, c, Op.StopSandbox, Op.RemoveSandbox, n, gone)
    ensures Launched(a, c, n, false) && (|c| == |a| + 4 && c[|c| - 1].ok ==> gone)
    ensures Extends(a, c) && CallsOnly(n, c, |a|) && !Faultless(c, |a|)
  {
    assert Failure(c[|a| + 1]);
    assert b == a + [Call(Op.RunSandbox, n, true), Call(Op.CreateContainer, n, false)];
  }

  lemma StartTried(a: seq<Event>, b: seq<Event>, n: string, ok: bool)
    requires b == a + [Call(Op.RunSandbox, n, true)] + [Call(Op.CreateContainer, n, true)]
                  + [Call(Op.StartContainer, n, ok)]
    ensures Launched(a, b, n, ok) && |b| == |a| + 3
  {
  }

  /** All calls ensure makes concern its own name, and only when they are justified. */
  ghost predicate EnsureSafe(spec: Spec, ctr: Option<(nat, Ctr)>, log: seq<Event>, k: nat) {
    forall i :: k <= i < |log| && log[i].Call? ==>
      log[i].name == spec.name && Justified(spec, log, k, i) && !(ctr.Some? && Kept(spec, ctr.value.1))
  }

  /** A call or a question that failed. */
  predicate Failure(e: Event) { e.Failed? || (e.Call? && !e.ok) }

  /** Nothing failed from k on. */
  ghost predicate Faultless(log: seq<Event>, k: nat) { forall i :: k <= i < |log| ==> !Failure(log[i]) }

  lemma FaultlessParts(a: seq<Event>, b: seq<Event>, k: nat)
    requires Extends(a, b) && k <= |a|
    ensures Faultless(b, k) <==> Faultless(a, k) && Faultless(b, |a|)
  {
    forall i | k <= i < |a| ensures Failure(a[i]) <==> Failure(b[i]) {}
  }

  /** A stop, and only if it went well a removal. */
  ghost predicate TornDown(a: seq<Event>, b: seq<Event>, stop: Op, remove: Op, n: string, ok: bool) {
    (b == a + [Call(stop, n, false)] && !ok) || b == a + [Call(stop, n, true), Call(remove, n, ok)]
  }

  lemma TornDownMeans(a: seq<Event>, b: seq<Event>, stop: Op, remove: Op, n: string, ok: bool)
    requires TornDown(a, b, stop, remove, n, ok)
    ensures Extends(a, b) && CallsOnly(n, b, |a|) && (ok <==> Faultless(b, |a|))
    ensures b[|a|].Call? && b[|a|].op == stop && forall i :: |a| <= i < |b| ==> b[i].op in {stop, remove}
  {
    if ok {
      assert b == a + [Call(stop, n, true), Call(remove, n, ok)];
    } else {
      assert Failure(b[|b| - 1]);
    }
  }

  ghost predicate NoCalls(log: seq<Event>, k: nat) { forall i :: k <= i < |log| ==> !log[i].Call? }

  ghost predicate CallsOnly(n: string, log: seq<Event>, k: nat) {
    forall i :: k <= i < |log| ==> log[i].Call? && log[i].name == n
  }

  ghost predicate Extends(a: seq<Event>, b: seq<Event>) {
    |a| <= |b| && forall i :: 0 <= i < |a| ==> b[i] == a[i]
  }

  lemma SafeExtends(desired: map<string, Spec>, listed: map<nat, Ctr>, a: seq<Event>, b: seq<Event>, k: nat, m: nat)
    requires m <= |a| && Safe(desired, listed, a, k, m) && Extends(a, b)
    ensures Safe(desired, listed, b, k, m)
  {
    hide Readied, SpecHash.Valid, NoneKept;
    forall i | k <= i < m && b[i].Call? ensures SafeCall(desired, listed, b, k, i) {
      assert a[i].Call? && SafeCall(desired, listed, a, k, i);
      JustifiedExtends(desired, a, b, k, i);
    }
  }

  lemma JustifiedExtends(desired: map<string, Spec>, a: seq<Event>, b: seq<Event>, k: nat, i: nat)
    requires i < |a| && Extends(a, b) && a[i].Call?
    ensures a[i].name in desired && Justified(desired[a[i].name], a, k, i) ==> Justified(desired[a[i].name], b, k, i)
  {
    hide Readied, SpecHash.Valid;
    var n := a[i].name;
    if n in desired && Justified(desired[n], a, k, i) {
      var j :| k <= j < i && a[j] == ImagePresent(desired[n].image);
      var l :| k <= l < i && Readied(desired[n], a[l]);
      assert b[j] == a[j] && b[l] == a[l];
    }
  }

  lemma ObeysExtends(desired: map<string, Spec>, a: seq<Event>, b: seq<Event>, k: nat, m: nat)
    requires m <= |a| && Obeys(desired, a, k, m) && Extends(a, b)
    ensures Obeys(desired, b, k, m)
  {
    hide Justified, NoneKept;
    forall i | k <= i < m && b[i].Call? ensures exists j :: ListedSafe(desired, b, k, i, j) {
      assert a[i].Call?;
      var j :| ListedSafe(desired, a, k, i, j);
      JustifiedExtends(desired, a, b, k, i);
      assert ListedSafe(desired, b, k, i, j);
    }
  }

  /** A call of this kind on the name was made. */
  ghost predicate Tried(log: seq<Event>, k: nat, op: Op, n: string) {
    exists i :: k <= i < |log| && log[i].Call? && log[i].op == op && log[i].name == n
  }

  ghost predicate AllTried(log: seq<Event>, k: nat, op: Op, ns: set<string>) {
    forall n :: n in ns ==> Tried(log, k, op, n)
  }

  /** The runtime was asked whether it has the image, and if it has not, so was the puller. */
  ghost predicate Asked(log: seq<Event>, k: nat, image: string) {
    exists i :: k <= i < |log| && log[i] in {ImagePresent(image), PullRequested(image), Failed(ImageStatus(image))}
  }

  ghost predicate Handled(spec: Spec, ctr: Option<(nat, Ctr)>, log: seq<Event>, k: nat) {
    Valid(spec) && !(ctr.Some? && Kept(spec, ctr.value.1)) ==> Asked(log, k, spec.image)
  }

  ghost predicate AllHandled(desired: map<string, Spec>, ctrs: map<string, (nat, Ctr)>, log: seq<Event>, k: nat,
                             ns: set<string>) {
    forall n :: n in ns && n in desired ==> Handled(desired[n], Get(ctrs, n), log, k)
  }

  /** The converge that wrote the log from k on could not list; or it tried to stop everything
      listed that is not desired, and left alone or looked after every valid desired spec:
      no error on the way kept it from the rest. */
  ghost predicate Thorough(desired: map<string, Spec>, log: seq<Event>, k: nat) {
    if k + 1 < |log| && log[k].PodsListed? && log[k + 1].Listed? then
      var pods, ctrs := log[k].pods, log[k + 1].ctrs;
      && (forall p :: p in pods && pods[p].name !in desired ==> Tried(log, k, Op.StopSandbox, pods[p].name))
      && (forall c :: c in ctrs && ctrs[c].name !in desired ==> Tried(log, k, Op.StopContainer, ctrs[c].name))
      && (forall n :: n in desired && Valid(desired[n]) && NoneKept(desired[n], ctrs, n) ==>
            Asked(log, k, desired[n].image))
    else k < |log| && log[|log| - 1] == Failed(Listing)
  }

  /** A listing failed. */
  ghost predicate Unlisted(a: seq<Event>, b: seq<Event>) {
    b == a + [Failed(Listing)] || exists pods :: b == a + [PodsListed(pods), Failed(Listing)]
  }

  lemma UnlistedIsAll(desired: map<string, Spec>, a: seq<Event>, b: seq<Event>)
    requires Unlisted(a, b)
    ensures Thorough(desired, b, |a|) && NoCalls(b, |a|) && !Faultless(b, |a|) && Extends(a, b)
  {
    assert Failure(b[|b| - 1]);
  }

  lemma TriedLater(a: seq<Event>, b: seq<Event>, k: nat, j: nat, op: Op, ns: set<string>)
    requires AllTried(a, k, op, ns) && j <= k && Extends(a, b)
    ensures AllTried(b, j, op, ns)
  {
    forall n | n in ns ensures Tried(b, j, op, n) {
      assert Tried(a, k, op, n);
      var i :| k <= i < |a| && a[i].Call? && a[i].op == op && a[i].name == n;
      assert b[i] == a[i];
    }
  }

  lemma AskedNow(a: seq<Event>, b: seq<Event>, image: string)
    requires |a| < |b| && b[|a|] in {ImagePresent(image), PullRequested(image), Failed(ImageStatus(image))}
    ensures Asked(b, |a|, image)
  {
  }

  lemma AskedLater(a: seq<Event>, b: seq<Event>, k: nat, j: nat, image: string)
    requires Asked(a, k, image) && j <= k && Extends(a, b)
    ensures Asked(b, j, image)
  {
    var i :| k <= i < |a| && a[i] in {ImagePresent(image), PullRequested(image), Failed(ImageStatus(image))};
    assert b[i] == a[i];
  }

  lemma HandledStep(desired: map<string, Spec>, ctrs: map<string, (nat, Ctr)>, a: seq<Event>, b: seq<Event>, k: nat,
                    ns: set<string>, n: string)
    requires AllHandled(desired, ctrs, a, k, ns) && k <= |a| && Extends(a, b) && n in desired
    requires Handled(desired[n], Get(ctrs, n), b, |a|)
    ensures AllHandled(desired, ctrs, b, k, ns + {n})
  {
    hide Asked, Extends, Kept, SpecHash.Valid;
    forall m | m in ns + {n} && m in desired ensures Handled(desired[m], Get(ctrs, m), b, k) {
      if m == n {
        if Asked(b, |a|, desired[n].image) {
          ExtendsSelf(b);
          AskedLater(b, b, |a|, k, desired[n].image);
        }
      } else {
        assert Handled(desired[m], Get(ctrs, m), a, k);
        if Asked(a, k, desired[m].image) { AskedLater(a, b, k, k, desired[m].image); }
      }
    }
  }

  /** The name has its sandbox and a container that may stay. */
  ghost predicate Settled(s: Sys, spec: Spec) {
    && (exists p :: p in s.pods && s.pods[p].name == spec.name)
    && (exists c :: c in s.ctrs && s.ctrs[c].name == spec.name && Kept(spec, s.ctrs[c]))
  }

  /** Managed names are exactly the desired names, each settled. */
  ghost predicate Converged(s: Sys, desired: map<string, Spec>) {
    && (forall n :: n in desired ==> Settled(s, desired[n]))
    && (forall n :: n !in desired ==> NoPod(s, n) && NoCtr(s, n))
  }

  ghost predicate Usable(dirs: map<string, bool>, spec: Spec) {
    forall v :: v in spec.volumes && ParseVolume(v).Some? && ParseVolume(v).value.name in dirs
                ==> dirs[ParseVolume(v).value.name]
  }

  /** Nothing but the runtime's good will is missing. */
  ghost predicate Ready(s: Sys, dirs: map<string, bool>, spec: Spec) {
    Valid(spec) && spec.image in s.images && Usable(dirs, spec)
  }

  ghost predicate Keyed(desired: map<string, Spec>) { forall n :: n in desired ==> desired[n].name == n }

  // ---- What was found under a name ------------------------------------------

  /** Whatever is there under name n is what the listing found. */
  ghost predicate Found(s: Sys, n: string, pod: Option<nat>, ctr: Option<(nat, Ctr)>) {
    && (forall p :: p in s.pods && s.pods[p].name == n ==> pod == Some(p))
    && (forall c :: c in s.ctrs && s.ctrs[c].name == n ==> ctr.Some? && ctr.value.0 == c)
  }

  /** And it is still exactly that. */
  ghost predicate Exact(s: Sys, n: string, pod: Option<nat>, ctr: Option<(nat, Ctr)>) {
    && (pod.Some? ==> pod.value in s.pods && s.pods[pod.value].name == n)
    && (ctr.Some? ==> ctr.value.0 in s.ctrs && s.ctrs[ctr.value.0] == ctr.value.1 && ctr.value.1.name == n)
  }

  ghost predicate IdsNamed(names: map<nat, string>, n: string, pod: Option<nat>, ctr: Option<(nat, Ctr)>) {
    && (pod.Some? ==> pod.value in names && names[pod.value] == n)
    && (ctr.Some? ==> ctr.value.0 in names && names[ctr.value.0] == n)
  }

  function Get<T>(m: map<string, T>, n: string): Option<T> { if n in m then Some(m[n]) else None }

  ghost predicate Grown(a: map<nat, string>, b: map<nat, string>) { forall i :: i in a ==> i in b && b[i] == a[i] }

  ghost predicate DirsGrown(a: map<string, bool>, b: map<string, bool>) {
    && (forall d :: d in a ==> d in b && b[d] == a[d])
    && (forall d :: d in b && d !in a ==> b[d])
  }

  /** The desired set after a script of applies (Some) and timer converges (None). */
  function DesiredAfter(desired: map<string, Spec>, script: seq<Option<seq<Spec>>>): map<string, Spec> {
    if script == [] then desired
    else
      match script[|script| - 1]
      case Some(specs) => Desired(specs)
      case None => DesiredAfter(desired, script[..|script| - 1])
  }

  // ---- The engine -----------------------------------------------------------

  class Engine {
    const rt: Node
    var desired: map<string, Spec>

    /** The node is as it always is: one managed object per name, labelled by a valid spec. */
    ghost predicate Inv()
      reads this, rt
    {
      rt.Valid() && Keyed(desired)
    }

    constructor (rt: Node)
      requires rt.Valid()
      ensures Inv() && this.rt == rt && desired == map[]
    {
      this.rt, this.desired := rt, map[];
    }

    method TeardownContainer(id: nat) returns (ok: bool)
      requires rt.Valid() && id in rt.names
      requires forall c :: c in rt.sys.ctrs && rt.sys.ctrs[c].name == rt.names[id] ==> c == id
      modifies rt`sys, rt`log
      ensures rt.Valid() && Shrunk(old(rt.sys), rt.sys)
      ensures ok ==> NoCtr(rt.sys, rt.names[id])
      ensures TornDown(old(rt.log), rt.log, Op.StopContainer, Op.RemoveContainer, rt.names[id], ok)
      ensures rt.calm && id in old(rt.sys).ctrs ==>
                ok && SameOutside(rt.names[id], old(rt.sys), rt.sys) && rt.sys.pods == old(rt.sys).pods
    {
      hide Linked, OnePerName, VolumesThere, SameOutside, Shrunk, NoCtr, NoPod;
      ghost var s0 := rt.sys;
      ghost var n, g := rt.names[id], rt.log;
      ok := rt.StopContainer(id);
      ghost var s1 := rt.sys;
      if !ok { return; }
      ok := rt.RemoveContainer(id);
      ShrunkTrans(s0, s1, rt.sys);
      if ok { GoneCtr(s0, rt.sys, id, n); }
      if id in s0.ctrs { CtrTeardownIsLocal(s0, id, n); }
    }

    method TeardownSandbox(id: nat) returns (ok: bool)
      requires rt.Valid() && id in rt.names
      requires forall p :: p in rt.sys.pods && rt.sys.pods[p].name == rt.names[id] ==> p == id
      modifies rt`sys, rt`log
      ensures rt.Valid() && Shrunk(old(rt.sys), rt.sys)
      ensures ok ==> NoPod(rt.sys, rt.names[id])
      ensures TornDown(old(rt.log), rt.log, Op.StopSandbox, Op.RemoveSandbox, rt.names[id], ok)
      ensures rt.calm && id in old(rt.sys).pods ==> ok && SameOutside(rt.names[id], old(rt.sys), rt.sys)
    {
      hide Linked, OnePerName, VolumesThere, SameOutside, Shrunk, NoCtr, NoPod;
      ghost var s0 := rt.sys;
      ghost var n, g := rt.names[id], rt.log;
      ok := rt.StopSandbox(id);
      ghost var s1 := rt.sys;
      if !ok { return; }
      ok := rt.RemoveSandbox(id);
      ShrunkTrans(s0, s1, rt.sys);
      if ok { GonePod(s0, rt.sys, id, n); }
      if id in s0.pods { PodTeardownIsLocal(s0, id, n); }
    }

    /** imageReady: Some(false) leaves a background pull requested. */
    method ImageReady(image: string) returns (r: Option<bool>)
      requires rt.Valid()
      modifies rt`sys, rt`log
      ensures rt.Valid() && Evolves(old(rt.sys), rt.sys) && (rt.calm ==> rt.sys == old(rt.sys) && r.Some?)
      ensures r.Some? ==> r.value == (image in rt.sys.images)
      ensures rt.log == old(rt.log) + match r { case None => [Failed(Query.ImageStatus(image))]
                                                case Some(true) => [ImagePresent(image)]
                                                case Some(false) => [PullRequested(image)] }
    {
      r := rt.ImageStatus(image);
      if r == Some(false) {
        rt.RequestPull(image);
      }
    }

    /** The teardown half of a recreate: afterwards nothing is left under the name. */
    method Clear(n: string, pod: Option<nat>, ctr: Option<(nat, Ctr)>) returns (ok: bool)
      requires rt.Valid() && Found(rt.sys, n, pod, ctr) && IdsNamed(rt.names, n, pod, ctr)
      modifies rt`sys, rt`log
      ensures rt.Valid() && Shrunk(old(rt.sys), rt.sys)
      ensures ok ==> NoPod(rt.sys, n) && NoCtr(rt.sys, n)
      ensures Extends(old(rt.log), rt.log) && CallsOnly(n, rt.log, |old(rt.log)|)
      ensures ok <==> Faultless(rt.log, |old(rt.log)|)
      ensures rt.calm && Exact(old(rt.sys), n, pod, ctr) ==> ok && SameOutside(n, old(rt.sys), rt.sys)
    {
      hide Linked, OnePerName, VolumesThere, TornDown;
      ghost var s0, g0, calm := rt.sys, rt.log, rt.calm && Exact(rt.sys, n, pod, ctr);
      ok := true;
      if ctr.Some? {
        ok := TeardownContainer(ctr.value.0);
        TornDownMeans(g0, rt.log, Op.StopContainer, Op.RemoveContainer, n, ok);
        if !ok { return; }
      }
      ghost var s1, g1 := rt.sys, rt.log;
      if pod.Some? {
        ok := TeardownSandbox(pod.value);
        TornDownMeans(g1, rt.log, Op.StopSandbox, Op.RemoveSandbox, n, ok);
        FaultlessParts(g1, rt.log, |old(rt.log)|);
        ShrunkTrans(s0, s1, rt.sys);
        if calm { SameOutsideTrans(n, s0, s1, rt.sys); }
        StillNoCtr(s1, rt.sys, n);
      }
    }

    /** The creation half: sandbox, container, start; a lone sandbox is rolled back. */
    method Launch(spec: Spec, hash: string) returns (ok: bool)
      requires rt.Valid() && Valid(spec) && hash == Stream(spec)
      requires NoPod(rt.sys, spec.name) && NoCtr(rt.sys, spec.name)
      modifies rt`sys, rt`log, rt`names
      ensures rt.Valid() && ShrunkOutside(spec.name, old(rt.sys), rt.sys) && Grown(old(rt.names), rt.names)
      ensures Extends(old(rt.log), rt.log) && CallsOnly(spec.name, rt.log, |old(rt.log)|)
      ensures ok <==> Faultless(rt.log, |old(rt.log)|)
      ensures Launched(old(rt.log), rt.log, spec.name, ok)
      ensures |rt.log| == |old(rt.log)| + 4 && rt.log[|rt.log| - 1].ok ==> NoPod(rt.sys, spec.name)
      ensures rt.calm ==> ok && SameOutside(spec.name, old(rt.sys), rt.sys) && Settled(rt.sys, spec)
    {
      hide Linked, OnePerName, Runtime.Named, Labelled, Settled, VolumesThere, ShrunkOutside, Shrunk, Same, SameOutside,
           Stream, SpecHash.Valid, Found, TornDown;
      LabelledBy(spec);
      var n := spec.name;
      ghost var s0, g0, k := rt.sys, rt.log, |rt.log|;
      var sandbox := Pod(n, if spec.network == "pod" then "pod" else "host");
      var run := rt.RunSandbox(sandbox);
      ghost var s1 := rt.sys;
      assert CallsOnly(n, rt.log, k) && (run.None? ==> Failure(rt.log[k]));
      ok := false;
      if run.Some? {
        StillNoCtr(s0, s1, n);
        var ctr := Ctr(n, hash, spec, Created, run.value);
        var created := rt.CreateContainer(ctr);
        ghost var s2, g2 := rt.sys, rt.log;
        ShrunkOutsideTrans(n, s0, s1, s2);
        assert CallsOnly(n, rt.log, k) && (created.None? ==> Failure(rt.log[k + 1]));
        if created.Some? {
          ok := rt.StartContainer(created.value);
          StartTried(g0, rt.log, n, ok);
          assert !Failure(rt.log[k]) && !Failure(rt.log[k + 1]) && (ok <==> !Failure(rt.log[k + 2]));
        } else {
          OnePod(s1, n);
          // Roll back the orphaned sandbox so a retry starts clean.
          var gone := TeardownSandbox(run.value);
          RolledBack(g0, g2, rt.log, n, gone);
        }
        hide Launched;
        ShrunkIsOutside(n, s2, rt.sys);
        ShrunkOutsideTrans(n, s0, s2, rt.sys);
        if rt.calm { FreshIsSettled(s0, spec, sandbox, ctr); }
      }
    }

    /** The recreate half of ensure: volumes, then out with the old and in with the new. */
    method Recreate(spec: Spec, hash: string, pod: Option<nat>, ctr: Option<(nat, Ctr)>) returns (ok: bool)
      requires rt.Valid() && Valid(spec) && hash == Stream(spec)
      requires Found(rt.sys, spec.name, pod, ctr) && IdsNamed(rt.names, spec.name, pod, ctr)
      modifies rt
      ensures rt.Valid() && ShrunkOutside(spec.name, old(rt.sys), rt.sys)
      ensures Grown(old(rt.names), rt.names) && DirsGrown(old(rt.dirs), rt.dirs)
      ensures Extends(old(rt.log), rt.log)
      ensures |rt.log| > |old(rt.log)| && CallsOnly(spec.name, rt.log, |old(rt.log)| + 1)
      ensures |rt.log| > |old(rt.log)| + 1 ==> Readied(spec, rt.log[|old(rt.log)|])
      ensures !rt.log[|old(rt.log)|].Call?
      ensures ok <==> Faultless(rt.log, |old(rt.log)|)
      ensures rt.calm && Exact(old(rt.sys), spec.name, pod, ctr) ==> SameOutside(spec.name, old(rt.sys), rt.sys)
      ensures rt.calm && Exact(old(rt.sys), spec.name, pod, ctr) && Usable(old(rt.dirs), spec) ==>
                ok && Settled(rt.sys, spec)
    {
      hide Launched, Linked, OnePerName, Runtime.Named, Stream, Settled, VolumesThere, ShrunkOutside, Shrunk;
      ghost var s0 := rt.sys;
      ShrunkSelf(spec.name, s0);
      var vols := ParseVolumes(spec.volumes);
      var usable := rt.EnsureVolumes(vols.value);
      ghost var g1, k := rt.log, |old(rt.log)|;
      assert usable <==> Faultless(g1, k) by { assert Failure(g1[k]) <==> !usable; }
      if !usable { return false; }
      ok := Clear(spec.name, pod, ctr);
      ghost var s1, g2 := rt.sys, rt.log;
      ShrunkIsOutside(spec.name, s0, s1);
      FaultlessParts(g1, g2, k);
      if !ok { return; }
      ok := Launch(spec, hash);
      FaultlessParts(g2, rt.log, k);
      ShrunkOutsideTrans(spec.name, s0, s1, rt.sys);
      if rt.calm && Exact(s0, spec.name, pod, ctr) { SameOutsideTrans(spec.name, s0, s1, rt.sys); }
    }

    /** ensure: reconciles one desired container given what was found under its name. */
    method Ensure(spec: Spec, pod: Option<nat>, ctr: Option<(nat, Ctr)>) returns (ok: bool)
      requires rt.Valid()
      requires Found(rt.sys, spec.name, pod, ctr) && IdsNamed(rt.names, spec.name, pod, ctr)
      modifies rt
      ensures rt.Valid() && ShrunkOutside(spec.name, old(rt.sys), rt.sys)
      ensures Grown(old(rt.names), rt.names) && DirsGrown(old(rt.dirs), rt.dirs)
      ensures Extends(old(rt.log), rt.log) && EnsureSafe(spec, ctr, rt.log, |old(rt.log)|)
      ensures ok <==> Valid(spec) && Faultless(rt.log, |old(rt.log)|)
      ensures Handled(spec, ctr, rt.log, |old(rt.log)|)
      ensures rt.calm && Exact(old(rt.sys), spec.name, pod, ctr) ==> SameOutside(spec.name, old(rt.sys), rt.sys)
      ensures rt.calm && Exact(old(rt.sys), spec.name, pod, ctr) && Ready(old(rt.sys), old(rt.dirs), spec) ==>
                ok && SameOutside(spec.name, old(rt.sys), rt.sys) && Settled(rt.sys, spec)
      ensures Valid(spec) && ctr.Some? && Kept(spec, ctr.value.1) ==>
                ok && rt.sys == old(rt.sys) && rt.log == old(rt.log)
      ensures rt.calm && Valid(spec) && !(ctr.Some? && Kept(spec, ctr.value.1)) && spec.image !in old(rt.sys).images ==>
                rt.sys == old(rt.sys) && rt.log == old(rt.log) + [PullRequested(spec.image)]
    {
      hide Linked, OnePerName, Runtime.Named, Stream, Settled, SpecHash.Valid, Usable, VolumesThere, ShrunkOutside,
           EnsureSafe, Readied, Found, IdsNamed, Asked, SameOutside;
      ghost var s0, g0 := rt.sys, rt.log;
      QuietIsSafe(spec, ctr, g0, g0);
      SameAsBefore(spec.name, s0);
      ShrunkSelf(spec.name, s0);
      ok := Validate(spec);
      if ok {
        var hash := Hash(spec);
        if ctr.Some? && ctr.value.1.hash == hash
           && (ctr.value.1.state == Running || (ctr.value.1.state == Exited && spec.restart != "always")) {
          KeptIsSettled(rt.sys, spec, pod, ctr);
        } else {
          var ready := ImageReady(spec.image);
          ghost var s1, k := rt.sys, |rt.log|;
          ShrunkIsOutside(spec.name, s0, s1);
          FoundShrinks(s0, s1, spec.name, pod, ctr);
          QuietIsSafe(spec, ctr, g0, rt.log);
          AskedNow(g0, rt.log, spec.image);
          ok := ready.Some?;
          ghost var g1 := rt.log;
          assert ok <==> Faultless(g1, k - 1) by { assert Failure(g1[k - 1]) <==> !ok; }
          if ready == Some(true) {
            ok := Recreate(spec, hash, pod, ctr);
            ShrunkOutsideTrans(spec.name, s0, s1, rt.sys);
            RecreateIsSafe(spec, ctr, g0, rt.log);
            AskedNow(g0, rt.log, spec.image);
            FaultlessParts(g1, rt.log, k - 1);
          }
        }
      }
    }

    /** managed: what is there, by name. The containers are as listed last. */
    method Managed()
        returns (r: Option<(map<string, nat>, map<string, (nat, Ctr)>)>, ghost listed: map<nat, Pod>)
      requires rt.Valid()
      modifies rt`sys, rt`log
      ensures rt.Valid() && (rt.calm ==> r.Some? && rt.sys == old(rt.sys))
      ensures r.Some? ==> rt.log == old(rt.log) + [PodsListed(listed), Listed(rt.sys.ctrs)]
      ensures r.None? ==> Unlisted(old(rt.log), rt.log)
      ensures r.Some? ==> forall p :: p in listed ==> listed[p].name in r.value.0
      ensures rt.calm ==> listed == rt.sys.pods
      ensures r.Some? ==> Indexes(rt.sys.ctrs, r.value.1)
      ensures r.Some? ==> FoundAll(rt.sys, rt.names, r.value.0, r.value.1, {})
      ensures r.Some? ==> CtrsExact(rt.sys, r.value.1) && (rt.calm ==> PodsExact(rt.sys, r.value.0))
    {
      listed := map[];
      var pods := rt.ListPods();
      if pods.None? { return None, listed; }
      ghost var s1 := rt.sys;
      listed := s1.pods;
      var ctrs := rt.ListCtrs();
      if ctrs.None? { return None, listed; }
      var podsByName := IndexPods(pods.value);
      var ctrsByName := IndexCtrs(ctrs.value);
      IndexesAll(rt.sys, ctrsByName);
      ListingIsFound(s1, rt.sys, rt.names, podsByName, ctrsByName);
      return Some((podsByName, ctrsByName)), listed;
    }

    /** Step 1a: remove the containers no longer desired. */
    method RemoveStaleCtrs(pods: map<string, nat>, ctrs: map<string, (nat, Ctr)>) returns (ok: bool)
      requires rt.Valid() && FoundAll(rt.sys, rt.names, pods, ctrs, {})
      modifies rt`sys, rt`log
      ensures rt.Valid() && Shrunk(old(rt.sys), rt.sys)
      ensures StaleDone(desired.Keys, Op.StopContainer, old(rt.log), rt.log, ctrs.Keys - desired.Keys, ok)
      ensures rt.calm && CtrsExact(old(rt.sys), ctrs) ==>
                ok && rt.sys.pods == old(rt.sys).pods && SameNamed(desired.Keys, old(rt.sys), rt.sys)
                && forall n :: n !in desired ==> NoCtr(rt.sys, n)
      ensures rt.calm && ctrs.Keys <= desired.Keys ==> rt.sys == old(rt.sys) && rt.log == old(rt.log)
    {
      hide Linked, OnePerName, Runtime.Named, Same, SameNamed, SameOutside, FoundAll, FoundName, GoneCtrs, GonePods,
           Shrunk, TornDown, StaleDone;
      ghost var s0, calm := rt.sys, rt.calm && CtrsExact(rt.sys, ctrs);
      var stale := set n | n in ctrs && n !in desired;
      ghost var all, gone: set<string> := stale, {};
      NothingRemoved(s0, desired.Keys + stale);
      StaleStart(desired.Keys, Op.StopContainer, rt.log);
      ok := true;
      while stale != {}
        invariant rt.Valid() && Shrunk(s0, rt.sys) && FoundAll(rt.sys, rt.names, pods, ctrs, {})
        invariant all == gone + stale == ctrs.Keys - desired.Keys && stale !! desired.Keys && stale <= ctrs.Keys
        invariant rt.names == old(rt.names)
        invariant StaleDone(desired.Keys, Op.StopContainer, old(rt.log), rt.log, gone, ok)
        invariant calm ==> ok && rt.sys.pods == s0.pods && SameNamed(desired.Keys + stale, s0, rt.sys)
        invariant calm ==> GoneCtrs(rt.sys, gone)
        invariant stale == all ==> rt.sys == s0 && rt.log == old(rt.log)
      {
        var n :| n in stale;
        ghost var s1, g1 := rt.sys, rt.log;
        FoundAt(s1, rt.names, pods, ctrs, {}, n);
        if calm { StillThere(s0, s1, desired.Keys + stale, pods, ctrs, n); }
        var done := TeardownContainer(ctrs[n].0);
        StaleStep(desired.Keys, Op.StopContainer, Op.RemoveContainer, old(rt.log), g1, rt.log, gone, n, ok, done);
        ok := ok && done;
        FoundAllShrinks(s1, rt.sys, rt.names, pods, ctrs);
        ShrunkTrans(s0, s1, rt.sys);
        ghost var rest := desired.Keys + (stale - {n});
        assert desired.Keys + stale == rest + {n};
        stale := stale - {n};
        if calm { StaleRemoved(s0, s1, rt.sys, rest, gone, n); }
        gone := gone + {n};
      }
      if calm {
        assert desired.Keys + stale == desired.Keys;
        AllGone(rt.sys, rt.names, pods, ctrs, desired.Keys, gone);
      }
    }

    /** Step 1b: remove the sandboxes no longer desired. */
    method RemoveStalePods(pods: map<string, nat>, ctrs: map<string, (nat, Ctr)>) returns (ok: bool)
      requires rt.Valid() && FoundAll(rt.sys, rt.names, pods, ctrs, {})
      modifies rt`sys, rt`log
      ensures rt.Valid() && Shrunk(old(rt.sys), rt.sys)
      ensures StaleDone(desired.Keys, Op.StopSandbox, old(rt.log), rt.log, pods.Keys - desired.Keys, ok)
      ensures rt.calm && PodsExact(old(rt.sys), pods) ==>
                ok && SameNamed(desired.Keys, old(rt.sys), rt.sys)
                && forall n :: n !in desired ==> NoPod(rt.sys, n)
      ensures rt.calm && pods.Keys <= desired.Keys ==> rt.sys == old(rt.sys) && rt.log == old(rt.log)
    {
      hide Linked, OnePerName, Runtime.Named, Same, SameNamed, SameOutside, FoundAll, FoundName, GoneCtrs, GonePods,
           Shrunk, TornDown, StaleDone;
      ghost var s0, calm := rt.sys, rt.calm && PodsExact(rt.sys, pods);
      var stale := set n | n in pods && n !in desired;
      ghost var all, gone: set<string> := stale, {};
      NothingRemoved(s0, desired.Keys + stale);
      StaleStart(desired.Keys, Op.StopSandbox, rt.log);
      ok := true;
      while stale != {}
        invariant rt.Valid() && Shrunk(s0, rt.sys) && FoundAll(rt.sys, rt.names, pods, ctrs, {})
        invariant all == gone + stale == pods.Keys - desired.Keys && stale !! desired.Keys && stale <= pods.Keys
        invariant rt.names == old(rt.names)
        invariant StaleDone(desired.Keys, Op.StopSandbox, old(rt.log), rt.log, gone, ok)
        invariant calm ==> ok && SameNamed(desired.Keys + stale, s0, rt.sys)
        invariant calm ==> GonePods(rt.sys, gone)
        invariant stale == all ==> rt.sys == s0 && rt.log == old(rt.log)
      {
        var n :| n in stale;
        ghost var s1, g1 := rt.sys, rt.log;
        FoundAt(s1, rt.names, pods, ctrs, {}, n);
        if calm { StillThere(s0, s1, desired.Keys + stale, pods, ctrs, n); }
        var done := TeardownSandbox(pods[n]);
        StaleStep(desired.Keys, Op.StopSandbox, Op.RemoveSandbox, old(rt.log), g1, rt.log, gone, n, ok, done);
        ok := ok && done;
        FoundAllShrinks(s1, rt.sys, rt.names, pods, ctrs);
        ShrunkTrans(s0, s1, rt.sys);
        ghost var rest := desired.Keys + (stale - {n});
        assert desired.Keys + stale == rest + {n};
        stale := stale - {n};
        if calm { StaleRemoved(s0, s1, rt.sys, rest, gone, n); }
        gone := gone + {n};
      }
      if calm {
        assert desired.Keys + stale == desired.Keys;
        AllGone(rt.sys, rt.names, pods, ctrs, desired.Keys, gone);
      }
    }

    /** Step 2: ensure each desired container, in any order; an error never stops the rest. */
    method EnsureAll(pods: map<string, nat>, ctrs: map<string, (nat, Ctr)>,
                     ghost listed: map<nat, Ctr>) returns (ok: bool)
      requires Indexes(listed, ctrs)
      requires rt.Valid() && Keyed(desired) && FoundAll(rt.sys, rt.names, pods, ctrs, {})
      modifies rt
      ensures rt.Valid() && Extends(old(rt.log), rt.log)
      ensures ok <==> AllValid(desired) && Faultless(rt.log, |old(rt.log)|)
      ensures Safe(desired, listed, rt.log, |old(rt.log)|, |rt.log|) && DesiredOnly(desired.Keys, rt.log, |old(rt.log)|)
      ensures AllHandled(desired, ctrs, rt.log, |old(rt.log)|, desired.Keys)
      ensures rt.calm && AllExact(old(rt.sys), desired.Keys, pods, ctrs) ==>
                AllReady(old(rt.sys), old(rt.dirs), desired) ==> ok
      ensures rt.calm && AllExact(old(rt.sys), desired.Keys, pods, ctrs) ==>
                AllSettled(rt.sys, desired, ReadyNames(old(rt.sys), old(rt.dirs), desired))
                && forall n :: n !in desired && NoPod(old(rt.sys), n) && NoCtr(old(rt.sys), n) ==>
                          NoPod(rt.sys, n) && NoCtr(rt.sys, n)
      ensures AllKept(desired, ctrs) ==> ok && rt.sys == old(rt.sys) && rt.log == old(rt.log)
    {
      hide Linked, OnePerName, Runtime.Named, Same, SameNamed, SameOutside, ShrunkOutside, FoundAll, FoundName, Shrunk,
           Settled, Kept, SpecHash.Valid, Usable, Ready, AllReady, AllSettled, AllExact, Exact, EnsureSafe, Safe,
           Extends, Stream, Grown, DirsGrown, Handled, AllHandled, ReadyNames;
      ghost var s0, k, d0 := rt.sys, |rt.log|, rt.dirs;
      ghost var calm := rt.calm && AllExact(s0, desired.Keys, pods, ctrs);
      ghost var ready := ReadyNames(s0, d0, desired);
      var todo := desired.Keys;
      ghost var done: set<string> := {};
      ok := true;
      ReadyAreDesired(s0, d0, desired);
      EnsureStart(s0, rt.names, rt.dirs, desired, listed, rt.log);
      while todo != {}
        invariant rt.Valid() && todo + done == desired.Keys && todo !! done
        invariant FoundAll(rt.sys, rt.names, pods, ctrs, done) && DirsGrown(d0, rt.dirs) && Extends(old(rt.log), rt.log)
        invariant k <= |rt.log| && Safe(desired, listed, rt.log, k, |rt.log|) && DesiredOnly(desired.Keys, rt.log, k)
        invariant calm && AllReady(s0, d0, desired) ==> ok
        invariant calm ==> SameNamed(todo, s0, rt.sys) && AllSettled(rt.sys, desired, done * ready)
                           && NothingNew(desired.Keys, s0, rt.sys)
        invariant AllHandled(desired, ctrs, rt.log, k, done)
        invariant ok <==> (forall m :: m in done ==> Valid(desired[m])) && Faultless(rt.log, k)
        invariant AllKept(desired, ctrs) ==> ok && rt.sys == s0 && rt.log == old(rt.log)
      {
        var n :| n in todo;
        ghost var old_todo := todo;
        ghost var s1, m1, g1, d1 := rt.sys, rt.names, rt.log, rt.dirs;
        FoundAt(s1, m1, pods, ctrs, done, n);
        if calm { ReadyAt(s0, s1, d0, d1, desired, pods, ctrs, todo, n); }
        ReadyName(s0, d0, desired, n);
        todo := todo - {n};
        assert todo + {n} == old_todo;
        var fine := Ensure(desired[n], Get(pods, n), Get(ctrs, n));
        ok := ok && fine;
        FaultlessParts(g1, rt.log, k);
        FoundRest(s1, rt.sys, m1, rt.names, pods, ctrs, done, n);
        DirsGrownTrans(d0, d1, rt.dirs);
        ExtendsTrans(old(rt.log), g1, rt.log);
        SafeStep(desired, listed, ctrs, g1, rt.log, k, n);
        HandledStep(desired, ctrs, g1, rt.log, k, done, n);
        if calm { SettledStep(s0, s1, rt.sys, desired, todo, done, ready, n); }
        done := done + {n};
      }
      assert done == desired.Keys;
      if calm {
        assert done == desired.Keys && done * ready == ready;
        NothingNewAt(desired.Keys, s0, rt.sys);
      }
    }

    method ConvergeLocked() returns (ok: bool)
      requires Inv()
      modifies rt
      ensures Inv() && Extends(old(rt.log), rt.log) && Obeys(desired, rt.log, |old(rt.log)|, |rt.log|)
      ensures ok <==> AllValid(desired) && Faultless(rt.log, |old(rt.log)|)
      ensures Thorough(desired, rt.log, |old(rt.log)|)
      ensures rt.calm ==> AllSettled(rt.sys, desired, ReadyNames(old(rt.sys), old(rt.dirs), desired))
                          && forall n :: n !in desired ==> NoPod(rt.sys, n) && NoCtr(rt.sys, n)
      ensures rt.calm && AllReady(old(rt.sys), old(rt.dirs), desired) ==> ok && Converged(rt.sys, desired)
      ensures rt.calm && AllValid(desired) && Converged(old(rt.sys), desired) ==>
                ok && rt.sys == old(rt.sys) && rt.log == old(rt.log) + [PodsListed(rt.sys.pods), Listed(rt.sys.ctrs)]
    {
      hide Linked, OnePerName, Runtime.Named, Same, SameNamed, FoundAll, FoundName, Shrunk, Kept,
           Settled, SpecHash.Valid, AllReady, AllExact, AllKept, Safe, Stream, StaleOnly, DesiredOnly, VolumesThere,
           Labelled, Obeys, Indexes, AllHandled, Thorough, Unlisted, ReadyNames,
           AllSettled, StaleDone, Faultless, Extends, AllValid;
      var found, listed := Managed();
      NoCallsObey(desired, rt.log, |old(rt.log)|);
      if found.None? {
        UnlistedIsAll(desired, old(rt.log), rt.log);
        return false;
      }
      var (pods, ctrs) := found.value;
      ghost var s0, g0 := rt.sys, rt.log;
      if rt.calm && AllValid(desired) && Converged(s0, desired) { ConvergedIsKept(s0, rt.names, desired, pods, ctrs); }
      var ok1 := RemoveStaleCtrs(pods, ctrs);
      ghost var s1, g1 := rt.sys, rt.log;
      FoundAllShrinks(s0, s1, rt.names, pods, ctrs);
      var ok2 := RemoveStalePods(pods, ctrs);
      ghost var s2, g2 := rt.sys, rt.log;
      FoundAllShrinks(s1, s2, rt.names, pods, ctrs);
      if rt.calm { ExactAfterStale(s0, s1, s2, desired, pods, ctrs, rt.dirs); }
      var ok3 := EnsureAll(pods, ctrs, s0.ctrs);
      ok := ok1 && ok2 && ok3;
      ConvergeWhole(desired, listed, s0.ctrs, pods, ctrs, old(rt.log), g0, g1, g2, rt.log, ok1, ok2, ok3);
      if rt.calm && AllReady(s0, old(rt.dirs), desired) { AllReadyNames(rt.sys, s0, old(rt.dirs), desired); }
    }

    /** Apply replaces the desired set, the last spec of a name winning, and converges once. */
    method Apply(specs: seq<Spec>) returns (ok: bool)
      requires Inv()
      modifies rt, this
      ensures Inv() && desired == Desired(specs)
      ensures Extends(old(rt.log), rt.log) && Obeys(desired, rt.log, |old(rt.log)|, |rt.log|)
      ensures ok <==> AllValid(desired) && Faultless(rt.log, |old(rt.log)|)
      ensures Thorough(desired, rt.log, |old(rt.log)|)
      ensures rt.calm ==> AllSettled(rt.sys, desired, ReadyNames(old(rt.sys), old(rt.dirs), desired))
                          && forall n :: n !in desired ==> NoPod(rt.sys, n) && NoCtr(rt.sys, n)
      ensures rt.calm && AllReady(old(rt.sys), old(rt.dirs), desired) ==> ok && Converged(rt.sys, desired)
      ensures rt.calm && AllValid(desired) && Converged(old(rt.sys), desired) ==>
                ok && rt.sys == old(rt.sys) && rt.log == old(rt.log) + [PodsListed(rt.sys.pods), Listed(rt.sys.ctrs)]
    {
      var next: map<string, Spec> := map[];
      for i := 0 to |specs|
        invariant next == Desired(specs[..i])
      {
        next := next[specs[i].name := specs[i]];
        assert specs[..i + 1][..i] == specs[..i];
      }
      assert specs[..|specs|] == specs;
      DesiredKeyed(specs);
      desired := next;
      ok := ConvergeLocked();
    }

    method Converge() returns (ok: bool)
      requires Inv()
      modifies rt
      ensures Inv() && Extends(old(rt.log), rt.log) && Obeys(desired, rt.log, |old(rt.log)|, |rt.log|)
      ensures ok <==> AllValid(desired) && Faultless(rt.log, |old(rt.log)|)
      ensures Thorough(desired, rt.log, |old(rt.log)|)
      ensures rt.calm ==> AllSettled(rt.sys, desired, ReadyNames(old(rt.sys), old(rt.dirs), desired))
                          && forall n :: n !in desired ==> NoPod(rt.sys, n) && NoCtr(rt.sys, n)
      ensures rt.calm && AllReady(old(rt.sys), old(rt.dirs), desired) ==> ok && Converged(rt.sys, desired)
      ensures rt.calm && AllValid(desired) && Converged(old(rt.sys), desired) ==>
                ok && rt.sys == old(rt.sys) && rt.log == old(rt.log) + [PodsListed(rt.sys.pods), Listed(rt.sys.ctrs)]
    {
      ok := ConvergeLocked();
    }

    /** Any run: Some(specs) applies, None converges on the timer; the world drifts between.
        marks are the lengths of the log at the start and after each entry. */
    method Run(script: seq<Option<seq<Spec>>>) returns (ghost marks: seq<nat>)
      requires Inv()
      modifies rt, this
      ensures Inv() && OnePerName(rt.sys) && VolumesThere(rt.log, rt.dirs)
      ensures desired == DesiredAfter(old(desired), script)
      ensures Extends(old(rt.log), rt.log) && Marked(marks, |old(rt.log)|, |rt.log|) && |marks| == |script| + 1
      ensures forall i :: 0 <= i < |script| ==>
                Obeys(DesiredAfter(old(desired), script[..i + 1]), rt.log, marks[i], marks[i + 1])
    {
      hide VolumesThere, OnePerName, Obeys, Extends, Linked, Desired, Faultless, AllValid, AllReady, Converged;
      ExtendsSelf(rt.log);
      marks := [|rt.log|];
      for i := 0 to |script|
        invariant Inv() && desired == DesiredAfter(old(desired), script[..i])
        invariant Extends(old(rt.log), rt.log) && Marked(marks, |old(rt.log)|, |rt.log|) && |marks| == i + 1
        invariant forall j :: 0 <= j < i ==>
                  Obeys(DesiredAfter(old(desired), script[..j + 1]), rt.log, marks[j], marks[j + 1])
      {
        assert script[..i + 1][..i] == script[..i];
        rt.Drift();
        ghost var g := rt.log;
        match script[i] {
          case Some(specs) => var _ := Apply(specs);
          case None => var _ := Converge();
        }
        assert desired == DesiredAfter(old(desired), script[..i + 1]);
        ExtendsTrans(old(rt.log), g, rt.log);
        forall j | 0 <= j < i
          ensures Obeys(DesiredAfter(old(desired), script[..j + 1]), rt.log, marks[j], marks[j + 1])
        {
          ObeysExtends(DesiredAfter(old(desired), script[..j + 1]), g, rt.log, marks[j], marks[j + 1]);
        }
        marks := marks + [|rt.log|];
      }
      assert script[..|script|] == script;
    }
  }

  /** Increasing positions from one to the other. */
  ghost predicate Marked(marks: seq<nat>, from: nat, to: nat) {
    && marks != [] && marks[0] == from && marks[|marks| - 1] == to
    && forall i, j :: 0 <= i < j < |marks| ==> marks[i] <= marks[j]
  }

  function Desired(specs: seq<Spec>): map<string, Spec> {
    if specs == [] then map[]
    else var last := specs[|specs| - 1]; Desired(specs[..|specs| - 1])[last.name := last]
  }

  /** The desired set holds exactly the names given, each with its last spec. */
  lemma {:induction false} LastSpecWins(specs: seq<Spec>, n: string)
    ensures n in Desired(specs) <==> exists i :: 0 <= i < |specs| && specs[i].name == n
    ensures forall i :: 0 <= i < |specs| && specs[i].name == n ==>
              (forall j :: i < j < |specs| ==> specs[j].name != n) ==> Desired(specs)[n] == specs[i]
  {
    if specs != [] {
      var front, last := specs[..|specs| - 1], |specs| - 1;
      LastSpecWins(front, n);
      if specs[last].name != n {
        forall i | 0 <= i < last ensures specs[i] == front[i] {}
      }
    }
  }

  lemma DesiredKeyed(specs: seq<Spec>)
    ensures Keyed(Desired(specs))
  {
  }

  /** The containers of a listing by name. */
  ghost predicate Indexes(listed: map<nat, Ctr>, ctrs: map<string, (nat, Ctr)>) {
    forall c :: c in listed ==> listed[c].name in ctrs && ctrs[listed[c].name] == (c, listed[c])
  }

  lemma IndexesAll(s: Sys, ctrs: map<string, (nat, Ctr)>)
    requires OnePerName(s) && CtrsExact(s, ctrs) && forall c :: c in s.ctrs ==> s.ctrs[c].name in ctrs
    ensures Indexes(s.ctrs, ctrs)
  {
  }

  ghost predicate DesiredOnly(keep: set<string>, log: seq<Event>, k: nat) {
    forall i :: k <= i < |log| && log[i].Call? ==> log[i].name in keep
  }

  ghost predicate AllValid(desired: map<string, Spec>) { forall n :: n in desired ==> Valid(desired[n]) }

  ghost predicate AllReady(s: Sys, dirs: map<string, bool>, desired: map<string, Spec>) {
    forall n :: n in desired ==> Ready(s, dirs, desired[n])
  }

  ghost predicate AllSettled(s: Sys, desired: map<string, Spec>, ns: set<string>) {
    forall n :: n in ns && n in desired ==> Settled(s, desired[n])
  }

  ghost predicate AllExact(s: Sys, ns: set<string>, pods: map<string, nat>, ctrs: map<string, (nat, Ctr)>) {
    forall n :: n in ns ==> Exact(s, n, Get(pods, n), Get(ctrs, n))
  }

  ghost predicate AllKept(desired: map<string, Spec>, ctrs: map<string, (nat, Ctr)>) {
    forall n :: n in desired ==> Valid(desired[n]) && n in ctrs && Kept(desired[n], ctrs[n].1)
  }

  ghost predicate NothingNew(keep: set<string>, s: Sys, t: Sys) {
    && (forall p :: p in t.pods && t.pods[p].name !in keep ==> p in s.pods && s.pods[p] == t.pods[p])
    && (forall c :: c in t.ctrs && t.ctrs[c].name !in keep ==> c in s.ctrs && Same(s.ctrs[c], t.ctrs[c]))
  }

  lemma NothingNewAt(keep: set<string>, s: Sys, t: Sys)
    requires NothingNew(keep, s, t)
    ensures forall n :: n !in keep && NoPod(s, n) && NoCtr(s, n) ==> NoPod(t, n) && NoCtr(t, n)
  {
    forall n | n !in keep && NoCtr(s, n) ensures NoCtr(t, n) {
      forall c | c in t.ctrs ensures t.ctrs[c].name != n {
        assert t.ctrs[c].name !in keep ==> c in s.ctrs && Same(s.ctrs[c], t.ctrs[c]);
      }
    }
  }

  lemma EnsureStart(s: Sys, names: map<nat, string>, dirs: map<string, bool>, desired: map<string, Spec>,
                    listed: map<nat, Ctr>, log: seq<Event>)
    ensures SameNamed(desired.Keys, s, s) && NothingNew(desired.Keys, s, s)
    ensures forall ready: set<string> :: AllSettled(s, desired, {} * ready)
    ensures forall ctrs, k :: AllHandled(desired, ctrs, log, k, {})
    ensures DirsGrown(dirs, dirs) && Extends(log, log) && Safe(desired, listed, log, |log|, |log|)
  {
  }

  lemma FoundRest(s: Sys, t: Sys, names: map<nat, string>, names': map<nat, string>, pods: map<string, nat>,
                  ctrs: map<string, (nat, Ctr)>, done: set<string>, n: string)
    requires FoundAll(s, names, pods, ctrs, done) && ShrunkOutside(n, s, t) && Grown(names, names')
    ensures FoundAll(t, names', pods, ctrs, done + {n})
  {
    forall m | m !in done + {n} ensures FoundName(t, names', pods, ctrs, m) {
      assert FoundName(s, names, pods, ctrs, m);
      forall c | c in t.ctrs && t.ctrs[c].name == m ensures m in ctrs && ctrs[m].0 == c {
        assert Same(s.ctrs[c], t.ctrs[c]);
      }
    }
  }

  lemma DirsGrownTrans(a: map<string, bool>, b: map<string, bool>, c: map<string, bool>)
    requires DirsGrown(a, b) && DirsGrown(b, c)
    ensures DirsGrown(a, c)
  {
  }

  lemma ExtendsSelf(a: seq<Event>)
    ensures Extends(a, a)
  {
  }

  lemma NoCallsObey(desired: map<string, Spec>, log: seq<Event>, k: nat)
    ensures NoCalls(log, k) ==> Obeys(desired, log, k, |log|)
  {
  }

  lemma ExtendsTrans(a: seq<Event>, b: seq<Event>, c: seq<Event>)
    requires Extends(a, b) && Extends(b, c)
    ensures Extends(a, c)
  {
  }

  lemma ReadyAt(s: Sys, t: Sys, d: map<string, bool>, e: map<string, bool>, desired: map<string, Spec>,
                pods: map<string, nat>, ctrs: map<string, (nat, Ctr)>, todo: set<string>, n: string)
    requires n in todo && todo <= desired.Keys && Keyed(desired) && SameNamed(todo, s, t) && DirsGrown(d, e)
    requires AllExact(s, desired.Keys, pods, ctrs)
    ensures Exact(t, n, Get(pods, n), Get(ctrs, n)) && (Ready(s, d, desired[n]) ==> Ready(t, e, desired[n]))
  {
    assert Exact(s, n, Get(pods, n), Get(ctrs, n));
  }

  /** The names of the specs that only need the runtime's good will. */
  ghost function ReadyNames(s: Sys, dirs: map<string, bool>, desired: map<string, Spec>): set<string> {
    set n | n in desired && Ready(s, dirs, desired[n])
  }

  lemma ReadyName(s: Sys, dirs: map<string, bool>, desired: map<string, Spec>, n: string)
    requires n in desired
    ensures n in ReadyNames(s, dirs, desired) <==> Ready(s, dirs, desired[n])
    ensures AllReady(s, dirs, desired) ==> Ready(s, dirs, desired[n])
  {
  }

  lemma ReadyAreDesired(s: Sys, dirs: map<string, bool>, desired: map<string, Spec>)
    ensures ReadyNames(s, dirs, desired) <= desired.Keys
  {
  }

  lemma AllReadyNames(t: Sys, s: Sys, dirs: map<string, bool>, desired: map<string, Spec>)
    requires AllReady(s, dirs, desired) && AllSettled(t, desired, ReadyNames(s, dirs, desired))
    ensures forall n :: n in desired ==> Settled(t, desired[n])
  {
    hide Settled, Ready;
    forall n | n in desired ensures Settled(t, desired[n]) { assert n in ReadyNames(s, dirs, desired); }
  }

  lemma SafeStep(desired: map<string, Spec>, listed: map<nat, Ctr>, ctrs: map<string, (nat, Ctr)>, a: seq<Event>,
                 b: seq<Event>, k: nat, n: string)
    requires n in desired && Keyed(desired) && k <= |a| && Extends(a, b) && Indexes(listed, ctrs)
    requires Safe(desired, listed, a, k, |a|) && EnsureSafe(desired[n], Get(ctrs, n), b, |a|)
    requires DesiredOnly(desired.Keys, a, k)
    ensures k <= |b| && Safe(desired, listed, b, k, |b|) && DesiredOnly(desired.Keys, b, k)
  {
    hide Kept, Readied, SpecHash.Valid;
    SafeExtends(desired, listed, a, b, k, |a|);
    forall i | k <= i < |b| && b[i].Call? ensures SafeCall(desired, listed, b, k, i) && b[i].name in desired {
      if i >= |a| {
        assert b[i].name == n && Justified(desired[n], b, |a|, i);
      } else {
        assert b[i] == a[i];
      }
    }
  }

  lemma SettledStep(s0: Sys, s: Sys, t: Sys, desired: map<string, Spec>, todo: set<string>, done: set<string>,
                    ready: set<string>, n: string)
    requires n in desired && n !in todo && n !in done && Keyed(desired) && todo + done + {n} == desired.Keys
    requires SameNamed(todo + {n}, s0, s) && AllSettled(s, desired, done * ready) && NothingNew(desired.Keys, s0, s)
    requires SameOutside(n, s, t) && (n in ready ==> Settled(t, desired[n]))
    ensures SameNamed(todo, s0, t) && AllSettled(t, desired, (done + {n}) * ready) && NothingNew(desired.Keys, s0, t)
  {
    hide Settled, SameNamed;
    SettledElsewhere(s, t, desired, done * ready, n);
    SameNamedStep(s0, s, t, todo, n);
    forall c | c in t.ctrs && t.ctrs[c].name !in desired.Keys ensures c in s0.ctrs && Same(s0.ctrs[c], t.ctrs[c]) {}
  }

  lemma SameNamedStep(s: Sys, t: Sys, u: Sys, ns: set<string>, n: string)
    requires n !in ns && SameNamed(ns + {n}, s, t) && SameOutside(n, t, u)
    ensures SameNamed(ns, s, u)
  {
  }

  lemma SettledElsewhere(s: Sys, t: Sys, desired: map<string, Spec>, done: set<string>, n: string)
    requires n !in done && Keyed(desired) && AllSettled(s, desired, done)
    requires SameOutside(n, s, t)
    ensures AllSettled(t, desired, done)
  {
    hide Kept;
    forall m | m in done && m in desired ensures Settled(t, desired[m]) {
      assert Settled(s, desired[m]);
      var p :| p in s.pods && s.pods[p].name == m;
      var c :| c in s.ctrs && s.ctrs[c].name == m && Kept(desired[m], s.ctrs[c]);
      assert p in t.pods && t.pods[p].name == m;
      assert c in t.ctrs && t.ctrs[c] == s.ctrs[c];
    }
  }

  /** On a converged node nothing is stale and everything found may stay. */
  lemma ConvergedIsKept(s: Sys, names: map<nat, string>, desired: map<string, Spec>, pods: map<string, nat>,
                        ctrs: map<string, (nat, Ctr)>)
    requires Keyed(desired) && AllValid(desired) && Converged(s, desired) && FoundAll(s, names, pods, ctrs, {})
    requires PodsExact(s, pods) && CtrsExact(s, ctrs)
    ensures pods.Keys <= desired.Keys && ctrs.Keys <= desired.Keys && AllKept(desired, ctrs)
  {
    forall n | n in desired ensures n in ctrs && Kept(desired[n], ctrs[n].1) {
      assert Settled(s, desired[n]) && FoundName(s, names, pods, ctrs, n);
      var c :| c in s.ctrs && s.ctrs[c].name == n && Kept(desired[n], s.ctrs[c]);
    }
  }

  lemma ExactAfterStale(s: Sys, t: Sys, u: Sys, desired: map<string, Spec>, pods: map<string, nat>,
                        ctrs: map<string, (nat, Ctr)>, dirs: map<string, bool>)
    requires PodsExact(s, pods) && CtrsExact(s, ctrs)
    requires SameNamed(desired.Keys, s, t) && SameNamed(desired.Keys, t, u)
    requires Shrunk(t, u)
    ensures AllExact(u, desired.Keys, pods, ctrs) && (AllReady(s, dirs, desired) ==> AllReady(u, dirs, desired))
    ensures ReadyNames(u, dirs, desired) == ReadyNames(s, dirs, desired)
    ensures forall n :: NoCtr(t, n) ==> NoCtr(u, n)
  {
    forall n | NoCtr(t, n) ensures NoCtr(u, n) { StillNoCtr(t, u, n); }
    forall n | n in desired ensures Exact(u, n, Get(pods, n), Get(ctrs, n)) {}
    assert s.images == u.images;
    forall n | n in desired ensures Ready(s, dirs, desired[n]) <==> Ready(u, dirs, desired[n]) {}
    hide Ready;
  }

  lemma SafeIsObeyed(desired: map<string, Spec>, log: seq<Event>, k: nat)
    requires k + 1 < |log| && !log[k].Call? && log[k + 1].Listed?
    requires Safe(desired, log[k + 1].ctrs, log, k + 2, |log|)
    ensures Obeys(desired, log, k, |log|)
  {
    hide Readied, SpecHash.Valid, NoneKept;
    forall i | k <= i < |log| && log[i].Call? ensures exists j :: ListedSafe(desired, log, k, i, j) {
      assert SafeCall(desired, log[k + 1].ctrs, log, k + 2, i);
      assert ListedSafe(desired, log, k, i, k + 1);
    }
  }

  /** The three parts of a converge, each safe, make a safe whole. */
  lemma SafeWhole(desired: map<string, Spec>, listed: map<nat, Ctr>, a: seq<Event>, b: seq<Event>, c: seq<Event>,
                  d: seq<Event>)
    requires Extends(a, b) && Extends(b, c) && Extends(c, d)
    requires StaleOnly(desired.Keys, b, |a|) && StaleOnly(desired.Keys, c, |b|) && Safe(desired, listed, d, |c|, |d|)
    requires DesiredOnly(desired.Keys, d, |c|)
    ensures Safe(desired, listed, d, |a|, |d|)
  {
    forall i | |a| <= i < |d| && d[i].Call? ensures SafeCall(desired, listed, d, |a|, i) {
      if i >= |c| {
        assert SafeCall(desired, listed, d, |c|, i);
      } else {
        assert d[i] == c[i];
      }
    }
  }

  /** The parts of a converge leave nothing out. */
  lemma ThoroughWhole(desired: map<string, Spec>, pods: map<nat, Pod>, listed: map<nat, Ctr>,
                      podsByName: map<string, nat>, ctrs: map<string, (nat, Ctr)>, a: seq<Event>, b: seq<Event>,
                      c: seq<Event>, d: seq<Event>, e: seq<Event>)
    requires b == a + [PodsListed(pods), Listed(listed)] && Extends(b, c) && Extends(c, d) && Extends(d, e)
    requires (forall p :: p in pods ==> pods[p].name in podsByName) && Indexes(listed, ctrs)
    requires forall n :: n in ctrs ==> ctrs[n].0 in listed && listed[ctrs[n].0] == ctrs[n].1 && ctrs[n].1.name == n
    requires AllTried(c, |b|, Op.StopContainer, ctrs.Keys - desired.Keys)
    requires AllTried(d, |c|, Op.StopSandbox, podsByName.Keys - desired.Keys)
    requires AllHandled(desired, ctrs, e, |d|, desired.Keys)
    ensures Thorough(desired, e, |a|)
  {
    var k := |a|;
    assert e[k] == PodsListed(pods) && e[k + 1] == Listed(listed) by { assert b[k] == e[k] && b[k + 1] == e[k + 1]; }
    ExtendsTrans(c, d, e);
    TriedLater(c, e, |b|, k, Op.StopContainer, ctrs.Keys - desired.Keys);
    TriedLater(d, e, |c|, k, Op.StopSandbox, podsByName.Keys - desired.Keys);
    hide Extends, Tried, Asked, Kept, SpecHash.Valid;
    forall n | n in desired && Valid(desired[n]) && NoneKept(desired[n], listed, n)
      ensures Asked(e, k, desired[n].image)
    {
      assert Handled(desired[n], Get(ctrs, n), e, |d|);
      ExtendsSelf(e);
      AskedLater(e, e, |d|, k, desired[n].image);
    }
  }

  /** The parts of a converge, put together. */
  lemma ConvergeWhole(desired: map<string, Spec>, pods: map<nat, Pod>, listed: map<nat, Ctr>,
                      podsByName: map<string, nat>, ctrs: map<string, (nat, Ctr)>, a: seq<Event>, b: seq<Event>,
                      c: seq<Event>, d: seq<Event>, e: seq<Event>, ok1: bool, ok2: bool, ok3: bool)
    requires b == a + [PodsListed(pods), Listed(listed)]
    requires (forall p :: p in pods ==> pods[p].name in podsByName) && Indexes(listed, ctrs)
    requires forall n :: n in ctrs ==> ctrs[n].0 in listed && listed[ctrs[n].0] == ctrs[n].1 && ctrs[n].1.name == n
    requires StaleDone(desired.Keys, Op.StopContainer, b, c, ctrs.Keys - desired.Keys, ok1)
    requires StaleDone(desired.Keys, Op.StopSandbox, c, d, podsByName.Keys - desired.Keys, ok2)
    requires Extends(d, e) && Safe(desired, listed, e, |d|, |e|) && DesiredOnly(desired.Keys, e, |d|)
    requires AllHandled(desired, ctrs, e, |d|, desired.Keys) && (ok3 <==> AllValid(desired) && Faultless(e, |d|))
    ensures Extends(a, e) && Obeys(desired, e, |a|, |e|) && Thorough(desired, e, |a|)
    ensures ok1 && ok2 && ok3 <==> AllValid(desired) && Faultless(e, |a|)
  {
    assert b[|a|] == PodsListed(pods) && b[|a| + 1] == Listed(listed);
    assert Faultless(b, |a|) && Extends(a, b);
    hide Faultless, StaleOnly, AllTried, AllHandled, Safe, DesiredOnly, AllValid, Obeys, Thorough, Indexes;
    ThoroughWhole(desired, pods, listed, podsByName, ctrs, a, b, c, d, e);
    SafeWhole(desired, listed, b, c, d, e);
    assert e[|a|] == b[|a|] && e[|a| + 1] == b[|a| + 1];
    SafeIsObeyed(desired, e, |a|);
    FaultlessParts(b, c, |a|);
    FaultlessParts(c, d, |a|);
    FaultlessParts(d, e, |a|);
  }

  /** The container has the spec's name, runs or exited under a policy other than always, and
      was made from the same spec, in a sandbox of that name on the network the spec names. */
  ghost predicate RunsAsDesired(s: Sys, spec: Spec, c: Ctr) {
    && c.name == spec.name
    && (c.state == Running || (c.state == Exited && spec.restart != "always"))
    && c.pod in s.pods && s.pods[c.pod].name == spec.name
    && (!Framable(c.config) || (c.config.(name := "") == spec.(name := "")
                                && s.pods[c.pod].network == if spec.network == "pod" then "pod" else "host"))
  }

  /** Drift detection by hash is sound: a container left alone was created from a spec equal
      to the desired one in everything but the name, unless that spec was unframable. */
  lemma KeptRunsDesired(s: Sys, desired: map<string, Spec>, n: string)
    requires Linked(s) && Converged(s, desired) && n in desired && Keyed(desired)
    requires Valid(desired[n]) && Framable(desired[n])
    ensures exists c :: c in s.ctrs && RunsAsDesired(s, desired[n], s.ctrs[c])
  {
    assert Settled(s, desired[n]);
    var c :| c in s.ctrs && s.ctrs[c].name == n && Kept(desired[n], s.ctrs[c]);
    assert Labelled(s.ctrs[c].hash, s.ctrs[c].config);
    if Framable(s.ctrs[c].config) {
      HashIdentifiesSpec(s.ctrs[c].config, desired[n]);
      assert s.ctrs[c].config.network == desired[n].network;
    }
    assert RunsAsDesired(s, desired[n], s.ctrs[c]);
  }

  // ---- Listings -------------------------------------------------------------

  /** For every name not yet dealt with, what is there is what was found. */
  ghost predicate FoundAll(s: Sys, names: map<nat, string>, pods: map<string, nat>, ctrs: map<string, (nat, Ctr)>,
                           done: set<string>) {
    forall n :: n !in done ==> FoundName(s, names, pods, ctrs, n)
  }

  ghost predicate FoundName(s: Sys, names: map<nat, string>, pods: map<string, nat>, ctrs: map<string, (nat, Ctr)>,
                            n: string) {
    Found(s, n, Get(pods, n), Get(ctrs, n)) && IdsNamed(names, n, Get(pods, n), Get(ctrs, n))
  }

  lemma FoundAt(s: Sys, names: map<nat, string>, pods: map<string, nat>, ctrs: map<string, (nat, Ctr)>,
                done: set<string>, n: string)
    requires FoundAll(s, names, pods, ctrs, done) && n !in done
    ensures Found(s, n, Get(pods, n), Get(ctrs, n)) && IdsNamed(names, n, Get(pods, n), Get(ctrs, n))
  {
    assert FoundName(s, names, pods, ctrs, n);
  }

  lemma FoundAllShrinks(s: Sys, t: Sys, names: map<nat, string>, pods: map<string, nat>, ctrs: map<string, (nat, Ctr)>)
    requires FoundAll(s, names, pods, ctrs, {}) && Shrunk(s, t)
    ensures FoundAll(t, names, pods, ctrs, {})
  {
    forall n ensures FoundName(t, names, pods, ctrs, n) {
      assert FoundName(s, names, pods, ctrs, n);
      FoundShrinks(s, t, n, Get(pods, n), Get(ctrs, n));
    }
  }

  ghost predicate PodsExact(s: Sys, pods: map<string, nat>) {
    forall n :: n in pods ==> pods[n] in s.pods && s.pods[pods[n]].name == n
  }

  ghost predicate CtrsExact(s: Sys, ctrs: map<string, (nat, Ctr)>) {
    forall n :: n in ctrs ==> ctrs[n].0 in s.ctrs && s.ctrs[ctrs[n].0] == ctrs[n].1 && ctrs[n].1.name == n
  }

  method IndexPods(list: map<nat, Pod>) returns (pods: map<string, nat>)
    ensures forall p :: p in list ==> list[p].name in pods
    ensures forall n :: n in pods ==> pods[n] in list && list[pods[n]].name == n
  {
    pods := map[];
    var todo := list.Keys;
    while todo != {}
      invariant todo <= list.Keys
      invariant forall p :: p in list.Keys - todo ==> list[p].name in pods
      invariant forall n :: n in pods ==> pods[n] in list && list[pods[n]].name == n
    {
      var p :| p in todo;
      pods := pods[list[p].name := p];
      todo := todo - {p};
    }
  }

  method IndexCtrs(list: map<nat, Ctr>) returns (ctrs: map<string, (nat, Ctr)>)
    ensures forall c :: c in list ==> list[c].name in ctrs
    ensures forall n :: n in ctrs ==> ctrs[n].0 in list && list[ctrs[n].0] == ctrs[n].1 && ctrs[n].1.name == n
  {
    ctrs := map[];
    var todo := list.Keys;
    while todo != {}
      invariant todo <= list.Keys
      invariant forall c :: c in list.Keys - todo ==> list[c].name in ctrs
      invariant forall n :: n in ctrs ==> ctrs[n].0 in list && list[ctrs[n].0] == ctrs[n].1 && ctrs[n].1.name == n
    {
      var c :| c in todo;
      ctrs := ctrs[list[c].name := (c, list[c])];
      todo := todo - {c};
    }
  }

  /** The indexed listings say all there is to say about the node. */
  lemma ListingIsFound(s: Sys, t: Sys, names: map<nat, string>, pods: map<string, nat>, ctrs: map<string, (nat, Ctr)>)
    requires OnePerName(s) && OnePerName(t) && Shrunk(s, t) && Runtime.Named(s, names)
    requires forall p :: p in s.pods ==> s.pods[p].name in pods
    requires forall c :: c in t.ctrs ==> t.ctrs[c].name in ctrs
    requires PodsExact(s, pods) && CtrsExact(t, ctrs)
    ensures FoundAll(t, names, pods, ctrs, {})
  {
    forall n ensures FoundName(t, names, pods, ctrs, n) {
      if n in ctrs { assert Same(s.ctrs[ctrs[n].0], t.ctrs[ctrs[n].0]); }
    }
  }

  // ---- Frames ---------------------------------------------------------------

  /** Only teardown calls, all on names outside keep. */
  ghost predicate StaleOnly(keep: set<string>, log: seq<Event>, k: nat) {
    forall i :: k <= i < |log| ==> log[i].Call? && log[i].name !in keep && Teardown(log[i].op)
  }

  /** Every name in gone was taken down, as far as its calls allowed, and nothing else done. */
  ghost predicate StaleDone(keep: set<string>, stop: Op, a: seq<Event>, b: seq<Event>, gone: set<string>, ok: bool) {
    Extends(a, b) && StaleOnly(keep, b, |a|) && (ok <==> Faultless(b, |a|)) && AllTried(b, |a|, stop, gone)
  }

  lemma StaleStart(keep: set<string>, stop: Op, log: seq<Event>)
    ensures StaleDone(keep, stop, log, log, {}, true)
  {
  }

  lemma StaleStep(keep: set<string>, stop: Op, remove: Op, a: seq<Event>, b: seq<Event>, c: seq<Event>,
                  gone: set<string>, n: string, ok: bool, done: bool)
    requires StaleDone(keep, stop, a, b, gone, ok) && n !in keep && TornDown(b, c, stop, remove, n, done)
    requires Teardown(stop) && Teardown(remove)
    ensures StaleDone(keep, stop, a, c, gone + {n}, ok && done)
  {
    TornDownMeans(b, c, stop, remove, n, done);
    FaultlessParts(b, c, |a|);
    TriedLater(b, c, |a|, |a|, stop, gone);
    hide TornDown, Faultless, Failure, Teardown;
    forall m | m in gone + {n} ensures Tried(c, |a|, stop, m) {
      if m == n { assert c[|b|].Call? && c[|b|].op == stop && c[|b|].name == n; }
    }
    forall i | |a| <= i < |c| ensures c[i].Call? && c[i].name !in keep && Teardown(c[i].op) {
      if i < |b| { assert c[i] == b[i]; }
    }
  }

  /** The objects of the given names are the same in s and t. */
  ghost predicate SameNamed(ns: set<string>, s: Sys, t: Sys) {
    && s.images == t.images
    && (forall p :: p in t.pods && t.pods[p].name in ns ==> p in s.pods && s.pods[p] == t.pods[p])
    && (forall p :: p in s.pods && s.pods[p].name in ns ==> p in t.pods && s.pods[p] == t.pods[p])
    && (forall c :: c in t.ctrs && t.ctrs[c].name in ns ==> c in s.ctrs && s.ctrs[c] == t.ctrs[c])
    && (forall c :: c in s.ctrs && s.ctrs[c].name in ns ==> c in t.ctrs && s.ctrs[c] == t.ctrs[c])
  }

  ghost predicate GoneCtrs(s: Sys, ns: set<string>) { forall n :: n in ns ==> NoCtr(s, n) }

  ghost predicate GonePods(s: Sys, ns: set<string>) { forall n :: n in ns ==> NoPod(s, n) }

  lemma NothingRemoved(s: Sys, ns: set<string>)
    ensures SameNamed(ns, s, s) && GoneCtrs(s, {}) && GonePods(s, {}) && Shrunk(s, s)
  {
  }

  lemma GoneAt(s: Sys, ns: set<string>, n: string)
    requires n in ns
    ensures (GoneCtrs(s, ns) ==> NoCtr(s, n)) && (GonePods(s, ns) ==> NoPod(s, n))
  {
  }

  /** What was found and is not wanted is gone, and there was nothing else. */
  lemma AllGone(s: Sys, names: map<nat, string>, pods: map<string, nat>, ctrs: map<string, (nat, Ctr)>,
                keep: set<string>, gone: set<string>)
    requires FoundAll(s, names, pods, ctrs, {})
    ensures gone == ctrs.Keys - keep && GoneCtrs(s, gone) ==> forall n :: n !in keep ==> NoCtr(s, n)
    ensures gone == pods.Keys - keep && GonePods(s, gone) ==> forall n :: n !in keep ==> NoPod(s, n)
  {
    hide NoCtr, NoPod, FoundAll, GoneCtrs, GonePods, Found;
    forall n | n !in keep
      ensures gone == ctrs.Keys - keep && GoneCtrs(s, gone) ==> NoCtr(s, n)
      ensures gone == pods.Keys - keep && GonePods(s, gone) ==> NoPod(s, n)
    {
      FoundAt(s, names, pods, ctrs, {}, n);
      NotFound(s, n, Get(pods, n), Get(ctrs, n));
      if n in gone { GoneAt(s, gone, n); }
    }
  }

  lemma NotFound(s: Sys, n: string, pod: Option<nat>, ctr: Option<(nat, Ctr)>)
    requires Found(s, n, pod, ctr)
    ensures (ctr.None? ==> NoCtr(s, n)) && (pod.None? ==> NoPod(s, n))
  {
  }

  lemma StillThere(s: Sys, t: Sys, ns: set<string>, pods: map<string, nat>, ctrs: map<string, (nat, Ctr)>, n: string)
    requires n in ns && SameNamed(ns, s, t)
    ensures PodsExact(s, pods) && n in pods ==> pods[n] in t.pods
    ensures CtrsExact(s, ctrs) && n in ctrs ==> ctrs[n].0 in t.ctrs
  {
  }

  /** Removing name n takes nothing else along and brings nothing back. */
  lemma StaleRemoved(s: Sys, t: Sys, u: Sys, ns: set<string>, gone: set<string>, n: string)
    requires n !in ns && SameNamed(ns + {n}, s, t) && SameOutside(n, t, u) && Shrunk(t, u)
    ensures SameNamed(ns, s, u)
    ensures GoneCtrs(t, gone) && NoCtr(u, n) ==> GoneCtrs(u, gone + {n})
    ensures GonePods(t, gone) && NoPod(u, n) ==> GonePods(u, gone + {n})
  {
    forall m | m in gone && GoneCtrs(t, gone) ensures NoCtr(u, m) {
      StillNoCtr(t, u, m);
    }
  }

  lemma ShrunkSelf(n: string, s: Sys)
    ensures ShrunkOutside(n, s, s)
  {
  }

  lemma LabelledBy(spec: Spec)
    requires Valid(spec)
    ensures Labelled(Stream(spec), spec)
  {
  }

  lemma GoneCtr(s: Sys, t: Sys, id: nat, n: string)
    requires Shrunk(s, t) && id !in t.ctrs && forall c :: c in s.ctrs && s.ctrs[c].name == n ==> c == id
    ensures NoCtr(t, n)
  {
    forall c | c in t.ctrs ensures t.ctrs[c].name != n { assert Same(s.ctrs[c], t.ctrs[c]); }
  }

  lemma GonePod(s: Sys, t: Sys, id: nat, n: string)
    requires Shrunk(s, t) && id !in t.pods && forall p :: p in s.pods && s.pods[p].name == n ==> p == id
    ensures NoPod(t, n)
  {
  }

  lemma OnePod(s: Sys, n: string)
    requires OnePerName(s)
    ensures forall p, q :: p in s.pods && q in s.pods && s.pods[p].name == n == s.pods[q].name ==> p == q
  {
  }

  lemma StillNoCtr(s: Sys, t: Sys, n: string)
    requires NoCtr(s, n) && forall c :: c in t.ctrs ==> c in s.ctrs && Same(s.ctrs[c], t.ctrs[c])
    ensures NoCtr(t, n)
  {
    forall c | c in t.ctrs ensures t.ctrs[c].name != n { assert Same(s.ctrs[c], t.ctrs[c]); }
  }

  lemma FoundShrinks(s: Sys, t: Sys, n: string, pod: Option<nat>, ctr: Option<(nat, Ctr)>)
    requires Found(s, n, pod, ctr) && Shrunk(s, t)
    ensures Found(t, n, pod, ctr)
  {
    forall c | c in t.ctrs && t.ctrs[c].name == n ensures ctr.Some? && ctr.value.0 == c {
      assert Same(s.ctrs[c], t.ctrs[c]);
    }
  }

  lemma SameAsBefore(n: string, s: Sys)
    ensures SameOutside(n, s, s)
  {
  }

  lemma QuietIsSafe(spec: Spec, ctr: Option<(nat, Ctr)>, a: seq<Event>, b: seq<Event>)
    requires NoCalls(b, |a|)
    ensures EnsureSafe(spec, ctr, b, |a|)
  {
  }

  /** A recreate after the image was found present keeps the order ensure owes. */
  lemma RecreateIsSafe(spec: Spec, ctr: Option<(nat, Ctr)>, a: seq<Event>, b: seq<Event>)
    requires Valid(spec) && !(ctr.Some? && Kept(spec, ctr.value.1))
    requires |a| + 1 < |b| && b[|a|] == ImagePresent(spec.image) && !b[|a| + 1].Call?
    requires CallsOnly(spec.name, b, |a| + 2) && (|a| + 2 < |b| ==> Readied(spec, b[|a| + 1]))
    ensures EnsureSafe(spec, ctr, b, |a|)
  {
    hide Readied, SpecHash.Valid, Kept;
    forall i | |a| <= i < |b| && b[i].Call? ensures b[i].name == spec.name && Justified(spec, b, |a|, i) {
      assert b[|a|] == ImagePresent(spec.image) && Readied(spec, b[|a| + 1]);
    }
  }

  lemma KeptIsSettled(s: Sys, spec: Spec, pod: Option<nat>, ctr: Option<(nat, Ctr)>)
    requires Linked(s) && ctr.Some? && Kept(spec, ctr.value.1)
    ensures Exact(s, spec.name, pod, ctr) ==> Settled(s, spec)
  {
    if Exact(s, spec.name, pod, ctr) {
      var c := ctr.value.0;
      assert s.ctrs[c].pod in s.pods;
      assert s.ctrs[c].name == spec.name && Kept(spec, s.ctrs[c]);
    }
  }

  /** What a successful run, create and start leave behind. */
  lemma FreshIsSettled(s: Sys, spec: Spec, pod: Pod, ctr: Ctr)
    requires Linked(s) && pod.name == ctr.name == spec.name && ctr.hash == Stream(spec)
    ensures var t := StartCtr(CreateCtr(RunPod(s, pod), ctr), s.next + 1);
            SameOutside(spec.name, s, t) && Settled(t, spec)
  {
    var t := StartCtr(CreateCtr(RunPod(s, pod), ctr), s.next + 1);
    assert t.pods[s.next].name == spec.name;
    assert Kept(spec, t.ctrs[s.next + 1]) && t.ctrs[s.next + 1].name == spec.name;
  }
}
