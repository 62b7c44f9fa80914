// Container specs: validation and the drift hash (workload/workload.go,
// workload/volume.go, workload/device.go). SHA-256 is taken as injective, so the
// hash of a spec is the character stream that is fed to it.

module SpecHash {
  import opened Text

  const NUL: char := 0 as char
  const SOH: char := 1 as char

  datatype Spec = Spec(name: string, image: string, command: seq<string>, args: seq<string>,
                       env: seq<string>, mounts: seq<string>, restart: string, network: string,
                       ports: seq<string>, volumes: seq<string>, devices: seq<string>)

  datatype Port = Port(proto: string, number: nat)

  datatype Volume = Volume(name: string, path: string, readOnly: bool)

  // ---- Validation -----------------------------------------------------------

  function ParseUint(s: string): (r: Option<nat>) {
    if s == "" then None
    else if !IsDigit(s[|s| - 1]) then None
    else
      var d := s[|s| - 1] as nat - '0' as nat;
      if |s| == 1 then Some(d)
      else match ParseUint(s[..|s| - 1])
           case None => None
           case Some(n) => Some(10 * n + d)
  }

  function ParsePort(s: string): Option<Port> {
    match Cut(s, ':')
    case None => None
    case Some((proto, num)) =>
      if proto != "tcp" then None
      else match ParseUint(num)
           case None => None
           case Some(n) => if 0 < n <= 65535 then Some(Port(proto, n)) else None
  }

  predicate VolumeName(s: string) {
    && 1 <= |s| <= 63
    && (IsLower(s[0]) || IsDigit(s[0]))
    && (forall i :: 1 <= i < |s| ==> IsLower(s[i]) || IsDigit(s[i]) || s[i] in "_.-")
    && (forall i :: 0 < i < |s| ==> !(s[i - 1] == '.' && s[i] == '.'))
  }

  /** An absolute path other than "/" that path.Clean leaves alone. */
  predicate CleanAbsolute(p: string) {
    && |p| >= 2 && p[0] == '/'
    && forall part :: part in Split(p[1..], '/') ==> part !in ["", ".", ".."]
  }

  function ParseVolume(v: string): Option<Volume> {
    var parts := Split(v, ':');
    if !(2 <= |parts| <= 3) then None
    else if !VolumeName(parts[0]) || !CleanAbsolute(parts[1]) then None
    else if |parts| == 3 && parts[2] != "ro" then None
    else Some(Volume(parts[0], parts[1], |parts| == 3))
  }

  predicate Word(s: string, first: char -> bool, middle: string) {
    && s != "" && first(s[0]) && IsAlnum(s[|s| - 1])
    && forall i :: 0 <= i < |s| ==> IsAlnum(s[i]) || s[i] in middle
  }

  predicate IsLetter(c: char) { IsLower(c) || IsUpper(c) }

  /** The CDI name grammar vendor/class=name. */
  predicate DeviceName(d: string) {
    match Cut(d, '/')
    case None => false
    case Some((vendor, rest)) =>
      match Cut(rest, '=')
      case None => false
      case Some((class_, name)) =>
        Word(vendor, IsLetter, "_.-") && Word(class_, IsLetter, "_-") && Word(name, IsAlnum, "_.:-")
  }

  predicate Unique(s: seq<string>) {
    forall i, j :: 0 <= i < j < |s| ==> s[i] != s[j]
  }

  predicate PortsParse(ports: seq<string>) { forall p :: p in ports ==> ParsePort(p).Some? }

  predicate VolumesParse(vols: seq<string>) { forall v :: v in vols ==> ParseVolume(v).Some? }

  predicate DevicesParse(devs: seq<string>) { (forall d :: d in devs ==> DeviceName(d)) && Unique(devs) }

  predicate Valid(s: Spec) {
    && s.mounts == []
    && VolumesParse(s.volumes)
    && DevicesParse(s.devices)
    && match s.network {
         case "" => s.ports == []
         case "host" => s.ports == []
         case "pod" => PortsParse(s.ports)
         case _ => false
       }
  }

  method ParsePorts(ports: seq<string>) returns (r: Option<seq<Port>>)
    ensures r.Some? <==> PortsParse(ports)
    ensures r.Some? ==> |r.value| == |ports| &&
                        forall i :: 0 <= i < |ports| ==> ParsePort(ports[i]) == Some(r.value[i])
  {
    var out: seq<Port> := [];
    for i := 0 to |ports|
      invariant |out| == i
      invariant forall j :: 0 <= j < i ==> ParsePort(ports[j]) == Some(out[j])
    {
      match ParsePort(ports[i])
      case None => return None;
      case Some(p) => out := out + [p];
    }
    return Some(out);
  }

  method ParseVolumes(vols: seq<string>) returns (r: Option<seq<Volume>>)
    ensures r.Some? <==> VolumesParse(vols)
    ensures r.Some? ==> |r.value| == |vols| &&
                        forall i :: 0 <= i < |vols| ==> ParseVolume(vols[i]) == Some(r.value[i])
  {
    var out: seq<Volume> := [];
    for i := 0 to |vols|
      invariant |out| == i
      invariant forall j :: 0 <= j < i ==> ParseVolume(vols[j]) == Some(out[j])
    {
      match ParseVolume(vols[i])
      case None => return None;
      case Some(v) => out := out + [v];
    }
    return Some(out);
  }

  method ValidateDevices(devs: seq<string>) returns (ok: bool)
    ensures ok <==> DevicesParse(devs)
  {
    var seen: set<string> := {};
    for i := 0 to |devs|
      invariant seen == set d | d in devs[..i]
      invariant forall d :: d in devs[..i] ==> DeviceName(d)
      invariant Unique(devs[..i])
    {
      var d := devs[i];
      assert d in devs;
      if !DeviceName(d) { return false; }
      if d in seen {
        var j :| 0 <= j < i && devs[..i][j] == d;
        assert devs[j] == devs[i];
        return false;
      }
      seen := seen + {d};
      assert devs[..i + 1] == devs[..i] + [d];
    }
    assert devs[..|devs|] == devs;
    return true;
  }

  /** Spec.Validate: what the engine and the control plane run before anything else. */
  method Validate(s: Spec) returns (ok: bool)
    ensures ok <==> Valid(s)
  {
    if |s.mounts| > 0 { return false; }
    var vols := ParseVolumes(s.volumes);
    if vols.None? { return false; }
    var devs := ValidateDevices(s.devices);
    if !devs { return false; }
    match s.network {
      case "" => return |s.ports| == 0;
      case "host" => return |s.ports| == 0;
      case "pod" =>
        var ports := ParsePorts(s.ports);
        return ports.Some?;
      case _ => return false;
    }
  }

  // ---- What the grammars accept ---------------------------------------------

  lemma {:induction false} ParseUintIs(s: string)
    ensures ParseUint(s) == if s != "" && AllDigits(s) then Some(ValueOf(s)) else None
  {
    if |s| > 1 {
      ParseUintIs(s[..|s| - 1]);
    } else if |s| == 1 {
      assert s[..0] == "";
    }
  }

  /** "tcp:" and a decimal number from 1 to 65535, leading zeros allowed. */
  ghost predicate IsPort(s: string, port: Port) {
    && port.proto == "tcp" && 1 <= port.number <= 65535
    && exists num :: s == "tcp:" + num && num != "" && AllDigits(num) && ValueOf(num) == port.number
  }

  lemma PortGrammar(s: string, port: Port)
    ensures ParsePort(s) == Some(port) <==> IsPort(s, port)
  {
    var c := Cut(s, ':');
    if c.Some? {
      CutMeans(s, ':', c.value.0, c.value.1);
      ParseUintIs(c.value.1);
    }
    assert "tcp" + ":" == "tcp:";
    if num :| s == "tcp:" + num && num != "" && AllDigits(num) && ValueOf(num) == port.number {
      CutMeans(s, ':', "tcp", num);
      ParseUintIs(num);
    }
  }

  /** name:path or name:path:ro, read-only in the second form. */
  predicate IsVolume(s: string, v: Volume) {
    && VolumeName(v.name) && CleanAbsolute(v.path) && ':' !in v.path
    && s == v.name + ":" + v.path + (if v.readOnly then ":ro" else "")
  }

  lemma VolumeGrammar(s: string, v: Volume)
    ensures ParseVolume(s) == Some(v) <==> IsVolume(s, v)
  {
    hide CleanAbsolute, Split, Join;
    if VolumeName(v.name) { NoColon(v.name); }
    var parts := if v.readOnly then [v.name, v.path, "ro"] else [v.name, v.path];
    assert Join(parts, ':') == v.name + ":" + v.path + (if v.readOnly then ":ro" else "") by { JoinUpToThree(parts); }
    if VolumeName(v.name) && ':' !in v.path { SplitJoin(parts, ':'); }
    JoinSplit(s, ':');
    var split := Split(s, ':');
    if |split| == 2 { assert split == [split[0], split[1]]; }
    if |split| == 3 { assert split == [split[0], split[1], split[2]]; }
  }

  lemma JoinUpToThree(parts: seq<string>)
    requires 2 <= |parts| <= 3
    ensures Join(parts, ':') == parts[0] + ":" + parts[1] + if |parts| == 3 then ":" + parts[2] else ""
  {
    assert Join(parts[1..], ':') == parts[1] + if |parts| == 3 then ":" + parts[2] else "";
  }

  lemma NoColon(name: string)
    requires VolumeName(name)
    ensures ':' !in name
  {
  }

  lemma DeviceGrammar(d: string)
    ensures DeviceName(d) <==> exists vendor, class_, name :: IsDevice(d, vendor, class_, name)
  {
    hide Word;
    if DeviceName(d) {
      var (vendor, rest) := Cut(d, '/').value;
      var (class_, name) := Cut(rest, '=').value;
      CutMeans(d, '/', vendor, rest);
      CutMeans(rest, '=', class_, name);
      assert d == vendor + "/" + class_ + "=" + name;
      assert IsDevice(d, vendor, class_, name);
    }
    if vendor, class_, name :| IsDevice(d, vendor, class_, name) {
      WordHasNo(vendor, IsLetter, "_.-", '/');
      WordHasNo(class_, IsLetter, "_-", '=');
      assert d == vendor + "/" + (class_ + "=" + name);
      CutMeans(d, '/', vendor, class_ + "=" + name);
      CutMeans(class_ + "=" + name, '=', class_, name);
    }
  }

  lemma WordHasNo(s: string, first: char -> bool, middle: string, c: char)
    requires Word(s, first, middle) && !IsAlnum(c) && c !in middle
    ensures c !in s
  {
  }

  /** vendor/class=name */
  ghost predicate IsDevice(d: string, vendor: string, class_: string, name: string) {
    && d == vendor + "/" + class_ + "=" + name
    && Word(vendor, IsLetter, "_.-") && Word(class_, IsLetter, "_-") && Word(name, IsAlnum, "_.:-")
  }

  ghost predicate SomePort(s: string) { exists port :: IsPort(s, port) }

  ghost predicate SomeVolume(s: string) { exists v :: IsVolume(s, v) }

  ghost predicate SomeDevice(s: string) { exists vendor, class_, name :: IsDevice(s, vendor, class_, name) }

  /** A spec is accepted exactly when it mounts no host path, its volumes and devices are
      well-formed, no device comes twice, and it names a network: the node's, and then no
      ports, or the pod's, and then only well-formed ones. */
  lemma ValidGrammar(s: Spec)
    ensures Valid(s) <==>
              && s.mounts == [] && (forall v :: v in s.volumes ==> SomeVolume(v))
              && (forall d :: d in s.devices ==> SomeDevice(d))
              && (forall i, j :: 0 <= i < j < |s.devices| ==> s.devices[i] != s.devices[j])
              && ((s.network in {"", "host"} && s.ports == [])
                  || (s.network == "pod" && forall p :: p in s.ports ==> SomePort(p)))
  {
    hide ParsePort, ParseVolume, DeviceName, IsPort, IsVolume, IsDevice;
    forall p ensures SomePort(p) <==> ParsePort(p).Some? {
      if port :| IsPort(p, port) { PortGrammar(p, port); }
      if ParsePort(p).Some? { PortGrammar(p, ParsePort(p).value); }
    }
    forall v ensures SomeVolume(v) <==> ParseVolume(v).Some? {
      if w :| IsVolume(v, w) { VolumeGrammar(v, w); }
      if ParseVolume(v).Some? { VolumeGrammar(v, ParseVolume(v).value); }
    }
    forall d ensures SomeDevice(d) <==> DeviceName(d) { DeviceGrammar(d); }
    hide SomePort, SomeVolume, SomeDevice;
  }

  // ---- The stream fed to the digest -----------------------------------------

  function Group(parts: seq<string>): string {
    if parts == [] then [SOH] else parts[0] + [NUL] + Group(parts[1..])
  }

  function Frame(groups: seq<seq<string>>): string {
    if groups == [] then "" else Group(groups[0]) + Frame(groups[1..])
  }

  function NetworkGroups(s: Spec): seq<seq<string>> {
    if s.network != "" || |s.ports| > 0 then [[s.network], s.ports] else []
  }

  function VolumeGroups(s: Spec): seq<seq<string>> { if |s.volumes| > 0 then [s.volumes] else [] }

  function DeviceGroups(s: Spec): seq<seq<string>> { if |s.devices| > 0 then [["devices"], s.devices] else [] }

  function BaseGroups(s: Spec): (g: seq<seq<string>>)
    ensures |g| == 6
  {
    [[s.image], s.command, s.args, s.env, s.mounts, [s.restart]]
  }

  function Groups(s: Spec): seq<seq<string>> {
    BaseGroups(s) + NetworkGroups(s) + VolumeGroups(s) + DeviceGroups(s)
  }

  function Stream(s: Spec): string { Frame(Groups(s)) }

  method Write(h: string, parts: seq<string>) returns (h': string)
    ensures h' == h + Group(parts)
  {
    h' := h;
    for i := 0 to |parts|
      invariant h' + Group(parts[i..]) == h + Group(parts)
    {
      h' := h' + parts[i];
      h' := h' + [NUL];
      assert parts[i..][1..] == parts[i + 1..];
      assert h' + Group(parts[i + 1..]) == h + Group(parts);
    }
    h' := h' + [SOH];
  }

  lemma {:induction false} FrameAppend(gs: seq<seq<string>>, hs: seq<seq<string>>)
    ensures Frame(gs + hs) == Frame(gs) + Frame(hs)
  {
    if gs == [] {
      assert gs + hs == hs;
    } else {
      var all := gs + hs;
      assert all[0] == gs[0] && all[1..] == gs[1..] + hs;
      FrameAppend(gs[1..], hs);
      Associative(Group(gs[0]), Frame(gs[1..]), Frame(hs));
    }
  }

  lemma Associative(a: string, b: string, c: string)
    ensures (a + b) + c == a + (b + c)
  {
  }

  lemma FrameOne(g: seq<string>)
    ensures Frame([g]) == Group(g)
  {
    assert [g][1..] == [];
  }

  lemma FrameMore(gs: seq<seq<string>>, g: seq<string>)
    ensures Frame(gs + [g]) == Frame(gs) + Group(g)
  {
    FrameAppend(gs, [g]);
    FrameOne(g);
  }

  /** specHash: the groups are written one by one, the optional ones only when set. */
  method Hash(s: Spec) returns (h: string)
    ensures h == Stream(s)
  {
    h := "";
    ghost var done: seq<seq<string>> := [];
    var base := BaseGroups(s);
    for i := 0 to 6
      invariant h == Frame(base[..i])
    {
      h := Write(h, base[i]);
      FrameMore(base[..i], base[i]);
      assert base[..i + 1] == base[..i] + [base[i]];
    }
    done := base;
    assert base[..6] == base;
    if s.network != "" || |s.ports| > 0 {
      FrameMore(done, [s.network]);
      FrameMore(done + [[s.network]], s.ports);
      h := Write(h, [s.network]);
      h := Write(h, s.ports);
      done := done + [[s.network]] + [s.ports];
    }
    assert done == base + NetworkGroups(s);
    if |s.volumes| > 0 {
      FrameMore(done, s.volumes);
      h := Write(h, s.volumes);
      done := done + [s.volumes];
    }
    assert done == base + NetworkGroups(s) + VolumeGroups(s);
    if |s.devices| > 0 {
      FrameMore(done, ["devices"]);
      FrameMore(done + [["devices"]], s.devices);
      h := Write(h, ["devices"]);
      h := Write(h, s.devices);
      done := done + [["devices"]] + [s.devices];
    }
    assert done == Groups(s);
  }

  // ---- Decoding it again ----------------------------------------------------

  /** Reads groups back: a part ends at NUL, a group at a SOH in part position. */
  function Unframe(s: string, open: seq<string>): Option<seq<seq<string>>>
    decreases |s|
  {
    if s == "" then if open == [] then Some([]) else None
    else if s[0] == SOH then
      match Unframe(s[1..], [])
      case None => None
      case Some(r) => Some([open] + r)
    else
      var i := IndexOf(s, NUL);
      if i == |s| then None else Unframe(s[i + 1..], open + [s[..i]])
  }

  /** A network group pair in front: its network and ports, and what follows. */
  function TakeNetwork(r: seq<seq<string>>): (string, seq<string>, seq<seq<string>>) {
    if |r| >= 2 && r[0] in [["host"], ["pod"]] then (r[0][0], r[1], r[2..]) else ("", [], r)
  }

  function TakeVolumes(r: seq<seq<string>>): (seq<string>, seq<seq<string>>) {
    if |r| >= 1 && r[0] != ["devices"] then (r[0], r[1..]) else ([], r)
  }

  function TakeDevices(r: seq<seq<string>>): Option<seq<string>> {
    if r == [] then Some([]) else if |r| == 2 && r[0] == ["devices"] then Some(r[1]) else None
  }

  /** Rebuilds the hashed fields from the groups; the name is not hashed. */
  function Assemble(g: seq<seq<string>>): Option<Spec> {
    if |g| < 6 || |g[0]| != 1 || |g[5]| != 1 then None
    else
      var (network, ports, r) := TakeNetwork(g[6..]);
      var (volumes, r') := TakeVolumes(r);
      match TakeDevices(r')
      case None => None
      case Some(devices) => Some(Spec("", g[0][0], g[1], g[2], g[3], g[4], g[5][0], network, ports, volumes, devices))
  }

  function Decode(h: string): Option<Spec> {
    match Unframe(h, [])
    case None => None
    case Some(g) => Assemble(g)
  }

  /** A part survives the framing: no terminator inside, no group mark in front. */
  predicate CleanPart(p: string) {
    NUL !in p && (p == "" || p[0] != SOH)
  }

  predicate CleanParts(parts: seq<string>) { forall p :: p in parts ==> CleanPart(p) }

  predicate CleanGroups(gs: seq<seq<string>>) { forall g :: g in gs ==> CleanParts(g) }

  /** The free-form fields survive the framing; the rest follows from Valid. */
  predicate Framable(s: Spec) {
    && CleanPart(s.image) && CleanParts(s.command) && CleanParts(s.args)
    && CleanParts(s.env) && CleanPart(s.restart) && CleanParts(s.volumes)
  }

  lemma {:induction false} UnframeGroup(parts: seq<string>, rest: string, open: seq<string>)
    requires CleanParts(parts)
    ensures Unframe(Group(parts) + rest, open) ==
            match Unframe(rest, [])
            case None => None
            case Some(r) => Some([open + parts] + r)
  {
    var s := Group(parts) + rest;
    if parts == [] {
      assert s[1..] == rest;
      assert open + parts == open;
    } else {
      var p, tail := parts[0], Group(parts[1..]) + rest;
      assert CleanPart(p);
      assert s == p + [NUL] + tail;
      IndexOfPrefix(p, NUL, tail);
      assert s[..|p|] == p && s[|p| + 1..] == tail;
      assert s[0] == if p == "" then NUL else p[0];
      UnframeGroup(parts[1..], rest, open + [p]);
      assert open + [p] + parts[1..] == open + parts;
    }
  }

  /** The framing is uniquely readable on clean parts. */
  lemma {:induction false} UnframeFrame(gs: seq<seq<string>>)
    requires CleanGroups(gs)
    ensures Unframe(Frame(gs), []) == Some(gs)
  {
    if gs != [] {
      UnframeFrame(gs[1..]);
      UnframeGroup(gs[0], Frame(gs[1..]), []);
      assert [] + gs[0] == gs[0];
      assert gs == [gs[0]] + gs[1..];
    }
  }

  lemma {:induction false} DigitsOnly(s: string)
    requires ParseUint(s).Some?
    ensures forall i :: 0 <= i < |s| ==> IsDigit(s[i])
  {
    if |s| > 1 {
      DigitsOnly(s[..|s| - 1]);
    }
  }

  lemma ValidPortIsClean(s: string)
    requires ParsePort(s).Some?
    ensures CleanPart(s)
  {
    var i := IndexOf(s, ':');
    assert s[..i] == "tcp";
    DigitsOnly(s[i + 1..]);
    forall k | 0 <= k < |s| ensures s[k] != NUL {
      if k < i { assert s[k] == s[..i][k]; } else if k > i { assert s[k] == s[i + 1..][k - i - 1]; }
    }
    assert s[0] == s[..i][0];
  }

  lemma ValidDeviceIsClean(d: string)
    requires DeviceName(d)
    ensures CleanPart(d)
  {
    var i := IndexOf(d, '/');
    var vendor, rest := d[..i], d[i + 1..];
    var j := IndexOf(rest, '=');
    var class_, name := rest[..j], rest[j + 1..];
    forall k | 0 <= k < |d| ensures d[k] != NUL {
      if k < i {
        assert d[k] == vendor[k];
      } else if k > i {
        var m := k - i - 1;
        assert d[k] == rest[m];
        if m < j { assert rest[m] == class_[m]; } else if m > j { assert rest[m] == name[m - j - 1]; }
      }
    }
    assert d[0] == vendor[0];
  }

  /** A valid volume entry contains a colon, so it is never "host", "pod" or "devices". */
  lemma ValidVolumeHasColon(v: string)
    requires ParseVolume(v).Some?
    ensures ':' in v
  {
    if ':' !in v {
      IndexOfAbsent(v, ':');
    }
  }

  lemma GroupsClean(s: Spec)
    requires Valid(s) && Framable(s)
    ensures CleanGroups(Groups(s))
  {
    forall p | p in s.ports ensures CleanPart(p) { ValidPortIsClean(p); }
    forall d | d in s.devices ensures CleanPart(d) { ValidDeviceIsClean(d); }
    assert CleanPart(s.network);
    forall g | g in Groups(s) ensures CleanParts(g) {
      assert g in BaseGroups(s) || g in NetworkGroups(s) || g in VolumeGroups(s) || g in DeviceGroups(s);
    }
  }

  predicate HasColon(g: seq<string>) { g != [] && ':' in g[0] }

  lemma ColonIsNoTag(g: seq<string>)
    requires HasColon(g)
    ensures g != ["host"] && g != ["pod"] && g != ["devices"]
  {
    assert ':' !in "host" && ':' !in "pod" && ':' !in "devices";
  }

  /** The optional groups in the order they are written; Assemble's reading of them. */
  lemma AssembleTail(base: seq<seq<string>>, net: seq<seq<string>>, vol: seq<seq<string>>, dev: seq<seq<string>>)
    requires |base| == 6 && |base[0]| == 1 && |base[5]| == 1
    requires net == [] || (|net| == 2 && net[0] in [["host"], ["pod"]])
    requires vol == [] || (|vol| == 1 && HasColon(vol[0]))
    requires dev == [] || (|dev| == 2 && dev[0] == ["devices"])
    ensures Assemble(base + net + vol + dev) ==
            Some(Spec("", base[0][0], base[1], base[2], base[3], base[4], base[5][0],
                      if net == [] then "" else net[0][0], if net == [] then [] else net[1],
                      if vol == [] then [] else vol[0], if dev == [] then [] else dev[1]))
  {
    hide TakeNetwork, TakeVolumes, HasColon;
    TakeNetworkFirst(net, vol, dev);
    TakeVolumesFirst(vol, dev);
    AfterSix(base, net, vol, dev);
  }

  lemma AfterSix(base: seq<seq<string>>, net: seq<seq<string>>, vol: seq<seq<string>>, dev: seq<seq<string>>)
    requires |base| == 6
    ensures var g := base + net + vol + dev;
            |g| >= 6 && g[6..] == net + vol + dev
            && g[0] == base[0] && g[1] == base[1] && g[2] == base[2] && g[3] == base[3] && g[4] == base[4]
            && g[5] == base[5]
  {
    assert base + net + vol + dev == base + (net + vol + dev);
  }

  lemma TakeNetworkFirst(net: seq<seq<string>>, vol: seq<seq<string>>, dev: seq<seq<string>>)
    requires net == [] || (|net| == 2 && net[0] in [["host"], ["pod"]])
    requires vol == [] || (|vol| == 1 && HasColon(vol[0]))
    requires dev == [] || (|dev| == 2 && dev[0] == ["devices"])
    ensures TakeNetwork(net + vol + dev)
            == (if net == [] then "" else net[0][0], if net == [] then [] else net[1], vol + dev)
  {
    var r := net + vol + dev;
    if vol != [] { ColonIsNoTag(vol[0]); }
    if net == [] {
      assert r == vol + dev;
      assert r != [] ==> r[0] !in [["host"], ["pod"]];
    } else {
      assert r[2..] == vol + dev;
    }
  }

  lemma TakeVolumesFirst(vol: seq<seq<string>>, dev: seq<seq<string>>)
    requires vol == [] || (|vol| == 1 && HasColon(vol[0]))
    requires dev == [] || (|dev| == 2 && dev[0] == ["devices"])
    ensures TakeVolumes(vol + dev) == (if vol == [] then [] else vol[0], dev)
  {
    if vol == [] {
      assert vol + dev == dev;
    } else {
      ColonIsNoTag(vol[0]);
      assert (vol + dev)[1..] == dev;
    }
  }

  lemma ValidShapes(s: Spec)
    requires Valid(s)
    ensures NetworkGroups(s) == [] || s.network in ["host", "pod"]
    ensures NetworkGroups(s) == [] ==> s.network == "" && s.ports == []
    ensures VolumeGroups(s) == [] || HasColon(s.volumes)
  {
    hide ParseVolume;
    if s.volumes != [] {
      ValidVolumeHasColon(s.volumes[0]);
    }
  }

  lemma AssembleGroups(s: Spec)
    requires Valid(s)
    ensures Assemble(Groups(s)) == Some(s.(name := ""))
  {
    hide Assemble, Valid;
    ValidShapes(s);
    var net := NetworkGroups(s);
    assert net != [] ==> net[0] == [s.network];
    AssembleTail(BaseGroups(s), net, VolumeGroups(s), DeviceGroups(s));
  }

  /** Whatever reading produces is clean, so unclean parts can never be read back. */
  lemma {:induction false} UnframeIsClean(s: string, open: seq<string>)
    requires CleanParts(open)
    ensures Unframe(s, open).Some? ==> CleanGroups(Unframe(s, open).value)
    decreases |s|
  {
    if s != "" {
      if s[0] == SOH {
        UnframeIsClean(s[1..], []);
      } else {
        var i := IndexOf(s, NUL);
        if i < |s| {
          assert i > 0 ==> s[..i][0] == s[0];
          UnframeIsClean(s[i + 1..], open + [s[..i]]);
        }
      }
    }
  }

  /** The hashed stream of a valid spec decodes to its hashed fields exactly when
      its free-form fields survive the framing. */
  lemma DecodeStream(s: Spec)
    requires Valid(s)
    ensures Decode(Stream(s)) == Some(s.(name := "")) <==> Framable(s)
  {
    if Framable(s) {
      GroupsClean(s);
      UnframeFrame(Groups(s));
      AssembleGroups(s);
    } else {
      UnframeIsClean(Stream(s), []);
      if Decode(Stream(s)) == Some(s.(name := "")) {
        AssembledClean(Unframe(Stream(s), []).value);
      }
    }
  }

  lemma AssembledClean(g: seq<seq<string>>)
    requires CleanGroups(g) && Assemble(g).Some?
    ensures Framable(Assemble(g).value)
  {
    var s := Assemble(g).value;
    assert g[0] in g && g[1] in g && g[2] in g && g[3] in g && g[5] in g;
    assert s.image in g[0] && s.restart in g[5];
    assert s.volumes == [] || s.volumes in g;
  }

  /** Equal hashes mean equal specs up to the name, and conversely. */
  lemma HashIdentifiesSpec(s: Spec, t: Spec)
    requires Valid(s) && Framable(s) && Valid(t) && Framable(t)
    ensures Stream(s) == Stream(t) <==> s.(name := "") == t.(name := "")
  {
    DecodeStream(s);
    DecodeStream(t);
    if s.(name := "") == t.(name := "") {
      assert Groups(s) == Groups(t);
    }
  }

  // ---- Why both hypotheses are needed ---------------------------------------

  const BLANK := Spec("web", "nginx", [], [], [], [], "always", "", [], [], [])

  /** Without Valid: a made-up network name reads as the tag of the device group. */
  lemma CollisionWithoutValidation()
    ensures var s := BLANK.(network := "devices", ports := ["a/b=c"]);
            var t := BLANK.(devices := ["a/b=c"]);
            Stream(s) == Stream(t) && s.(name := "") != t.(name := "") && Framable(s) && Framable(t)
            && !Valid(s)
  {
    var s := BLANK.(network := "devices", ports := ["a/b=c"]);
    var t := BLANK.(devices := ["a/b=c"]);
    assert Groups(s) == Groups(t);
  }

  /** Without Framable: a NUL inside an argument splits it. */
  lemma CollisionOnNul()
    ensures var s := BLANK.(args := [['a', NUL, 'b']]);
            var t := BLANK.(args := ["a", "b"]);
            Stream(s) == Stream(t) && s != t && Valid(s) && Valid(t) && !Framable(s) && Framable(t)
  {
    var one, two := [['a', NUL, 'b']], ["a", "b"];
    var s, t := BLANK.(args := one), BLANK.(args := two);
    assert Stream(s) == Stream(t) by {
      NulSplits();
      CollisionAt(s, t);
    }
    hide Stream, VolumesParse, DevicesParse, PortsParse;
    NoneParse();
    assert !CleanPart(one[0]) && one[0] in s.args by { assert one[0][1] == NUL; }
    assert CleanPart("a") && CleanPart("b");
  }

  lemma NoneParse()
    ensures VolumesParse([]) && DevicesParse([]) && PortsParse([])
  {
  }

  lemma NulSplits()
    ensures Group([['a', NUL, 'b']]) == Group(["a", "b"])
  {
    var one, two := [['a', NUL, 'b']], ["a", "b"];
    assert one[1..] == [] && two[1..] == ["b"] && two[1..][1..] == [];
    assert Group(one) == ['a', NUL, 'b', NUL, SOH] == Group(two);
  }

  lemma CollisionAt(s: Spec, t: Spec)
    requires Group(s.args) == Group(t.args) && s.(args := []) == t.(args := [])
    ensures Stream(s) == Stream(t)
  {
    var rest := [s.env, s.mounts, [s.restart]] + NetworkGroups(s) + VolumeGroups(s) + DeviceGroups(s);
    var head := [[s.image], s.command];
    FrameMiddle(head, s.args, t.args, rest);
    GroupsAround(s, head, rest);
    GroupsAround(t, head, rest);
  }

  lemma GroupsAround(s: Spec, head: seq<seq<string>>, rest: seq<seq<string>>)
    requires head == [[s.image], s.command]
    requires rest == [s.env, s.mounts, [s.restart]] + NetworkGroups(s) + VolumeGroups(s) + DeviceGroups(s)
    ensures Groups(s) == head + [s.args] + rest
  {
    hide NetworkGroups, VolumeGroups, DeviceGroups;
  }

  lemma FrameMiddle(head: seq<seq<string>>, g: seq<string>, h: seq<string>, rest: seq<seq<string>>)
    requires Group(g) == Group(h)
    ensures Frame(head + [g] + rest) == Frame(head + [h] + rest)
  {
    hide Frame, Group;
    FrameAppend(head + [g], rest);
    FrameAppend(head + [h], rest);
    FrameMore(head, g);
    FrameMore(head, h);
  }
}
