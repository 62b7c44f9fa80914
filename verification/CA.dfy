// The certificate authority's token and serial protocol (ca/ca.go) over its certificate
// storage, seen as a map from common names to serials beside a counter that rises on every
// change. Each method is one critical section; a crash may fall between any two, and a save
// that fails stands for a crash between the storage's change and the save.

module CertificateAuthority {
  import opened Text

  type Token = string

  datatype Info = Info(exp: int, usage: string, commonNameSuffix: string)

  datatype Cert = Cert(cn: string, serial: nat, app: string, pubKey: string)

  /** The encrypted state file. */
  datatype CAState = CAState(serial: nat, recordCounter: nat)

  /** A bootstrap handshake past its token check. */
  datatype Session = Session(token: Token, info: Info, now: int)

  datatype Grant = Grant(token: Token, cert: Cert, now: int)

  /** The rest of a handshake request; sigOk: a signature is there and verifies; cnOk: the
      caller's validation of the common name. */
  datatype Request = Request(app: string, pubKeyKind: string, pubKey: string, cn: string, sigOk: bool, cnOk: bool)

  /** A big.Int: shared, and changed in place. */
  class Number {
    var v: nat

    constructor (v: nat)
      ensures this.v == v
    {
      this.v := v;
    }
  }

  // ---- What every step keeps ------------------------------------------------

  /** VerifyCertificate's question to the storage. */
  predicate Current(certs: map<string, nat>, c: Cert) { c.cn in certs && certs[c.cn] == c.serial }

  ghost predicate AllBelow(certs: map<string, nat>, released: seq<Cert>, serial: nat) {
    && (forall cn :: cn in certs ==> certs[cn] < serial)
    && (forall c :: c in released ==> c.serial < serial)
  }

  ghost predicate Increasing(released: seq<Cert>) {
    forall i, j :: 0 <= i < j < |released| ==> released[i].serial < released[j].serial
  }

  /** No certificate that stopped verifying verifies again. */
  ghost predicate NoRevival(before: map<string, nat>, after: map<string, nat>, released: seq<Cert>) {
    forall c :: c in released && Current(after, c) ==> Current(before, c)
  }

  /** A grant follows the token it used: its application, its name space, its deadline. */
  predicate Allowed(info: Info, g: Grant) {
    && g.now <= info.exp && g.cert.app == info.usage
    && HasSuffix(g.cert.cn, info.commonNameSuffix) && g.cert.cn != info.commonNameSuffix
  }

  /** Every token is unused, held by one handshake, granted once, or gone. */
  ghost predicate TokensOnce(infos: map<Token, Info>, open: map<Token, Info>, sessions: map<nat, Session>,
                             grants: seq<Grant>) {
    && (forall t :: t in open ==> t in infos && infos[t] == open[t])
    && (forall s :: s in sessions ==> && sessions[s].token in infos && infos[sessions[s].token] == sessions[s].info
                                      && sessions[s].token !in open && sessions[s].now <= sessions[s].info.exp)
    && (forall s, t :: s in sessions && t in sessions && sessions[s].token == sessions[t].token ==> s == t)
    && (forall g :: g in grants ==> g.token in infos && g.token !in open && Allowed(infos[g.token], g))
    && (forall g, s :: g in grants && s in sessions ==> g.token != sessions[s].token)
    && (forall i, j :: 0 <= i < j < |grants| ==> grants[i].token != grants[j].token)
  }

  /** At most one of the certificates ever handed out for a name verifies. */
  lemma OneVerifies(certs: map<string, nat>, released: seq<Cert>, i: nat, j: nat)
    requires Increasing(released) && i < |released| && j < |released| && released[i].cn == released[j].cn
    requires Current(certs, released[i]) && Current(certs, released[j])
    ensures i == j
  {
  }

  /** A handshake ends without a grant, or with one by its token's terms. */
  lemma HandshakeEnds(infos: map<Token, Info>, open: map<Token, Info>, sessions: map<nat, Session>, grants: seq<Grant>,
                      id: nat)
    requires TokensOnce(infos, open, sessions, grants) && id in sessions
    ensures TokensOnce(infos, open, sessions - {id}, grants)
    ensures sessions[id].now <= sessions[id].info.exp
    ensures forall g: Grant :: g.token == sessions[id].token && Allowed(sessions[id].info, g) ==>
              TokensOnce(infos, open, sessions - {id}, grants + [g])
  {
  }

  lemma NewSerialRevivesNothing(certs: map<string, nat>, released: seq<Cert>, cn: string, serial: nat)
    requires AllBelow(certs, released, serial)
    ensures NoRevival(certs, certs[cn := serial], released)
    ensures AllBelow(certs[cn := serial], released, serial + 1)
  {
  }

  lemma ReleaseInOrder(released: seq<Cert>, c: Cert)
    requires Increasing(released) && forall d :: d in released ==> d.serial < c.serial
    ensures Increasing(released + [c])
  {
  }

  /** A name inside the token's name space: something before the suffix. */
  ghost predicate Under(cn: string, suffix: string) { exists front :: front != "" && cn == front + suffix }

  lemma SuffixMeans(cn: string, suffix: string)
    ensures Under(cn, suffix) <==> HasSuffix(cn, suffix) && cn != suffix
  {
    if HasSuffix(cn, suffix) && cn != suffix {
      var front := cn[..|cn| - |suffix|];
      assert cn == front + suffix;
    }
    if Under(cn, suffix) {
      var front :| front != "" && cn == front + suffix;
    }
  }

  lemma NotUnderAnything(suffix: string)
    ensures !Under("", suffix)
  {
  }

  /** A request the token's terms grant, for a valid name under a key that signed it. */
  ghost predicate Grantable(req: Request, info: Info) {
    && req.sigOk && req.cnOk && req.pubKeyKind == "ed25519" && req.pubKey != ""
    && req.app == info.usage && req.app != "" && Under(req.cn, info.commonNameSuffix)
  }

  class CA {
    /** No storage call, signing or save fails. */
    const reliable: bool
    // on disk
    var certs: map<string, nat>
    var recordCounter: nat
    var saved: CAState
    // in memory
    var serialNum: Number
    var bootstrapInfo: map<Token, Info>
    var sessions: map<nat, Session>
    // history
    ghost var released: seq<Cert>
    ghost var infos: map<Token, Info>
    ghost var grants: seq<Grant>

    ghost predicate Valid()
      reads this, serialNum
    {
      && AllBelow(certs, released, serialNum.v) && Increasing(released)
      && SavedIsSafe()
      && TokensOnce(infos, bootstrapInfo, sessions, grants)
    }

    /** A restart now would not be refused: nothing changed since the last save. */
    ghost predicate Restartable()
      reads this
    {
      saved.recordCounter == recordCounter
    }

    /** The saved state is behind the storage, or its serial is above everything. */
    ghost predicate SavedIsSafe()
      reads this
    {
      && saved.recordCounter <= recordCounter
      && (saved.recordCounter == recordCounter ==> AllBelow(certs, released, saved.serial))
    }

    /** NewSelfSignedCA: serial 1 is its own. */
    constructor (recordCounter: nat, reliable: bool)
      ensures Valid() && fresh(serialNum) && serialNum.v == 2 && released == [] && certs == map[] && grants == []
      ensures infos == map[] && this.reliable == reliable
    {
      this.reliable, certs := reliable, map[];
      this.recordCounter := recordCounter + 1;
      serialNum := new Number(2);
      bootstrapInfo, sessions := map[], map[];
      saved := CAState(2, recordCounter + 1);
      released, infos, grants := [], map[], [];
    }

    // ---- Storage --------------------------------------------------------------

    method Fails() returns (f: bool)
      ensures reliable ==> !f
    {
      var fail: bool := *;
      f := fail && !reliable;
    }

    /** A successful change moves the counter by at least one. */
    method Mutate(next: map<string, nat>)
      modifies this`certs, this`recordCounter
      ensures certs == next && recordCounter > old(recordCounter)
    {
      var more: int := *;
      certs, recordCounter := next, recordCounter + 1 + (if more > 0 then more else 0);
    }

    /** saveCAState writes the file or leaves it alone. */
    method SaveCAState() returns (ok: bool)
      requires AllBelow(certs, released, serialNum.v) && SavedIsSafe()
      modifies this`saved
      ensures SavedIsSafe()
      ensures saved == if ok then CAState(serialNum.v, recordCounter) else old(saved)
      ensures reliable ==> ok
    {
      var fail := Fails();
      if fail { return false; }
      saved := CAState(serialNum.v, recordCounter);
      ok := true;
    }

    // ---- Certificates ---------------------------------------------------------

    method IssueCertificate(cn: string, pubKey: string, app: string) returns (r: Option<Cert>)
      requires Valid()
      modifies this`certs, this`recordCounter, this`saved, this`released, serialNum
      ensures Valid() && NoRevival(old(certs), certs, old(released))
      ensures r.Some? ==>
                r.value == Cert(cn, old(serialNum.v), app, pubKey) && cn !in old(certs) && Current(certs, r.value)
                          && released == old(released) + [r.value] && saved == CAState(serialNum.v, recordCounter)
      ensures r.None? ==> released == old(released)
      ensures certs == old(certs) || (cn !in old(certs) && certs == old(certs)[cn := old(serialNum.v)])
      ensures serialNum.v == old(serialNum.v) + if certs == old(certs) then 0 else 1
      ensures cn in old(certs) || cn == "" || app == "" ==> r.None? && certs == old(certs)
      ensures reliable && cn != "" && app != "" && cn !in old(certs) ==> r.Some?
    {
      if cn == "" || app == "" { return None; }
      var cert := Cert(cn, serialNum.v, app, pubKey);
      var fail := Fails();
      if fail || cn in certs { return None; }
      NewSerialRevivesNothing(certs, released, cn, serialNum.v);
      Mutate(certs[cn := serialNum.v]);
      serialNum.v := serialNum.v + 1;
      var ok := SaveCAState();
      if !ok { return None; }
      ReleaseInOrder(released, cert);
      released := released + [cert];
      r := Some(cert);
    }

    /** A renewal. The number it returns is the template's, which is the authority's own
        counter, already moved past the certificate's serial. */
    method UpdateCertificate(cn: string, pubKey: string, app: string) returns (r: Option<Cert>, num: Number, ok: bool)
      requires Valid()
      modifies this`certs, this`recordCounter, this`saved, this`released, serialNum
      ensures Valid() && NoRevival(old(certs), certs, old(released))
      ensures r.Some? ==>
                r.value == Cert(cn, old(serialNum.v), app, pubKey) && cn in old(certs) && Current(certs, r.value)
                          && released == old(released) + [r.value]
                          && num == serialNum && num.v == r.value.serial + 1
                          && certs == old(certs)[cn := r.value.serial]
      ensures ok ==> r.Some? && saved == CAState(serialNum.v, recordCounter)
      ensures r.None? ==> released == old(released) && certs == old(certs) && serialNum.v == old(serialNum.v)
      ensures cn == "" || app == "" ==> r.None?
      ensures reliable && cn != "" && app != "" && cn in old(certs) ==> ok
    {
      r, num, ok := None, serialNum, false;
      if cn == "" || app == "" { return; }
      var cert := Cert(cn, serialNum.v, app, pubKey);
      var fail := Fails();
      if fail || cn !in certs { return; }
      NewSerialRevivesNothing(certs, released, cn, serialNum.v);
      Mutate(certs[cn := serialNum.v]);
      num.v := num.v + 1;
      ReleaseInOrder(released, cert);
      ok := SaveCAState();
      released := released + [cert];
      r := Some(cert);
    }

    method RevokeCertificate(cn: string) returns (ok: bool)
      requires Valid()
      modifies this`certs, this`recordCounter, this`saved
      ensures Valid() && NoRevival(old(certs), certs, released)
      ensures ok ==> Restartable()
      ensures ok ==> cn in old(certs) && certs == old(certs) - {cn} && forall c :: c in released && c.cn == cn ==>
                !Current(certs, c)
      ensures cn !in old(certs) ==> !ok && certs == old(certs)
      ensures certs == old(certs) || certs == old(certs) - {cn}
      ensures reliable ==> (ok <==> cn in old(certs))
    {
      var fail := Fails();
      if fail || cn !in certs { return false; }
      Mutate(certs - {cn});
      ok := SaveCAState();
    }

    /** DeleteExpiredCertificates; the storage may fail having removed only some. */
    method DeleteExpired(expired: set<string>) returns (ok: bool)
      requires Valid()
      modifies this`certs, this`recordCounter, this`saved
      ensures Valid() && NoRevival(old(certs), certs, released)
      ensures ok ==> Restartable() && certs == old(certs) - expired
      ensures reliable ==> ok
      ensures forall cn :: cn in old(certs) && cn !in expired ==> cn in certs && certs[cn] == old(certs)[cn]
    {
      var fail := Fails();
      var some: set<string> := *;
      if fail {
        Mutate(certs - (expired * some));
        return false;
      }
      if expired !! certs.Keys {
        assert certs - expired == certs;
      } else {
        Mutate(certs - expired);
      }
      ok := SaveCAState();
    }

    /** Private keys, blobs and deletions: changes that touch no certificate. */
    method MutateOther() returns (ok: bool)
      requires Valid()
      modifies this`certs, this`recordCounter, this`saved
      ensures Valid() && certs == old(certs) && (ok ==> Restartable())
      ensures recordCounter == old(recordCounter) ==> saved == old(saved)
      ensures reliable ==> ok
    {
      var fail := Fails();
      if fail { return false; }
      Mutate(certs);
      ok := SaveCAState();
    }

    /** SaveOrUpdateKeyPair: a key pair that exists is updated, but then the call ends in an
        error before the state is saved, and a restart is refused until something else is. */
    method SaveOrUpdateKeyPair(present: bool) returns (ok: bool, changed: bool)
      requires Valid()
      modifies this`certs, this`recordCounter, this`saved
      ensures Valid() && certs == old(certs) && (ok ==> Restartable())
      ensures changed <==> recordCounter != old(recordCounter)
      ensures present ==> !ok && saved == old(saved) && (changed ==> !Restartable())
      ensures reliable ==> changed && (ok <==> !present)
    {
      ok, changed := false, false;
      var fail := Fails();
      if fail { return; }
      Mutate(certs);
      changed := true;
      if !present { ok := SaveCAState(); }
    }

    /** x509Ok: the signature chain, key usage and application checks. */
    method VerifyCertificate(c: Cert, x509Ok: bool) returns (ok: bool)
      ensures ok <==> x509Ok && Current(certs, c)
    {
      if !x509Ok || c.cn !in certs { return false; }
      ok := certs[c.cn] == c.serial;
    }

    /** A renewal handshake: the old certificate is verified outside the lock, so the storage
        may have moved on by the time of the update. */
    method UpdateHandshake(pubKeyKind: string, pubKey: string, sigOk: bool, cn: string,
                           app: string) returns (r: Option<Cert>)
      requires Valid()
      modifies this`certs, this`recordCounter, this`saved, this`released, serialNum
      ensures Valid() && NoRevival(old(certs), certs, old(released))
      ensures r.Some? ==>
                && sigOk && pubKeyKind == "ed25519" && pubKey != "" && cn in old(certs)
                && r.value == Cert(cn, old(serialNum.v), app, pubKey) && certs == old(certs)[cn := r.value.serial]
                && released == old(released) + [r.value]
      ensures reliable && sigOk && pubKeyKind == "ed25519" && pubKey != "" && cn in old(certs) && cn != "" && app != ""
              ==> r.Some?
    {
      if pubKeyKind == "" || pubKey == "" || !sigOk || pubKeyKind != "ed25519" { return None; }
      var c, _, ok := UpdateCertificate(cn, pubKey, app);
      r := if ok then c else None;
    }

    // ---- Tokens ---------------------------------------------------------------

    /** The token's sixteen random bytes are taken to be new. */
    method GenerateBootstrapToken(token: Token, info: Info)
      requires Valid() && token !in infos
      modifies this`bootstrapInfo, this`infos
      ensures Valid() && bootstrapInfo == old(bootstrapInfo)[token := info] && infos == old(infos)[token := info]
    {
      bootstrapInfo := bootstrapInfo[token := info];
      infos := infos[token := info];
    }

    method RevokeBootstrapToken(token: Token)
      requires Valid()
      modifies this`bootstrapInfo
      ensures Valid() && bootstrapInfo == old(bootstrapInfo) - {token}
    {
      bootstrapInfo := bootstrapInfo - {token};
    }

    method DeleteExpiredBootstrapTokens(now: int)
      requires Valid()
      modifies this`bootstrapInfo
      ensures Valid()
      ensures bootstrapInfo ==
                map t | t in old(bootstrapInfo) && now <= old(bootstrapInfo)[t].exp :: old(bootstrapInfo)[t]
    {
      var todo := bootstrapInfo.Keys;
      while todo != {}
        invariant Valid() && todo <= bootstrapInfo.Keys <= old(bootstrapInfo).Keys
        invariant forall t :: t in bootstrapInfo ==> bootstrapInfo[t] == old(bootstrapInfo)[t]
        invariant forall t :: t in bootstrapInfo && t !in todo ==> now <= bootstrapInfo[t].exp
        invariant forall t :: t in old(bootstrapInfo) && t !in bootstrapInfo ==> now > old(bootstrapInfo)[t].exp
      {
        var t :| t in todo;
        todo := todo - {t};
        if now > bootstrapInfo[t].exp { bootstrapInfo := bootstrapInfo - {t}; }
      }
    }

    /** The locked start of bootStrapHandshake: the token is spent whatever follows. */
    method TakeToken(id: nat, token: Token, now: int) returns (ok: bool)
      requires Valid() && id !in sessions
      modifies this`bootstrapInfo, this`sessions
      ensures Valid() && bootstrapInfo == old(bootstrapInfo) - {token}
      ensures ok <==> token in old(bootstrapInfo) && now <= old(bootstrapInfo)[token].exp
      ensures sessions == if ok then old(sessions)[id := Session(token, old(bootstrapInfo)[token], now)]
              else old(sessions)
    {
      if token !in bootstrapInfo { return false; }
      var info := bootstrapInfo[token];
      bootstrapInfo := bootstrapInfo - {token};
      if now > info.exp { return false; }
      sessions := sessions[id := Session(token, info, now)];
      ok := true;
    }

    /** The rest of it, ending in IssueCertificate. Other handshakes may have run in between. */
    method FinishBootstrap(id: nat, req: Request) returns (r: Option<Cert>)
      requires Valid() && id in sessions
      modifies this`sessions, this`certs, this`recordCounter, this`saved, this`released, this`grants, serialNum
      ensures Valid() && NoRevival(old(certs), certs, old(released)) && sessions == old(sessions) - {id}
      ensures r.Some? ==> var g := Grant(old(sessions)[id].token, r.value, old(sessions)[id].now);
                          grants == old(grants) + [g] && Allowed(old(sessions)[id].info, g)
                          && released == old(released) + [r.value] && Current(certs, r.value)
      ensures r.None? ==> grants == old(grants) && released == old(released)
      ensures r.Some? ==> Grantable(req, old(sessions)[id].info) && req.cn !in old(certs)
                          && r.value == Cert(req.cn, old(serialNum.v), req.app, req.pubKey)
      ensures reliable && Grantable(req, old(sessions)[id].info) && req.cn !in old(certs) ==> r.Some?
    {
      hide AllBelow, Increasing, HasSuffix, Under, TokensOnce;
      var s := sessions[id];
      HandshakeEnds(infos, bootstrapInfo, sessions, grants, id);
      SuffixMeans(req.cn, s.info.commonNameSuffix);
      NotUnderAnything(s.info.commonNameSuffix);
      sessions := sessions - {id};
      r := None;
      if req.pubKeyKind != "" && req.pubKey != "" && req.cn != ""
         && HasSuffix(req.cn, s.info.commonNameSuffix) && req.cn != s.info.commonNameSuffix
         && s.info.usage == req.app && req.pubKeyKind == "ed25519" && req.sigOk && req.cnOk
      {
        r := IssueCertificate(req.cn, req.pubKey, s.info.usage);
        if r.Some? { grants := grants + [Grant(s.token, r.value, s.now)]; }
      }
    }

    // ---- Restart --------------------------------------------------------------

    /** NewFromCAState after a crash or a shutdown: memory is gone, handshakes with it. It
        refuses unless the storage is as the saved state left it. loads: the state decodes, the
        CA key pair is the one it names, and it loads. */
    method Restart(loads: bool) returns (ok: bool, ca: CA)
      requires Valid()
      ensures ok <==> loads && Restartable()
      ensures ok ==>
                ca.Valid() && fresh(ca) && ca.certs == certs && ca.recordCounter == recordCounter && ca.saved == saved
                && ca.serialNum.v == saved.serial && ca.released == released && ca.infos == infos
                && ca.grants == grants
                && ca.bootstrapInfo == map[] && ca.sessions == map[] && ca.reliable == reliable
      ensures ok ==> AllBelow(certs, released, ca.serialNum.v)
    {
      ca := this;
      if !loads || recordCounter != saved.recordCounter { return false, this; }
      ca := new CA.FromState(reliable, certs, recordCounter, saved, released, infos, grants);
      ok := true;
    }

    constructor FromState(reliable: bool, certs: map<string, nat>, recordCounter: nat, saved: CAState,
                          ghost released: seq<Cert>, ghost infos: map<Token, Info>, ghost grants: seq<Grant>)
      requires AllBelow(certs, released, saved.serial) && Increasing(released) && recordCounter == saved.recordCounter
      requires TokensOnce(infos, map[], map[], grants)
      ensures Valid() && fresh(serialNum)
      ensures this.certs == certs && this.recordCounter == recordCounter && this.saved == saved
      ensures serialNum.v == saved.serial && this.reliable == reliable
      ensures this.released == released && this.infos == infos && this.grants == grants
      ensures bootstrapInfo == map[] && sessions == map[]
    {
      this.reliable, this.certs, this.recordCounter, this.saved := reliable, certs, recordCounter, saved;
      this.released, this.infos, this.grants := released, infos, grants;
      serialNum := new Number(saved.serial);
      bootstrapInfo, sessions := map[], map[];
    }
  }
}
