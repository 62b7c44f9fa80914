// The log fan-out (logbuf/logbuf.go, logbuf/tail.go): a ring of recent records, replayed to
// each new subscriber before its live ones, over channels that drop rather than block.

module LogBuf {

  datatype Record = Record(level: int, message: string, attrs: seq<(string, string)>)

  const SUB_BUFFER := 256
  const RECENT_LIMIT := 200

  /** A Go channel of capacity SUB_BUFFER. A send to a closed one panics. */
  datatype Chan = Chan(queue: seq<Record>, closed: bool)

  /** What became of a subscription: it was offered the records from..upTo of the whole log,
      in order; `got` are the positions of those it received or has queued; the others were
      dropped. */
  datatype Trace = Trace(from: nat, upTo: nat, got: seq<nat>, received: seq<Record>, dropped: nat)

  function Newest(all: seq<Record>): seq<Record> {
    if |all| <= RECENT_LIMIT then all else all[|all| - RECENT_LIMIT..]
  }

  function Range(from: nat, n: nat): (r: seq<nat>)
    ensures |r| == n && forall i :: 0 <= i < n ==> r[i] == from + i
  {
    seq(n, i requires 0 <= i => from + i)
  }

  /** A send with a default branch. */
  function Offered(c: Chan, r: Record): Chan {
    if |c.queue| < SUB_BUFFER then c.(queue := c.queue + [r]) else c
  }

  function OfferedTrace(t: Trace, c: Chan): Trace {
    if |c.queue| < SUB_BUFFER then t.(upTo := t.upTo + 1, got := t.got + [t.upTo])
    else t.(upTo := t.upTo + 1, dropped := t.dropped + 1)
  }

  /** Delivery is in order, without duplicates or inventions, and every record offered is
      accounted for. */
  ghost predicate Delivers(all: seq<Record>, c: Chan, t: Trace) {
    && t.from <= t.upTo <= |all| && |c.queue| <= SUB_BUFFER
    && |t.got| == |t.received| + |c.queue|
    && |t.got| + t.dropped == t.upTo - t.from
    && (forall i :: 0 <= i < |t.got| ==> t.from <= t.got[i] < t.upTo && (t.received + c.queue)[i] == all[t.got[i]])
    && (forall i, j :: 0 <= i < j < |t.got| ==> t.got[i] < t.got[j])
  }

  lemma {:induction false} OfferDelivers(all: seq<Record>, c: Chan, t: Trace)
    requires Delivers(all, c, t) && t.upTo < |all|
    ensures Delivers(all, Offered(c, all[t.upTo]), OfferedTrace(t, c))
  {
    assert t.received + (c.queue + [all[t.upTo]]) == (t.received + c.queue) + [all[t.upTo]];
  }

  lemma MoreIsLogged(all: seq<Record>, r: Record, c: Chan, t: Trace)
    requires Delivers(all, c, t)
    ensures Delivers(all + [r], c, t)
  {
  }

  lemma NewestIsSuffix(all: seq<Record>)
    ensures |Newest(all)| <= |all| && |Newest(all)| <= RECENT_LIMIT && Newest(all) == all[|all| - |Newest(all)|..]
  {
  }

  /** The ring holds everything until it is full. */
  lemma NewestIsFull(all: seq<Record>)
    ensures |all| <= RECENT_LIMIT ==> Newest(all) == all
    ensures |all| > RECENT_LIMIT ==> |Newest(all)| == RECENT_LIMIT && Newest(all) == all[|all| - RECENT_LIMIT..]
  {
  }

  /** A new subscriber starts with the newest records. */
  lemma BacklogDelivers(all: seq<Record>)
    ensures var from := |all| - |Newest(all)|;
            Delivers(all, Chan(Newest(all), false), Trace(from, |all|, Range(from, |Newest(all)|), [], 0))
  {
    NewestIsSuffix(all);
    hide Newest;
    SuffixDelivers(all, |all| - |Newest(all)|);
  }

  lemma SuffixDelivers(all: seq<Record>, from: nat)
    requires from <= |all| <= from + SUB_BUFFER
    ensures Delivers(all, Chan(all[from..], false), Trace(from, |all|, Range(from, |all| - from), [], 0))
  {
    var queue, got := all[from..], Range(from, |all| - from);
    assert [] + queue == queue;
    forall i | 0 <= i < |got| ensures from <= got[i] < |all| && ([] + queue)[i] == all[got[i]] {
      assert queue[i] == all[from + i];
    }
  }

  lemma {:induction false} Crowded(got: seq<nat>, lo: nat, hi: nat, i: nat)
    requires i < |got| == hi - lo
    requires forall k :: 0 <= k < |got| ==> lo <= got[k] < hi
    requires forall k, m :: 0 <= k < m < |got| ==> got[k] < got[m]
    ensures got[i] == lo + i
  {
    if |got| > 1 {
      var n := |got| - 1;
      forall k | 0 <= k < n ensures got[k] < hi - 1 { assert got[k] < got[n]; }
      if i < n {
        Crowded(got[..n], lo, hi - 1, i);
      } else {
        Crowded(got[..n], lo, hi - 1, n - 1);
        assert got[n - 1] < got[n];
      }
    }
  }

  /** What was received, followed by what is queued, is everything that was offered exactly
      when the queue was never full at an offer. */
  lemma ExactUnlessFull(all: seq<Record>, c: Chan, t: Trace)
    requires Delivers(all, c, t)
    ensures t.dropped == 0 <==> t.received + c.queue == all[t.from..t.upTo]
  {
    if t.dropped == 0 {
      forall i | 0 <= i < |t.got| ensures t.got[i] == t.from + i { Crowded(t.got, t.from, t.upTo, i); }
    }
  }

  class Buffer {
    var subs: set<nat>
    var closing: set<nat> // unsubscribed, not yet closed
    var recent: seq<Record>
    var chans: seq<Chan> // every channel ever handed out, by subscription
    ghost var all: seq<Record>
    ghost var traces: seq<Trace>

    ghost predicate Valid()
      reads this
    {
      && recent == Newest(all) && |traces| == |chans|
      && subs !! closing
      && (forall s :: s in subs ==> s < |chans| && !chans[s].closed)
      && (forall s :: s in closing ==> s < |chans| && !chans[s].closed)
      && (forall s :: 0 <= s < |chans| ==> Delivers(all, chans[s], traces[s]))
      && (forall s :: s in subs ==> traces[s].upTo == |all|)
    }

    constructor ()
      ensures Valid() && all == [] && chans == [] && subs == {} && closing == {}
    {
      subs, closing, recent, chans, all, traces := {}, {}, [], [], [], [];
    }

    /** A select-with-default send. */
    method Send(s: nat, r: Record)
      requires s < |chans| && !chans[s].closed
      modifies this`chans
      ensures chans == old(chans)[s := Offered(old(chans)[s], r)]
    {
      if |chans[s].queue| < SUB_BUFFER {
        chans := chans[s := chans[s].(queue := chans[s].queue + [r])];
      }
    }

    /** The new subscriber's queue is the backlog: the newest two hundred records. */
    method Subscribe() returns (s: nat)
      requires Valid()
      modifies this
      ensures Valid() && s == |old(chans)| && all == old(all) && subs == old(subs) + {s} && closing == old(closing)
      ensures chans == old(chans) + [Chan(Newest(all), false)]
      ensures traces[..s] == old(traces) && traces[s].from + |Newest(all)| == |all| && traces[s].dropped == 0
      ensures traces[s].received == []
    {
      hide Delivers, Newest;
      NewestIsSuffix(all);
      s := |chans|;
      chans := chans + [Chan([], false)];
      for i := 0 to |recent|
        invariant recent == old(recent) && subs == old(subs) && closing == old(closing) && all == old(all)
        invariant traces == old(traces)
        invariant chans == old(chans) + [Chan(recent[..i], false)]
      {
        Send(s, recent[i]);
        assert recent[..i + 1] == recent[..i] + [recent[i]];
      }
      assert recent[..|recent|] == recent;
      subs := subs + {s};
      ghost var from := |all| - |recent|;
      traces := traces + [Trace(from, |all|, Range(from, |recent|), [], 0)];
      BacklogDelivers(all);
    }

    /** The ring drops its oldest record when it is full. */
    method Retain(r: Record)
      requires recent == Newest(all)
      modifies this`recent, this`all
      ensures all == old(all) + [r] && recent == Newest(all)
    {
      if |recent| >= RECENT_LIMIT { recent := recent[1..]; }
      recent := recent + [r];
      all := all + [r];
    }

    /** Every subscriber is offered the record; nobody waits. */
    method Dispatch(r: Record)
      requires Valid()
      modifies this
      ensures Valid() && all == old(all) + [r] && subs == old(subs) && closing == old(closing)
      ensures |chans| == |old(chans)|
      ensures forall s :: s in subs ==> chans[s] == Offered(old(chans)[s], r)
                                        && traces[s] == OfferedTrace(old(traces)[s], old(chans)[s])
      ensures forall s :: 0 <= s < |chans| && s !in subs ==> chans[s] == old(chans)[s] && traces[s] == old(traces)[s]
      ensures forall s :: s in subs ==> chans[s].closed == old(chans)[s].closed
      ensures forall s :: s in subs && |old(chans)[s].queue| < SUB_BUFFER ==>
                chans[s].queue == old(chans)[s].queue + [r] && traces[s].dropped == old(traces)[s].dropped
      ensures forall s :: s in subs && |old(chans)[s].queue| >= SUB_BUFFER ==>
                chans[s] == old(chans)[s] && traces[s].dropped == old(traces)[s].dropped + 1
    {
      hide Delivers;
      Retain(r);
      hide Newest;
      forall s | 0 <= s < |chans| ensures Delivers(all, chans[s], traces[s]) {
        MoreIsLogged(old(all), r, chans[s], traces[s]);
      }
      var todo := subs;
      while todo != {}
        invariant todo <= subs == old(subs) && closing == old(closing) && all == old(all) + [r] && recent == Newest(all)
        invariant |chans| == |traces| == |old(chans)|
        invariant forall s :: 0 <= s < |chans| ==> Delivers(all, chans[s], traces[s])
        invariant forall s :: 0 <= s < |chans| && (s !in subs || s in todo) ==>
                  chans[s] == old(chans)[s] && traces[s] == old(traces)[s]
        invariant forall s :: s in subs && s !in todo ==>
                    chans[s] == Offered(old(chans)[s], r) && traces[s] == OfferedTrace(old(traces)[s], old(chans)[s])
      {
        var s :| s in todo;
        todo := todo - {s};
        OfferDelivers(all, chans[s], traces[s]);
        assert all[traces[s].upTo] == r;
        traces := traces[s := OfferedTrace(traces[s], chans[s])];
        Send(s, r);
      }
    }

    /** The locked half of unsubscribe. sync.Once lets the first call through; later ones wait
        for it and do nothing. */
    method Delete(s: nat) returns (first: bool)
      requires Valid() && s < |chans|
      modifies this`subs, this`closing
      ensures Valid() && (first <==> s in old(subs))
      ensures subs == old(subs) - {s} && closing == old(closing) + if first then {s} else {}
    {
      first := s in subs;
      if first { subs, closing := subs - {s}, closing + {s}; }
    }

    /** The unlocked half of the call that was let through; other calls may come in between. */
    method Close(s: nat)
      requires Valid() && s in closing
      modifies this`chans, this`closing
      ensures Valid() && !old(chans)[s].closed && closing == old(closing) - {s}
      ensures chans == old(chans)[s := old(chans)[s].(closed := true)]
    {
      chans := chans[s := chans[s].(closed := true)];
      closing := closing - {s};
    }

    /** A receive takes the oldest queued record, also after the close; `done` is the closed
        and drained channel's zero receive. An open empty channel would block. */
    method Receive(s: nat) returns (r: Record, done: bool)
      requires Valid() && s < |chans| && (chans[s].queue != [] || chans[s].closed)
      modifies this`chans, this`traces
      ensures Valid()
      ensures done <==> old(chans)[s].queue == []
      ensures done ==> chans == old(chans) && traces == old(traces)
      ensures |chans| == |old(chans)|
      ensures !done ==> old(chans)[s].queue == [r] + chans[s].queue && chans == old(chans)[s := chans[s]]
                        && traces == old(traces)[s := old(traces)[s].(received := old(traces)[s].received + [r])]
                        && chans[s].closed == old(chans)[s].closed
    {
      if chans[s].queue == [] { return Record(0, "", []), true; }
      r, done := chans[s].queue[0], false;
      ghost var c := chans[s];
      chans := chans[s := chans[s].(queue := chans[s].queue[1..])];
      traces := traces[s := traces[s].(received := traces[s].received + [r])];
      assert traces[s].received + chans[s].queue == old(traces)[s].received + c.queue;
    }

    /** Tail: the newest matching records, at most n of them if n > 0. */
    method Tail(minLevel: int, hasLevel: bool, contains: string, n: int) returns (matched: seq<Record>)
      requires Valid()
      ensures matched == LastN(Matching(Newest(all), Query(minLevel, hasLevel, contains)), n)
    {
      var snapshot := new Record[|recent|](i requires 0 <= i < |recent| reads this => recent[i]);
      assert snapshot[..] == recent;
      var k := FilterInPlace(snapshot, Query(minLevel, hasLevel, contains));
      if n > 0 && k > n { return snapshot[k - n..k]; }
      return snapshot[..k];
    }
  }

  // ---- Tail -----------------------------------------------------------------

  datatype Query = Query(minLevel: int, hasLevel: bool, contains: string)

  predicate OccursAt(sub: string, s: string, i: int) { 0 <= i <= |s| - |sub| && s[i..i + |sub|] == sub }

  predicate Occurs(sub: string, s: string) { exists i :: 0 <= i <= |s| - |sub| && OccursAt(sub, s, i) }

  predicate RecordContains(r: Record, sub: string) {
    Occurs(sub, r.message) || exists i :: 0 <= i < |r.attrs| && (Occurs(sub, r.attrs[i].0) || Occurs(sub, r.attrs[i].1))
  }

  predicate Matches(r: Record, q: Query) {
    (q.hasLevel ==> r.level >= q.minLevel) && (q.contains != "" ==> RecordContains(r, q.contains))
  }

  /** strings.Contains. */
  ghost predicate Within(sub: string, s: string) { exists front, back :: s == front + sub + back }

  lemma OccursMeans(sub: string, s: string)
    ensures Occurs(sub, s) <==> Within(sub, s)
  {
    if Occurs(sub, s) {
      var i :| 0 <= i <= |s| - |sub| && OccursAt(sub, s, i);
      assert s == s[..i] + sub + s[i + |sub|..];
    }
    if Within(sub, s) {
      var front, back :| s == front + sub + back;
      assert OccursAt(sub, s, |front|);
    }
  }

  /** A record matches exactly when its level is high enough, if a level is asked for, and the
      text asked for, if any, is part of its message or of an attribute's key or value. */
  lemma MatchMeans(r: Record, q: Query)
    ensures Matches(r, q) <==>
              && (q.hasLevel ==> q.minLevel <= r.level)
              && (q.contains == "" || Within(q.contains, r.message)
                  || exists a :: a in r.attrs && (Within(q.contains, a.0) || Within(q.contains, a.1)))
  {
    hide Occurs, Within;
    OccursMeans(q.contains, r.message);
    forall a | a in r.attrs
      ensures Occurs(q.contains, a.0) <==> Within(q.contains, a.0)
      ensures Occurs(q.contains, a.1) <==> Within(q.contains, a.1)
    {
      OccursMeans(q.contains, a.0);
      OccursMeans(q.contains, a.1);
    }
  }

  function Matching(rs: seq<Record>, q: Query): seq<Record> {
    if rs == [] then []
    else Matching(rs[..|rs| - 1], q) + if Matches(rs[|rs| - 1], q) then [rs[|rs| - 1]] else []
  }

  lemma MatchingSnoc(rs: seq<Record>, q: Query, i: nat)
    requires i < |rs|
    ensures Matching(rs[..i + 1], q) == Matching(rs[..i], q) + if Matches(rs[i], q) then [rs[i]] else []
  {
    assert rs[..i + 1][..i] == rs[..i];
  }

  /** The loop of Tail: matches are appended to the front of the snapshot they are read from. */
  method FilterInPlace(snapshot: array<Record>, q: Query) returns (k: nat)
    modifies snapshot
    ensures k <= snapshot.Length && snapshot[..k] == Matching(old(snapshot[..]), q)
  {
    hide Matching, RecordContains;
    ghost var all := snapshot[..];
    MatchingNone(q);
    k := 0;
    for i := 0 to snapshot.Length
      invariant 0 <= k <= i && snapshot[..k] == Matching(all[..i], q)
      invariant forall j :: i <= j < snapshot.Length ==> snapshot[j] == all[j]
    {
      var r := snapshot[i];
      MatchingSnoc(all, q, i);
      if !(q.hasLevel && r.level < q.minLevel) && !(q.contains != "" && !RecordContains(r, q.contains)) {
        snapshot[k] := r;
        k := k + 1;
        assert snapshot[..k] == snapshot[..k - 1] + [r];
      }
    }
    assert all[..snapshot.Length] == all;
  }

  lemma MatchingNone(q: Query)
    ensures Matching([], q) == []
  {
  }

  function LastN(rs: seq<Record>, n: int): seq<Record> {
    if n > 0 && |rs| > n then rs[|rs| - n..] else rs
  }

  /** out is what is at these increasing positions, and all of it matches. */
  ghost predicate Selects(rs: seq<Record>, q: Query, out: seq<Record>, at: seq<nat>) {
    && |at| == |out|
    && (forall i :: 0 <= i < |at| ==> at[i] < |rs| && rs[at[i]] == out[i] && Matches(out[i], q))
    && (forall i, j :: 0 <= i < j < |at| ==> at[i] < at[j])
  }

  /** No match is left out. */
  ghost predicate Covers(rs: seq<Record>, q: Query, at: seq<nat>) {
    forall k :: 0 <= k < |rs| && Matches(rs[k], q) ==> k in at
  }

  lemma SelectsSnoc(rest: seq<Record>, x: Record, q: Query, out: seq<Record>, at: seq<nat>)
    requires Selects(rest, q, out, at) && Covers(rest, q, at)
    ensures Matches(x, q) ==> Selects(rest + [x], q, out + [x], at + [|rest|]) && Covers(rest + [x], q, at + [|rest|])
    ensures !Matches(x, q) ==> Selects(rest + [x], q, out, at) && Covers(rest + [x], q, at)
  {
    hide Matches;
    if Matches(x, q) { assert (at + [|rest|])[|at|] == |rest|; }
  }

  /** The matches sit at increasing positions, and no matching record is left out. */
  lemma {:induction false} MatchingPositions(rs: seq<Record>, q: Query) returns (at: seq<nat>)
    ensures Selects(rs, q, Matching(rs, q), at) && Covers(rs, q, at)
  {
    at := [];
    if rs != [] {
      hide Selects, Covers, Matches;
      var rest, x := rs[..|rs| - 1], rs[|rs| - 1];
      at := MatchingPositions(rest, q);
      SelectsSnoc(rest, x, q, Matching(rest, q), at);
      assert rest + [x] == rs;
      if Matches(x, q) { at := at + [|rest|]; }
    }
  }

  lemma SelectsDrop(rs: seq<Record>, q: Query, out: seq<Record>, at: seq<nat>, d: nat)
    requires Selects(rs, q, out, at) && d <= |at|
    ensures Selects(rs, q, out[d..], at[d..])
  {
    hide Matches;
  }

  /** What Tail returns are the newest matches: at increasing positions, every match at or
      after the first of them included, and all matches if fewer than asked for. */
  lemma TailIsNewest(rs: seq<Record>, q: Query, n: int) returns (at: seq<nat>)
    ensures Selects(rs, q, LastN(Matching(rs, q), n), at) && (n > 0 ==> |at| <= n)
    ensures forall k :: 0 <= k < |rs| && Matches(rs[k], q) && k !in at ==> n > 0 && |at| == n && k < at[0]
  {
    hide Matching, Matches;
    var full := MatchingPositions(rs, q);
    var m := Matching(rs, q);
    var d := if n > 0 && |full| > n then |full| - n else 0;
    at := full[d..];
    SelectsDrop(rs, q, m, full, d);
    assert LastN(m, n) == m[d..];
    forall k | 0 <= k < |rs| && Matches(rs[k], q) ensures k in at || (n > 0 && |at| == n && k < at[0]) {
      var i :| 0 <= i < |full| && full[i] == k;
      if i >= d {
        assert at[i - d] == k;
      } else {
        assert full[i] < full[d] == at[0];
      }
    }
  }
}
