// Whole runs of one node under the run-state controller: the controller's bookkeeping, the
// agent it drives (dataplane Start/Stop and stat/lifecycle.go), and the lagging status
// reports in between (reconcile/node_run.go).

module NodeEpochs {
  import opened Text
  import opened NodeRun

  // ---- Each node of a pass is on its own ------------------------------------

  ghost predicate DistinctNodes(desired: seq<Declared>) {
    forall i, j :: 0 <= i < j < |desired| ==> desired[i].cn != desired[j].cn
  }

  /** Declarations of other nodes neither touch this node's bookkeeping nor its gate. */
  lemma {:induction false} OthersDoNotInterfere(w: Ledger, desired: seq<Declared>, o: Outside, cn: string)
    requires forall i :: 0 <= i < |desired| ==> desired[i].cn != cn
    ensures var v := Walk(w, desired, o);
            && StateOf(v.nodes, cn) == StateOf(w.nodes, cn)
            && (forall r :: (r, cn) in v.board <==> (r, cn) in w.board)
            && (forall r :: (r, cn) in w.board ==> v.board[(r, cn)] == w.board[(r, cn)])
  {
    if desired != [] {
      OthersDoNotInterfere(w, desired[..|desired| - 1], o, cn);
    }
  }

  lemma SameGate(a: Board, b: Board, cn: string)
    requires forall r :: (r, cn) in a <==> (r, cn) in b
    requires forall r :: (r, cn) in a ==> b[(r, cn)] == a[(r, cn)]
    ensures InError(a, cn, NODE_RUN_RESOURCE) <==> InError(b, cn, NODE_RUN_RESOURCE)
  {
    if InError(a, cn, NODE_RUN_RESOURCE) {
      var k :| k in a && k.1 == cn && !a[k] && k.0 != NODE_RUN_RESOURCE;
      assert k == (k.0, cn) && k in b;
    }
    if InError(b, cn, NODE_RUN_RESOURCE) {
      var k :| k in b && k.1 == cn && !b[k] && k.0 != NODE_RUN_RESOURCE;
      assert k == (k.0, cn) && k in a;
    }
  }

  /** A pass moves every declared node by exactly its own evaluation, judged on the status
      board as it was before the pass. */
  lemma {:induction false} PassIsPerNode(w: Ledger, desired: seq<Declared>, o: Outside, i: nat)
    requires DistinctNodes(desired) && i < |desired|
    ensures StateOf(Walk(w, desired, o).nodes, desired[i].cn)
            == Evaluated(StateOf(w.nodes, desired[i].cn), LookAt(w.board, desired[i], i, o))
  {
    var n := |desired| - 1;
    var cn := desired[i].cn;
    var v := Walk(w, desired[..n], o);
    if i == n {
      OthersDoNotInterfere(w, desired[..n], o, cn);
      SameGate(w.board, v.board, cn);
    } else {
      PassIsPerNode(w, desired[..n], o, i);
      assert desired[n].cn != cn;
    }
  }

  /** The pushes to one node, in order. */
  function CallsTo(calls: seq<Call>, cn: string): seq<Call> {
    if calls == [] then []
    else
      var rest, last := CallsTo(calls[..|calls| - 1], cn), calls[|calls| - 1];
      if last.cn == cn then rest + [last] else rest
  }

  lemma {:induction false} CallsToSnoc(calls: seq<Call>, c: Call, cn: string)
    ensures CallsTo(calls + [c], cn) == CallsTo(calls, cn) + if c.cn == cn then [c] else []
  {
    assert (calls + [c])[..|calls|] == calls;
  }

  /** Connected and reported. */
  predicate Known(d: Declared, o: Outside) { d.cn in o.connected && o.obs(d.cn) != Unknown }

  predicate WantsStart(d: Declared, o: Outside) { Known(d, o) && d.run == "running" && o.obs(d.cn) != Running }

  predicate WantsStop(d: Declared, o: Outside) { Known(d, o) && d.run == "stopped" && o.obs(d.cn) == Running }

  /** Held, backing off or settling, and not declared anew since. */
  predicate Barred(st: NodeState, d: Declared, now: int) {
    d.gen == st.gen && (st.held || (st.nextTry.Some? && now < st.nextTry.value)
                        || (st.pushedAt.Some? && now < st.pushedAt.value + SETTLE))
  }

  /** Another resource's last push to the node failed. */
  ghost predicate OtherError(board: Board, cn: string) {
    exists r :: r != NODE_RUN_RESOURCE && (r, cn) in board && !board[(r, cn)]
  }

  /** A pass pushes to a declared node exactly when it is known to be away from its declared
      state and not barred, a start moreover only without another resource's error or by
      force; and it reports success or failure accordingly, or leaves the report as it was. */
  ghost predicate Handled(w: Ledger, v: Ledger, d: Declared, ok: bool, o: Outside) {
    var st, mine := StateOf(w.nodes, d.cn), (NODE_RUN_RESOURCE, d.cn);
    var away := WantsStart(d, o) || WantsStop(d, o);
    var due := away && !Barred(st, d, o.now);
    var blocked := d.run == "running" && !st.forceOnce && OtherError(w.board, d.cn);
    && CallsTo(v.calls, d.cn)
       == CallsTo(w.calls, d.cn) + (if due && !blocked then [Call(d.cn, d.run == "running", ok)] else [])
    && if due then mine in v.board && (v.board[mine] <==> !blocked && ok)
       else if away || !Known(d, o) || d.run == "" then SameReport(w.board, v.board, mine)
       else mine in v.board && (v.board[mine] <==> d.run in {"running", "stopped"})
  }

  predicate SameReport(a: Board, b: Board, k: (string, string)) {
    (k in a <==> k in b) && (k in a ==> b[k] == a[k])
  }

  lemma {:induction false} PassPushes(w: Ledger, desired: seq<Declared>, o: Outside, i: nat)
    requires DistinctNodes(desired) && i < |desired|
    ensures Handled(w, Walk(w, desired, o), desired[i], o.ok(i), o)
    decreases |desired|
  {
    hide Visit, Handled, Agree, CallsTo;
    var n, cn := |desired| - 1, desired[i].cn;
    var v := Walk(w, desired[..n], o);
    if i == n {
      OthersAgree(w, desired[..n], o, cn);
      VisitPushes(v, desired[n], n, o);
    } else {
      PassPushes(w, desired[..n], o, i);
      VisitElsewhere(v, desired[n], n, o, cn);
    }
    HandledAlike(w, v, Walk(w, desired, o), desired[i], o.ok(i), o);
  }

  /** The two agree about the node. */
  ghost predicate Agree(w: Ledger, v: Ledger, cn: string) {
    && StateOf(w.nodes, cn) == StateOf(v.nodes, cn) && CallsTo(w.calls, cn) == CallsTo(v.calls, cn)
    && forall r :: SameReport(w.board, v.board, (r, cn))
  }

  lemma HandledAlike(w: Ledger, u: Ledger, v: Ledger, d: Declared, ok: bool, o: Outside)
    ensures Agree(w, u, d.cn) && Handled(u, v, d, ok, o) ==> Handled(w, v, d, ok, o)
    ensures Agree(u, v, d.cn) && Handled(w, u, d, ok, o) ==> Handled(w, v, d, ok, o)
  {
    if Agree(w, u, d.cn) {
      assert forall r :: SameReport(w.board, u.board, (r, d.cn));
      assert OtherError(w.board, d.cn) <==> OtherError(u.board, d.cn) by {
        SameErrors(w.board, u.board, d.cn);
        SameErrors(u.board, w.board, d.cn);
      }
    }
  }

  lemma SameErrors(a: Board, b: Board, cn: string)
    requires forall r :: SameReport(a, b, (r, cn))
    ensures OtherError(a, cn) ==> OtherError(b, cn)
    ensures forall r :: SameReport(b, a, (r, cn))
  {
    if OtherError(a, cn) {
      var r :| r != NODE_RUN_RESOURCE && (r, cn) in a && !a[(r, cn)];
      assert SameReport(a, b, (r, cn));
    }
    forall r ensures SameReport(b, a, (r, cn)) { assert SameReport(a, b, (r, cn)); }
  }

  lemma BlockedByOthers(board: Board, cn: string)
    ensures InError(board, cn, NODE_RUN_RESOURCE) <==> OtherError(board, cn)
  {
    if InError(board, cn, NODE_RUN_RESOURCE) {
      var k :| k in board && k.1 == cn && !board[k] && k.0 != NODE_RUN_RESOURCE;
      assert k == (k.0, cn);
    }
  }

  lemma VisitElsewhere(w: Ledger, d: Declared, i: nat, o: Outside, cn: string)
    requires d.cn != cn
    ensures Agree(w, Visit(w, d, i, o), cn)
  {
    hide ActionAt, Evaluated, CallsTo;
    var act := ActionAt(StateOf(w.nodes, d.cn), LookAt(w.board, d, i, o));
    if act.Push? { CallsToSnoc(w.calls, Call(d.cn, act.start, act.ok), cn); }
  }

  lemma {:induction false} OthersAgree(w: Ledger, desired: seq<Declared>, o: Outside, cn: string)
    requires forall i :: 0 <= i < |desired| ==> desired[i].cn != cn
    ensures Agree(w, Walk(w, desired, o), cn)
  {
    hide Visit, StateOf, CallsTo;
    if desired != [] {
      var n := |desired| - 1;
      OthersAgree(w, desired[..n], o, cn);
      VisitElsewhere(Walk(w, desired[..n], o), desired[n], n, o, cn);
      AgreeTrans(w, Walk(w, desired[..n], o), Walk(w, desired, o), cn);
    }
  }

  lemma AgreeTrans(w: Ledger, u: Ledger, v: Ledger, cn: string)
    requires Agree(w, u, cn) && Agree(u, v, cn)
    ensures Agree(w, v, cn)
  {
    hide StateOf, CallsTo;
    forall r ensures SameReport(w.board, v.board, (r, cn)) {
      assert SameReport(w.board, u.board, (r, cn)) && SameReport(u.board, v.board, (r, cn));
    }
  }

  lemma VisitPushes(w: Ledger, d: Declared, i: nat, o: Outside)
    ensures Handled(w, Visit(w, d, i, o), d, o.ok(i), o)
  {
    hide InError, Acted, CallsTo, OtherError;
    BlockedByOthers(w.board, d.cn);
    var act := ActionAt(StateOf(w.nodes, d.cn), LookAt(w.board, d, i, o));
    if d.run != "" && act.Push? { CallsToSnoc(w.calls, Call(d.cn, act.start, act.ok), d.cn); }
  }

  // ---- One node's run -------------------------------------------------------

  /** The agent changed to this state at this time. */
  datatype Flip = Flip(at: int, running: bool)

  /** What an epoch saw: pushes, with the state they found the agent in and the count of
      consecutive failures they left; and observed convergence. A push belongs to the pass that
      read the clock at `at`; it went out at `sent` and came back at `returned`. */
  datatype Mark =
    | Pushed(at: int, sent: int, returned: int, start: bool, ok: bool, found: bool, blocked: bool, forced: bool,
             streak: nat, botched: bool)
    | Seen(at: int)

  /** The epoch is one generation on one connection; base is the agent's state as it began,
      want the desired run-state it is about, and no report is older than since. */
  datatype Sys = Sys(st: NodeState, connected: bool, clock: int, since: int, want: Option<string>, base: bool,
                     flips: seq<Flip>, log: seq<Mark>, forces: nat, overrides: nat)

  /** One node's turn in a pass. The pass read the clock at look.now and gets to this node at
      `reached`; the report it finds shows the agent as it was at seenAt. A push changes the
      agent at `landed` and the turn is over at `returned`. botched: a failing push changed the
      agent nevertheless. */
  datatype Event =
    | Evaluate(look: Look, reached: int, seenAt: int, landed: int, returned: int, botched: bool)
    | Force
    | Connect(at: int, running: bool)
    | Disconnect(at: int)

  function ValueAt(base: bool, flips: seq<Flip>, t: int): bool {
    if flips == [] then base
    else
      var last := flips[|flips| - 1];
      if last.at <= t then last.running else ValueAt(base, flips[..|flips| - 1], t)
  }

  function IsRunning(s: Sys): bool { if s.flips == [] then s.base else s.flips[|s.flips| - 1].running }

  function Max(a: int, b: int): int { if a < b then b else a }

  /** A generation bump opens an epoch in which nothing happened yet. The agent has been in its
      state since its last change. */
  function Opened(s: Sys, l: Look): Sys {
    if l.run == "" || l.gen == s.st.gen then s
    else s.(st := Bumped(s.st, l.gen), base := IsRunning(s), flips := [], log := [], want := None,
            since := if s.flips == [] then s.since else Max(s.since, s.flips[|s.flips| - 1].at))
  }

  predicate Observes(l: Look) { l.run != "" && l.connected && !l.obs.Unknown? }

  function MarkOf(o: Sys, e: Event, act: Act): Mark
    requires e.Evaluate? && act.Push?
  {
    Pushed(e.look.now, e.reached, e.returned, act.start, act.ok, IsRunning(o), e.look.blocked, o.st.forceOnce,
           if act.ok then 0 else o.st.attempts + 1, e.botched && !act.ok)
  }

  function Next(s: Sys, e: Event): Sys {
    match e
    case Force => s.(st := s.st.(forceOnce := true), forces := s.forces + 1)
    case Connect(at, running) =>
      s.(st := FRESH, connected := true, clock := at, since := at, want := None, base := running, flips := [],
         log := [])
    case Disconnect(at) =>
      s.(st := FRESH, connected := false, clock := at, since := at, want := None, base := IsRunning(s), flips := [],
         log := [])
    case Evaluate(l, _, seenAt, landed, returned, botched) =>
      var o := Opened(s, l);
      var act := ActionAt(s.st, l);
      var after := o.(st := Evaluated(s.st, l), clock := returned,
                      since := if Observes(l) then seenAt else o.since,
                      want := if l.run == "" then o.want else Some(l.run));
      if act.Met? then after.(log := o.log + [Seen(l.now)])
      else if act.Push? then
        after.(log := o.log + [MarkOf(o, e, act)],
               flips := if act.ok || botched then o.flips + [Flip(landed, act.start)] else o.flips,
               overrides := if act.ok && act.start && l.blocked then o.overrides + 1 else o.overrides)
      else after
  }

  function Start(running: bool): Sys { Sys(FRESH, false, 0, 0, None, running, [], [], 0, 0) }

  /** What holds of every run: passes follow one another, and only connected nodes are
      evaluated as connected. */
  predicate Possible(s: Sys, e: Event) {
    match e
    case Evaluate(l, reached, _, landed, returned, _) =>
      s.clock <= l.now <= reached <= landed <= returned && (l.connected ==> s.connected)
    case Connect(at, _) => s.clock <= at
    case Disconnect(at) => s.clock <= at
    case Force => true
  }

  /** Reports are at most `lag` old when they are read, come in order and are not older than the
      epoch; pushes land at most `slow` after their pass began; and a declaration changes its
      desired run-state only with its generation. */
  predicate Honest(s: Sys, e: Event, lag: int, slow: int) {
    e.Evaluate? ==>
      var o := Opened(s, e.look);
      && e.landed - e.look.now <= slow
      && (e.look.run != "" && o.want.Some? ==> o.want.value == e.look.run)
      && (Observes(e.look) ==>
            && e.reached - lag <= e.seenAt <= e.reached && o.since <= e.seenAt
            && (e.look.obs.Running? <==> ValueAt(o.base, o.flips, e.seenAt)))
  }

  function After(running: bool, events: seq<Event>): Sys {
    if events == [] then Start(running) else Next(After(running, events[..|events| - 1]), events[|events| - 1])
  }

  predicate PossibleRun(running: bool, events: seq<Event>) {
    events == []
    || (PossibleRun(running, events[..|events| - 1])
        && Possible(After(running, events[..|events| - 1]), events[|events| - 1]))
  }

  predicate HonestRun(running: bool, events: seq<Event>, lag: int, slow: int) {
    events == []
    || (HonestRun(running, events[..|events| - 1], lag, slow)
        && Honest(After(running, events[..|events| - 1]), events[|events| - 1], lag, slow))
  }

  predicate CleanRun(events: seq<Event>) { forall i :: 0 <= i < |events| && events[i].Evaluate? ==> !events[i].botched }

  // ---- Backoff, hold, settle window -----------------------------------------

  /** Consecutive failed pushes at the end of the log. */
  function Streak(log: seq<Mark>): nat {
    if log == [] then 0
    else
      var last := log[|log| - 1];
      if last.Pushed? && !last.ok then 1 + Streak(log[..|log| - 1]) else 0
  }

  predicate Fails(m: Mark) { m.Pushed? && !m.ok }

  /** Every push of the epoch so far kept its distance from every later one, none went out
      after the fifth failure in a row, and no unforced start passed the gate. */
  ghost predicate Paced(log: seq<Mark>) {
    && (forall j :: 0 <= j < |log| && log[j].Pushed? ==>
         Streak(log[..j]) < MAX_ATTEMPTS && log[j].streak == Streak(log[..j + 1])
         && (log[j].start && log[j].blocked ==> log[j].forced))
    && (forall i, j :: 0 <= i < j < |log| && log[i].Pushed? && log[j].Pushed? ==> Apart(log[i], log[j]))
  }

  predicate Apart(earlier: Mark, later: Mark)
    requires earlier.Pushed? && later.Pushed?
  {
    && earlier.at <= earlier.returned <= later.at <= later.sent
    && (earlier.ok ==> later.at - earlier.at >= SETTLE)
    && (!earlier.ok && 1 <= earlier.streak < MAX_ATTEMPTS ==> later.at - earlier.at >= Backoff(earlier.streak))
  }

  ghost predicate TimingInv(s: Sys) {
    && Paced(s.log)
    && s.st.attempts == Streak(s.log) <= MAX_ATTEMPTS
    && (s.st.held <==> s.st.attempts == MAX_ATTEMPTS)
    && (forall i :: 0 <= i < |s.log| && s.log[i].Pushed? ==> Remembered(s.st, s.log[i], s.clock))
    && s.overrides + (if s.st.forceOnce then 1 else 0) <= s.forces
  }

  /** The bookkeeping still knows how long this push bars the next. */
  predicate Remembered(st: NodeState, m: Mark, clock: int)
    requires m.Pushed?
  {
    && m.at <= m.returned <= clock
    && (m.ok ==> st.pushedAt.Some? && m.at <= st.pushedAt.value)
    && (!m.ok && 1 <= m.streak < MAX_ATTEMPTS ==> st.nextTry.Some? && m.at + Backoff(m.streak) <= st.nextTry.value)
  }

  lemma {:induction false} PacedSnoc(log: seq<Mark>, m: Mark)
    requires Paced(log)
    requires m.Pushed? ==> Streak(log) < MAX_ATTEMPTS && m.streak == Streak(log + [m])
    requires m.Pushed? && m.start && m.blocked ==> m.forced
    requires m.Pushed? ==> forall i :: 0 <= i < |log| && log[i].Pushed? ==> Apart(log[i], m)
    ensures Paced(log + [m])
  {
    var all := log + [m];
    forall j | 0 <= j < |all| && all[j].Pushed?
      ensures Streak(all[..j]) < MAX_ATTEMPTS && all[j].streak == Streak(all[..j + 1])
      ensures all[j].start && all[j].blocked ==> all[j].forced
    {
      if j < |log| {
        assert all[..j] == log[..j] && all[..j + 1] == log[..j + 1];
      } else {
        assert all[..j] == log && all[..j + 1] == all;
      }
    }
  }

  lemma BackoffPositive(attempts: nat)
    requires attempts >= 1
    ensures Backoff(attempts) >= 0
  {
  }

  lemma {:induction false} TimingStep(s: Sys, e: Event)
    requires TimingInv(s) && Possible(s, e)
    ensures TimingInv(Next(s, e))
  {
    if e.Evaluate? {
      OpenedTiming(s, e.look);
      EvaluateTiming(s, Opened(s, e.look), e);
    }
  }

  lemma OpenedTiming(s: Sys, l: Look)
    requires TimingInv(s)
    ensures TimingInv(Opened(s, l))
  {
  }

  lemma {:induction false} EvaluateTiming(s: Sys, o: Sys, e: Event)
    requires e.Evaluate? && o == Opened(s, e.look) && TimingInv(o) && Possible(o, e)
    ensures TimingInv(Next(s, e))
  {
    hide Paced, Backoff, Remembered, Streak;
    var act, next := ActionAt(s.st, e.look), Next(s, e);
    PushNeedsDue(s, e.look);
    assert next.st == Acted(o.st, act, e.look.now);
    if act.Met? {
      SeenTiming(o, e.look.now, e.returned);
    } else if act.Push? {
      PushTiming(o, e, act);
    } else {
      assert next.log == o.log && next.st == o.st;
      forall i | 0 <= i < |o.log| && o.log[i].Pushed? ensures Remembered(next.st, next.log[i], next.clock) {
        RememberedLater(o.st, o.log[i], o.clock, next.clock);
      }
    }
  }

  lemma PushNeedsDue(s: Sys, l: Look)
    ensures var o, act := Opened(s, l), ActionAt(s.st, l);
            && Evaluated(s.st, l) == Acted(o.st, act, l.now)
            && (act.Push? ==> Due(o.st, l.now) && (act.start && l.blocked ==> o.st.forceOnce))
  {
  }

  lemma {:induction false} SeenTiming(o: Sys, now: int, clock: int)
    requires TimingInv(o) && o.clock <= clock
    ensures var log := o.log + [Seen(now)];
            var st := Acted(o.st, Met, now);
            && Paced(log) && Streak(log) == 0
            && forall i :: 0 <= i < |log| && log[i].Pushed? ==> Remembered(st, log[i], clock)
  {
    hide Paced, Backoff;
    PacedSnoc(o.log, Seen(now));
  }

  lemma PushTiming(o: Sys, e: Event, act: Act)
    requires e.Evaluate? && Possible(o, e) && TimingInv(o)
    requires act.Push? && Due(o.st, e.look.now) && (act.start && e.look.blocked ==> o.st.forceOnce)
    ensures var m := MarkOf(o, e, act);
            var st, log := Acted(o.st, act, e.look.now), o.log + [m];
            && Paced(log) && st.attempts == Streak(log) <= MAX_ATTEMPTS && (st.held <==> st.attempts == MAX_ATTEMPTS)
            && forall i :: 0 <= i < |log| && log[i].Pushed? ==> Remembered(st, log[i], e.returned)
  {
    hide Paced, Backoff, Streak;
    var m := MarkOf(o, e, act);
    StreakSnoc(o.log, m);
    BackoffPositive(o.st.attempts + 1);
    forall i | 0 <= i < |o.log| && o.log[i].Pushed?
      ensures Apart(o.log[i], m) && Remembered(Acted(o.st, act, e.look.now), o.log[i], e.returned)
    {
      assert Remembered(o.st, o.log[i], o.clock);
    }
    PacedSnoc(o.log, m);
  }

  lemma RememberedLater(st: NodeState, m: Mark, clock: int, clock': int)
    requires m.Pushed? && Remembered(st, m, clock) && clock <= clock'
    ensures Remembered(st, m, clock')
  {
  }

  lemma StreakSnoc(log: seq<Mark>, m: Mark)
    ensures Streak(log + [m]) == if m.Pushed? && !m.ok then 1 + Streak(log) else 0
  {
    assert (log + [m])[..|log|] == log;
  }

  /** In every run: the k-th failure in a row keeps later pushes of the epoch away for
      min(5 * 2^(k-1), 300) seconds and a success for ten; the fifth failure ends them until
      convergence is observed; the node is held exactly then; an unforced start never goes
      out past another resource's error; and at most one start per --force does so and succeeds. */
  lemma {:induction false} EveryRunIsPaced(running: bool, events: seq<Event>)
    requires PossibleRun(running, events)
    ensures TimingInv(After(running, events))
  {
    if events != [] {
      EveryRunIsPaced(running, events[..|events| - 1]);
      TimingStep(After(running, events[..|events| - 1]), events[|events| - 1]);
    }
  }

  /** How many of the marks i..j are failed pushes. */
  function Failures(log: seq<Mark>, i: nat, j: nat): nat
    requires i <= j <= |log|
  {
    if i == j then 0 else Failures(log, i, j - 1) + if Fails(log[j - 1]) then 1 else 0
  }

  lemma {:induction false} FailuresAreStreak(log: seq<Mark>, i: nat, j: nat)
    requires i <= j <= |log| && forall k :: i <= k < j ==> Fails(log[k])
    ensures Failures(log, i, j) == j - i <= Streak(log[..j])
  {
    if i < j {
      FailuresAreStreak(log, i, j - 1);
      assert log[..j][..j - 1] == log[..j - 1];
    }
  }

  /** Between successes and observed convergences, at most five pushes are tried. */
  lemma AtMostFiveTries(running: bool, events: seq<Event>, i: nat, j: nat)
    requires PossibleRun(running, events)
    requires var log := After(running, events).log; i <= j <= |log| && forall k :: i <= k < j ==> Fails(log[k])
    ensures j - i <= MAX_ATTEMPTS
  {
    EveryRunIsPaced(running, events);
    var log := After(running, events).log;
    if i < j {
      FailuresAreStreak(log, i, j - 1);
      assert Streak(log[..j - 1]) < MAX_ATTEMPTS;
    }
  }

  /** What the pacing is worth between a push's return and the next one going out: its own
      duration eats into the delay. */
  lemma RetriesWait(running: bool, events: seq<Event>, i: nat, j: nat)
    requires PossibleRun(running, events) && i < j < |After(running, events).log|
    requires After(running, events).log[i].Pushed? && After(running, events).log[j].Pushed?
    ensures var m, n := After(running, events).log[i], After(running, events).log[j];
            && n.sent - m.returned >= 0
            && (m.ok ==> n.sent - m.returned >= SETTLE - (m.returned - m.at))
            && (!m.ok && 1 <= m.streak < MAX_ATTEMPTS ==>
                  n.sent - m.returned >= Backoff(m.streak) - (m.returned - m.at))
  {
    hide PossibleRun, Backoff;
    EveryRunIsPaced(running, events);
    assert Apart(After(running, events).log[i], After(running, events).log[j]);
  }

  // ---- Every push that is due goes out --------------------------------------

  /** The waits the bookkeeping remembers are those of pushes of the epoch. */
  ghost predicate Witnessed(st: NodeState, log: seq<Mark>) {
    && (st.nextTry.Some? ==>
          exists i :: 0 <= i < |log| && log[i].Pushed? && !log[i].ok && 1 <= log[i].streak < MAX_ATTEMPTS
                      && st.nextTry.value == log[i].at + Backoff(log[i].streak))
    && (st.pushedAt.Some? ==>
          exists i :: 0 <= i < |log| && log[i].Pushed? && log[i].ok && st.pushedAt.value == log[i].at)
  }

  lemma WitnessedLater(st: NodeState, st': NodeState, log: seq<Mark>, m: Mark)
    requires Witnessed(st, log)
    requires st'.nextTry == st.nextTry
             || (m.Pushed? && !m.ok && 1 <= m.streak < MAX_ATTEMPTS && st'.nextTry == Some(m.at + Backoff(m.streak)))
    requires st'.pushedAt == st.pushedAt || (m.Pushed? && m.ok && st'.pushedAt == Some(m.at))
    ensures Witnessed(st', log + [m])
  {
    hide Backoff;
    var all := log + [m];
    if st'.nextTry.Some? {
      if st'.nextTry == st.nextTry {
        var i :| 0 <= i < |log| && log[i].Pushed? && !log[i].ok && 1 <= log[i].streak < MAX_ATTEMPTS
                 && st.nextTry.value == log[i].at + Backoff(log[i].streak);
        assert all[i] == log[i];
      } else {
        assert all[|log|] == m;
      }
    }
    if st'.pushedAt.Some? {
      if st'.pushedAt == st.pushedAt {
        var i :| 0 <= i < |log| && log[i].Pushed? && log[i].ok && st.pushedAt.value == log[i].at;
        assert all[i] == log[i];
      } else {
        assert all[|log|] == m;
      }
    }
  }

  lemma WitnessStep(s: Sys, e: Event)
    requires Witnessed(s.st, s.log)
    ensures Witnessed(Next(s, e).st, Next(s, e).log)
  {
    hide Backoff, Witnessed, Acted, Due;
    if e.Evaluate? {
      var o, act := Opened(s, e.look), ActionAt(s.st, e.look);
      PushNeedsDue(s, e.look);
      assert Witnessed(o.st, o.log) by { WitnessedFresh(s.st, s.log, e.look); }
      ActedWaits(o.st, act, e.look.now);
      QuietKeeps(o.st, e.look.now);
      if act.Met? { WitnessedLater(o.st, Next(s, e).st, o.log, Seen(e.look.now)); }
      if act.Push? { WitnessedLater(o.st, Next(s, e).st, o.log, MarkOf(o, e, act)); }
    } else {
      WitnessedFresh(s.st, s.log, Look(0, "", 0, false, Unknown, false, false));
    }
  }

  lemma WitnessedFresh(st: NodeState, log: seq<Mark>, l: Look)
    requires Witnessed(st, log)
    ensures Witnessed(FRESH, []) && Witnessed(Bumped(st, l.gen), if l.gen == st.gen then log else [])
    ensures Witnessed(st.(forceOnce := true), log)
  {
    hide Backoff;
  }

  lemma ActedWaits(st: NodeState, act: Act, now: int)
    ensures var st' := Acted(st, act, now);
            && st'.pushedAt == (if act.Push? && act.ok then Some(now) else st.pushedAt)
            && (st'.nextTry == st.nextTry
                || (act.Push? && !act.ok && st.attempts + 1 < MAX_ATTEMPTS
                    && st'.nextTry == Some(now + Backoff(st.attempts + 1))))
  {
    hide Backoff;
  }

  lemma {:induction false} EveryWaitIsWitnessed(running: bool, events: seq<Event>)
    ensures Witnessed(After(running, events).st, After(running, events).log)
  {
    if events != [] {
      EveryWaitIsWitnessed(running, events[..|events| - 1]);
      WitnessStep(After(running, events[..|events| - 1]), events[|events| - 1]);
    }
  }

  /** The push no longer keeps the next one away. */
  predicate Waited(m: Mark, now: int) {
    m.Pushed? ==>
      if m.ok then now - m.at >= SETTLE
      else 1 <= m.streak < MAX_ATTEMPTS ==> now - m.at >= Backoff(m.streak)
  }

  /** A force was asked for, and neither a new connection, nor a successful push, nor observed
      convergence has come since. */
  predicate ForcePending(running: bool, events: seq<Event>) {
    events != [] &&
    var rest, e := events[..|events| - 1], events[|events| - 1];
    match e
    case Force => true
    case Evaluate(l, _, _, _, _, _) =>
      var before, after := Opened(After(running, rest), l).log, After(running, events).log;
      (|after| > |before| ==> Fails(after[|after| - 1])) && ForcePending(running, rest)
    case _ => false
  }

  lemma {:induction false} ForceIsPending(running: bool, events: seq<Event>)
    ensures After(running, events).st.forceOnce <==> ForcePending(running, events)
  {
    if events != [] {
      var rest, e := events[..|events| - 1], events[|events| - 1];
      ForceIsPending(running, rest);
      hide Backoff, Due;
      if e.Evaluate? { PushNeedsDue(After(running, rest), e.look); }
    }
  }

  lemma DueIsWaited(o: Sys, now: int)
    requires TimingInv(o) && Witnessed(o.st, o.log)
    ensures Due(o.st, now) <==> Streak(o.log) < MAX_ATTEMPTS && forall m :: m in o.log ==> Waited(m, now)
  {
    hide Backoff, Paced;
    if Due(o.st, now) {
      forall m | m in o.log ensures Waited(m, now) {
        var i :| 0 <= i < |o.log| && o.log[i] == m;
        assert m.Pushed? ==> Remembered(o.st, m, o.clock);
      }
    }
    if forall m :: m in o.log ==> Waited(m, now) {
      assert forall i :: 0 <= i < |o.log| ==> Waited(o.log[i], now);
    }
  }

  /** Observed away from its declared state, and observed in it. */
  predicate Away(l: Look) {
    Observes(l) && ((l.run == "running" && l.obs != Running) || (l.run == "stopped" && l.obs == Running))
  }

  predicate There(l: Look) {
    Observes(l) && ((l.run == "running" && l.obs == Running) || (l.run == "stopped" && l.obs != Running))
  }

  /** In every run an evaluation pushes exactly when it observes the node away from its
      declared state, no five pushes in a row have failed, every push of the epoch has been
      waited out, and it is a stop, or nothing else is in error, or it is forced. It then
      sends what was declared; otherwise it adds at most the observed convergence. */
  lemma PushesExactlyWhenDue(running: bool, events: seq<Event>, e: Event)
    requires PossibleRun(running, events + [e]) && e.Evaluate?
    ensures var l := e.look;
            var log, after := Opened(After(running, events), l).log, After(running, events + [e]).log;
            if Away(l) && Streak(log) < MAX_ATTEMPTS && (forall m :: m in log ==> Waited(m, l.now))
               && (l.run == "stopped" || !l.blocked || ForcePending(running, events))
            then |after| == |log| + 1 && log <= after && Sends(after[|log|], l)
            else after == if There(l) then log + [Seen(l.now)] else log
  {
    var s := After(running, events);
    Snoc(running, events, e);
    EveryRunIsPaced(running, events);
    EveryWaitIsWitnessed(running, events);
    ForceIsPending(running, events);
    OpenedTiming(s, e.look);
    WitnessedFresh(s.st, s.log, e.look);
    var o := Opened(s, e.look);
    if Observes(e.look) { DueIsWaited(o, e.look.now); }
    hide TimingInv, Witnessed, Due, Waited, Streak, Evaluated, ForcePending, PossibleRun;
    ActionIs(s, e.look);
  }

  /** The push a look asks for. */
  predicate Sends(m: Mark, l: Look) {
    m.Pushed? && m.at == l.now && m.ok == l.ok && (m.start <==> l.run == "running")
  }

  lemma ActionIs(s: Sys, l: Look)
    ensures var o, act := Opened(s, l), ActionAt(s.st, l);
            && (act.Met? <==> There(l)) && o.st.forceOnce == s.st.forceOnce
            && (act.Push? <==> Away(l) && Due(o.st, l.now) && (l.run == "stopped" || !l.blocked || o.st.forceOnce))
            && (act.Push? ==> act == Push(l.run == "running", l.ok))
  {
    hide Due;
  }

  // ---- No push reaches an agent already in that state -----------------------

  /** A start that finds the agent running, or a stop that does not. */
  predicate Wasted(m: Mark) { m.Pushed? && m.start == m.found }

  function Wants(s: Sys): bool { s.want == Some("running") }

  /** No push went out while every honest report could still miss the agent's first change. */
  predicate Shown(s: Sys, slow: int)
    requires s.flips != []
  {
    var at := s.flips[0].at;
    || at <= s.since || s.st.held
    || (s.st.nextTry.Some? && at - slow + SETTLE <= s.st.nextTry.value)
    || (s.st.pushedAt.Some? && at - slow <= s.st.pushedAt.value)
  }

  /** The agent has not changed in this epoch: all pushes failed without effect, and unless it
      was in the desired state all along nothing else was seen. */
  ghost predicate Still(s: Sys) {
    && (forall i :: 0 <= i < |s.log| && s.log[i].Pushed? ==>
         s.base != Wants(s) && s.log[i].start != s.log[i].found && !s.log[i].ok && !s.log[i].botched)
    && (s.base != Wants(s) ==> s.st.attempts == |s.log| && forall i :: 0 <= i < |s.log| ==> s.log[i].Pushed?)
  }

  /** It has changed to the desired state, for good. The next report read after a delay shows
      it, except after a first push that failed and changed it. */
  ghost predicate Changed(s: Sys, slow: int)
    requires s.flips != []
  {
    && s.base != Wants(s) && s.log != [] && s.log[0].Pushed?
    && (forall f :: f in s.flips ==> f.running == Wants(s) && s.flips[0].at <= f.at <= s.clock)
    && (Shown(s, slow) || (|s.log| == 1 && s.log[0].botched && s.st.attempts == 1))
    && (forall j :: 0 <= j < |s.log| && s.log[j].Pushed? ==> (Wasted(s.log[j]) <==> j == 1 && s.log[0].botched))
  }

  ghost predicate AimInv(s: Sys, slow: int) {
    && s.st.attempts <= MAX_ATTEMPTS && (s.st.held <==> s.st.attempts == MAX_ATTEMPTS)
    && (s.want.None? ==> s.log == [] && s.flips == [] && s.st.attempts == 0)
    && if s.flips == [] then Still(s) else Changed(s, slow)
  }

  lemma {:induction false} ReportShowsChange(base: bool, flips: seq<Flip>, t: int)
    requires flips != [] && forall f :: f in flips ==> f.running != base && flips[0].at <= f.at
    ensures ValueAt(base, flips, t) != base <==> flips[0].at <= t
  {
    if |flips| > 1 {
      assert flips[..|flips| - 1][0] == flips[0];
      ReportShowsChange(base, flips[..|flips| - 1], t);
    } else {
      assert flips[..0] == [];
    }
  }

  /** One failure more is enough to cover the settle window. */
  lemma SecondBackoffSettles(attempts: nat)
    requires 2 <= attempts < MAX_ATTEMPTS
    ensures Backoff(attempts) >= SETTLE
  {
    BackoffSeconds(attempts);
  }

  lemma AimStep(s: Sys, e: Event, lag: int, slow: int)
    requires AimInv(s, slow) && Possible(s, e) && Honest(s, e, lag, slow) && lag + slow <= SETTLE
    ensures AimInv(Next(s, e), slow)
  {
    if e.Evaluate? {
      var o, act := Opened(s, e.look), ActionAt(s.st, e.look);
      PushNeedsDue(s, e.look);
      OpenedAims(s, e.look, slow);
      hide AimInv, Acted, Evaluated, ActionAt;
      if !act.Push? {
        NoPushAims(s, o, act, e, lag, slow);
      } else if o.flips == [] {
        PushAims(s, o, act, e, lag, slow);
      } else {
        PushAgainAims(s, o, act, e, lag, slow);
      }
    }
  }

  lemma OpenedAims(s: Sys, l: Look, slow: int)
    requires AimInv(s, slow)
    ensures AimInv(Opened(s, l), slow)
  {
  }

  lemma NoPushAims(s: Sys, o: Sys, act: Act, e: Event, lag: int, slow: int)
    requires e.Evaluate? && o == Opened(s, e.look) && act == ActionAt(s.st, e.look) && !act.Push?
    requires AimInv(o, slow) && Possible(o, e) && Honest(s, e, lag, slow)
    requires Evaluated(s.st, e.look) == Acted(o.st, act, e.look.now)
    ensures AimInv(Next(s, e), slow)
  {
    if act.Met? {
      if o.flips != [] { ReportShowsChange(o.base, o.flips, e.seenAt); }
      MetAims(s, o, e, lag, slow);
    }
  }

  lemma MetAims(s: Sys, o: Sys, e: Event, lag: int, slow: int)
    requires e.Evaluate? && o == Opened(s, e.look) && ActionAt(s.st, e.look).Met?
    requires AimInv(o, slow) && Possible(o, e) && Honest(s, e, lag, slow)
    requires Evaluated(s.st, e.look) == Acted(o.st, Met, e.look.now)
    requires o.flips != [] ==> (ValueAt(o.base, o.flips, e.seenAt) != o.base <==> o.flips[0].at <= e.seenAt)
    ensures AimInv(Next(s, e), slow)
  {
    hide Evaluated, Opened;
    var next := Next(s, e);
    assert next.log == o.log + [Seen(e.look.now)] && next.flips == o.flips && next.since == e.seenAt
           && next.base == o.base;
    assert e.look.run == "running" || e.look.run == "stopped";
    assert forall i :: 0 <= i < |o.log| ==> next.log[i] == o.log[i];
  }

  /** A push to an agent that has not changed yet. */
  lemma PushAims(s: Sys, o: Sys, act: Act, e: Event, lag: int, slow: int)
    requires e.Evaluate? && o == Opened(s, e.look) && act == ActionAt(s.st, e.look) && act.Push? && o.flips == []
    requires AimInv(o, slow) && Possible(o, e) && Honest(s, e, lag, slow) && Due(o.st, e.look.now)
    requires Evaluated(s.st, e.look) == Acted(o.st, act, e.look.now)
    ensures AimInv(Next(s, e), slow)
  {
    hide Backoff;
    var next := Next(s, e);
    var m := MarkOf(o, e, act);
    assert next.log == o.log + [m] && next.st == Acted(o.st, act, e.look.now);
    assert o.base != act.start && act.start == Wants(next);
    if 2 <= o.st.attempts + 1 < MAX_ATTEMPTS { SecondBackoffSettles(o.st.attempts + 1); }
  }

  /** A push to an agent that has: only right after a first push that failed and changed it. */
  lemma PushAgainAims(s: Sys, o: Sys, act: Act, e: Event, lag: int, slow: int)
    requires e.Evaluate? && o == Opened(s, e.look) && act == ActionAt(s.st, e.look) && act.Push? && o.flips != []
    requires AimInv(o, slow) && Possible(o, e) && Honest(s, e, lag, slow) && Due(o.st, e.look.now)
    requires lag + slow <= SETTLE
    requires Evaluated(s.st, e.look) == Acted(o.st, act, e.look.now)
    ensures AimInv(Next(s, e), slow)
  {
    hide Backoff;
    var next := Next(s, e);
    var m := MarkOf(o, e, act);
    assert next.log == o.log + [m] && next.st == Acted(o.st, act, e.look.now);
    ReportShowsChange(o.base, o.flips, e.seenAt);
    assert !Shown(o, slow);
    SecondBackoffSettles(2);
    assert Shown(next, slow);
  }

  lemma {:induction false} EveryRunAims(running: bool, events: seq<Event>, lag: int, slow: int)
    requires PossibleRun(running, events) && HonestRun(running, events, lag, slow) && lag + slow <= SETTLE
    ensures AimInv(After(running, events), slow)
  {
    if events != [] {
      EveryRunAims(running, events[..|events| - 1], lag, slow);
      AimStep(After(running, events[..|events| - 1]), events[|events| - 1], lag, slow);
    }
  }

  /** While the age of a report and the time a push takes to land fit the settle window together:
      a push of an epoch is wasted if and only if it is the second and the first, though it
      failed, changed the agent. */
  lemma WastedExactlyAfterBotch(running: bool, events: seq<Event>, lag: int, slow: int, j: nat)
    requires PossibleRun(running, events) && HonestRun(running, events, lag, slow) && lag + slow <= SETTLE
    requires j < |After(running, events).log| && After(running, events).log[j].Pushed?
    ensures var log := After(running, events).log;
            Wasted(log[j]) <==> j == 1 && log[0].Pushed? && log[0].botched
  {
    EveryRunAims(running, events, lag, slow);
  }

  lemma {:induction false} CleanRunsHaveNoBotches(running: bool, events: seq<Event>)
    requires CleanRun(events)
    ensures forall m :: m in After(running, events).log && m.Pushed? ==> !m.botched
  {
    if events != [] {
      var rest := events[..|events| - 1];
      assert forall i :: 0 <= i < |rest| ==> rest[i] == events[i];
      CleanRunsHaveNoBotches(running, rest);
    }
  }

  /** So if failed pushes leave the agent as it was, no start ever reaches a running agent and no
      stop one that is not running. */
  lemma {:induction false} EveryPushIsNeeded(running: bool, events: seq<Event>, lag: int, slow: int, j: nat)
    requires PossibleRun(running, events) && HonestRun(running, events, lag, slow) && lag + slow <= SETTLE
    requires CleanRun(events) && j < |After(running, events).log|
    ensures !Wasted(After(running, events).log[j])
  {
    CleanRunsHaveNoBotches(running, events);
    if After(running, events).log[j].Pushed? { WastedExactlyAfterBotch(running, events, lag, slow, j); }
  }

  // ---- Why each hypothesis is needed ----------------------------------------

  /** A run event by event. */
  lemma Snoc(running: bool, events: seq<Event>, e: Event)
    ensures After(running, events + [e]) == Next(After(running, events), e)
    ensures forall lag, slow :: HonestRun(running, events + [e], lag, slow)
                                <==> HonestRun(running, events, lag, slow)
                                     && Honest(After(running, events), e, lag, slow)
    ensures PossibleRun(running, events + [e]) <==> PossibleRun(running, events) && Possible(After(running, events), e)
  {
    assert (events + [e])[..|events|] == events;
  }

  /** One push out of a fresh epoch, as the runs below begin. */
  predicate Opening(running: bool, e: Event) {
    && e.Evaluate? && e.look.gen == 1 && e.look.connected && !e.look.blocked
    && 0 <= e.seenAt <= e.look.now == e.reached <= e.landed == e.returned
    && (if running then e.look.run == "stopped" && e.look.obs.Running?
        else e.look.run == "running" && e.look.obs.Initialized?)
    && (e.botched ==> !e.look.ok)
  }

  lemma FirstPush(running: bool, e: Event)
    requires Opening(running, e)
    ensures var l := e.look;
            var streak := if l.ok then 0 else 1;
            var m := Pushed(l.now, l.now, e.returned, !running, l.ok, running, false, false, streak, e.botched);
            && PossibleRun(running, [Connect(0, running), e])
            && (forall lag, slow :: l.now - lag <= e.seenAt && e.landed - l.now <= slow ==>
                  HonestRun(running, [Connect(0, running), e], lag, slow))
            && After(running, [Connect(0, running), e])
               == Sys(if l.ok then NodeState(1, 0, None, false, false, Some(l.now))
                      else NodeState(1, 1, Some(l.now + 5 * SECOND), false, false, None),
                      true, e.returned, e.seenAt, Some(l.run), running,
                      if l.ok || e.botched then [Flip(e.landed, !running)] else [], [m], 0, 0)
  {
    hide Acted, Backoff;
    var hello := Connect(0, running);
    Snoc(running, [], hello);
    Snoc(running, [hello], e);
    assert [hello] + [e] == [hello, e] && [] + [hello] == [hello];
    var s1 := Next(Start(running), hello);
    assert s1 == Sys(FRESH, true, 0, 0, None, running, [], [], 0, 0);
    assert ActionAt(s1.st, e.look) == Push(!running, e.look.ok);
    FirstActed(!running, e.look.ok, e.look.now);
  }

  lemma FirstActed(start: bool, ok: bool, now: int)
    ensures Acted(FRESH.(gen := 1), Push(start, ok), now)
            == if ok then NodeState(1, 0, None, false, false, Some(now))
               else NodeState(1, 1, Some(now + 5 * SECOND), false, false, None)
  {
    BackoffSeconds(1);
  }

  /** The bound is tight: whatever the greatest age of a report (at least one tick) and the
      longest push, if together they exceed the settle window, an honest run without botched
      pushes starts a running agent. Its first start lands late, its second pass comes as soon
      as the settle window allows, on a report from just before the landing. */
  lemma SlowPushesAreWasted(lag: int, slow: int) returns (events: seq<Event>)
    requires 1 <= lag && 0 <= slow && lag + slow > SETTLE
    ensures PossibleRun(false, events) && HonestRun(false, events, lag, slow) && CleanRun(events)
    ensures |After(false, events).log| == 2 && Wasted(After(false, events).log[1])
  {
    var t := SECOND;
    var again := t + Max(SETTLE, slow);
    var first := Evaluate(Look(t, "running", 1, true, Initialized, false, true), t, t - 1, t + slow, t + slow, false);
    var retry := Evaluate(Look(again, "running", 1, true, Initialized, false, false), again, t + slow - 1,
                          again, again, false);
    FirstPush(false, first);
    events := [Connect(0, false), first];
    Snoc(false, events, retry);
    SecondPush(After(false, events), retry, lag, slow);
    assert CleanRun(events + [retry]);
    hide *;
    events := events + [retry];
  }

  ghost predicate NothingWasted(running: bool, events: seq<Event>) {
    forall j :: 0 <= j < |After(running, events).log| ==> !Wasted(After(running, events).log[j])
  }

  predicate Usual(running: bool, events: seq<Event>, lag: int, slow: int) {
    PossibleRun(running, events) && HonestRun(running, events, lag, slow) && CleanRun(events)
  }

  /** So the settle window is exactly what honest reports and clean pushes need. */
  lemma SettleWindowIsExact(lag: int, slow: int)
    requires 1 <= lag && 0 <= slow
    ensures (forall running, events :: Usual(running, events, lag, slow) ==> NothingWasted(running, events))
            <==> lag + slow <= SETTLE
  {
    hide PossibleRun, HonestRun, After, CleanRun, Wasted;
    if lag + slow > SETTLE {
      var events := SlowPushesAreWasted(lag, slow);
      assert Usual(false, events, lag, slow) && !NothingWasted(false, events);
    } else {
      forall running, events | Usual(running, events, lag, slow)
        ensures NothingWasted(running, events)
      {
        forall j | 0 <= j < |After(running, events).log| ensures !Wasted(After(running, events).log[j]) {
          EveryPushIsNeeded(running, events, lag, slow, j);
        }
      }
    }
  }

  lemma SecondPush(s: Sys, e: Event, lag: int, slow: int)
    requires e.Evaluate? && s.connected && |s.log| == 1 && |s.flips| == 1 && !s.st.held && s.st.gen == 1
    requires s.want == Some(e.look.run)
    requires e.look.gen == 1 && e.look.connected && !e.look.blocked && Due(s.st, e.look.now)
    requires s.clock <= e.look.now == e.reached == e.landed == e.returned && 0 <= slow
    requires s.since <= e.seenAt < s.flips[0].at && e.reached - lag <= e.seenAt <= e.reached
    requires s.base != s.flips[0].running
    requires s.base ==> e.look.run == "stopped" && e.look.obs.Running?
    requires !s.base ==> e.look.run == "running" && e.look.obs.Initialized?
    ensures Possible(s, e) && Honest(s, e, lag, slow)
    ensures |Next(s, e).log| == 2 && Wasted(Next(s, e).log[1])
  {
    hide Acted, Due;
    assert s.flips[..|s.flips| - 1] == [] && Opened(s, e.look) == s;
    assert ValueAt(s.base, [], e.seenAt) == s.base;
    assert ValueAt(s.base, s.flips, e.seenAt) == s.base;
    assert ActionAt(s.st, e.look) == Push(!s.base, e.look.ok);
    assert Next(s, e).log == s.log + [MarkOf(s, e, Push(!s.base, e.look.ok))];
  }

  /** The l4lb agent records itself stopped even when its Stop fails. The retry is due before
      the reports have caught up, and stops a stopped agent. */
  lemma BotchedStopIsRepeated() returns (events: seq<Event>)
    ensures PossibleRun(true, events) && HonestRun(true, events, SETTLE, 0)
    ensures |After(true, events).log| == 2 && Wasted(After(true, events).log[1])
  {
    var first := Evaluate(Look(SECOND, "stopped", 1, true, Running, false, false), SECOND, 0, SECOND, SECOND, true);
    var retry := Evaluate(Look(6 * SECOND, "stopped", 1, true, Running, false, false), 6 * SECOND, 0, 6 * SECOND,
                          6 * SECOND, false);
    FirstPush(true, first);
    events := [Connect(0, true), first];
    Snoc(true, events, retry);
    SecondPush(After(true, events), retry, SETTLE, 0);
    hide *;
    events := events + [retry];
  }

  /** A start that takes six seconds to fail is tried again the moment it has failed. */
  lemma SlowFailureIsRetriedAtOnce() returns (events: seq<Event>)
    ensures PossibleRun(false, events) && |After(false, events).log| == 2
    ensures var log := After(false, events).log;
            log[0].Pushed? && !log[0].ok && log[0].streak == 1 && log[1].Pushed? && log[1].sent == log[0].returned
  {
    var first := Evaluate(Look(SECOND, "running", 1, true, Initialized, false, false), SECOND, 0, 7 * SECOND,
                          7 * SECOND, false);
    var retry := Evaluate(Look(7 * SECOND, "running", 1, true, Initialized, false, false), 7 * SECOND, 0, 7 * SECOND,
                          7 * SECOND, false);
    FirstPush(false, first);
    events := [Connect(0, false), first];
    Snoc(false, events, retry);
    var s := After(false, events);
    assert ActionAt(s.st, retry.look) == Push(true, false);
    hide PossibleRun, HonestRun, After, Acted;
    assert Possible(s, retry);
    assert Next(s, retry).log == s.log + [MarkOf(s, retry, Push(true, false))];
    events := events + [retry];
  }

  /** Honest but for its age: the report is within the settle window, yet shows the agent as it
      was before the epoch. */
  predicate Stale(s: Sys, e: Event) {
    e.Evaluate? && Observes(e.look) && e.reached - SETTLE <= e.seenAt < Opened(s, e.look).since
    && (e.look.obs.Running? <==> ValueAt(s.base, s.flips, e.seenAt))
  }

  /** A generation bump forgets the last successful push: a report from before the bump makes
      the controller start a running agent. */
  lemma BumpForgetsTheSettleWindow() returns (events: seq<Event>, e: Event)
    ensures PossibleRun(false, events + [e]) && HonestRun(false, events, SETTLE, 0) && Stale(After(false, events), e)
    ensures |After(false, events + [e]).log| == 1 && Wasted(After(false, events + [e]).log[0])
  {
    var first := Evaluate(Look(SECOND, "running", 1, true, Initialized, false, true), SECOND, 0, SECOND, SECOND, false);
    e := Evaluate(Look(2 * SECOND, "running", 2, true, Initialized, false, false), 2 * SECOND, 0, 2 * SECOND,
                  2 * SECOND, false);
    FirstPush(false, first);
    events := [Connect(0, false), first];
    Snoc(false, events, e);
    var s := After(false, events);
    hide HonestRun, PossibleRun, After, Acted;
    assert s.flips[..0] == [];
    assert ActionAt(s.st, e.look) == Push(true, false);
  }
}
