// The run-state controller (reconcile/node_run.go), the status board its start gate reads
// (reconcile/status.go), and the agent it drives (stat/lifecycle.go). Times are nanoseconds.

module NodeRun {
  import opened Text

  const SECOND := 1_000_000_000
  const BASE_BACKOFF := 5 * SECOND
  const MAX_BACKOFF := 300 * SECOND
  const MAX_ATTEMPTS := 5
  const SETTLE := 10 * SECOND

  /** consts.AppStatus: Failed is the agent's Error. */
  datatype App = Unknown | Initialized | Running | Stopped | Failed

  /** None is the zero time, which is before every clock reading. */
  datatype NodeState = NodeState(gen: nat, attempts: nat, nextTry: Option<int>, held: bool, forceOnce: bool,
                                 pushedAt: Option<int>)

  const FRESH := NodeState(0, 0, None, false, false, None)

  function Pow2(n: nat): (p: nat)
    ensures p >= 1
  {
    if n == 0 then 1 else 2 * Pow2(n - 1)
  }

  /** base << (attempts - 1), capped. */
  function Backoff(attempts: nat): int
    requires attempts >= 1
  {
    var b := BASE_BACKOFF * Pow2(attempts - 1);
    if b > MAX_BACKOFF then MAX_BACKOFF else b
  }

  lemma {:induction false} Pow2Grows(m: nat, n: nat)
    requires m <= n
    ensures Pow2(m) <= Pow2(n)
  {
    if m < n { Pow2Grows(m, n - 1); }
  }

  /** The delays in seconds: 5, 10, 20, 40, 80, 160, and 300 from the seventh on. */
  lemma BackoffSeconds(k: nat)
    requires k >= 1
    ensures Backoff(k) == SECOND * (if k == 1 then 5 else if k == 2 then 10 else if k == 3 then 20
                                    else if k == 4 then 40
                                    else if k == 5 then 80 else if k == 6 then 160 else 300)
  {
    assert Pow2(1) == 2 && Pow2(2) == 4 && Pow2(3) == 8 && Pow2(4) == 16 && Pow2(5) == 32 && Pow2(6) == 64;
    if k >= 7 { Pow2Grows(6, k - 1); }
  }

  // ---- One node, one evaluation ---------------------------------------------

  /** What one evaluation finds out about a node: its declaration, whether it is connected,
      its reported state, whether another resource's push to it failed, and how a push would
      end. */
  datatype Look = Look(now: int, run: string, gen: nat, connected: bool, obs: App, blocked: bool, ok: bool)

  datatype Act = Idle | Met | Refused | BadRun | Push(start: bool, ok: bool)

  /** A new generation starts over, but for a pending force. */
  function Bumped(st: NodeState, gen: nat): NodeState {
    if gen != st.gen then FRESH.(gen := gen, forceOnce := st.forceOnce) else st
  }

  predicate Due(st: NodeState, now: int) {
    && !st.held
    && (st.nextTry.Some? ==> now >= st.nextTry.value)
    && (st.pushedAt.Some? ==> now - st.pushedAt.value >= SETTLE)
  }

  function Action(st: NodeState, l: Look): Act {
    if l.run == "" || !l.connected || l.obs.Unknown? then Idle
    else if l.run == "running" then
      if l.obs.Running? then Met
      else if !Due(st, l.now) then Idle
      else if l.blocked && !st.forceOnce then Refused
      else Push(true, l.ok)
    else if l.run == "stopped" then
      if !l.obs.Running? then Met
      else if !Due(st, l.now) then Idle
      else Push(false, l.ok)
    else BadRun
  }

  function Acted(st: NodeState, act: Act, now: int): NodeState {
    match act
    case Met => st.(attempts := 0, held := false, forceOnce := false)
    case Push(_, true) => st.(attempts := 0, held := false, forceOnce := false, pushedAt := Some(now))
    case Push(_, false) =>
      if st.attempts + 1 >= MAX_ATTEMPTS then st.(attempts := st.attempts + 1, held := true)
      else st.(attempts := st.attempts + 1, nextTry := Some(now + Backoff(st.attempts + 1)))
    case _ => st
  }

  lemma UnseenIsIdle(st: NodeState, l: Look)
    requires l.run == "" || !l.connected || l.obs.Unknown?
    ensures Action(st, l).Idle?
  {
  }

  lemma QuietKeeps(st: NodeState, now: int)
    ensures Acted(st, Idle, now) == Acted(st, Refused, now) == Acted(st, BadRun, now) == st
  {
  }

  function Evaluated(st: NodeState, l: Look): NodeState {
    if l.run == "" then st else var b := Bumped(st, l.gen); Acted(b, Action(b, l), l.now)
  }

  function ActionAt(st: NodeState, l: Look): Act { Action(if l.run == "" then st else Bumped(st, l.gen), l) }

  // ---- The status board -----------------------------------------------------

  /** (resource, node) -> whether its last push succeeded. */
  type Board = map<(string, string), bool>

  const NODE_RUN_RESOURCE := "node_run"

  predicate InError(m: Board, node: string, except: string) {
    exists k :: k in m && k.1 == node && !m[k] && k.0 != except
  }

  class Status {
    var m: Board

    constructor ()
      ensures m == map[]
    {
      m := map[];
    }

    method Record(resource: string, node: string, ok: bool)
      modifies this
      ensures m == old(m)[(resource, node) := ok]
    {
      m := m[(resource, node) := ok];
    }

    method ClearNode(node: string)
      modifies this
      ensures m == map k | k in old(m) && k.1 != node :: old(m)[k]
      ensures forall except :: !InError(m, node, except)
    {
      var todo := m.Keys;
      while todo != {}
        invariant todo <= m.Keys <= old(m).Keys
        invariant forall k :: k in old(m) && k !in m ==> k.1 == node
        invariant forall k :: k in m ==> m[k] == old(m)[k] && (k.1 == node ==> k in todo)
      {
        var k :| k in todo;
        todo := todo - {k};
        if k.1 == node { m := m - {k}; }
      }
    }

    /** Just the resources; the messages are not modelled. */
    method ErrorsForNodeExcept(node: string, except: string) returns (out: seq<string>)
      ensures out != [] <==> InError(m, node, except)
      ensures forall r :: r in out <==> r != except && (r, node) in m && !m[(r, node)]
    {
      out := [];
      var todo := m.Keys;
      while todo != {}
        invariant todo <= m.Keys
        invariant forall r :: r in out <==> r != except && (r, node) in m.Keys - todo && !m[(r, node)]
      {
        var k :| k in todo;
        todo := todo - {k};
        if k.1 == node && !m[k] && k.0 != except { out := out + [k.0]; }
      }
      if out != [] { assert (out[0], node) in m; }
      if InError(m, node, except) {
        var k :| k in m && k.1 == node && !m[k] && k.0 != except;
        assert k == (k.0, node) && k.0 in out;
      }
    }
  }

  // ---- The controller -------------------------------------------------------

  datatype Declared = Declared(cn: string, run: string, gen: nat)

  datatype Call = Call(cn: string, start: bool, ok: bool)

  /** The outside of one evaluation. `ok(i)` is how a push for the i-th declaration ends. */
  datatype Outside = Outside(now: int, connected: set<string>, obs: string -> App, ok: nat -> bool)

  datatype Ledger = Ledger(nodes: map<string, NodeState>, board: Board, calls: seq<Call>)

  function StateOf(nodes: map<string, NodeState>, cn: string): NodeState {
    if cn in nodes then nodes[cn] else FRESH
  }

  function LookAt(board: Board, d: Declared, i: nat, o: Outside): Look {
    Look(o.now, d.run, d.gen, d.cn in o.connected, o.obs(d.cn), InError(board, d.cn, NODE_RUN_RESOURCE), o.ok(i))
  }

  function Report(board: Board, cn: string, act: Act): Board {
    match act
    case Idle => board
    case Met => board[(NODE_RUN_RESOURCE, cn) := true]
    case Push(_, ok) => board[(NODE_RUN_RESOURCE, cn) := ok]
    case _ => board[(NODE_RUN_RESOURCE, cn) := false]
  }

  lemma QuietReports(board: Board, cn: string)
    ensures Report(board, cn, Idle) == board
  {
  }

  function Visit(w: Ledger, d: Declared, i: nat, o: Outside): Ledger {
    if d.run == "" then w
    else
      var l := LookAt(w.board, d, i, o);
      var act := ActionAt(StateOf(w.nodes, d.cn), l);
      Ledger(w.nodes[d.cn := Evaluated(StateOf(w.nodes, d.cn), l)], Report(w.board, d.cn, act),
             if act.Push? then w.calls + [Call(d.cn, act.start, act.ok)] else w.calls)
  }

  function Walk(w: Ledger, desired: seq<Declared>, o: Outside): Ledger {
    if desired == [] then w
    else Visit(Walk(w, desired[..|desired| - 1], o), desired[|desired| - 1], |desired| - 1, o)
  }

  class NodeRunController {
    const status: Status
    var nodes: map<string, NodeState>
    ghost var calls: seq<Call>

    constructor (status: Status)
      ensures this.status == status && nodes == map[] && calls == []
    {
      this.status, nodes, calls := status, map[], [];
    }

    ghost function Now(): Ledger
      reads this, status
    {
      Ledger(nodes, status.m, calls)
    }

    method State(cn: string) returns (st: NodeState)
      modifies this`nodes
      ensures st == StateOf(old(nodes), cn) && nodes == old(nodes)[cn := st]
    {
      if cn !in nodes { nodes := nodes[cn := FRESH]; }
      st := nodes[cn];
    }

    method ForceNext(cn: string)
      modifies this`nodes
      ensures nodes == old(nodes)[cn := StateOf(old(nodes), cn).(forceOnce := true)]
    {
      var st := State(cn);
      nodes := nodes[cn := st.(forceOnce := true)];
    }

    method Reset(cn: string)
      modifies this`nodes
      ensures nodes == old(nodes)[cn := FRESH]
    {
      var _ := State(cn);
      nodes := nodes[cn := FRESH];
    }

    method Forget(cn: string)
      modifies this`nodes
      ensures nodes == old(nodes) - {cn} && StateOf(nodes, cn) == FRESH
    {
      nodes := nodes - {cn};
    }

    method Converged(cn: string, now: int)
      requires cn in nodes
      modifies this`nodes, status
      ensures nodes == old(nodes)[cn := Acted(old(nodes)[cn], Met, now)]
      ensures status.m == Report(old(status.m), cn, Met)
    {
      nodes := nodes[cn := nodes[cn].(attempts := 0, held := false, forceOnce := false)];
      status.Record(NODE_RUN_RESOURCE, cn, true);
    }

    method PushDue(st: NodeState, now: int) returns (due: bool)
      ensures due <==> Due(st, now)
    {
      if st.held || (st.nextTry.Some? && now < st.nextTry.value) { return false; }
      if st.pushedAt.Some? && now - st.pushedAt.value < SETTLE { return false; }
      return true;
    }

    method PushLocked(cn: string, start: bool, now: int, ok: bool)
      requires cn in nodes
      modifies this`nodes, this`calls, status
      ensures nodes == old(nodes)[cn := Acted(old(nodes)[cn], Push(start, ok), now)]
      ensures status.m == Report(old(status.m), cn, Push(start, ok))
      ensures calls == old(calls) + [Call(cn, start, ok)]
    {
      calls := calls + [Call(cn, start, ok)];
      var st := nodes[cn];
      if ok {
        nodes := nodes[cn := st.(attempts := 0, held := false, forceOnce := false, pushedAt := Some(now))];
        status.Record(NODE_RUN_RESOURCE, cn, true);
        return;
      }
      st := st.(attempts := st.attempts + 1);
      nodes := nodes[cn := st];
      status.Record(NODE_RUN_RESOURCE, cn, false);
      if st.attempts >= MAX_ATTEMPTS {
        nodes := nodes[cn := st.(held := true)];
        return;
      }
      var backoff, shifts := BASE_BACKOFF, 0;
      while shifts < st.attempts - 1
        invariant 0 <= shifts <= st.attempts - 1 && backoff == BASE_BACKOFF * Pow2(shifts)
      {
        backoff, shifts := 2 * backoff, shifts + 1;
      }
      if backoff > MAX_BACKOFF { backoff := MAX_BACKOFF; }
      nodes := nodes[cn := st.(nextTry := Some(now + backoff))];
    }

    /** One pass over the desired set. */
    method Evaluate(desired: seq<Declared>, o: Outside)
      modifies this`nodes, this`calls, status
      ensures Now() == Walk(old(Now()), desired, o)
    {
      for i := 0 to |desired|
        invariant Now() == Walk(old(Now()), desired[..i], o)
      {
        assert desired[..i + 1][..i] == desired[..i];
        Consider(desired[i], i, o);
      }
      assert desired[..|desired|] == desired;
    }

    /** The body of Evaluate's loop up to the reported status. */
    method Consider(d: Declared, i: nat, o: Outside)
      modifies this`nodes, this`calls, status
      ensures Now() == Visit(old(Now()), d, i, o)
    {
      hide InError, Acted, Due, Report, Action;
      ghost var w := Now();
      if d.run != "" {
        var st := State(d.cn);
        if d.gen != st.gen {
          nodes := nodes[d.cn := FRESH.(gen := d.gen, forceOnce := st.forceOnce)];
        }
        ghost var l := LookAt(status.m, d, i, o);
        assert nodes == w.nodes[d.cn := Bumped(StateOf(w.nodes, d.cn), d.gen)];
        QuietKeeps(nodes[d.cn], o.now);
        QuietReports(status.m, d.cn);
        if d.cn in o.connected && o.obs(d.cn) != Unknown {
          Drive(d, o.obs(d.cn), o.now, o.ok(i));
        } else {
          UnseenIsIdle(nodes[d.cn], l);
        }
      }
    }

    /** The rest of it: the switch over the desired run-state. */
    method Drive(d: Declared, obs: App, now: int, ok: bool)
      requires d.cn in nodes && d.run != "" && obs != Unknown
      modifies this`nodes, this`calls, status
      ensures var l := Look(now, d.run, d.gen, true, obs, InError(old(status.m), d.cn, NODE_RUN_RESOURCE), ok);
              var act := Action(old(nodes)[d.cn], l);
              && nodes == old(nodes)[d.cn := Acted(old(nodes)[d.cn], act, now)]
              && status.m == Report(old(status.m), d.cn, act)
              && calls == old(calls) + if act.Push? then [Call(d.cn, act.start, act.ok)] else []
    {
      hide InError, Acted, Due;
      var cn, st := d.cn, nodes[d.cn];
      QuietKeeps(st, now);
      if d.run == "running" {
        if obs == Running {
          Converged(cn, now);
        } else {
          var due := PushDue(st, now);
          if due {
            var errors := status.ErrorsForNodeExcept(cn, NODE_RUN_RESOURCE);
            if |errors| > 0 && !st.forceOnce {
              status.Record(NODE_RUN_RESOURCE, cn, false);
            } else {
              PushLocked(cn, true, now, ok);
            }
          }
        }
      } else if d.run == "stopped" {
        if obs != Running {
          Converged(cn, now);
        } else {
          var due := PushDue(st, now);
          if due { PushLocked(cn, false, now, ok); }
        }
      } else {
        status.Record(NODE_RUN_RESOURCE, cn, false);
      }
    }
  }
}
