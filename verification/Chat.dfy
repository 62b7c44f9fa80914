// Chat sessions (nodewatch/chat.go) and the re-derivation of tool-call ids when a history
// goes out to an OpenAI-compatible server (nodewatch/openai.go).

module Chat {
  import opened Text
  import opened ToolLoop

  const MAX_SESSIONS := 8
  const MAX_MESSAGES := 40

  // ---- Tool-call ids --------------------------------------------------------

  /** The printed forms call_<msg>_<call> and call_<msg>_orphan. */
  datatype Id = CallId(msg: nat, call: nat) | OrphanId(msg: nat)

  datatype WireMsg = WireMsg(msg: Msg, callIds: seq<Id>, answersId: Option<Id>)

  function IdsOf(i: nat, calls: seq<ToolCall>): (ids: seq<Id>)
    ensures |ids| == |calls| && forall j :: 0 <= j < |calls| ==> ids[j] == CallId(i, j)
  {
    seq(|calls|, j requires 0 <= j < |calls| => CallId(i, j))
  }

  /** The ids still open after a history, in the order they will be claimed. */
  function Open(msgs: History): seq<Id> {
    if msgs == [] then []
    else
      var rest, last := msgs[..|msgs| - 1], msgs[|msgs| - 1];
      match last
      case Assistant(_, _, calls) => IdsOf(|rest|, calls)
      case Tool(_, _, _) => if Open(rest) == [] then [] else Open(rest)[1..]
      case _ => Open(rest)
  }

  /** The id message i is sent with when it is a tool result. */
  function ClaimedId(msgs: History, i: nat): Id
    requires i < |msgs|
  {
    var open := Open(msgs[..i]);
    if open == [] then OrphanId(i) else open[0]
  }

  /** Message i as it is sent: an assistant's calls get their ids from their position, a
      tool result claims the oldest open one. */
  function WireOf(msgs: History, i: nat): WireMsg
    requires i < |msgs|
  {
    WireMsg(msgs[i], if msgs[i].Assistant? then IdsOf(i, msgs[i].calls) else [],
            if msgs[i].Tool? then Some(ClaimedId(msgs, i)) else None)
  }

  method CallIds(i: nat, calls: seq<ToolCall>) returns (ids: seq<Id>)
    ensures ids == IdsOf(i, calls)
  {
    ids := [];
    for j := 0 to |calls|
      invariant ids == IdsOf(i, calls)[..j]
    {
      ids := ids + [CallId(i, j)];
    }
  }

  method ToOpenAIMessages(msgs: History) returns (out: seq<WireMsg>)
    ensures |out| == |msgs|
    ensures forall i :: 0 <= i < |msgs| ==> out[i] == WireOf(msgs, i)
  {
    out := [];
    var open: seq<Id> := [];
    for i := 0 to |msgs|
      invariant |out| == i && open == Open(msgs[..i])
      invariant forall k :: 0 <= k < i ==> out[k] == WireOf(msgs, k)
    {
      var om := WireMsg(msgs[i], [], None);
      match msgs[i] {
        case Assistant(_, _, calls) =>
          open := CallIds(i, calls);
          om := om.(callIds := open);
        case Tool(_, _, _) =>
          if |open| > 0 {
            om, open := om.(answersId := Some(open[0])), open[1..];
          } else {
            om := om.(answersId := Some(OrphanId(i)));
          }
        case _ =>
      }
      out := out + [om];
      OpenSnoc(msgs, i);
    }
    assert msgs[..|msgs|] == msgs;
  }

  lemma OpenSnoc(msgs: History, i: nat)
    requires i < |msgs|
    ensures Open(msgs[..i + 1]) == match msgs[i]
                                   case Assistant(_, _, calls) => IdsOf(i, calls)
                                   case Tool(_, _, _) => if Open(msgs[..i]) == [] then [] else Open(msgs[..i])[1..]
                                   case _ => Open(msgs[..i])
  {
    assert msgs[..i + 1][..i] == msgs[..i];
  }

  // ---- Well-formed histories ------------------------------------------------

  /** Reads a history as turns: results answer the calls of the assistant message they
      follow, in order, and nothing else. Some(calls) are the calls still unanswered. */
  function Scan(msgs: History): Option<seq<ToolCall>> {
    if msgs == [] then Some([])
    else
      match Scan(msgs[..|msgs| - 1])
      case None => None
      case Some(open) => ScanOne(open, msgs[|msgs| - 1])
  }

  function ScanOne(open: seq<ToolCall>, m: Msg): Option<seq<ToolCall>> {
    match m
    case Assistant(_, _, calls) => Some(calls)
    case Tool(name, _, answers) =>
      if open != [] && open[0] == answers && name == answers.name then Some(open[1..]) else None
    case _ => Some([])
  }

  predicate WellFormed(msgs: History) { Scan(msgs).Some? }

  lemma {:induction false} ScanPrefix(msgs: History, i: nat)
    requires WellFormed(msgs) && i <= |msgs|
    ensures WellFormed(msgs[..i])
  {
    if i == |msgs| {
      assert msgs[..i] == msgs;
    } else {
      ScanPrefix(msgs[..|msgs| - 1], i);
      assert msgs[..|msgs| - 1][..i] == msgs[..i];
    }
  }

  /** The latest message that is not a tool result. */
  function Asker(msgs: History): Option<nat> {
    if msgs == [] then None
    else if msgs[|msgs| - 1].Tool? then Asker(msgs[..|msgs| - 1])
    else Some(|msgs| - 1)
  }

  /** While results are being collected the code's queue and the unanswered calls agree;
      elsewhere nothing is waiting for an answer. */
  ghost predicate InStep(msgs: History, m: Option<nat>, unanswered: seq<ToolCall>, open: seq<Id>) {
    if m.None? then msgs == [] && unanswered == []
    else
      m.value < |msgs| &&
      if msgs[m.value].Assistant? then
        var calls, answered := msgs[m.value].calls, |msgs| - 1 - m.value;
        answered <= |calls| && unanswered == calls[answered..] && open == IdsOf(m.value, calls)[answered..]
      else
        unanswered == [] && m.value == |msgs| - 1
  }

  lemma InStepSnoc(rest: History, last: Msg, m: Option<nat>, unanswered: seq<ToolCall>, open: seq<Id>)
    requires InStep(rest, m, unanswered, open) && ScanOne(unanswered, last).Some?
    ensures var msgs := rest + [last];
            match last
            case Assistant(_, _, calls) => InStep(msgs, Some(|rest|), calls, IdsOf(|rest|, calls))
            case Tool(_, _, _) => open != [] && InStep(msgs, m, unanswered[1..], open[1..])
            case _ => InStep(msgs, Some(|rest|), [], open)
  {
    var msgs := rest + [last];
    match last
    case Assistant(_, _, calls) => assert msgs[|rest|] == last;
    case Tool(_, _, _) =>
      assert msgs[m.value] == rest[m.value];
    case _ =>
  }

  lemma {:induction false} OpenMatchesScan(msgs: History)
    requires WellFormed(msgs)
    ensures InStep(msgs, Asker(msgs), Scan(msgs).value, Open(msgs))
  {
    if msgs != [] {
      var rest, last := msgs[..|msgs| - 1], msgs[|msgs| - 1];
      OpenMatchesScan(rest);
      InStepSnoc(rest, last, Asker(rest), Scan(rest).value, Open(rest));
      hide InStep;
      assert rest + [last] == msgs;
    }
  }

  /** In a well-formed history every tool result is sent with the id of exactly the call it
      answers, a call of the assistant message it follows; no orphan id is produced. */
  lemma ResultsClaimTheirCalls(msgs: History, i: nat)
    requires WellFormed(msgs) && i < |msgs| && msgs[i].Tool?
    ensures var id := ClaimedId(msgs, i);
            && id.CallId? && id.msg < i && msgs[id.msg].Assistant? && id.call < |msgs[id.msg].calls|
            && msgs[id.msg].calls[id.call] == msgs[i].answers && msgs[i].answers.name == msgs[i].name
            && i == id.msg + 1 + id.call
  {
    ScanPrefix(msgs, i);
    ScanPrefix(msgs, i + 1);
    assert msgs[..i + 1][..i] == msgs[..i];
    OpenMatchesScan(msgs[..i]);
  }

  /** On the wire the history keeps its messages, and a result's id is the one its call went
      out with. */
  lemma WireKeepsPairs(msgs: History, i: nat)
    requires WellFormed(msgs) && i < |msgs|
    ensures WireOf(msgs, i).msg == msgs[i] && (WireOf(msgs, i).answersId.Some? <==> msgs[i].Tool?)
    ensures |WireOf(msgs, i).callIds| == if msgs[i].Assistant? then |msgs[i].calls| else 0
    ensures msgs[i].Tool? ==>
              exists k, c :: 0 <= k < i && msgs[k].Assistant? && 0 <= c < |msgs[k].calls|
                             && msgs[k].calls[c] == msgs[i].answers
                             && WireOf(msgs, i).answersId == Some(WireOf(msgs, k).callIds[c])
  {
    if msgs[i].Tool? {
      ResultsClaimTheirCalls(msgs, i);
      var id := ClaimedId(msgs, i);
      assert WireOf(msgs, id.msg).callIds[id.call] == id;
    }
  }

  lemma ClaimedIdsDistinct(msgs: History, i: nat, j: nat)
    requires WellFormed(msgs) && i < |msgs| && msgs[i].Tool? && j < |msgs| && msgs[j].Tool? && i != j
    ensures ClaimedId(msgs, i) != ClaimedId(msgs, j)
  {
    ResultsClaimTheirCalls(msgs, i);
    ResultsClaimTheirCalls(msgs, j);
  }

  // ---- The loop keeps histories well formed ---------------------------------

  lemma ScanSnoc(msgs: History, m: Msg)
    ensures Scan(msgs + [m]) == match Scan(msgs) case None => None case Some(open) => ScanOne(open, m)
  {
    assert (msgs + [m])[..|msgs|] == msgs;
  }

  /** The history has exactly these calls left to answer. */
  predicate Awaits(msgs: History, tcs: seq<ToolCall>) { Scan(msgs) == Some(tcs) }

  lemma {:induction false} ToolsKeepForm(a: Agent, msgs: History, tcs: seq<ToolCall>)
    requires Awaits(msgs, tcs)
    ensures match ProcessTools(a, msgs, tcs)
            case Handled(h) => Awaits(h, []) && msgs <= h
            case Stopped(h, p) => Awaits(h, p) && p != [] && msgs <= h
            case Broken(h) => true
    decreases |tcs|
  {
    if tcs != [] {
      var h := Answered(a, msgs, tcs[0], a.exec(msgs, tcs[0]));
      ScanSnoc(msgs, h[|msgs|]);
      if !a.clientSide(tcs[0].name) { ToolsKeepForm(a, h, tcs[1..]); }
    }
  }

  ghost predicate GoodOutcome(msgs: History, o: Outcome) {
    match o
    case Final(h) => Awaits(h, []) && msgs <= h
    case Exhausted(h) => Awaits(h, []) && msgs <= h
    case Suspended(h, p) => Awaits(h, p) && p != [] && msgs <= h
    case Failed(_) => true
  }

  lemma {:induction false} LoopKeepsForm(a: Agent, msgs: History, steps: nat)
    requires Awaits(msgs, [])
    ensures GoodOutcome(msgs, ModelLoop(a, msgs, steps))
    decreases steps
  {
    if steps > 0 {
      match Ask(a, msgs)
      case (h, None) =>
      case (h, Some(r)) =>
        ScanSnoc(msgs, h[|msgs|]);
        if r.calls != [] {
          ToolsKeepForm(a, h, r.calls);
          match ProcessTools(a, h, r.calls)
          case Handled(h') => LoopKeepsForm(a, h', steps - 1);
          case _ =>
        }
    }
  }

  lemma ResumeKeepsForm(a: Agent, msgs: History, pending: seq<ToolCall>, result: string)
    requires Awaits(msgs, pending) && pending != []
    ensures GoodOutcome(msgs, ResumeTurn(a, msgs, pending, result))
  {
    var h := Answered(a, msgs, pending[0], result);
    ScanSnoc(msgs, h[|msgs|]);
    ToolsKeepForm(a, h, pending[1..]);
    match ProcessTools(a, h, pending[1..])
    case Handled(h') => LoopKeepsForm(a, h', a.maxSteps);
    case _ =>
  }

  /** Every history sent to the model is well formed, with no call left to answer. */
  lemma {:induction false} LoopSendsForm(a: Agent, msgs: History, steps: nat)
    requires Awaits(msgs, [])
    ensures forall h :: h in Consulted(a, msgs, steps) ==> Awaits(h, [])
    decreases steps
  {
    if steps > 0 && a.emit(msgs, ModelCall) {
      GoesKeepsForm(a, msgs);
      hide Goes, Scan;
      match Goes(a, msgs)
      case None =>
      case Some(h) => LoopSendsForm(a, h, steps - 1);
    }
  }

  lemma GoesKeepsForm(a: Agent, msgs: History)
    requires Awaits(msgs, [])
    ensures Goes(a, msgs).Some? ==> Awaits(Goes(a, msgs).value, [])
  {
    hide ProcessTools, Scan;
    match Ask(a, msgs)
    case (h, None) =>
    case (h, Some(r)) =>
      ScanSnoc(msgs, h[|msgs|]);
      ToolsKeepForm(a, h, r.calls);
  }

  lemma ResumeSendsForm(a: Agent, msgs: History, pending: seq<ToolCall>, result: string)
    requires Awaits(msgs, pending) && pending != []
    ensures forall h :: h in ConsultedByResume(a, msgs, pending, result) ==> Awaits(h, [])
  {
    var h := Answered(a, msgs, pending[0], result);
    ScanSnoc(msgs, h[|msgs|]);
    ToolsKeepForm(a, h, pending[1..]);
    match ProcessTools(a, h, pending[1..])
    case Handled(h') => LoopSendsForm(a, h', a.maxSteps);
    case _ =>
  }

  // ---- Trimming -------------------------------------------------------------

  /** The first user message at or after k, or the end. */
  function NextUser(msgs: History, k: nat): (i: nat)
    requires k <= |msgs|
    ensures k <= i <= |msgs|
    ensures i < |msgs| ==> msgs[i].User?
    ensures forall j :: k <= j < i ==> !msgs[j].User?
    decreases |msgs| - k
  {
    if k == |msgs| || msgs[k].User? then k else NextUser(msgs, k + 1)
  }

  function Head(msgs: History): nat { if msgs != [] && msgs[0].System? then 1 else 0 }

  function Trim(msgs: History): History {
    if |msgs| <= MAX_MESSAGES then msgs
    else msgs[..Head(msgs)] + msgs[NextUser(msgs, |msgs| - (MAX_MESSAGES - Head(msgs)))..]
  }

  method SkipToUser(msgs: History) returns (tail: History)
    ensures tail == msgs[NextUser(msgs, 0)..]
  {
    ghost var k := 0;
    tail := msgs;
    while |tail| > 0 && !tail[0].User?
      invariant k <= |msgs| && tail == msgs[k..] && NextUser(msgs, 0) == NextUser(msgs, k)
      decreases |tail|
    {
      assert tail[1..] == msgs[k + 1..];
      tail, k := tail[1..], k + 1;
    }
  }

  lemma {:induction false} NextUserShift(msgs: History, start: nat, k: nat)
    requires start + k <= |msgs|
    ensures NextUser(msgs, start + k) == start + NextUser(msgs[start..], k)
    decreases |msgs| - k
  {
    if start + k < |msgs| && !msgs[start + k].User? { NextUserShift(msgs, start, k + 1); }
  }

  method TrimHistory(msgs: History) returns (r: History)
    ensures r == Trim(msgs)
  {
    hide NextUser;
    if |msgs| <= MAX_MESSAGES { return msgs; }
    var head := 0;
    if msgs[0].System? { head := 1; }
    assert head == Head(msgs);
    var start := |msgs| - (MAX_MESSAGES - head);
    var tail := SkipToUser(msgs[start..]);
    TailFrom(msgs, start);
    return msgs[..head] + tail;
  }

  lemma TailFrom(msgs: History, start: nat)
    requires start <= |msgs|
    ensures msgs[start..][NextUser(msgs[start..], 0)..] == msgs[NextUser(msgs, start)..]
  {
    NextUserShift(msgs, start, 0);
    hide NextUser;
    DropTwice(msgs, start, NextUser(msgs[start..], 0));
  }

  lemma DropTwice(msgs: History, a: nat, b: nat)
    requires a + b <= |msgs|
    ensures msgs[a..][b..] == msgs[a + b..]
  {
  }

  lemma TailSnoc(pre: History, msgs: History, k: nat)
    requires k < |msgs|
    ensures pre + msgs[k..] == pre + msgs[..|msgs| - 1][k..] + [msgs[|msgs| - 1]]
  {
  }

  /** A well-formed history read from a user message on is well formed. */
  lemma {:induction false} ScanFromUser(pre: History, msgs: History, k: nat)
    requires WellFormed(msgs) && k < |msgs| && msgs[k].User? && WellFormed(pre)
    ensures Scan(pre + msgs[k..]) == Scan(msgs)
    decreases |msgs|
  {
    var last := |msgs| - 1;
    if k == last {
      assert msgs[k..] == [msgs[k]];
      ScanSnoc(pre, msgs[k]);
    } else {
      var rest := msgs[..last];
      ScanPrefix(msgs, last);
      ScanFromUser(pre, rest, k);
      hide ScanOne, Scan;
      TailSnoc(pre, msgs, k);
      assert rest + [msgs[last]] == msgs;
      ScanSnoc(rest, msgs[last]);
      ScanSnoc(pre + rest[k..], msgs[last]);
    }
  }

  /** Trimming keeps at most 40 messages: the system prompt and a suffix that starts at a
      user turn (or nothing), in a history that is still well formed. */
  lemma {:induction false} TrimKeepsTurns(msgs: History)
    requires WellFormed(msgs)
    ensures var r := Trim(msgs);
            && |r| <= MAX_MESSAGES && WellFormed(r) && (Awaits(msgs, []) ==> Awaits(r, []))
            && (msgs != [] && msgs[0].System? ==> r != [] && r[0] == msgs[0])
            && (|msgs| <= MAX_MESSAGES ==> r == msgs)
            && (|msgs| > MAX_MESSAGES ==>
                  exists k :: Head(msgs) <= k <= |msgs| && r == msgs[..Head(msgs)] + msgs[k..]
                              && (k < |msgs| ==> msgs[k].User?)
                              && forall j :: |msgs| - (MAX_MESSAGES - Head(msgs)) <= j < k ==> !msgs[j].User?)
  {
    if |msgs| > MAX_MESSAGES {
      var k := NextUser(msgs, |msgs| - (MAX_MESSAGES - Head(msgs)));
      ScanPrefix(msgs, Head(msgs));
      if k < |msgs| {
        ScanFromUser(msgs[..Head(msgs)], msgs, k);
      } else {
        HeadAwaitsNothing(msgs);
        assert msgs[k..] == [];
        assert Trim(msgs) == msgs[..Head(msgs)];
      }
    }
  }

  lemma HeadAwaitsNothing(msgs: History)
    ensures Awaits(msgs[..Head(msgs)], [])
  {
    if Head(msgs) == 1 {
      assert msgs[..1] == [] + [msgs[0]];
      ScanSnoc([], msgs[0]);
    }
  }

  // ---- Sessions -------------------------------------------------------------

  datatype Session = Session(msgs: History, pending: seq<ToolCall>)

  /** settle: an error keeps the history from before the turn, a suspension grows it, an
      end trims it. errorSent says whether a budget stall could be reported. */
  function Settle(s: Session, o: Outcome, errorSent: bool): Session {
    match o
    case Failed(_) => s
    case Suspended(h, p) => Session(h, p)
    case Exhausted(h) => if errorSent then s.(msgs := Trim(h)) else s
    case Final(h) => s.(msgs := Trim(h))
  }

  datatype Request =
    | Send(text: string, errorSent: bool)
    | Resume(tool: string, result: string, errorSent: bool)

  function Prompted(s: Session, prompt: string, text: string): History {
    (if s.msgs == [] then [System(prompt)] else s.msgs) + [User(text)]
  }

  /** The session after a request. Send does not look at pending; Resume clears it first. */
  function Serve(a: Agent, prompt: string, s: Session, r: Request): Session {
    match r
    case Send(text, sent) =>
      if text == "" then s else Settle(s, ModelLoop(a, Prompted(s, prompt, text), a.maxSteps), sent)
    case Resume(tool, result, sent) =>
      if s.pending == [] || tool != s.pending[0].name then s
      else Settle(s.(pending := []), ResumeTurn(a, s.msgs, s.pending, result), sent)
  }

  /** A request with the model, tools, clock and stream as they are while it is served. */
  datatype Turn = Turn(agent: Agent, request: Request)

  ghost function ServeAll(prompt: string, ts: seq<Turn>): Session {
    if ts == [] then Session([], [])
    else Serve(ts[|ts| - 1].agent, prompt, ServeAll(prompt, ts[..|ts| - 1]), ts[|ts| - 1].request)
  }

  /** No Send ever meets a suspended session. */
  ghost predicate Polite(prompt: string, ts: seq<Turn>) {
    ts == [] ||
    (Polite(prompt, ts[..|ts| - 1]) &&
     (ts[|ts| - 1].request.Send? ==> ServeAll(prompt, ts[..|ts| - 1]).pending == []))
  }

  /** The histories a request sends to the model. */
  function SentBy(prompt: string, s: Session, t: Turn): seq<History> {
    match t.request
    case Send(text, _) => if text == "" then [] else Consulted(t.agent, Prompted(s, prompt, text), t.agent.maxSteps)
    case Resume(tool, result, _) =>
      if s.pending == [] || tool != s.pending[0].name then []
      else ConsultedByResume(t.agent, s.msgs, s.pending, result)
  }

  ghost predicate GoodSession(s: Session) {
    && WellFormed(s.msgs) && (s.msgs != [] ==> s.msgs[0].System?)
    && (s.pending != [] ==> Awaits(s.msgs, s.pending))
  }

  lemma ServeKeepsGood(a: Agent, prompt: string, s: Session, r: Request)
    requires GoodSession(s) && (r.Send? ==> s.pending == [])
    ensures GoodSession(Serve(a, prompt, s, r))
  {
    match r
    case Send(text, sent) =>
      PromptedAwaitsNothing(prompt, s, text);
      LoopKeepsForm(a, Prompted(s, prompt, text), a.maxSteps);
      TrimOutcome(Prompted(s, prompt, text), ModelLoop(a, Prompted(s, prompt, text), a.maxSteps));
    case Resume(tool, result, sent) =>
      if s.pending != [] {
        ResumeKeepsForm(a, s.msgs, s.pending, result);
        ScanNonEmpty(s.msgs);
        TrimOutcome(s.msgs, ResumeTurn(a, s.msgs, s.pending, result));
      }
  }

  lemma ScanNonEmpty(msgs: History)
    ensures Scan(msgs).Some? && Scan(msgs).value != [] ==> msgs != []
  {
  }

  lemma TrimOutcome(msgs: History, o: Outcome)
    requires GoodOutcome(msgs, o) && msgs != [] && msgs[0].System?
    ensures !o.Failed? ==> o.msgs != [] && o.msgs[0].System?
    ensures o.Final? || o.Exhausted? ==> Awaits(Trim(o.msgs), []) && Trim(o.msgs) != [] && Trim(o.msgs)[0].System?
  {
    if !o.Failed? {
      assert o.msgs[0] == msgs[0];
      TrimKeepsTurns(o.msgs);
    }
  }

  /** Every session reached without a Send on a suspended one is well formed, and while it
      is suspended the calls it waits for are exactly the unanswered ones. */
  lemma {:induction false} SessionsStayGood(prompt: string, ts: seq<Turn>)
    requires Polite(prompt, ts)
    ensures GoodSession(ServeAll(prompt, ts))
  {
    if ts != [] {
      var rest, t := ts[..|ts| - 1], ts[|ts| - 1];
      SessionsStayGood(prompt, rest);
      ServeKeepsGood(t.agent, prompt, ServeAll(prompt, rest), t.request);
    }
  }

  lemma PromptedAwaitsNothing(prompt: string, s: Session, text: string)
    requires GoodSession(s) && s.pending == []
    ensures Awaits(Prompted(s, prompt, text), [])
  {
    var start := if s.msgs == [] then [System(prompt)] else s.msgs;
    ScanSnoc([], System(prompt));
    assert [] + [System(prompt)] == [System(prompt)];
    ScanSnoc(start, User(text));
  }

  /** A result goes out under the id of exactly the call it answers, and no other under it. */
  ghost predicate Pairs(msgs: History, i: int)
    requires 0 <= i < |msgs| && msgs[i].Tool?
  {
    var id := ClaimedId(msgs, i);
    && id.CallId? && id.msg < i && msgs[id.msg].Assistant? && id.call < |msgs[id.msg].calls|
    && msgs[id.msg].calls[id.call] == msgs[i].answers
    && forall j :: 0 <= j < |msgs| && msgs[j].Tool? && j != i ==> ClaimedId(msgs, j) != id
  }

  /** So in every history any request of such a session sends to the model, each time it
      consults it, every result is paired with its call under its own id. */
  lemma SentHistoriesPair(prompt: string, ts: seq<Turn>, t: Turn, msgs: History, i: nat)
    requires Polite(prompt, ts + [t]) && msgs in SentBy(prompt, ServeAll(prompt, ts), t)
    requires i < |msgs| && msgs[i].Tool?
    ensures Pairs(msgs, i)
  {
    var s := ServeAll(prompt, ts);
    assert (ts + [t])[..|ts|] == ts;
    SessionsStayGood(prompt, ts);
    match t.request {
      case Send(text, _) =>
        PromptedAwaitsNothing(prompt, s, text);
        LoopSendsForm(t.agent, Prompted(s, prompt, text), t.agent.maxSteps);
      case Resume(tool, result, _) => ResumeSendsForm(t.agent, s.msgs, s.pending, result);
    }
    assert WellFormed(msgs);
    ResultsClaimTheirCalls(msgs, i);
    forall j | 0 <= j < |msgs| && msgs[j].Tool? && j != i ensures ClaimedId(msgs, j) != ClaimedId(msgs, i) {
      ClaimedIdsDistinct(msgs, i, j);
    }
  }

  /** A Send on a suspended session keeps it good exactly when its turn is not stored as
      ended: a turn that ends leaves the old pending calls behind, answered by nothing. */
  lemma SendWhileSuspended(a: Agent, prompt: string, s: Session, text: string, sent: bool)
    requires GoodSession(s) && s.pending != [] && text != ""
    ensures var o := ModelLoop(a, Prompted(s, prompt, text), a.maxSteps);
            GoodSession(Serve(a, prompt, s, Send(text, sent))) <==>
              o.Failed? || o.Suspended? || (o.Exhausted? && !sent)
  {
    ScanNonEmpty(s.msgs);
    ScanSnoc(s.msgs, User(text));
    var h := Prompted(s, prompt, text);
    LoopKeepsForm(a, h, a.maxSteps);
    TrimOutcome(h, ModelLoop(a, h, a.maxSteps));
  }

  // ---- What a request leaves behind -----------------------------------------

  /** A turn that ended stores its history, whole while it has at most 40 messages. */
  ghost predicate Stores(s: Session, h: History, pending: seq<ToolCall>) {
    && s.pending == pending && |s.msgs| <= MAX_MESSAGES && (|h| <= MAX_MESSAGES ==> s.msgs == h)
    && exists i, k :: 0 <= i <= k <= |h| && s.msgs == h[..i] + h[k..]
  }

  lemma TrimStores(s: Session, h: History)
    ensures Stores(s.(msgs := Trim(h)), h, s.pending)
  {
    if |h| <= MAX_MESSAGES {
      assert h == h[..|h|] + h[|h|..];
    } else {
      var k := NextUser(h, |h| - (MAX_MESSAGES - Head(h)));
      assert Trim(h) == h[..Head(h)] + h[k..];
    }
  }

  /** A Send consults the model with the conversation so far, or the system prompt, and the
      new message. A failed turn leaves the session as it was; a suspended one is kept whole
      with the calls it waits for. */
  lemma SendKeepsHistory(a: Agent, f: Frontend, prompt: string, s: Session, text: string, sent: bool)
    requires text != ""
    ensures var start := (if s.msgs == [] then [System(prompt)] else s.msgs) + [User(text)];
            var o, s' := ModelLoop(a, start, a.maxSteps), Serve(a, prompt, s, Send(text, sent));
            && (forall h :: h in SentBy(prompt, s, Turn(a, Send(text, sent))) ==> start <= h)
            && Grows(a, f, start, o.msgs)
            && match o
               case Failed(_) => s' == s
               case Suspended(h, p) => s' == Session(h, p)
               case Exhausted(h) => if sent then Stores(s', h, s.pending) else s' == s
               case Final(h) => Stores(s', h, s.pending)
  {
    hide Trim, ModelLoop, Stores, Recorded, Consulted;
    var start := Prompted(s, prompt, text);
    SegmentRecords(a, f, start, a.maxSteps);
    ConsultedGrow(a, f, start, a.maxSteps);
    TrimStores(s, ModelLoop(a, start, a.maxSteps).msgs);
  }

  /** A Resume for the call that is waited for clears it and keeps the history, which it
      continues with the result; any other Resume changes nothing. */
  lemma ResumeKeepsHistory(a: Agent, prompt: string, s: Session, tool: string, result: string, sent: bool)
    ensures var o, s' := ResumeTurn(a, s.msgs, s.pending, result), Serve(a, prompt, s, Resume(tool, result, sent));
            if s.pending == [] || s.pending[0].name != tool then s' == s
            else
              && s.msgs + [Tool(tool, a.stored(s.msgs, result), s.pending[0])] <= o.msgs
              && match o
                 case Failed(_) => s' == Session(s.msgs, [])
                 case Suspended(h, p) => s' == Session(h, p)
                 case Exhausted(h) => if sent then Stores(s', h, []) else s' == Session(s.msgs, [])
                 case Final(h) => Stores(s', h, [])
  {
    hide Trim, ResumeTurn, Stores, Recorded, Answers, AllServed;
    if s.pending != [] && s.pending[0].name == tool {
      ResumeRecords(a, (h: History, tc: ToolCall) => result, s.msgs, s.pending, result);
      var h := ResumeTurn(a, s.msgs, s.pending, result).msgs;
      assert h[..|s.msgs| + 1] == s.msgs + [h[|s.msgs|]];
      TrimStores(Session(s.msgs, []), h);
    }
  }

  // ---- Why Send must wait for the resume ------------------------------------

  const PROBE := ToolCall("probe", "{}")

  /** A model that asks for one client-side probe, then only talks. */
  function ProbingAgent(): Agent {
    Agent((h: History) => if |h| == 2 then Some(Reply("", "", [PROBE])) else Some(Reply("ok", "", [])),
          (h: History, tc: ToolCall) => "", (name: string) => name == "probe",
          (h: History, e: Emit) => true, (h: History, r: string) => r, 3)
  }

  /** A Send on a suspended session leaves pending behind: the later Resume then records a
      result that no open call claims, and it goes out under an orphan id. */
  lemma {:induction false} SendWhileSuspendedOrphans()
    ensures var a := ProbingAgent();
            var ts := [Turn(a, Send("a", true)), Turn(a, Send("b", true)), Turn(a, Resume("probe", "late", true))];
            var msgs := ServeAll("p", ts).msgs;
            !Polite("p", ts) && |msgs| == 7 && msgs[5].Tool? && ClaimedId(msgs, 5) == OrphanId(5)
  {
    var a := ProbingAgent();
    var r1, r2, r3 := Send("a", true), Send("b", true), Resume("probe", "late", true);
    var s0 := Session([], []);
    var h2: History := [System("p"), User("a")];
    var h3 := h2 + [Assistant("", "", [PROBE])];
    assert Ask(a, h2) == (h3, Some(Reply("", "", [PROBE])));
    assert ProcessTools(a, h3, [PROBE]) == Stopped(h3, [PROBE]);
    var s1 := Session(h3, [PROBE]);
    assert ModelLoop(a, h2, 3) == Suspended(h3, [PROBE]);
    assert Prompted(s0, "p", "a") == h2;
    assert Serve(a, "p", s0, r1) == s1;
    var h4 := h3 + [User("b")];
    var h5 := h4 + [Assistant("ok", "", [])];
    assert Ask(a, h4) == (h5, Some(Reply("ok", "", [])));
    assert ModelLoop(a, h4, 3) == Final(h5);
    var s2 := Session(h5, [PROBE]);
    assert Serve(a, "p", s1, r2) == s2;
    var h6 := Answered(a, h5, PROBE, "late");
    var h7 := h6 + [Assistant("ok", "", [])];
    assert [PROBE][1..] == [];
    assert ProcessTools(a, h6, []) == Handled(h6);
    assert Ask(a, h6) == (h7, Some(Reply("ok", "", [])));
    assert ModelLoop(a, h6, 3) == Final(h7);
    assert ResumeTurn(a, h5, [PROBE], "late") == Final(h7);
    assert Serve(a, "p", s2, r3) == Session(h7, []);
    var t1, t2, t3 := Turn(a, r1), Turn(a, r2), Turn(a, r3);
    ServeThree("p", t1, t2, t3);
    var ts := [t1, t2, t3];
    assert ts[..2][..1] == [t1] && ts[..2] == [t1, t2] && ts[..2][1] == t2;
    assert !Polite("p", ts[..2]);
    assert h7[..5] == h5 && h5[..4] == h4;
    assert Open(h5) == [];
  }

  lemma ServeThree(prompt: string, t1: Turn, t2: Turn, t3: Turn)
    ensures ServeAll(prompt, [t1]) == Serve(t1.agent, prompt, Session([], []), t1.request)
    ensures ServeAll(prompt, [t1, t2]) == Serve(t2.agent, prompt, ServeAll(prompt, [t1]), t2.request)
    ensures ServeAll(prompt, [t1, t2, t3]) == Serve(t3.agent, prompt, ServeAll(prompt, [t1, t2]), t3.request)
  {
    assert [t1][..0] == [] && [t1, t2][..1] == [t1] && [t1, t2, t3][..2] == [t1, t2];
  }

  // ---- The server -----------------------------------------------------------

  predicate Distinct(s: seq<string>) { forall i, j :: 0 <= i < j < |s| ==> s[i] != s[j] }

  /** The sessions that stay when id is served: all, but the least recent when a new id finds
      the server full. */
  function Kept(sessions: map<string, Session>, order: seq<string>, id: string): set<string> {
    if id in sessions || |order| < MAX_SESSIONS then sessions.Keys else sessions.Keys - {order[0]}
  }

  /** Entry i went to the end; the others kept their order. */
  predicate Moved(before: seq<string>, after: seq<string>, i: nat)
    requires i < |before|
  {
    after == before[..i] + before[i + 1..] + [before[i]]
  }

  /** The conversation of an id; a fresh one when there is none. */
  function Current(sessions: map<string, Session>, id: string): Session {
    if id in sessions then sessions[id] else Session([], [])
  }

  class ChatServer {
    const prompt: string
    var sessions: map<string, Session>
    var order: seq<string> // least recently used first

    ghost predicate Valid()
      reads this
    {
      && Distinct(order) && |order| <= MAX_SESSIONS
      && (forall id :: id in order <==> id in sessions)
    }

    constructor (prompt: string)
      ensures Valid() && sessions == map[] && this.prompt == prompt
    {
      this.prompt, this.sessions, this.order := prompt, map[], [];
    }

    /** session: finds or creates id's conversation and makes it the most recent; only the
        least recent one is ever dropped, and only to make room for a new id. */
    method Touch(id: string)
      requires Valid()
      modifies this
      ensures Valid() && id in sessions && order[|order| - 1] == id
      ensures id in old(sessions) ==> sessions == old(sessions)
      ensures id in old(sessions) ==>
                exists i :: 0 <= i < |old(order)| && old(order)[i] == id && Moved(old(order), order, i)
      ensures id !in old(sessions) && |old(order)| < MAX_SESSIONS ==>
                sessions == old(sessions)[id := Session([], [])] && order == old(order) + [id]
      ensures id !in old(sessions) && |old(order)| == MAX_SESSIONS ==>
                sessions == (old(sessions) - {old(order)[0]})[id := Session([], [])] && order == old(order)[1..] + [id]
    {
      if id in sessions {
        var i := 0;
        while order[i] != id
          invariant 0 <= i < |order| && id !in order[..i]
          decreases |order| - i
        {
          i := i + 1;
        }
        order := order[..i] + order[i + 1..] + [id];
        assert Moved(old(order), order, i);
        return;
      }
      if |order| >= MAX_SESSIONS {
        sessions := sessions - {order[0]};
        order := order[1..];
      }
      sessions := sessions[id := Session([], [])];
      order := order + [id];
    }

    /** agent: the model, tools, clock and stream as they are during this request. */
    method SendTo(agent: Agent, id: string, text: string, errorSent: bool) returns (accepted: bool)
      requires Valid()
      modifies this
      ensures Valid() && accepted == (id != "" && text != "")
      ensures !accepted ==> sessions == old(sessions)
      ensures accepted ==> id in sessions
      ensures accepted ==> sessions[id] == Serve(agent, prompt, Current(old(sessions), id), Send(text, errorSent))
      ensures sessions.Keys == if accepted then Kept(old(sessions), old(order), id) + {id} else old(sessions).Keys
      ensures forall k :: k in sessions && k != id ==> sessions[k] == old(sessions)[k]
    {
      if id == "" || text == "" { return false; }
      Touch(id);
      var s := sessions[id];
      var msgs := s.msgs;
      if |msgs| == 0 { msgs := [System(prompt)]; }
      msgs := msgs + [User(text)];
      var o, _ := RunModelLoop(agent, msgs);
      var s' := SettleSession(s, o, errorSent);
      sessions := sessions[id := s'];
      return true;
    }

    method ResumeTo(agent: Agent, id: string, tool: string, result: string, errorSent: bool) returns (accepted: bool)
      requires Valid()
      modifies this
      ensures Valid()
      ensures id != "" ==> id in sessions
      ensures id != "" ==>
                sessions[id] == Serve(agent, prompt, Current(old(sessions), id), Resume(tool, result, errorSent))
      ensures accepted <==> id != "" && Current(old(sessions), id).pending != []
                            && Current(old(sessions), id).pending[0].name == tool
      ensures sessions.Keys == if id != "" then Kept(old(sessions), old(order), id) + {id} else old(sessions).Keys
      ensures forall k :: k in sessions && k != id ==> sessions[k] == old(sessions)[k]
    {
      if id == "" { return false; }
      Touch(id);
      var s := sessions[id];
      if |s.pending| == 0 || tool != s.pending[0].name { return false; }
      var pending := s.pending;
      s := s.(pending := []);
      var o, _ := RunResumeTurn(agent, s.msgs, pending, result);
      var s' := SettleSession(s, o, errorSent);
      sessions := sessions[id := s'];
      return true;
    }

    method SettleSession(s: Session, o: Outcome, errorSent: bool) returns (r: Session)
      ensures r == Settle(s, o, errorSent)
    {
      match o
      case Failed(_) => return s;
      case Suspended(h, p) => return Session(h, p);
      case Exhausted(h) =>
        if !errorSent { return s; }
        var t := TrimHistory(h);
        return s.(msgs := t);
      case Final(h) =>
        var t := TrimHistory(h);
        return s.(msgs := t);
    }
  }
}
