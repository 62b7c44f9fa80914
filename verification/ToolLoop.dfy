// The suspendable tool loop (nodewatch/loop.go). The model, the tools, the event sink and
// the clock are arbitrary functions of the history at the moment they are consulted; within
// a turn the history grows between any two consultations of one kind, so this covers every
// run of a turn. Different turns may have different agents.

module ToolLoop {
  import opened Text

  datatype ToolCall = ToolCall(name: string, args: string)

  /** Tool.answers is the call a result belongs to; the code keeps only its name. */
  datatype Msg =
    | System(content: string)
    | User(content: string)
    | Assistant(content: string, thinking: string, calls: seq<ToolCall>)
    | Tool(name: string, content: string, answers: ToolCall)

  datatype Reply = Reply(content: string, thinking: string, calls: seq<ToolCall>)

  datatype Emit =
    | ModelCall | Thinking | Answer
    | ToolRequested(tc: ToolCall) | ToolStarted(tc: ToolCall) | ToolEnded(tc: ToolCall)

  type History = seq<Msg>

  /** chat None is a model error; emit false a broken stream; stored is the truncated and
      time-stamped form in which a result enters the history. */
  datatype Agent = Agent(chat: History -> Option<Reply>, exec: (History, ToolCall) -> string,
                         clientSide: string -> bool, emit: (History, Emit) -> bool,
                         stored: (History, string) -> string, maxSteps: nat)

  datatype Tools = Handled(msgs: History) | Stopped(msgs: History, pending: seq<ToolCall>) | Broken(msgs: History)

  /** How a segment ends: a final answer, a client-side tool to run, the step budget used
      up, or an error. */
  datatype Outcome =
    | Final(msgs: History)
    | Suspended(msgs: History, pending: seq<ToolCall>)
    | Exhausted(msgs: History)
    | Failed(msgs: History)

  function Answered(a: Agent, msgs: History, tc: ToolCall, result: string): History {
    msgs + [Tool(tc.name, a.stored(msgs, result), tc)]
  }

  // ---- The loop as the code runs it -----------------------------------------

  function ProcessTools(a: Agent, msgs: History, tcs: seq<ToolCall>): (r: Tools)
    ensures |r.msgs| >= |msgs|
    decreases |tcs|
  {
    if tcs == [] then Handled(msgs)
    else
      var tc := tcs[0];
      if a.clientSide(tc.name) then
        if a.emit(msgs, ToolRequested(tc)) then Stopped(msgs, tcs) else Broken(msgs)
      else if !a.emit(msgs, ToolStarted(tc)) || !a.emit(msgs, ToolEnded(tc)) then Broken(msgs)
      else ProcessTools(a, Answered(a, msgs, tc, a.exec(msgs, tc)), tcs[1..])
  }

  /** One model call; None when it, or a stream event around it, fails. */
  function Ask(a: Agent, msgs: History): (History, Option<Reply>) {
    if !a.emit(msgs, ModelCall) || a.chat(msgs).None? then (msgs, None)
    else
      var r := a.chat(msgs).value;
      var h := msgs + [Assistant(r.content, r.thinking, r.calls)];
      if (r.thinking != "" && !a.emit(h, Thinking)) || (r.calls == [] && !a.emit(h, Answer)) then (h, None)
      else (h, Some(r))
  }

  function ModelLoop(a: Agent, msgs: History, steps: nat): Outcome
    decreases steps
  {
    if steps == 0 then Exhausted(msgs)
    else
      match Ask(a, msgs)
      case (h, None) => Failed(h)
      case (h, Some(r)) =>
        if r.calls == [] then Final(h)
        else
          match ProcessTools(a, h, r.calls)
          case Broken(h') => Failed(h')
          case Stopped(h', pending) => Suspended(h', pending)
          case Handled(h') => ModelLoop(a, h', steps - 1)
  }

  function ResumeTurn(a: Agent, msgs: History, pending: seq<ToolCall>, result: string): Outcome {
    if pending == [] then Failed(msgs)
    else
      match ProcessTools(a, Answered(a, msgs, pending[0], result), pending[1..])
      case Broken(h) => Failed(h)
      case Stopped(h, p) => Suspended(h, p)
      case Handled(h) => ModelLoop(a, h, a.maxSteps)
  }

  /** The history after one more step of the loop, if it goes on. */
  function Goes(a: Agent, msgs: History): Option<History> {
    match Ask(a, msgs)
    case (_, None) => None
    case (h, Some(r)) =>
      if r.calls == [] then None
      else match ProcessTools(a, h, r.calls)
           case Handled(h') => Some(h')
           case _ => None
  }

  /** The outcome of a step of the loop that ends it. */
  function Ends(a: Agent, msgs: History): Outcome
    requires Goes(a, msgs).None?
  {
    match Ask(a, msgs)
    case (h, None) => Failed(h)
    case (h, Some(r)) =>
      if r.calls == [] then Final(h)
      else match ProcessTools(a, h, r.calls)
           case Broken(h') => Failed(h')
           case Stopped(h', pending) => Suspended(h', pending)
  }

  lemma LoopStep(a: Agent, msgs: History, steps: nat)
    requires steps > 0
    ensures ModelLoop(a, msgs, steps)
            == match Goes(a, msgs) case None => Ends(a, msgs) case Some(h) => ModelLoop(a, h, steps - 1)
  {
    hide ProcessTools;
  }

  /** The histories a segment sends to the model, in order. */
  function Consulted(a: Agent, msgs: History, steps: nat): seq<History>
    decreases steps
  {
    if steps == 0 || !a.emit(msgs, ModelCall) then []
    else [msgs] + match Goes(a, msgs) case None => [] case Some(h) => Consulted(a, h, steps - 1)
  }

  function ConsultedByResume(a: Agent, msgs: History, pending: seq<ToolCall>, result: string): seq<History> {
    if pending == [] then []
    else
      match ProcessTools(a, Answered(a, msgs, pending[0], result), pending[1..])
      case Handled(h) => Consulted(a, h, a.maxSteps)
      case _ => []
  }

  method RunProcessTools(a: Agent, msgs: History, tcs: seq<ToolCall>) returns (r: Tools)
    ensures r == ProcessTools(a, msgs, tcs)
  {
    var h := msgs;
    for i := 0 to |tcs|
      invariant ProcessTools(a, msgs, tcs) == ProcessTools(a, h, tcs[i..])
    {
      var tc := tcs[i];
      assert tcs[i..][1..] == tcs[i + 1..];
      if a.clientSide(tc.name) {
        if !a.emit(h, ToolRequested(tc)) { return Broken(h); }
        return Stopped(h, tcs[i..]);
      }
      if !a.emit(h, ToolStarted(tc)) { return Broken(h); }
      var result := a.exec(h, tc);
      if !a.emit(h, ToolEnded(tc)) { return Broken(h); }
      h := h + [Tool(tc.name, a.stored(h, result), tc)];
    }
    return Handled(h);
  }

  /** The body of modelLoop's loop: the outcome it returns, or the history it goes on with. */
  method RunStep(a: Agent, msgs: History) returns (r: Option<Outcome>, h: History)
    ensures r.None? <==> Goes(a, msgs).Some?
    ensures if r.None? then h == Goes(a, msgs).value else r.value == Ends(a, msgs)
  {
    hide ProcessTools;
    h := msgs;
    if !a.emit(h, ModelCall) { return Some(Failed(h)), h; }
    var resp := a.chat(h);
    if resp.None? { return Some(Failed(h)), h; }
    h := h + [Assistant(resp.value.content, resp.value.thinking, resp.value.calls)];
    if resp.value.thinking != "" {
      if !a.emit(h, Thinking) { return Some(Failed(h)), h; }
    }
    if |resp.value.calls| == 0 {
      if !a.emit(h, Answer) { return Some(Failed(h)), h; }
      return Some(Final(h)), h;
    }
    var t := RunProcessTools(a, h, resp.value.calls);
    match t
    case Broken(h') => return Some(Failed(h')), h;
    case Stopped(h', pending) => return Some(Suspended(h', pending)), h;
    case Handled(h') => return None, h';
  }

  method RunModelLoop(a: Agent, msgs: History) returns (r: Outcome, ghost sent: seq<History>)
    ensures r == ModelLoop(a, msgs, a.maxSteps)
    ensures sent == Consulted(a, msgs, a.maxSteps)
  {
    hide *;
    var h := msgs;
    sent := [];
    for step := 0 to a.maxSteps
      invariant ModelLoop(a, msgs, a.maxSteps) == ModelLoop(a, h, a.maxSteps - step)
      invariant Consulted(a, msgs, a.maxSteps) == sent + Consulted(a, h, a.maxSteps - step)
    {
      LoopStep(a, h, a.maxSteps - step);
      ConsultStep(a, h, a.maxSteps - step, sent);
      if a.emit(h, ModelCall) { sent := sent + [h]; }
      var end, h' := RunStep(a, h);
      if end.Some? { return end.value, sent; }
      h := h';
    }
    LoopOver(a, h);
    return Exhausted(h), sent;
  }

  lemma ConsultStep(a: Agent, msgs: History, steps: nat, sent: seq<History>)
    requires steps > 0
    ensures var now := if a.emit(msgs, ModelCall) then sent + [msgs] else sent;
            sent + Consulted(a, msgs, steps)
            == match Goes(a, msgs) case None => now case Some(h) => now + Consulted(a, h, steps - 1)
  {
    SilentEnds(a, msgs);
    hide Goes;
  }

  lemma LoopOver(a: Agent, msgs: History)
    ensures ModelLoop(a, msgs, 0) == Exhausted(msgs) && Consulted(a, msgs, 0) == []
  {
  }

  lemma SilentEnds(a: Agent, msgs: History)
    ensures !a.emit(msgs, ModelCall) ==> Goes(a, msgs).None?
  {
  }

  method RunResumeTurn(a: Agent, msgs: History, pending: seq<ToolCall>, result: string)
      returns (r: Outcome, ghost sent: seq<History>)
    ensures r == ResumeTurn(a, msgs, pending, result)
    ensures sent == ConsultedByResume(a, msgs, pending, result)
  {
    sent := [];
    if |pending| == 0 { return Failed(msgs), sent; }
    var h := msgs + [Tool(pending[0].name, a.stored(msgs, result), pending[0])];
    var t := RunProcessTools(a, h, pending[1..]);
    match t
    case Broken(h') => return Failed(h'), sent;
    case Stopped(h', p) => return Suspended(h', p), sent;
    case Handled(h') => r, sent := RunModelLoop(a, h');
  }

  // ---- The uninterrupted loop -----------------------------------------------

  /** The frontend, as a function of what it is shown. */
  type Frontend = (History, ToolCall) -> string

  /** Client-side calls are answered in place instead of suspending. */
  function InlineTools(a: Agent, f: Frontend, msgs: History, tcs: seq<ToolCall>): (r: Tools)
    ensures !r.Stopped? && |r.msgs| >= |msgs|
    decreases |tcs|
  {
    if tcs == [] then Handled(msgs)
    else
      var tc := tcs[0];
      if a.clientSide(tc.name) then
        if a.emit(msgs, ToolRequested(tc))
        then InlineTools(a, f, Answered(a, msgs, tc, f(msgs, tc)), tcs[1..]) else Broken(msgs)
      else if !a.emit(msgs, ToolStarted(tc)) || !a.emit(msgs, ToolEnded(tc)) then Broken(msgs)
      else InlineTools(a, f, Answered(a, msgs, tc, a.exec(msgs, tc)), tcs[1..])
  }

  function InlineLoop(a: Agent, f: Frontend, msgs: History, steps: nat): Outcome
    decreases steps, 0
  {
    if steps == 0 then Exhausted(msgs)
    else
      match Ask(a, msgs)
      case (h, None) => Failed(h)
      case (h, Some(r)) =>
        if r.calls == [] then Final(h) else InlineAfter(a, f, h, r.calls, steps - 1)
  }

  /** The rest of an uninterrupted turn whose latest message still has tcs to handle. */
  function InlineAfter(a: Agent, f: Frontend, msgs: History, tcs: seq<ToolCall>, steps: nat): Outcome
    decreases steps, 1
  {
    match InlineTools(a, f, msgs, tcs)
    case Broken(h) => Failed(h)
    case Handled(h) => InlineLoop(a, f, h, steps)
  }

  /** Suspending and resuming with the frontend's results, at most n times. */
  function Drive(a: Agent, f: Frontend, o: Outcome, n: nat): Outcome
    decreases n
  {
    if n == 0 || !o.Suspended? || o.pending == [] then o
    else Drive(a, f, ResumeTurn(a, o.msgs, o.pending, f(o.msgs, o.pending[0])), n - 1)
  }

  // ---- Refinement -----------------------------------------------------------

  /** A suspension waits for a client-side call whose request reached the frontend. */
  predicate Waiting(a: Agent, msgs: History, pending: seq<ToolCall>) {
    pending != [] && a.clientSide(pending[0].name) && a.emit(msgs, ToolRequested(pending[0]))
  }

  lemma {:induction false} ToolsRefine(a: Agent, f: Frontend, msgs: History, tcs: seq<ToolCall>)
    ensures match ProcessTools(a, msgs, tcs)
            case Stopped(h, p) => Waiting(a, h, p) && |h| >= |msgs|
              && InlineTools(a, f, msgs, tcs) == InlineTools(a, f, h, p)
            case t => InlineTools(a, f, msgs, tcs) == t
    decreases |tcs|
  {
    if tcs != [] {
      ToolsRefine(a, f, Answered(a, msgs, tcs[0], a.exec(msgs, tcs[0])), tcs[1..]);
    }
  }

  /** The number of model calls a segment makes. */
  function Used(a: Agent, msgs: History, steps: nat): (n: nat)
    ensures n <= steps
    decreases steps
  {
    if steps == 0 then 0
    else
      match Ask(a, msgs)
      case (h, None) => 1
      case (h, Some(r)) =>
        if r.calls == [] then 1
        else match ProcessTools(a, h, r.calls)
             case Handled(h') => 1 + Used(a, h', steps - 1)
             case _ => 1
  }

  /** What the uninterrupted loop makes of the rest of a segment's outcome. */
  ghost predicate Continues(a: Agent, f: Frontend, o: Outcome, whole: Outcome, left: nat) {
    match o
    case Suspended(h, p) => Waiting(a, h, p) && whole == InlineAfter(a, f, h, p, left)
    case Exhausted(h) => whole == InlineLoop(a, f, h, left)
    case _ => whole == o
  }

  lemma {:induction false} LoopRefines(a: Agent, f: Frontend, msgs: History, steps: nat, k: nat)
    requires k >= steps
    ensures Continues(a, f, ModelLoop(a, msgs, steps), InlineLoop(a, f, msgs, k), k - Used(a, msgs, steps))
    ensures ModelLoop(a, msgs, steps).Suspended? ==> |ModelLoop(a, msgs, steps).msgs| > |msgs|
    decreases steps
  {
    if steps > 0 {
      match Ask(a, msgs)
      case (h, None) =>
      case (h, Some(r)) =>
        if r.calls != [] {
          ToolsRefine(a, f, h, r.calls);
          match ProcessTools(a, h, r.calls)
          case Handled(h') => LoopRefines(a, f, h', steps - 1, k - 1);
          case _ =>
        }
    }
  }

  function UsedByResume(a: Agent, msgs: History, pending: seq<ToolCall>, result: string): (n: nat)
    requires pending != []
    ensures n <= a.maxSteps
  {
    match ProcessTools(a, Answered(a, msgs, pending[0], result), pending[1..])
    case Handled(h) => Used(a, h, a.maxSteps)
    case _ => 0
  }

  lemma ResumeRefines(a: Agent, f: Frontend, msgs: History, pending: seq<ToolCall>, k: nat)
    requires Waiting(a, msgs, pending) && k >= a.maxSteps
    ensures var result := f(msgs, pending[0]);
            var o := ResumeTurn(a, msgs, pending, result);
            Continues(a, f, o, InlineAfter(a, f, msgs, pending, k), k - UsedByResume(a, msgs, pending, result))
            && (o.Suspended? ==> |o.msgs| > |msgs|)
  {
    var h := Answered(a, msgs, pending[0], f(msgs, pending[0]));
    assert InlineTools(a, f, msgs, pending) == InlineTools(a, f, h, pending[1..]);
    ToolsRefine(a, f, h, pending[1..]);
    match ProcessTools(a, h, pending[1..])
    case Handled(h') => LoopRefines(a, f, h', a.maxSteps, k);
    case _ =>
  }

  /** From any suspension on, n resumes and the uninterrupted rest agree. */
  lemma {:induction false} DriveRefines(a: Agent, f: Frontend, o: Outcome, whole: Outcome, n: nat, k: nat)
    requires Continues(a, f, o, whole, k) && k >= n * a.maxSteps
    ensures var d := Drive(a, f, o, n);
            || d.Exhausted?
            || (d.Suspended? && |d.msgs| >= |o.msgs| + n && |whole.msgs| >= |d.msgs|)
            || whole == d
    decreases n
  {
    match o
    case Suspended(h, p) =>
      if n > 0 {
        assert n * a.maxSteps == (n - 1) * a.maxSteps + a.maxSteps;
        assert (n - 1) * a.maxSteps >= 0;
        var result := f(h, p[0]);
        ResumeRefines(a, f, h, p, k);
        DriveRefines(a, f, ResumeTurn(a, h, p, result), whole, n - 1, k - UsedByResume(a, h, p, result));
      } else {
        InlineGrows(a, f, h, p, k);
      }
    case _ =>
  }

  lemma {:induction false} InlineGrows(a: Agent, f: Frontend, msgs: History, tcs: seq<ToolCall>, k: nat)
    ensures |InlineAfter(a, f, msgs, tcs, k).msgs| >= |msgs|
    decreases k
  {
    var t := InlineTools(a, f, msgs, tcs);
    if t.Handled? && k > 0 {
      match Ask(a, t.msgs)
      case (h, None) =>
      case (h, Some(r)) => if r.calls != [] { InlineGrows(a, f, h, r.calls, k - 1); }
    }
  }

  /** A turn that was suspended and resumed to its end built the history of the
      uninterrupted loop, whatever the mix and order of server and client calls. */
  lemma SuspendedTurnIsInline(a: Agent, f: Frontend, msgs: History, n: nat, k: nat)
    requires k >= (n + 1) * a.maxSteps
    ensures var d := Drive(a, f, ModelLoop(a, msgs, a.maxSteps), n);
            d.Final? || d.Failed? ==> InlineLoop(a, f, msgs, k) == d
  {
    assert (n + 1) * a.maxSteps == n * a.maxSteps + a.maxSteps;
    LoopRefines(a, f, msgs, a.maxSteps, k);
    DriveRefines(a, f, ModelLoop(a, msgs, a.maxSteps), InlineLoop(a, f, msgs, k), n, k - Used(a, msgs, a.maxSteps));
  }

  lemma {:induction false} InlineMonotone(a: Agent, f: Frontend, msgs: History, j: nat, k: nat)
    requires j <= k && !InlineLoop(a, f, msgs, j).Exhausted?
    ensures InlineLoop(a, f, msgs, k) == InlineLoop(a, f, msgs, j)
    decreases j
  {
    match Ask(a, msgs)
    case (h, None) =>
    case (h, Some(r)) =>
      if r.calls != [] {
        var t := InlineTools(a, f, h, r.calls);
        if t.Handled? { InlineMonotone(a, f, t.msgs, j - 1, k - 1); }
      }
  }

  /** Conversely, whatever the uninterrupted loop ends with, suspending and resuming ends
      with too, unless some segment runs out of steps. */
  lemma InlineTurnIsSuspended(a: Agent, f: Frontend, msgs: History, j: nat)
    requires InlineLoop(a, f, msgs, j).Final? || InlineLoop(a, f, msgs, j).Failed?
    ensures var whole := InlineLoop(a, f, msgs, j);
            var d := Drive(a, f, ModelLoop(a, msgs, a.maxSteps), |whole.msgs|);
            d == whole || d.Exhausted?
  {
    var whole := InlineLoop(a, f, msgs, j);
    var n := |whole.msgs|;
    var k := (n + 1) * a.maxSteps + j;
    assert (n + 1) * a.maxSteps == n * a.maxSteps + a.maxSteps;
    assert n * a.maxSteps >= 0;
    InlineMonotone(a, f, msgs, j, k);
    LoopRefines(a, f, msgs, a.maxSteps, k);
    DriveRefines(a, f, ModelLoop(a, msgs, a.maxSteps), whole, n, k - Used(a, msgs, a.maxSteps));
  }

  // ---- What a history records -----------------------------------------------

  /** Message i is the model's reply to the history before it, or the stored form of what its
      tool returned there (the frontend for a client-side call), and its observer was told. */
  ghost predicate Recorded(a: Agent, f: Frontend, h: History, i: nat)
    requires i < |h|
  {
    match h[i]
    case Assistant(content, thinking, calls) =>
      a.emit(h[..i], ModelCall) && a.chat(h[..i]) == Some(Reply(content, thinking, calls))
    case Tool(name, content, tc) =>
      && name == tc.name
      && if a.clientSide(name)
         then a.emit(h[..i], ToolRequested(tc)) && content == a.stored(h[..i], f(h[..i], tc))
         else a.emit(h[..i], ToolStarted(tc)) && a.emit(h[..i], ToolEnded(tc))
              && content == a.stored(h[..i], a.exec(h[..i], tc))
    case _ => false
  }

  /** h continues msgs with such messages only. */
  ghost predicate Grows(a: Agent, f: Frontend, msgs: History, h: History) {
    msgs <= h && forall i :: |msgs| <= i < |h| ==> Recorded(a, f, h, i)
  }

  /** No result from k on is a client-side call's. */
  ghost predicate ServerOnly(a: Agent, h: History, k: nat) {
    forall i :: k <= i < |h| && h[i].Tool? ==> !a.clientSide(h[i].name)
  }

  /** The messages from i on answer the first n of the calls, in order. */
  ghost predicate Answers(h: History, i: nat, calls: seq<ToolCall>, n: nat) {
    && n <= |calls| && i + n <= |h|
    && forall j :: i <= j < i + n ==> h[j].Tool? && h[j].answers == calls[j - i]
  }

  /** The reply at i had its thinking shown, and has all its calls answered right after it, or
      is the last one and waits for exactly p. */
  ghost predicate Served(a: Agent, h: History, i: nat, p: seq<ToolCall>)
    requires i < |h| && h[i].Assistant?
  {
    var calls, n := h[i].calls, |h| - i - 1;
    && (h[i].thinking != "" ==> a.emit(h[..i + 1], Thinking))
    && (Answers(h, i + 1, calls, |calls|) || (p != [] && Answers(h, i + 1, calls, n) && p == calls[n..]))
  }

  ghost predicate AllServed(a: Agent, h: History, k: nat, p: seq<ToolCall>) {
    forall i :: k <= i < |h| && h[i].Assistant? ==> Served(a, h, i, p)
  }

  lemma GrowsTrans(a: Agent, f: Frontend, msgs: History, h: History, h': History)
    requires Grows(a, f, msgs, h) && Grows(a, f, h, h')
    ensures Grows(a, f, msgs, h')
  {
    forall i | |msgs| <= i < |h'| ensures Recorded(a, f, h', i) {
      if i < |h| {
        assert h'[..i] == h[..i] && h'[i] == h[i] && Recorded(a, f, h, i);
      }
    }
  }

  /** A message's tool calls are handled in order up to the first client-side one. */
  lemma {:induction false} ToolsRecord(a: Agent, f: Frontend, msgs: History, tcs: seq<ToolCall>)
    ensures var r := ProcessTools(a, msgs, tcs);
            var n := |r.msgs| - |msgs|;
            && Grows(a, f, msgs, r.msgs) && ServerOnly(a, r.msgs, |msgs|) && Answers(r.msgs, |msgs|, tcs, n)
            && n <= |tcs| && (r.Handled? ==> n == |tcs|)
            && (r.Stopped? ==> r.pending != [] && r.pending == tcs[n..])
    decreases |tcs|
  {
    if tcs != [] && !a.clientSide(tcs[0].name) && a.emit(msgs, ToolStarted(tcs[0])) && a.emit(msgs, ToolEnded(tcs[0])) {
      var h := Answered(a, msgs, tcs[0], a.exec(msgs, tcs[0]));
      ToolsRecord(a, f, h, tcs[1..]);
      assert h[..|msgs|] == msgs;
      var r := ProcessTools(a, h, tcs[1..]);
      GrowsTrans(a, f, msgs, h, r.msgs);
      AnswersOneMore(r.msgs, |msgs|, tcs, |r.msgs| - |h|);
      hide Recorded;
      assert forall i :: |h| <= i < |r.msgs| && r.msgs[i].Tool? ==> !a.clientSide(r.msgs[i].name);
    }
  }

  lemma AnswersOneMore(h: History, i: nat, calls: seq<ToolCall>, n: nat)
    requires i < |h| && calls != [] && h[i].Tool? && h[i].answers == calls[0]
    requires Answers(h, i + 1, calls[1..], n)
    ensures Answers(h, i, calls, n + 1)
  {
  }

  /** What a segment appends: replies and server-side results, each where it was produced;
      every call is answered in order before the model is asked again, and a suspension
      waits for exactly the rest of the last reply's calls. */
  lemma {:induction false} SegmentRecords(a: Agent, f: Frontend, msgs: History, steps: nat)
    ensures var o := ModelLoop(a, msgs, steps);
            && Grows(a, f, msgs, o.msgs) && ServerOnly(a, o.msgs, |msgs|)
            && (!o.Failed? ==> AllServed(a, o.msgs, |msgs|, if o.Suspended? then o.pending else []))
            && (o.Suspended? ==> o.pending != [])
            && (o.Final? ==> o.msgs != [] && o.msgs[|o.msgs| - 1].Assistant?)
            && (o.Final? ==> a.emit(o.msgs, Answer) && o.msgs[|o.msgs| - 1].calls == [])
    decreases steps
  {
    hide *;
    if steps == 0 {
      SegmentOver(a, f, msgs);
    } else {
      LoopStep(a, msgs, steps);
      StepRecords(a, f, msgs);
      if Goes(a, msgs).Some? {
        var h := Goes(a, msgs).value;
        SegmentRecords(a, f, h, steps - 1);
        var o := ModelLoop(a, h, steps - 1);
        GrowsTrans(a, f, msgs, h, o.msgs);
        ServedTrans(a, f, msgs, h, o.msgs, if o.Suspended? then o.pending else []);
      }
    }
  }

  lemma SegmentOver(a: Agent, f: Frontend, msgs: History)
    ensures ModelLoop(a, msgs, 0) == Exhausted(msgs)
    ensures Grows(a, f, msgs, msgs) && ServerOnly(a, msgs, |msgs|) && AllServed(a, msgs, |msgs|, [])
  {
  }

  lemma ServedTrans(a: Agent, f: Frontend, msgs: History, h: History, h': History, p: seq<ToolCall>)
    requires Grows(a, f, msgs, h) && Grows(a, f, h, h')
    ensures AllServed(a, h, |msgs|, []) && AllServed(a, h', |h|, p) ==> AllServed(a, h', |msgs|, p)
    ensures ServerOnly(a, h, |msgs|) && ServerOnly(a, h', |h|) ==> ServerOnly(a, h', |msgs|)
  {
    hide Recorded;
    if AllServed(a, h, |msgs|, []) && AllServed(a, h', |h|, p) {
      forall i | |msgs| <= i < |h'| && h'[i].Assistant? ensures Served(a, h', i, p) {
        if i < |h| {
          assert Served(a, h, i, []) && h[i] == h'[i];
          AnswersStay(h, h', i + 1, h[i].calls, |h[i].calls|);
          assert h'[..i + 1] == h[..i + 1];
        }
      }
    }
    forall i | |msgs| <= i < |h'| && h'[i].Tool? && ServerOnly(a, h, |msgs|) && ServerOnly(a, h', |h|)
      ensures !a.clientSide(h'[i].name)
    {
      if i < |h| { assert h[i] == h'[i]; }
    }
  }

  lemma StepRecords(a: Agent, f: Frontend, msgs: History)
    ensures var h := if Goes(a, msgs).Some? then Goes(a, msgs).value else Ends(a, msgs).msgs;
            Grows(a, f, msgs, h) && ServerOnly(a, h, |msgs|)
    ensures Goes(a, msgs).Some? ==> AllServed(a, Goes(a, msgs).value, |msgs|, [])
    ensures Goes(a, msgs).None? ==>
              var o := Ends(a, msgs);
              && !o.Exhausted?
              && (!o.Failed? ==> AllServed(a, o.msgs, |msgs|, if o.Suspended? then o.pending else []))
              && (o.Suspended? ==> o.pending != [])
              && (o.Final? ==> o.msgs != [] && o.msgs[|o.msgs| - 1].Assistant?)
              && (o.Final? ==> a.emit(o.msgs, Answer) && o.msgs[|o.msgs| - 1].calls == [])
  {
    hide ProcessTools, Recorded, Answers, Served, AllServed, ServerOnly, Grows;
    match Ask(a, msgs)
    case (h, None) => AskRecords(a, f, msgs);
    case (h, Some(r)) =>
      AskRecords(a, f, msgs);
      ToolsRecord(a, f, h, r.calls);
      var t := ProcessTools(a, h, r.calls);
      ReplyServed(a, f, msgs, h, t.msgs, r);
      GrowsTrans(a, f, msgs, h, t.msgs);
  }

  lemma AskRecords(a: Agent, f: Frontend, msgs: History)
    ensures var (h, r) := Ask(a, msgs);
            && Grows(a, f, msgs, h) && ServerOnly(a, h, |msgs|)
            && (r.Some? ==> h == msgs + [Assistant(r.value.content, r.value.thinking, r.value.calls)])
            && (r.Some? && r.value.thinking != "" ==> a.emit(h, Thinking))
            && (r.Some? && r.value.calls == [] ==> AllServed(a, h, |msgs|, []) && a.emit(h, Answer))
  {
    var (h, r) := Ask(a, msgs);
    if h != msgs { assert h[..|msgs|] == msgs && h[..|msgs| + 1] == h; }
  }

  lemma ReplyServed(a: Agent, f: Frontend, msgs: History, h: History, h': History, r: Reply)
    requires h == msgs + [Assistant(r.content, r.thinking, r.calls)] && Grows(a, f, h, h')
    requires Answers(h', |h|, r.calls, |h'| - |h|) && ServerOnly(a, h', |h|)
    requires r.thinking != "" ==> a.emit(h, Thinking)
    ensures ServerOnly(a, h', |msgs|)
    ensures |h'| - |h| == |r.calls| ==> AllServed(a, h', |msgs|, [])
    ensures |h'| - |h| < |r.calls| ==> AllServed(a, h', |msgs|, r.calls[|h'| - |h|..])
  {
    assert h'[|msgs|] == h[|msgs|] && h'[..|msgs| + 1] == h;
  }

  /** A resume appends the stored form of its result as the answer to the call that was
      waited for, answers the other pending calls in order, and goes on like a segment. */
  lemma ResumeRecords(a: Agent, f: Frontend, msgs: History, pending: seq<ToolCall>, result: string)
    requires pending != []
    ensures var o := ResumeTurn(a, msgs, pending, result);
            var k, n := |msgs| + 1, |o.msgs| - |msgs|;
            && msgs <= o.msgs && |o.msgs| >= k
            && o.msgs[|msgs|] == Tool(pending[0].name, a.stored(msgs, result), pending[0])
            && (forall i :: k <= i < |o.msgs| ==> Recorded(a, f, o.msgs, i)) && ServerOnly(a, o.msgs, k)
            && match o
               case Failed(_) => true
               case Suspended(h, p) =>
                 p != [] && if n < |pending| then p == pending[n..] && Answers(h, |msgs|, pending, n)
                            else Answers(h, |msgs|, pending, |pending|) && AllServed(a, h, |msgs|, p)
               case _ => Answers(o.msgs, |msgs|, pending, |pending|) && AllServed(a, o.msgs, |msgs|, [])
  {
    var h := Answered(a, msgs, pending[0], result);
    ToolsRecord(a, f, h, pending[1..]);
    hide ProcessTools, ModelLoop, Recorded, Served, Answers, Grows, ServerOnly, AllServed;
    var t := ProcessTools(a, h, pending[1..]);
    PendingAnswered(a, f, msgs, h, t.msgs, pending);
    if t.Handled? {
      SegmentRecords(a, f, t.msgs, a.maxSteps);
      var o := ModelLoop(a, t.msgs, a.maxSteps);
      GrowsTrans(a, f, h, t.msgs, o.msgs);
      ServedTrans(a, f, h, t.msgs, o.msgs, if o.Suspended? then o.pending else []);
      GrowsAt(a, f, t.msgs, o.msgs);
      AnswersStay(t.msgs, o.msgs, |msgs|, pending, |pending|);
      PendingServed(a, o.msgs, |msgs|, pending, if o.Suspended? then o.pending else []);
    }
    GrowsAt(a, f, h, ResumeTurn(a, msgs, pending, result).msgs);
  }

  lemma PendingAnswered(a: Agent, f: Frontend, msgs: History, h: History, h': History, pending: seq<ToolCall>)
    requires pending != [] && |h| == |msgs| + 1 && msgs <= h && h[|msgs|].Tool? && h[|msgs|].answers == pending[0]
    requires Grows(a, f, h, h') && Answers(h', |h|, pending[1..], |h'| - |h|)
    ensures Answers(h', |msgs|, pending, |h'| - |msgs|) && AllServed(a, h', |h|, []) && msgs <= h'
    ensures |h'| - |msgs| <= |pending| && pending[1..][|h'| - |h|..] == pending[|h'| - |msgs|..]
  {
    hide Recorded;
    assert h'[|msgs|] == h[|msgs|];
    AnswersOneMore(h', |msgs|, pending, |h'| - |h|);
  }

  lemma PendingServed(a: Agent, h: History, k: nat, pending: seq<ToolCall>, p: seq<ToolCall>)
    requires pending != [] && Answers(h, k, pending, |pending|)
    ensures AllServed(a, h, k + 1, p) ==> AllServed(a, h, k, p)
    ensures |pending| <= |h| - k
  {
    hide Served;
  }

  lemma GrowsAt(a: Agent, f: Frontend, msgs: History, h: History)
    requires Grows(a, f, msgs, h)
    ensures msgs <= h && (forall i :: |msgs| <= i < |h| ==> Recorded(a, f, h, i))
    ensures forall i :: 0 <= i < |msgs| ==> h[i] == msgs[i]
  {
    hide Recorded;
  }

  lemma AnswersStay(h: History, h': History, i: nat, calls: seq<ToolCall>, n: nat)
    requires h <= h' && Answers(h, i, calls, n)
    ensures Answers(h', i, calls, n)
  {
  }

  /** In the uninterrupted loop every result is where its tool, or the frontend, produced it. */
  lemma {:induction false} InlineRecords(a: Agent, f: Frontend, msgs: History, k: nat)
    ensures Grows(a, f, msgs, InlineLoop(a, f, msgs, k).msgs)
    decreases k
  {
    if k > 0 {
      AskRecords(a, f, msgs);
      match Ask(a, msgs)
      case (h, None) =>
      case (h, Some(r)) =>
        if r.calls != [] {
          InlineToolsRecord(a, f, h, r.calls);
          var t := InlineTools(a, f, h, r.calls);
          hide InlineTools, Recorded, Ask;
          GrowsTrans(a, f, msgs, h, t.msgs);
          if t.Handled? {
            InlineRecords(a, f, t.msgs, k - 1);
            GrowsTrans(a, f, msgs, t.msgs, InlineLoop(a, f, t.msgs, k - 1).msgs);
          }
        }
    }
  }

  lemma {:induction false} InlineToolsRecord(a: Agent, f: Frontend, msgs: History, tcs: seq<ToolCall>)
    ensures Grows(a, f, msgs, InlineTools(a, f, msgs, tcs).msgs)
    decreases |tcs|
  {
    if tcs != [] {
      var tc := tcs[0];
      var h := Answered(a, msgs, tc, if a.clientSide(tc.name) then f(msgs, tc) else a.exec(msgs, tc));
      assert h[..|msgs|] == msgs;
      InlineToolsRecord(a, f, h, tcs[1..]);
      if Recorded(a, f, h, |msgs|) { GrowsTrans(a, f, msgs, h, InlineTools(a, f, h, tcs[1..]).msgs); }
    }
  }

  /** Every history sent to the model continues the segment's first one. */
  lemma {:induction false} ConsultedGrow(a: Agent, f: Frontend, msgs: History, steps: nat)
    ensures forall h :: h in Consulted(a, msgs, steps) ==> Grows(a, f, msgs, h)
    decreases steps
  {
    if steps > 0 && a.emit(msgs, ModelCall) {
      StepRecords(a, f, msgs);
      SegmentOver(a, f, msgs);
      if Goes(a, msgs).Some? {
        var next := Goes(a, msgs).value;
        hide Goes, Grows, ServerOnly, AllServed;
        ConsultedGrow(a, f, next, steps - 1);
        forall h | h in Consulted(a, next, steps - 1) ensures Grows(a, f, msgs, h) {
          GrowsTrans(a, f, msgs, next, h);
        }
      }
    }
  }

  /** A turn fails only when the model or the stream does, and with the history from then. */
  ghost predicate Faulted(a: Agent, h: History) { a.chat(h).None? || exists e :: !a.emit(h, e) }

  lemma {:induction false} FailsForAReason(a: Agent, msgs: History, steps: nat)
    ensures ModelLoop(a, msgs, steps).Failed? ==> Faulted(a, ModelLoop(a, msgs, steps).msgs)
    decreases steps
  {
    if steps > 0 {
      LoopStep(a, msgs, steps);
      StepFaults(a, msgs);
      hide ModelLoop, Goes, Ends, Faulted;
      if Goes(a, msgs).Some? { FailsForAReason(a, Goes(a, msgs).value, steps - 1); }
    }
  }

  lemma StepFaults(a: Agent, msgs: History)
    ensures Goes(a, msgs).None? && Ends(a, msgs).Failed? ==> Faulted(a, Ends(a, msgs).msgs)
  {
    hide ProcessTools;
    match Ask(a, msgs)
    case (h, None) =>
      assert !a.emit(h, ModelCall) || a.chat(h).None? || !a.emit(h, Thinking) || !a.emit(h, Answer);
    case (h, Some(r)) => ToolsFault(a, h, r.calls);
  }

  lemma {:induction false} ToolsFault(a: Agent, msgs: History, tcs: seq<ToolCall>)
    ensures ProcessTools(a, msgs, tcs).Broken? ==> Faulted(a, ProcessTools(a, msgs, tcs).msgs)
    decreases |tcs|
  {
    if tcs != [] && !a.clientSide(tcs[0].name) && a.emit(msgs, ToolStarted(tcs[0])) && a.emit(msgs, ToolEnded(tcs[0])) {
      ToolsFault(a, Answered(a, msgs, tcs[0], a.exec(msgs, tcs[0])), tcs[1..]);
    }
  }

  lemma ResumeFailsForAReason(a: Agent, msgs: History, pending: seq<ToolCall>, result: string)
    ensures var o := ResumeTurn(a, msgs, pending, result);
            o.Failed? ==> pending == [] || Faulted(a, o.msgs)
  {
    hide ProcessTools, ModelLoop, Faulted;
    if pending != [] {
      var h := Answered(a, msgs, pending[0], result);
      ToolsFault(a, h, pending[1..]);
      var t := ProcessTools(a, h, pending[1..]);
      if t.Handled? { FailsForAReason(a, t.msgs, a.maxSteps); }
    }
  }

  /** A segment asks the model at most maxSteps times, and gives up only after that many. */
  lemma {:induction false} StepBudget(a: Agent, msgs: History, steps: nat)
    ensures |Consulted(a, msgs, steps)| <= steps
    ensures ModelLoop(a, msgs, steps).Exhausted? ==> |Consulted(a, msgs, steps)| == steps
    decreases steps
  {
    if steps > 0 {
      LoopStep(a, msgs, steps);
      SilentEnds(a, msgs);
      EndsNotExhausted(a, msgs);
      hide Goes, Ends, ModelLoop;
      if Goes(a, msgs).Some? { StepBudget(a, Goes(a, msgs).value, steps - 1); }
    } else {
      LoopOver(a, msgs);
    }
  }

  lemma EndsNotExhausted(a: Agent, msgs: History)
    ensures Goes(a, msgs).None? ==> !Ends(a, msgs).Exhausted?
  {
  }
}
