# Convergence machinery, verified

kscale drives a fleet of nodes from declared state: a container engine on each node, a controller
that starts and stops dataplanes, a pipeline that ships objects into slots, a monitoring agent that
talks, and the certificate authority, names and schemas they rely on. This project models those
parts and proves what they promise. External parties (the container runtime, slot loaders, the
southbound call, the language model, storage, the clock) are free to answer or fail as they like;
a section under a lock is one step.

`dafny verify dfyconfig.toml` checks everything. One file, one module:

- `Text`: Go's string helpers, as far as the rest uses them.
- `SpecHash`: specs, their validation, and the byte stream behind the drift hash, with a decoder.
- `Runtime`, `Workload`: the node and the engine's Apply and Converge. The node's log records every
  call and every question with its outcome; `Obeys` says what a converge must have listed and found
  out before a call may touch a desired name, `Thorough` what it may not leave out, `Faultless` that
  nothing failed, `Converged` what is reached when the runtime fails at nothing (`calm`).
- `Pulls`: background image pulls as a state machine of requests, slots, completions and wake-ups.
- `ToolLoop`, `Chat`: a turn that suspends at client-side tools against a loop that is handed the
  results in place; sessions, trimming, and positional call ids.
- `Objects`, `DpObject`: the agent's content-addressed slots, and the control plane's selection and
  push, end to end. Among the files an agent is ever sent (`known`), 16 digits of the digest and the
  name are taken to determine the content.
- `NodeRun`, `NodeEpochs`: the run-state controller with its status board; then whole runs of the
  controller and one agent whose status reports lag and whose pushes take time. Honest reports come
  in order; a declaration changes its desired run-state only with its generation, as its one writer
  does (`service/expectednode/runstate.go:18-40`).
- `LogBuf`: log fan-out over channels that drop, and the filtered tail.
- `Names`, `Authority` (module `AuthorityTree`): printed names, the suffix test, parsing; the tree of linked nodes.
- `CA` (module `CertificateAuthority`): tokens, serials, the saved state, and restarts; what is granted
  when storage and saves do not fail is said with `reliable`, as for `Objects`.
- `ProtoSchema`, `ProtoScan`, `ProtoText`: wire numbering of the statistics schema and its
  compatibility check; the text it is printed as and the expressions it is read with.
- `AsyncPipe`: an unbounded pipe with a one-slot signal.

Where the code and its documentation or its callers' expectations differ, the model follows the code:

- A `ForceNext` is described as consumed by the push it enables. A push that fails does not consume
  it, and neither does a generation bump (`reconcile/node_run.go:147-192`); only a success or an
  observed convergence does. What holds is that each force lets at most one successful start past
  the gate (`NodeEpochs.EveryRunIsPaced`).
- A pass reads the clock once (`reconcile/node_run.go:180`), so a push that takes long eats into its
  own settle window and backoff. `NodeEpochs` proves that what fits the window together with the age
  of reports is safe, and gives a run for what does not.
- The settle window does not outlive a generation bump, and it does not cover a first push that fails
  and yet changes the agent, as l4lb's Stop can; `NodeEpochs` gives a run for each.
- `SaveOrUpdateKeyPair` reports an error after a successful update, and does not save the state
  (`ca/ca.go:322-331`): the next restart is refused.
- `UpdateCertificate` returns the authority's own counter as the serial: one past the certificate's.
- Creating an authority that exists succeeds and returns what is there
  (`service/userhierarchyauthority/handlers.go:31-46` expects a failure).
- A `Send` on a suspended session is not refused; `Chat.SendWhileSuspended` says exactly when it does
  harm.
- `ReadNonblocking` with an empty buffer reports end of file on a closed pipe that still holds bytes.
- The printer accepts names the compatibility check cannot read back, such as a category "foo-bar".
- The compatibility check looks past `optional` and `repeated`: a change between them is not a change
  of type to it.

## Model

| member | source | states |
|---|---|---|
| SpecHash.ParsePorts | workload/workload.go:86-103 | accepts a list exactly when every entry is a TCP port in range, and returns their parses in order |
| SpecHash.ParseVolumes | workload/volume.go:48-72 | accepts a list exactly when every entry is a named volume at a clean absolute path with an optional mode |
| SpecHash.ValidateDevices | workload/device.go:33-45 | true exactly when every entry is a CDI name and none is listed twice |
| SpecHash.Validate | workload/workload.go:108-131 | true exactly for specs without host mounts, with well-formed volumes and devices, a known network, and ports only on the pod network |
| SpecHash.PortGrammar | workload/workload.go:86-103 | a port parses exactly when it is "tcp:" and a decimal number from 1 to 65535, to that number |
| SpecHash.VolumeGrammar | workload/volume.go:48-72 | a volume parses exactly when it is name:path or name:path:ro, read-only exactly in the second form |
| SpecHash.DeviceGrammar | workload/device.go:23-45 | a device name is accepted exactly when it is vendor/class=name of the allowed characters |
| SpecHash.ValidGrammar | workload/workload.go:108-131 | a spec is valid exactly when it has no host mounts, only such volumes and devices, no device twice, and the node's network without ports or the pod network with such ports |
| SpecHash.Hash | workload/workload.go:505-537 | writes the framed groups, optional ones only when set, in the order the decoder reads them back |
| SpecHash.UnframeFrame | workload/workload.go:505-537 | the framing alone is uniquely readable on parts without a NUL inside or a group mark in front |
| SpecHash.DecodeStream | workload/workload.go:505-537 | the stream of a valid spec decodes to every hashed field if and only if its free-form fields survive the framing |
| SpecHash.HashIdentifiesSpec | workload/workload.go:505-537 | two valid framable specs feed equal streams to the hash exactly when they agree in everything but the name |
| SpecHash.CollisionWithoutValidation | workload/workload.go:505-537 | without Validate two different specs collide: a network named like the device tag |
| SpecHash.CollisionOnNul | workload/workload.go:505-537 | without the framing condition two different valid specs collide: a NUL inside an argument |
| Runtime.Node.EnsureVolumes | workload/volume.go:80-111 | success means every volume asked for is a plain directory, and only then is it reported ready; existing entries are never changed; a symlink or file is refused |
| Runtime.Node.RunSandbox | workload/workload.go:46-59 | the runtime's side: a new sandbox, or a failure that may still have made it; the call is logged with its outcome |
| Runtime.Node.CreateContainer | workload/workload.go:46-59 | the runtime's side: a new container in an existing sandbox, or a failure that may still have made it; the engine asks only for a sandbox of the container's name on the network its spec names |
| Runtime.CreateCtrGood | workload/workload.go:330-345 | a container created where its name has none keeps one object per name |
| Workload.Engine.TeardownContainer | workload/workload.go:385-393 | a stop and, only if it went well, a removal; success leaves no container of the name |
| Workload.Engine.TeardownSandbox | workload/workload.go:395-403 | a stop and, only if it went well, a removal; success leaves no sandbox of the name |
| Workload.Engine.ImageReady | workload/pull.go:68-78 | the runtime's answer or its failure is logged; an absent image requests a background pull and nothing else |
| Workload.Engine.Clear | workload/workload.go:318-328 | success, which is that no call failed, leaves nothing under the name; all calls concern that name |
| Workload.Engine.Launch | workload/workload.go:330-370 | from an empty name: the sandbox on the network the spec names, the container in it, the start, in that order; a container that cannot be made takes its sandbox down again; succeeds exactly when no call failed, and without failures the desired container runs |
| Workload.Engine.Recreate | workload/workload.go:309-352 | no call precedes the spec's own volumes being found there; success exactly when nothing failed; without runtime failures nothing outside the name changes, and with usable volumes the name ends settled |
| Workload.Engine.Ensure | workload/workload.go:292-352 | every call is on the spec's name and justified (valid spec, image present, its volumes there); a matching running container causes no call, any other valid spec has its image asked for; success exactly when the spec is valid and nothing failed; without failures the name ends settled, and whatever happens under it the rest stays |
| Workload.Engine.Managed | workload/workload.go:220-246 | the listings by name are all there is under each name, and without failures exactly what is there |
| Workload.Engine.RemoveStaleCtrs | workload/workload.go:256-263 | a stop is tried for every listed container not desired, whatever failed before it, and no other call made; success exactly when none failed; without failures they are gone and the rest is untouched |
| Workload.Engine.RemoveStalePods | workload/workload.go:264-270 | the same for sandboxes |
| Workload.Engine.EnsureAll | workload/workload.go:272-277 | every call is safe by the listing whichever order the names come in; an error stops no other name: every valid spec not running is looked after, and without runtime failures every ready one settles however bad the others are |
| Workload.Engine.ConvergeLocked | workload/workload.go:248-284 | with any call failing, every call it makes is safe by what it listed itself and by the engine's desired set, and no error keeps it from the rest; it reports success exactly when every desired spec was valid and nothing it asked or called failed; without runtime failures everything stale goes and every ready spec runs, and on a converged node it makes no call at all |
| Workload.Engine.Apply | workload/workload.go:198-207 | the desired set becomes the last spec of each name; then as ConvergeLocked, by that set |
| Workload.Engine.Converge | workload/workload.go:212-216 | as ConvergeLocked; after a successful converge the next issues no call |
| Workload.Engine.Run | workload/workload.go:198-284 | over any script of Apply and Converge with a drifting, failing runtime: one object per name, and every call made in a step obeys the desired set the script has reached by then |
| Workload.TornDownOnlyWhenReady | workload/workload.go:292-328 | so a desired container is torn down only after its new spec was found valid, its image present and its volumes to be directories, and never when the listing of that converge showed it of that spec and running, or exited under a policy other than always |
| Workload.UndesiredOnlyGoesDown | workload/workload.go:255-270 | a name that is not desired is never given a sandbox, a container or a start |
| Workload.LastSpecWins | workload/workload.go:198-207 | the desired set has exactly the names given, each with the last spec of that name |
| Workload.ConvergeWhole | workload/workload.go:248-284 | the listings, the two removal loops and the ensure loop together are safe, leave nothing out, and are reported as they went |
| Workload.KeptRunsDesired | workload/workload.go:296-370 | on a converged node each desired name has a container that runs, or exited under a policy other than always, made from a spec equal to the desired one up to the name, in a sandbox of that name on exactly the network the spec names; or one made from an unframable spec |
| Workload.ConvergedIsKept | workload/workload.go:256-307 | on a converged node the listings contain nothing stale and only containers that may stay |
| Pulls.BackoffDoubles | workload/pull.go:125-126 | the capped shift equals min(10s * 2^(k-1), 5min) for every number k of failures |
| Pulls.AllRuns | workload/pull.go:80-154 | over every interleaving: one pull in flight per image, a pull's record survives until its own finishPull, the semaphore bounds and counts the running pulls |
| Pulls.BackoffFollowsStreak | workload/pull.go:116-154 | the failure count and retry time of an image are exactly its failures in a row and their backoff |
| Pulls.RetryWaits | workload/pull.go:80-94 | a request starts a pull exactly when none is running for the image and the backoff since the last failure is over |
| Pulls.NoLostWakeUp | workload/pull.go:129-136 | after a successful pull a wake-up is pending or about to be posted until one is received |
| Pulls.WakeUpsFollowSuccess | workload/pull.go:129-136 | every wake-up, pending or about to be posted, is that of a pull that succeeded before |
| Pulls.Puller.RequestPull | workload/pull.go:80-94 | performs the request step: a new in-flight record and one pulling goroutine, or nothing |
| Pulls.Puller.TakeSlot | workload/pull.go:98-100 | performs the step of a pull that gets its slot |
| Pulls.Puller.FinishPull | workload/pull.go:116-128 | performs the completion step |
| Pulls.Puller.GiveUp | workload/pull.go:101-103 | performs the step of a pull cancelled before it got a slot |
| Pulls.Puller.PrunePulls | workload/pull.go:142-154 | removes exactly the records that are neither in flight nor wanted |
| Pulls.Puller.Info | workload/pull.go:171-185 | pulling, failed with its retry time, or nothing, by the record |
| ToolLoop.RunProcessTools | nodewatch/loop.go:236-258 | runs server-side calls in order and stops at the first client-side one with it and the rest pending, as the function whose results SegmentRecords places in the history |
| ToolLoop.RunStep | nodewatch/loop.go:191-228 | one step of the loop: the outcome it returns, or the history it goes on with |
| ToolLoop.RunModelLoop | nodewatch/loop.go:190-230 | the segment from model call to answer, suspension, error or exhausted steps, and the histories it sent to the model |
| ToolLoop.RunResumeTurn | nodewatch/loop.go:171-187 | appends the frontend's result, finishes the pending calls, goes on with the model, as the function ResumeRecords is about |
| ToolLoop.SegmentRecords | nodewatch/loop.go:190-258 | a segment appends only model replies and server-side results, each the model's or the tool's answer to the history before it, stored; calls are answered in order before the model is asked again, and a suspension waits for exactly the rest of the last reply's calls |
| ToolLoop.ResumeRecords | nodewatch/loop.go:171-187 | a resume appends the stored form of its result as the answer to the call that was waited for, answers the other pending calls in order, then goes on like a segment |
| ToolLoop.InlineRecords | nodewatch/loop.go:171-258 | in the uninterrupted loop each client-side result is the stored form of what the frontend returned for that call on the history before it, each server-side one of what the tool did |
| ToolLoop.StepBudget | nodewatch/loop.go:190-230 | a segment asks the model at most maxSteps times and gives up only after that many |
| ToolLoop.FailsForAReason | nodewatch/loop.go:190-258 | a segment fails only when the model or the stream fails, and with the history from then |
| ToolLoop.ResumeFailsForAReason | nodewatch/loop.go:171-187 | a resume fails only for that, or with nothing pending |
| ToolLoop.ResumeRefines | nodewatch/loop.go:171-187 | one resume with the frontend's result continues exactly like the uninterrupted loop |
| ToolLoop.SuspendedTurnIsInline | nodewatch/loop.go:161-258 | a turn suspended and resumed to its end built the history of a loop handed the results in place, for any mix of calls |
| ToolLoop.InlineTurnIsSuspended | nodewatch/loop.go:161-258 | conversely, what the uninterrupted loop ends with, suspending and resuming ends with too, unless a segment exhausts its steps |
| Chat.CallIds | nodewatch/openai.go:103-133 | the ids of one message's calls are its position and theirs |
| Chat.ToOpenAIMessages | nodewatch/openai.go:103-133 | sends every message once, in order, tool results with the id the open queue gives them |
| Chat.ResultsClaimTheirCalls | nodewatch/openai.go:103-133 | in a well-formed history each tool result is sent with the id of exactly the call it answers; no orphan ids |
| Chat.ClaimedIdsDistinct | nodewatch/openai.go:103-133 | no two results are sent with the same id |
| Chat.WireKeepsPairs | nodewatch/openai.go:103-133 | on the wire every message keeps its content, and each result carries the very id its call was sent with, in the assistant message before it |
| Chat.TrimHistory | nodewatch/chat.go:228-241 | keeps a short history whole, else the system prompt and the suffix from the first user turn in range |
| Chat.TrimKeepsTurns | nodewatch/chat.go:228-241 | at most 40 messages: the system prompt and the longest such suffix that starts at a user turn, still well formed |
| Chat.SessionsStayGood | nodewatch/chat.go:110-191 | every session reached without a Send on a suspended one is well formed, and its pending calls are exactly the unanswered ones; each request meets whatever model, tools and clock it meets |
| Chat.SentHistoriesPair | nodewatch/openai.go:103-133 | in every history such a session sends to the model, at each consultation, each result is paired with its call under its own id |
| Chat.SendKeepsHistory | nodewatch/chat.go:110-191 | a Send consults the model with the conversation so far (or the system prompt) and the new message; a failed turn leaves the session as it was, a suspended one is stored whole with its pending calls, an ended one up to trimming |
| Chat.ResumeKeepsHistory | nodewatch/chat.go:141-191 | a Resume for the awaited tool clears it, keeps the history and continues it with the result; any other Resume changes nothing |
| Chat.SendWhileSuspended | nodewatch/chat.go:110-130 | a Send on a suspended session keeps it sound if and only if its turn is not stored as ended |
| Chat.SendWhileSuspendedOrphans | nodewatch/chat.go:110-191 | a concrete run in which a Send while suspended makes a later result go out under an orphan id |
| Chat.ChatServer.Touch | nodewatch/chat.go:202-223 | finds or creates the session, makes it the most recent keeping the others' order, drops only the least recent and only for a new id |
| Chat.ChatServer.SendTo | nodewatch/chat.go:110-130 | changes the addressed session by one Send; no other changes, and only the least recent may go, for a new id on a full server |
| Chat.ChatServer.ResumeTo | nodewatch/chat.go:141-165 | accepted exactly when the session waits for that tool; changes the addressed session by one Resume; the others as with SendTo |
| Objects.SetAt | dataplane/objects.go:136-157 | each declared file is in the resolved set under its role with its own name and digest |
| Objects.ObjectManager.ValidateSet | dataplane/objects.go:136-157 | accepts exactly the nonempty sets with named, distinct roles and plain file names, and resolves each file's digest |
| Objects.EntriesAreFlat | dataplane/objects.go:136-157 | the entries of an accepted set lie directly in the directory |
| Objects.SameSet | dataplane/objects.go:159-169 | true exactly when the two sets are equal |
| Objects.WriteKeepsBacked | dataplane/objects.go:121-127 | writing a file under its content address leaves every running set backed exactly when none has other bytes under that address; otherwise a running file is overwritten |
| Objects.SomeDigestTells | dataplane/objects.go:151-156 | the assumption on digests can be met, by a digest and a request of two sets whose files share a name |
| Objects.KnownFilesDoNotClash | dataplane/objects.go:35-45 | where a digest prefix and a name determine the content, among the files the agent is sent, no write clashes with a running file |
| Objects.ObjectManager.WriteFile | dataplane/objects.go:121-127 | on success the entry holds the content; no other entry changes; what runs stays backed |
| Objects.ObjectManager.Load | dataplane/objects.go:128-131 | a successful load switches the slot to exactly the written files and records it; a failed one changes nothing |
| Objects.ObjectManager.SyncSlot | dataplane/objects.go:96-134 | changes only the slot of an accepted object, to exactly its set; no load when it already runs it |
| Objects.ObjectManager.UnloadOthers | dataplane/objects.go:79-89 | undeclared slots are unloaded unless their unload fails; declared ones stay |
| Objects.ObjectManager.Collect | dataplane/objects.go:171-197 | never removes a referenced file; without errors leaves exactly the referenced ones |
| Objects.ObjectManager.Sync | dataplane/objects.go:58-94 | with any write, load, unload or removal failing: running sets stay on disk with their bytes and are what is recorded; accepted slots get their set, refused ones keep theirs, undeclared ones go; success means all were accepted; settled sets load nothing |
| Objects.RecordedIsRunning | dataplane/objects.go:44-53 | a slot whose record is a set runs exactly that set's contents |
| Objects.SyncSlotProgresses | dataplane/objects.go:74-78 | syncing one more object leaves every other slot as the loop had it |
| Objects.UnloadSyncs | dataplane/objects.go:74-89 | the slot loop and the unload loop together give the outcome of a whole sync |
| DpObject.SelectorScores | dpbroker/broker.go:171-207 | a node is named by exactly its label, its type and label, and its full name; the group selectors keep their own rank |
| DpObject.DpObjectsForNode | reconcile/dp_object.go:64-96 | succeeds exactly when every slot with a match has a unique most specific one, and returns exactly the winners |
| DpObject.BestStep | reconcile/dp_object.go:72-85 | one more item keeps, per slot, a leader among the items so far and whether it is alone |
| DpObject.OrderDoesNotMatter | reconcile/dp_object.go:64-96 | reordering the entries changes neither whether the selection succeeds nor what it selects |
| DpObject.WinsIsOrderFree | reconcile/dp_object.go:64-96 | being the winner depends on the bag of entries alone |
| DpObject.BuildSyncObjects | reconcile/dp_object.go:100-130 | succeeds exactly when every line of every selected entry asks for a file the store has; then declares each selected slot once, each file under the role before the first "=" of its line, with the name after it and the content stored under that name |
| DpObject.Push | reconcile/dp_object.go:37-56 | sends exactly when every slot is decided and readable; after an error-free push exactly the decided slots run, each under every role its winner's lines name what the store has under the line's file name and nothing else, whatever failed before; a lost call changes nothing; repeating it loads nothing |
| DpObject.ConvergedServes | reconcile/dp_object.go:100-130 | on a converged agent each winner's slot runs, under exactly the roles its lines name, what the store has under the named files |
| DpObject.SyncConverges | reconcile/dp_object.go:37-56 | a sync without errors of the built request makes each slot run its winner's contents and unloads all others |
| DpObject.RequestsAccepted | reconcile/dp_object.go:100-130 | the agent accepts the request exactly when it has every slot and every winner's file set is valid |
| DpObject.DpObjectReferences | reconcile/dp_object.go:134-147 | exactly the names of the entries with a line "<role>=<name>" for the file |
| DpObject.UnreferencedUploadChangesNothing | reconcile/dp_object.go:57-62 | re-uploading a file no entry references changes no push, so skipping it misses nothing |
| NodeRun.Status.ClearNode | reconcile/status.go:47-55 | drops exactly that node's entries, so its gate opens |
| NodeRun.Status.ErrorsForNodeExcept | reconcile/status.go:63-78 | exactly the other resources whose last push to the node failed, so the gate is closed exactly when there is one |
| NodeRun.BackoffSeconds | reconcile/node_run.go:282-285 | the delays are 5, 10, 20, 40, 80, 160 seconds, and 300 from the seventh failure on |
| NodeRun.NodeRunController.PushDue | reconcile/node_run.go:247-255 | due exactly when not held, past the backoff and past the settle window |
| NodeRun.NodeRunController.PushLocked | reconcile/node_run.go:260-289 | the bookkeeping, the status and the one southbound call of a push |
| NodeRun.NodeRunController.ForceNext | reconcile/node_run.go:147-151 | marks the node's next push, and nothing else |
| NodeRun.NodeRunController.Reset | reconcile/node_run.go:153-157 | a reconnected node starts with fresh bookkeeping |
| NodeRun.NodeRunController.Forget | reconcile/node_run.go:159-163 | a disconnected node's bookkeeping is gone |
| NodeRun.NodeRunController.Evaluate | reconcile/node_run.go:177-232 | one pass visits the declarations in order with the bookkeeping, status and calls each requires |
| NodeEpochs.OthersDoNotInterfere | reconcile/node_run.go:177-232 | declarations of other nodes touch neither a node's bookkeeping nor its gate |
| NodeEpochs.PassIsPerNode | reconcile/node_run.go:177-232 | a pass moves every declared node by its own evaluation against the status board as it was before the pass |
| NodeEpochs.PassPushes | reconcile/node_run.go:176-232 | a pass pushes to a declared node exactly when it is connected, reported away from its declared state and neither held, backing off nor settling since its declaration, a start moreover only without another resource's error or by force; and records success or failure accordingly or leaves the record |
| NodeEpochs.OthersAgree | reconcile/node_run.go:176-232 | a node nobody declares is pushed to by no pass |
| NodeEpochs.EveryRunIsPaced | reconcile/node_run.go:177-289 | in every run: the pass of a later push begins at least min(5 * 2^(k-1), 300) seconds after that of the k-th failure in a row, ten after that of a success; held exactly at the fifth failure; no unforced start past another resource's error; at most one successful override per force |
| NodeEpochs.PushesExactlyWhenDue | reconcile/node_run.go:176-255 | in every run an evaluation sends the declared start or stop exactly when it observes the node away from its declared state, fewer than five pushes in a row have failed, every push of the epoch has been waited out, and it is a stop, or nothing else is in error, or a force is pending; otherwise it sends none |
| NodeEpochs.RetriesWait | reconcile/node_run.go:180-286 | from the return of a push to the next one going out it is that delay less the time since its pass began, and never negative |
| NodeEpochs.SlowFailureIsRetriedAtOnce | reconcile/node_run.go:180-286 | a run in which a start that takes six seconds to fail is sent again the moment it has failed |
| NodeEpochs.AtMostFiveTries | reconcile/node_run.go:270-281 | without a success or observed convergence at most five pushes are tried in an epoch |
| NodeEpochs.EveryPushIsNeeded | reconcile/node_run.go:177-289 | if report age and push duration fit the settle window together and failed pushes leave the agent as it was, no start reaches a running agent and no stop one that is not running |
| NodeEpochs.WastedExactlyAfterBotch | reconcile/node_run.go:177-289 | under the same bound a push of an epoch is wasted if and only if it is the second and the first, though it failed, changed the agent |
| NodeEpochs.SettleWindowIsExact | reconcile/node_run.go:52-56 | honest reports and clean pushes waste nothing if and only if the greatest report age and push duration together are at most the settle window |
| NodeEpochs.SlowPushesAreWasted | reconcile/node_run.go:245-270 | beyond the bound there is such a run: a start that lands late is followed by one that reaches a running agent |
| NodeEpochs.BotchedStopIsRepeated | l4lb/control/controller.go:397-409 | the l4lb agent's Stop changes its state even when it fails: a run in which the retry stops a stopped agent |
| NodeEpochs.BumpForgetsTheSettleWindow | reconcile/node_run.go:187-192 | a run in which a generation bump makes the controller start a running agent on a report from before the bump |
| LogBuf.OfferDelivers | logbuf/logbuf.go:133-147 | offering the next record keeps delivery in order, duplicate-free and accounted for, whether queued or dropped |
| LogBuf.BacklogDelivers | logbuf/logbuf.go:96-112 | a new subscription starts in order with the newest two hundred records |
| LogBuf.NewestIsFull | logbuf/logbuf.go:133-147 | the ring holds everything up to two hundred records, then the newest two hundred |
| LogBuf.ExactUnlessFull | logbuf/logbuf.go:96-147 | received plus queued is everything offered exactly when nothing was dropped |
| LogBuf.Buffer.Subscribe | logbuf/logbuf.go:96-112 | the new queue is the retained backlog, the subscription live from there on |
| LogBuf.Buffer.Dispatch | logbuf/logbuf.go:133-147 | every live subscriber with room, and no other channel, gets the record at the end of its queue; a full one drops it and counts it; no send on a closed channel |
| LogBuf.Buffer.Delete | logbuf/logbuf.go:113-118 | the first unsubscribe takes the subscription out, so no dispatch reaches the channel; later ones do nothing |
| LogBuf.Buffer.Close | logbuf/logbuf.go:119-121 | the call that was let through closes an open channel, once; what is queued can still be received |
| LogBuf.Buffer.Receive | logbuf/logbuf.go:93-122 | takes the oldest queued record; a closed channel ends only when drained |
| LogBuf.FilterInPlace | logbuf/tail.go:17-26 | the in-place filter leaves exactly the matching records, in order, at the front |
| LogBuf.Buffer.Tail | logbuf/tail.go:12-31 | the last n matches of the retained records |
| LogBuf.MatchingPositions | logbuf/tail.go:17-26 | the matches sit at increasing positions and none is left out |
| LogBuf.TailIsNewest | logbuf/tail.go:12-31 | the result are the newest matches: none newer is missing, and all are there if fewer than asked for |
| LogBuf.MatchMeans | logbuf/tail.go:12-45 | a record matches exactly when its level is high enough and the text asked for is part of its message or of some key or value |
| Names.CommonName | access/types.go:112-121 | the names in reverse, joined with dots |
| Names.PrintInjective | access/types.go:112-121 | printed names tell the nodes of a tree apart |
| Names.SuffixIsDescent | access/user.go:70-77 | one node's printed name ends with a dot and another's exactly when the first is a proper descendant, for dot-free labels under any root name |
| Names.DottedLabelsBreakDescent | access/user.go:70-77 | with a dot inside a label the test accepts an unrelated node |
| Names.ReverseInPlace | access/types.go:137 | the slice is reversed |
| Names.ParseCommonNameToFullNameStrict | access/types.go:123-141 | parses exactly as the function the round trips are about |
| Names.LowerTable | access/types.go:123-141 | names are compared after each capital is replaced by its small letter and nothing else |
| Names.AcceptedPrintsBack | access/types.go:123-141 | every accepted name prints back to its lower-cased self |
| Names.ParsePrinted | access/types.go:112-141 | strict parsing undoes printing for lower-case dot-free labels, except for the root and a nameless child, which it refuses |
| Names.DomainIsOptional | access/types.go:143-152 | leaving the domain off means the same node exactly when the name does not itself end in the domain |
| AuthorityTree.PrefixClosed | access/authority.go:182-192 | in a well-formed tree every prefix of a path is a node and no proper prefix a leaf |
| AuthorityTree.GrownIsWellFormed | access/authority.go:194-234 | adding a path with its missing ancestors keeps children only under non-leaves |
| AuthorityTree.RemoveUndoesCreate | access/authority.go:210-247 | removing a just created child restores the tree, and it is removable |
| AuthorityTree.RootAuthority.FullName | access/authority.go:111-118 | the root's name followed by the node's path |
| AuthorityTree.RootAuthority.GetDescendant | access/authority.go:182-192 | finds a node exactly when the path is one, and that node |
| AuthorityTree.RootAuthority.CreateChild | access/authority.go:52-164 | adds one node under its parent and keeps the tree linked; refused exactly on a leaf or for a taken name, then changing nothing |
| AuthorityTree.RootAuthority.CreateDescendant | access/authority.go:194-208 | all or nothing: fails exactly when a leaf is on the way, then changing nothing; else adds exactly the missing prefixes as non-leaves |
| AuthorityTree.RootAuthority.CreateLeafDescendant | access/authority.go:210-234 | the same with a leaf at the end, and failing also when ancestors are missing and may not be made |
| AuthorityTree.RootAuthority.RemoveChild | access/authority.go:98-109 | removes the child exactly when it is there and has no children |
| AuthorityTree.RootAuthority.RemoveDescendant | access/authority.go:236-247 | removes exactly that node, exactly when it is a childless node other than the root |
| AuthorityTree.RootAuthority.Resolve | service/userhierarchyauthority/handlers.go:57-64 | finds a node exactly when the name parses strictly to its path |
| AuthorityTree.RootAuthority.PrintThenResolve | access/authority.go:111-192 | resolving a node's printed name returns that node, for lower-case dot-free labels |
| AuthorityTree.RootAuthority.EndsWithDotted | access/user.go:40-77 | the suffix test on two nodes' printed names is descent in the tree |
| CertificateAuthority.CA.SaveCAState | ca/ca.go:153-163 | the saved state becomes the current serial and counter, or stays; it never comes to promise a used serial |
| CertificateAuthority.CA.IssueCertificate | ca/ca.go:542-572 | a released certificate has exactly the fields asked for and a serial above all before it, is the one that verifies for its name, and its state is saved; an existing name gets none; without failures every other valid request gets one |
| CertificateAuthority.CA.UpdateCertificate | ca/ca.go:513-540 | a renewal replaces the name's serial by a new one and no other; the number it returns is one past the certificate's, for it is the counter itself; without failures every stored name is renewed |
| CertificateAuthority.CA.RevokeCertificate | ca/ca.go:298-309 | afterwards no certificate of the name verifies; none starts to verify; nothing else changes, and without failures it succeeds exactly for a stored name |
| CertificateAuthority.CA.DeleteExpired | ca/ca.go:637-646 | removes only expired names, and all of them on success, which only a failure prevents |
| CertificateAuthority.CA.MutateOther | ca/ca.go:335-351 | other storage changes leave the certificates and the serial protocol intact; on success a restart would be accepted |
| CertificateAuthority.CA.SaveOrUpdateKeyPair | ca/ca.go:312-333 | updating an existing key pair always ends in an error with the state not saved, so a restart is refused until another change is saved |
| CertificateAuthority.CA.VerifyCertificate | ca/ca.go:574-605 | accepts exactly when the signature checks pass and the storage holds this serial for the name |
| CertificateAuthority.OneVerifies | ca/ca.go:596-604 | of the certificates ever released for a name at most one verifies |
| CertificateAuthority.CA.UpdateHandshake | ca/ca.go:750-816 | renews only an ed25519 request with a good signature whose name is still stored, for exactly the key it carries; without failures every such request |
| CertificateAuthority.CA.GenerateBootstrapToken | ca/ca.go:607-623 | the new token is open with its terms |
| CertificateAuthority.CA.RevokeBootstrapToken | ca/ca.go:291-296 | the token is gone, used or not |
| CertificateAuthority.CA.DeleteExpiredBootstrapTokens | ca/ca.go:625-635 | drops exactly the expired tokens |
| CertificateAuthority.CA.TakeToken | ca/ca.go:674-683 | spends the token in any case; the handshake goes on exactly when it was open and not expired |
| CertificateAuthority.CA.FinishBootstrap | ca/ca.go:684-747 | grants at most one certificate per token over all interleavings, only to a request that is signed, has an ed25519 key, a valid name below the token's suffix and the token's own application, and then for exactly that name and key; without failures every such request for a new name is granted |
| CertificateAuthority.CA.Restart | ca/ca.go:165-212 | accepted exactly when nothing changed since the last save and the CA key pair is the saved one and loads; then resumes above every stored and released serial with no tokens |
| ProtoSchema.Compare | script/check_proto_compat.py:78-101 | reports exactly the retyped, moved and renumbered as errors and the renamed and removed as warnings |
| ProtoSchema.NoErrorIffCompatible | script/check_proto_compat.py:78-101 | no error exactly when every surviving number keeps its type and every surviving name its number |
| ProtoSchema.SilentIffExtends | script/check_proto_compat.py:78-101 | nothing reported exactly when the new schema only adds |
| ProtoScan.Parse | script/check_proto_compat.py:36-67 | folds the text's lines, matched character by character, over the container stack as the function the round trip is about |
| ProtoScan.DeclScans | script/check_proto_compat.py:31-33 | on a printed field with a word for a name and a well-formed type FIELD finds exactly the field and its number, and neither BLOCK nor ENUM_VALUE matches |
| ProtoScan.ValueScans | script/check_proto_compat.py:32 | an enum value is found with its number, negative ones too |
| ProtoSchema.ParseNested | script/check_proto_compat.py:36-67 | at any nesting a field is recorded under the path of the blocks around it, a oneof's under its message's, a value under its enum, and nothing else is |
| ProtoText.PrintMetrics | script/metrics.py:513-546 | fields are numbered from one without gaps, expanded structs inline; refuses presence on repeated non-strings |
| ProtoText.PrintStats | script/metrics.py:547-578 | leading categories, common_name, dp_type, then the appended ones, numbered in that order; refuses unknown appended names |
| ProtoText.ProcessProtoSchema | script/metrics.py:503-579 | prints the whole schema, or refuses exactly the two invalid kinds of input |
| ProtoText.PrefixSays | script/metrics.py:529-545 | a metric's line says "optional" exactly for a single value with presence, "repeated" exactly for a list without, and the list message exactly for both |
| ProtoSchema.StatsNumbering | script/metrics.py:557-579 | Stats numbers the leading categories from one in order, then common_name and dp_type, then the appended ones in order, and nothing else |
| ProtoSchema.CategoryNumbering | script/metrics.py:513-546 | a category numbers its metrics from one in order, a flagged struct one number for each of its fields, a repeated text with presence as a list message |
| ProtoSchema.CamelWords | script/metrics.py:1-13 | a message name is its words run together, each with its first letter raised |
| ProtoText.ParseUndoesPrint | script/metrics.py:503-579 | for names and types the expressions can find, parsing the printed text recovers exactly the numbering the printer assigned |
| ProtoText.RoundTripIffShaped | script/check_proto_compat.py:31-67 | and only for those: the round trip holds if and only if field names are words, types dotted names or map types without comment marks, and message names dotted names |
| ProtoText.HyphenLosesItsNumber | script/check_proto_compat.py:31 | a category "foo-bar" is printed, but its field is not found again |
| ProtoText.PrintedGrowthIsSilent | script/metrics.py:550-579 | the comparison of two printed texts reports nothing when the schema grew at its ends |
| ProtoSchema.GrowthIsSilent | script/metrics.py:557-579 | growing messages at their ends and adding nested or appended categories yields no error and no warning |
| ProtoSchema.InsertionIsReported | script/metrics.py:557-573 | a category that is neither nested nor appended is reported as an error wherever it is inserted |
| ProtoSchema.LeadingCountIsPinned | script/metrics.py:557-573 | more generally, any change of the number of categories before common_name is |
| AsyncPipe.Pipe.Write | util/async_pipe.go:37-46 | accepts the bytes and leaves a signal, or refuses after a close |
| AsyncPipe.Pipe.Close | util/async_pipe.go:22-28 | closed, with a signal pending |
| AsyncPipe.Pipe.ReadNonblocking | util/async_pipe.go:48-61 | delivers a prefix of the buffer; end of file exactly when closed and nothing is left (or the caller's buffer is empty) |
| AsyncPipe.Pipe.Read | util/async_pipe.go:67-75 | under any interleaving: ends with bytes or a true end of file, and is left waiting only when there is nothing to read and no close |

## Left out

- Transport, handshake cryptography, x509, the runtime's wire protocol, and generated dispatch.
- Digests: `specHash` is its input stream (equal hashes as equal streams).
- Workload listing and endpoints, sandbox readiness, log paths and CNI details of the sandbox config; items without metadata, which the engine skips.
- Workload and pulls meet at the request only: the engine's log says a pull was requested, `Pulls` says what becomes of it; the prune at the end of a converge is a step of `Pulls` that may come at any time.
- Chat turns of different sessions running at the same time, and an eviction of a session whose turn is still running; timestamps and prompts inside messages; printing of call ids, which are pairs of positions.
- Stream assembly of model replies in `nodewatch/openai.go`.
- Objects.ObjectManager.WriteFile: a failed write may leave a temporary file but never a half-written entry, as its rename is atomic.
- The order in which maps are walked: loops over maps take names in any order, which covers every order the code can take, the sorted one of `buildSyncObjects` included.
- NodeRun.Status.ErrorsForNodeExcept: the messages and their sorting, and the times; only which resources are in error.
- Volumes are taken to stay once they are there: nothing removes directories from the volume root.
- NodeEpochs.EveryPushIsNeeded: assumes the agent changes state only through pushes; an agent that starts or dies on its own begins a new epoch only when it reconnects. A node removed and declared again under its old generation number with another run-state is not covered.
- Log handlers, groups and attribute flattening; `LogBuf` receives on an empty open channel are not steps, since they block.
- Names beyond ASCII: lower-casing is the ASCII one.
- Removal racing with creation in the authority tree, which the code does not make atomic; each tree operation is one step.
- CertificateAuthority.CA.SaveCAState: storage that reports an error is taken not to have saved a certificate, and the state file is taken to be replaced whole or not at all; migration of the storage is not modelled.
- CertificateAuthority.CA.UpdateHandshake: starts after the old certificate was verified; the validity period of the renewal is not modelled.
- ProtoScan.Parse: character classes are the ASCII ones; a two-character line break counts as two, with an empty line between, which the parser skips.
- ProtoText.ProcessProtoSchema: the comments and the package path are cut short; how a metric's type is derived and struct files are read is not modelled, their results are inputs.
- ProtoText.RoundTripIffShaped: a brace inside a map type is excluded, and so is a category without fields; both only matter to which lines close a block.
- The pipe with several readers, for which the one-slot signal is not enough.
- Policy evaluation, peering and port-route pushers, alerts, the agent registry, broker membership: easier, or built of the same parts.
